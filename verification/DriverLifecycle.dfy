/** Every field of a driver handle after every step, and what the reconnect machinery is for: a
    device that was connected when its driver failed is connected again after the restart. */
module DriverLifecycle {
  import opened Options
  import opened DriverHandle
  import opened Generations
  import HeartbeatEpisodes

  // ---------------------------------------------------------------- what a step amounts to

  /** The latest sign of life that counts: the last heartbeat or the start of the run. */
  function LatestSign(h: Handle): Option<real> {
    if h.hbRecv.None? then h.runningSince
    else if h.runningSince.None? then h.hbRecv
    else Some(Max(h.hbRecv.value, h.runningSince.value))
  }

  /** A heartbeat received before the run began is older than its start, so the age counts from the
      latest of the two. */
  lemma AgeCountsFromLatestSign(h: Handle, now: real)
    ensures Age(h, now) ==
      if LatestSign(h).None? then None else Some(Max(0.0, now - LatestSign(h).value))
  {}

  predicate FailsHard(h: Handle, op: Op, spec: Spec, cfg: Config) {
    op.Check? && h.state == RUNNING && LatestSign(h).Some? &&
    HeartbeatEpisodes.TooLong(Max(0.0, op.now - LatestSign(h).value), spec, cfg)
  }

  predicate RestartDue(h: Handle, op: Op) {
    op.Supervise? && h.nextRestart.Some? && h.nextRestart.value <= op.now && !op.alive
  }

  predicate CrashLoops(h: Handle, op: Op) { RestartDue(h, op) && h.automatic && op.budgetUsed }

  /** A new generation is begun: by an operator's start, or by a due restart within the budget. */
  predicate Begins(h: Handle, op: Op) {
    h.state != CRASHLOOP && ((op.Start? && !op.alive) || (RestartDue(h, op) && !(h.automatic && op.budgetUsed)))
  }

  predicate Spawns(h: Handle, op: Op) { Begins(h, op) && op.spawned.Some? }

  predicate Accepted(h: Handle, op: Op) {
    op.Register? && (h.generation == 0 || op.reg.generation == Some(h.generation))
  }

  /** The registration makes the driver run: its process lives or is being launched, or a heartbeat
      came within the soft timeout. */
  predicate Promotes(h: Handle, op: Op, cfg: Config) {
    Accepted(h, op) &&
    (op.alive || h.state == STARTING || (h.hbRecv.Some? && op.now <= h.hbRecv.value + cfg.timeout))
  }

  predicate Recovers(h: Handle, op: Op, cfg: Config) {
    Accepted(h, op) && h.reconnectAfter && h.reconnectGen == Some(h.generation) &&
    op.reg.generation == Some(h.generation) && (Promotes(h, op, cfg) || h.state == RUNNING)
  }

  /** The task at the head of this step connects the device to recover it. */
  predicate Claims(s: System, op: Op) {
    op.RunTask? && op.i < |s.tasks| && s.tasks[op.i].recovery && s.h.reconnectAfter &&
    (s.tasks[op.i].expected.None? ||
     (s.tasks[op.i].expected == Some(s.h.generation) == s.h.registered == s.h.reconnectGen))
  }

  lemma CheckFailsIff(h: Handle, now: real, spec: Spec, cfg: Config)
    ensures var h', fails := Enforced(h, spec, cfg, now).0, FailsHard(h, Check(now), spec, cfg);
            h'.generation == h.generation && h'.hbRecv == h.hbRecv && h'.hbReachable == h.hbReachable &&
            h'.registered == h.registered && h'.endpoint == h.endpoint && h'.popenPid == h.popenPid &&
            h'.state == (if fails then FAILED else h.state) &&
            h'.stopRequested == (if fails then Some(now) else h.stopRequested) &&
            if fails && spec.restartOnTimeout then
              h'.reconnectAfter == (h.hbReachable == Some(true)) && h'.reconnectGen == None &&
              h'.automatic && h'.nextRestart == Some(now + spec.backoff)
            else
              h'.reconnectAfter == h.reconnectAfter && h'.reconnectGen == h.reconnectGen &&
              h'.automatic == h.automatic && h'.nextRestart == h.nextRestart
    ensures Enforced(h, spec, cfg, now).0.runningSince ==
      if FailsHard(h, Check(now), spec, cfg) then None else h.runningSince
  {
    FailsHardByAge(h, now, spec, cfg);
    hide FailsHard, Age;
  }

  lemma FailsHardByAge(h: Handle, now: real, spec: Spec, cfg: Config)
    ensures FailsHard(h, Check(now), spec, cfg) <==>
      h.state == RUNNING && Age(h, now).Some? && Age(h, now).value > cfg.timeout &&
      Age(h, now).value >= HardTimeout(spec, cfg)
  {
    AgeCountsFromLatestSign(h, now);
    hide LatestSign, Age;
  }

  lemma ClaimsIff(s: System, op: Op)
    requires op.RunTask?
    ensures Claims(s, op) <==> op.i < |s.tasks| && s.tasks[op.i].recovery && MayConnect(s.h, s.tasks[op.i])
  {}

  // ---------------------------------------------------------------- field by field

  /** The generation counts the launches. */
  lemma GenerationAfter(s: System, op: Op, spec: Spec, cfg: Config)
    ensures Step(s, op, spec, cfg).h.generation == s.h.generation + (if Begins(s.h, op) then 1 else 0)
  {
    if op.Check? { CheckFailsIff(s.h, op.now, spec, cfg); }
    hide Enforced;
  }

  /** When a reconnect intent is pending after a step: a hard failure that schedules a restart decides
      it by the last heartbeat, an exhausted reconnect raises it, and a stop, a crash loop and the
      recovery connect itself withdraw it. */
  lemma IntentAfterIff(s: System, op: Op, spec: Spec, cfg: Config)
    ensures Step(s, op, spec, cfg).h.reconnectAfter <==>
      if FailsHard(s.h, op, spec, cfg) && spec.restartOnTimeout then s.h.hbReachable == Some(true)
      else op.Exhaust? || (s.h.reconnectAfter && !op.StopBegin? && !CrashLoops(s.h, op) && !Claims(s, op))
  {
    if op.Check? { CheckFailsIff(s.h, op.now, spec, cfg); }
    if op.RunTask? { ClaimsIff(s, op); }
    hide Enforced, FailsHard, Claims, GenerationsCoincide;
  }

  /** A launch binds a pending intent to its generation; whatever raises or withdraws the intent
      unbinds it. */
  lemma BindingAfter(s: System, op: Op, spec: Spec, cfg: Config)
    ensures Step(s, op, spec, cfg).h.reconnectGen ==
      if Begins(s.h, op) && s.h.reconnectAfter then Some(s.h.generation + 1)
      else if (FailsHard(s.h, op, spec, cfg) && spec.restartOnTimeout) || op.Exhaust? || op.StopBegin? ||
              CrashLoops(s.h, op) || Claims(s, op) then None
      else s.h.reconnectGen
  {
    if op.Check? { CheckFailsIff(s.h, op.now, spec, cfg); }
    hide Enforced, FailsHard;
  }

  /** A restart is scheduled one backoff after a hard failure, an exhausted reconnect or an operator's
      request, and cancelled by a stop, a launch and a crash loop. */
  lemma ScheduleAfter(s: System, op: Op, spec: Spec, cfg: Config)
    ensures Step(s, op, spec, cfg).h.nextRestart ==
      (if FailsHard(s.h, op, spec, cfg) && spec.restartOnTimeout then Some(op.now + spec.backoff)
       else if op.Exhaust? || op.Restart? then Some(op.now + spec.backoff)
       else if op.StopBegin? || Begins(s.h, op) || RestartDue(s.h, op) then None
       else s.h.nextRestart)
    ensures Step(s, op, spec, cfg).h.automatic <==>
      (FailsHard(s.h, op, spec, cfg) && spec.restartOnTimeout) || op.Exhaust? ||
      (s.h.automatic && !op.StopBegin? && !op.Restart? && !CrashLoops(s.h, op))
  {
    if op.Check? { CheckFailsIff(s.h, op.now, spec, cfg); }
    hide Enforced, FailsHard;
  }

  /** The heartbeat fields hold the last heartbeat since the launch; a stop ages it beyond the soft
      timeout. */
  lemma HeartbeatAfter(s: System, op: Op, spec: Spec, cfg: Config)
    ensures var h' := Step(s, op, spec, cfg).h;
            h'.hbRecv == (if op.Beat? then Some(op.at)
                          else if op.StopBegin? then Some(op.now - cfg.timeout - 1.0)
                          else if Spawns(s.h, op) then None else s.h.hbRecv) &&
            h'.hbReachable == (if op.Beat? then Some(op.reachable)
                               else if Spawns(s.h, op) then None else s.h.hbReachable)
  {
    if op.Check? { CheckFailsIff(s.h, op.now, spec, cfg); }
    hide Enforced;
  }

  /** The identity of the run that the policy watches, and when a stop of it was asked for. */
  lemma RunAfter(s: System, op: Op, spec: Spec, cfg: Config)
    ensures var h' := Step(s, op, spec, cfg).h;
            var fails := FailsHard(s.h, op, spec, cfg) || op.Exhaust?;
            h'.runningSince == (if Promotes(s.h, op, cfg) then Some(op.now)
                                else if fails || op.Exit? || Spawns(s.h, op) then None
                                else s.h.runningSince) &&
            h'.popenPid == (if Begins(s.h, op) then op.spawned else s.h.popenPid) &&
            h'.stopRequested == (if fails || (op.StopEnd? && op.alive) then Some(op.now)
                                 else if Begins(s.h, op) then None else s.h.stopRequested)
  {
    if op.Check? { CheckFailsIff(s.h, op.now, spec, cfg); }
    hide Enforced, FailsHard;
  }

  /** What the last accepted registration said. */
  lemma RegistrationAfter(s: System, op: Op, spec: Spec, cfg: Config)
    ensures var h' := Step(s, op, spec, cfg).h;
            h'.registered == (if Accepted(s.h, op) then op.reg.generation else s.h.registered) &&
            h'.endpoint == (if Accepted(s.h, op) then Some(op.reg.endpoint)
                            else if op.StopEnd? && !op.alive then None else s.h.endpoint)
  {
    if op.Check? { CheckFailsIff(s.h, op.now, spec, cfg); }
    hide Enforced;
  }

  /** The process state after a step. */
  lemma StateAfter(s: System, op: Op, spec: Spec, cfg: Config)
    ensures Step(s, op, spec, cfg).h.state ==
      (if Promotes(s.h, op, cfg) then RUNNING
       else if FailsHard(s.h, op, spec, cfg) || op.Exhaust? || (Begins(s.h, op) && !Spawns(s.h, op)) then FAILED
       else if Spawns(s.h, op) then STARTING
       else if CrashLoops(s.h, op) then CRASHLOOP
       else if op.StopEnd? then (if op.alive then STOPPING else STOPPED)
       else if op.Exit? then
         (if op.clean || (s.h.state == STOPPING && s.h.stopRequested.Some?) then STOPPED else FAILED)
       else s.h.state)
  {
    if op.Check? { CheckFailsIff(s.h, op.now, spec, cfg); }
    hide Enforced, FailsHard;
  }

  /** A registration appends at most one task: a recovery task when it recovers, otherwise an
      unconditional one if the device connects automatically. */
  lemma TasksAfterRegistration(s: System, op: Op, spec: Spec, cfg: Config)
    requires op.Register?
    ensures Step(s, op, spec, cfg).tasks == s.tasks +
      (if Recovers(s.h, op, cfg) then [Task(Some(s.h.generation), true)]
       else if Accepted(s.h, op) && op.autoConnect then [Task(None, false)] else [])
  {}

  // ---------------------------------------------------------------- recovery

  /** A pending intent that is bound to the current generation is served: the registration of that
      generation, from a live or starting process, dispatches exactly one recovery task, and that
      task, run next, makes exactly one recovery connect and uses up the intent. */
  lemma BoundIntentIsServed(ops: seq<Op>, reg: Registration, alive: bool, autoConnect: bool, now: real,
                            spec: Spec, cfg: Config)
    requires Run(ops, spec, cfg).h.reconnectAfter
    requires Run(ops, spec, cfg).h.reconnectGen == Some(Run(ops, spec, cfg).h.generation) == reg.generation
    requires alive || Run(ops, spec, cfg).h.state == STARTING
    ensures var s := Run(ops, spec, cfg);
            var s' := Step(s, Register(reg, alive, autoConnect, now), spec, cfg);
            var s'' := Step(s', RunTask(|s.tasks|), spec, cfg);
            s'.tasks == s.tasks + [Task(Some(s.h.generation), true)] &&
            s''.claims == s.claims + [s.h.generation] && s''.tasks == s.tasks &&
            !s''.h.reconnectAfter && s''.h.reconnectGen == None
  {
    TasksAfterRegistration(Run(ops, spec, cfg), Register(reg, alive, autoConnect, now), spec, cfg);
  }

  /** End to end, from any state: a hard failure that schedules a restart, the launch, the registration
      of the new generation and its task reconnect the device exactly if it was last seen
      reachable. */
  lemma FailureIsRecoveredIff(s: System, failure: real, pid: int, endpoint: string, now: real, spec: Spec, cfg: Config)
    requires FailsHard(s.h, Check(failure), spec, cfg) && spec.restartOnTimeout
    ensures var g := s.h.generation + 1;
            var failed := Step(s, Check(failure), spec, cfg);
            var launched := Step(failed, Supervise(failure + spec.backoff, false, false, Some(pid)), spec, cfg);
            var registered := Step(launched, Register(Registration(Some(g), endpoint), true, false, now), spec, cfg);
            var served := Step(registered, RunTask(|s.tasks|), spec, cfg);
            launched.h.generation == g && launched.h.state == STARTING && registered.h.state == RUNNING &&
            registered.tasks == s.tasks + (if s.h.hbReachable == Some(true) then [Task(Some(g), true)] else []) &&
            served.claims == s.claims + (if s.h.hbReachable == Some(true) then [g] else [])
  {
    CheckFailsIff(s.h, failure, spec, cfg);
    hide Enforced, FailsHard;
  }
}
