/** Driver generations and the one-shot reconnect intent over whole runs: registrations, restarts,
    stops, heartbeat failures and delayed auto-connect tasks in any order
    (src/experiment_control/manager.py, src/experiment_control/_manager/process_supervision.py). */
module Generations {
  import opened Options
  import opened DriverHandle

  /** The handle, the tasks waiting in the executor, and what an observer has recorded: the
      generations for which a recovery connect was made, and how many intents were raised. */
  datatype System = System(h: Handle, tasks: seq<Task>, claims: seq<int>, intents: nat)

  const INITIAL := System(NEW_HANDLE, [], [], 0)

  datatype Op =
    | Start(alive: bool, spawned: Option<int>)
    | StopBegin(now: real)
    | StopEnd(alive: bool, now: real)
    | Exit(clean: bool)
    | Restart(now: real)
    | Supervise(now: real, alive: bool, budgetUsed: bool, spawned: Option<int>)
    | Exhaust(now: real)
    | Beat(at: real, reachable: bool)
    | Check(now: real)
    | Register(reg: Registration, alive: bool, autoConnect: bool, now: real)
    | RunTask(i: nat)

  function Count(raised: bool): nat { if raised then 1 else 0 }

  function Step(s: System, op: Op, spec: Spec, cfg: Config): System {
    match op
    case Start(alive, spawned) => s.(h := Started(s.h, alive, spawned))
    case StopBegin(now) => s.(h := StopBegun(s.h, cfg, now))
    case StopEnd(alive, now) => s.(h := StopEnded(s.h, alive, now))
    case Exit(clean) => s.(h := Exited(s.h, clean))
    case Restart(now) => s.(h := RestartRequested(s.h, spec, now))
    case Supervise(now, alive, budgetUsed, spawned) => s.(h := Supervised(s.h, now, alive, budgetUsed, spawned))
    case Exhaust(now) => s.(h := ReconnectExhausted(s.h, spec, now), intents := s.intents + 1)
    case Beat(at, reachable) => s.(h := HeartbeatReceived(s.h, at, reachable))
    case Check(now) =>
      var (h, ev) := Enforced(s.h, spec, cfg, now);
      s.(h := h, intents := s.intents + Count(RestartScheduled in ev && h.reconnectAfter))
    case Register(reg, alive, autoConnect, now) =>
      var h := Registered(s.h, reg, alive, cfg, now);
      var task := if Obsolete(s.h, reg) then None else Dispatched(h, reg, autoConnect);
      s.(h := h, tasks := if task.Some? then s.tasks + [task.value] else s.tasks)
    case RunTask(i) =>
      if i >= |s.tasks| then s
      else
        var t := s.tasks[i];
        System(Claimed(s.h, t), s.tasks[..i] + s.tasks[i + 1..],
               if t.recovery && MayConnect(s.h, t) && t.expected.Some? then s.claims + [t.expected.value] else s.claims,
               s.intents)
  }

  function Run(ops: seq<Op>, spec: Spec, cfg: Config): System {
    if ops == [] then INITIAL else Step(Run(ops[..|ops| - 1], spec, cfg), ops[|ops| - 1], spec, cfg)
  }

  /** Once a generation has been started, a registration of any other generation changes nothing. */
  lemma ObsoleteRegistrationIsIgnored(s: System, reg: Registration, alive: bool, autoConnect: bool, now: real,
                                      spec: Spec, cfg: Config)
    requires s.h.generation > 0 && reg.generation != Some(s.h.generation)
    ensures Step(s, Register(reg, alive, autoConnect, now), spec, cfg) == s
  {}

  ghost predicate Inv(s: System) {
    (forall i :: 0 <= i < |s.tasks| ==> (s.tasks[i].recovery ==> s.tasks[i].expected.Some?)) &&
    (s.h.reconnectGen.Some? ==> s.h.reconnectAfter && s.h.reconnectGen.value <= s.h.generation) &&
    (forall i, j :: 0 <= i < j < |s.claims| ==> s.claims[i] < s.claims[j]) &&
    (forall i :: 0 <= i < |s.claims| ==>
      s.claims[i] <= s.h.generation && (s.h.reconnectGen.Some? ==> s.claims[i] < s.h.reconnectGen.value)) &&
    |s.claims| + Count(s.h.reconnectAfter) <= s.intents
  }

  /** How the steps other than task runs move the fields the invariant speaks of. */
  ghost predicate Moves(h: Handle, h': Handle, raised: bool) {
    h'.generation >= h.generation &&
    (h'.reconnectGen.Some? ==>
       h'.reconnectAfter &&
       (h'.reconnectGen == h.reconnectGen ||
        (h'.generation > h.generation && h'.reconnectGen.value == h'.generation))) &&
    (h'.reconnectAfter ==> h.reconnectAfter || raised)
  }

  lemma MovesKeepInv(s: System, h': Handle, raised: bool)
    requires Inv(s) && Moves(s.h, h', raised)
    ensures Inv(s.(h := h', intents := s.intents + Count(raised)))
  {}

  lemma CheckMoves(h: Handle, spec: Spec, cfg: Config, now: real)
    requires h.reconnectGen.Some? ==> h.reconnectAfter
    ensures var (h', ev) := Enforced(h, spec, cfg, now);
            Moves(h, h', RestartScheduled in ev && h'.reconnectAfter)
  {}

  /** Whether a step raises a reconnect intent. */
  predicate Raises(h: Handle, op: Op, spec: Spec, cfg: Config) {
    op.Exhaust? ||
    (op.Check? && RestartScheduled in Enforced(h, spec, cfg, op.now).1 &&
     Enforced(h, spec, cfg, op.now).0.reconnectAfter)
  }

  lemma OpMoves(s: System, op: Op, spec: Spec, cfg: Config)
    requires !op.RunTask? && (s.h.reconnectGen.Some? ==> s.h.reconnectAfter)
    ensures Moves(s.h, Step(s, op, spec, cfg).h, Raises(s.h, op, spec, cfg))
    ensures Step(s, op, spec, cfg).claims == s.claims
    ensures Step(s, op, spec, cfg).intents == s.intents + Count(Raises(s.h, op, spec, cfg))
  {
    if op.Check? { CheckMoves(s.h, spec, cfg, op.now); }
    hide Enforced;
  }

  lemma OpTasks(s: System, op: Op, spec: Spec, cfg: Config)
    requires !op.RunTask?
    ensures Step(s, op, spec, cfg).tasks == s.tasks ||
      exists t :: Step(s, op, spec, cfg).tasks == s.tasks + [t] && (t.recovery ==> t.expected.Some?)
  {
    hide Enforced;
  }

  lemma StepKeepsInv(s: System, op: Op, spec: Spec, cfg: Config)
    requires Inv(s)
    ensures Inv(Step(s, op, spec, cfg))
  {
    if op.RunTask? {
      RunTaskKeepsInv(s, op.i, spec, cfg);
    } else {
      OpMoves(s, op, spec, cfg);
      OpTasks(s, op, spec, cfg);
      hide Step, Moves, Raises;
      MovesKeepInv(s, Step(s, op, spec, cfg).h, Raises(s.h, op, spec, cfg));
    }
  }

  lemma RunTaskKeepsInv(s: System, i: nat, spec: Spec, cfg: Config)
    requires Inv(s)
    ensures Inv(Step(s, RunTask(i), spec, cfg))
  {}

  /** Over every run: recovery connects happen at strictly increasing generations, so at most one
      per generation, and never more often than intents were raised; an intent still pending
      is not yet counted, so each intent triggers at most one recovery connect. */
  lemma {:induction false} RecoveryIsOneShot(ops: seq<Op>, spec: Spec, cfg: Config)
    ensures var s := Run(ops, spec, cfg);
            (forall i, j :: 0 <= i < j < |s.claims| ==> s.claims[i] < s.claims[j]) &&
            |s.claims| + Count(s.h.reconnectAfter) <= s.intents && Inv(s)
  {
    if ops == [] {
    } else {
      RecoveryIsOneShot(ops[..|ops| - 1], spec, cfg);
      StepKeepsInv(Run(ops[..|ops| - 1], spec, cfg), ops[|ops| - 1], spec, cfg);
    }
  }

  /** A recovery connect in any run is made only when the driver, registered, reconnect and
      expected generations all coincide, and it uses up the intent. */
  lemma ClaimNeedsAllGenerations(ops: seq<Op>, i: nat, spec: Spec, cfg: Config)
    requires i < |Run(ops, spec, cfg).tasks| && Run(ops, spec, cfg).tasks[i].recovery
    requires MayConnect(Run(ops, spec, cfg).h, Run(ops, spec, cfg).tasks[i])
    ensures var s := Run(ops, spec, cfg);
            var s' := Step(s, RunTask(i), spec, cfg);
            s.tasks[i].expected.Some? && GenerationsCoincide(s.h, s.tasks[i].expected.value) && s.h.reconnectAfter &&
            s'.claims == s.claims + [s.h.generation] && !s'.h.reconnectAfter && s'.h.reconnectGen == None
  {
    RecoveryIsOneShot(ops, spec, cfg);
  }

  /** The driver generation only grows. */
  lemma GenerationGrows(s: System, op: Op, spec: Spec, cfg: Config)
    ensures Step(s, op, spec, cfg).h.generation >= s.h.generation
  {
    if op.Check? { EnforcedKeepsGeneration(s.h, spec, cfg, op.now); }
    hide Enforced;
  }

  lemma EnforcedKeepsGeneration(h: Handle, spec: Spec, cfg: Config, now: real)
    ensures Enforced(h, spec, cfg, now).0.generation == h.generation
  {}
}
