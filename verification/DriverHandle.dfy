/** The manager's record of one device driver and the operations on it: heartbeat policy
    (src/experiment_control/_manager/driver_heartbeat_policy.py), registration and delayed
    auto-connect (src/experiment_control/manager.py), and the start, stop and restart steps of
    src/experiment_control/_manager/process_supervision.py that touch the same fields. */
module DriverHandle {
  import opened Options

  datatype ProcessState = STOPPED | STARTING | RUNNING | STOPPING | FAILED | CRASHLOOP

  /** Identity of the running driver: (popen pid, running since). */
  datatype RunId = RunId(pid: Option<int>, since: Option<real>)

  datatype Spec = Spec(hardTimeout: Option<real>, restartOnTimeout: bool, backoff: real)
  datatype Config = Config(timeout: real, hardTimeout: real)

  datatype Handle = Handle(
    state: ProcessState, popenPid: Option<int>, runningSince: Option<real>,
    hbRecv: Option<real>, hbReachable: Option<bool>,
    staleSince: Option<real>, staleMax: Option<real>, staleRun: Option<RunId>,
    generation: nat, registered: Option<int>, reconnectAfter: bool, reconnectGen: Option<int>,
    stopRequested: Option<real>, automatic: bool, nextRestart: Option<real>, endpoint: Option<string>)

  const NEW_HANDLE :=
    Handle(STOPPED, None, None, None, None, None, None, None, 0, None, false, None, None, false, None, None)

  function Max(a: real, b: real): real { if a < b then b else a }

  // ---------------------------------------------------------------- heartbeat age

  /** The time the age counts from: the last heartbeat if it belongs to the current run. */
  function Reference(h: Handle): Option<real> {
    if h.hbRecv.Some? && (h.runningSince.None? || h.hbRecv.value >= h.runningSince.value) then h.hbRecv
    else h.runningSince
  }

  function Age(h: Handle, now: real): Option<real> {
    if Reference(h).None? then None else Some(Max(0.0, now - Reference(h).value))
  }

  function RunIdOf(h: Handle): RunId { RunId(h.popenPid, h.runningSince) }

  function HardTimeout(spec: Spec, cfg: Config): real {
    if spec.hardTimeout.Some? then spec.hardTimeout.value else cfg.hardTimeout
  }

  // ---------------------------------------------------------------- heartbeat policy

  datatype Event =
    | Stale(age: real)
    | Recovered(age: real, duration: real, maxAge: Option<real>)
    | Failed(age: real)
    | RestartScheduled

  function ClearEpisode(h: Handle): Handle { h.(staleSince := None, staleMax := None, staleRun := None) }

  /** An episode announced for an earlier run is dropped without a recovery event. */
  function DropForeignEpisode(h: Handle): Handle {
    if h.staleSince.Some? && h.staleRun != Some(RunIdOf(h)) then ClearEpisode(h) else h
  }

  function OpenOrExtend(h: Handle, age: real, now: real): (Handle, seq<Event>) {
    if h.staleSince.None? then
      (h.(staleSince := Some(now), staleMax := Some(age), staleRun := Some(RunIdOf(h))), [Stale(age)])
    else (h.(staleMax := Some(Max(age, if h.staleMax.Some? then h.staleMax.value else 0.0))), [])
  }

  function HardFail(h: Handle, spec: Spec, age: real, now: real): (Handle, seq<Event>) {
    var f := h.(state := FAILED, runningSince := None, stopRequested := Some(now));
    if !spec.restartOnTimeout then (f, [Failed(age)])
    else
      (f.(reconnectAfter := h.hbReachable == Some(true), reconnectGen := None, automatic := true,
          nextRestart := Some(now + spec.backoff)),
       [Failed(age), RestartScheduled])
  }

  function Enforced(h0: Handle, spec: Spec, cfg: Config, now: real): (Handle, seq<Event>) {
    if h0.state != RUNNING || Age(h0, now).None? then (h0, [])
    else
      var h, age := DropForeignEpisode(h0), Age(h0, now).value;
      if age <= cfg.timeout then
        (if h.staleSince.None? then (h, [])
         else (ClearEpisode(h), [Recovered(age, Max(0.0, now - h.staleSince.value), h.staleMax)]))
      else
        var (open, announced) := OpenOrExtend(h, age, now);
        if age < HardTimeout(spec, cfg) then (open, announced)
        else
          var (failed, events) := HardFail(open, spec, age, now);
          (failed, announced + events)
  }

  // ---------------------------------------------------------------- start, stop, restart

  /** A pending recovery intent is bound to the generation that is about to start. */
  function NewGeneration(h: Handle): Handle {
    h.(generation := h.generation + 1,
       reconnectGen := if h.reconnectAfter then Some(h.generation + 1) else h.reconnectGen)
  }

  /** `alive`: the tracked subprocess still runs. A spawn that fails restores the heartbeat
      fields but keeps the new generation. */
  function Started(h: Handle, alive: bool, spawned: Option<int>): Handle {
    if alive || h.state == CRASHLOOP then h
    else
      var s := NewGeneration(h).(popenPid := None, stopRequested := None, nextRestart := None);
      if spawned.None? then s.(state := FAILED)
      else s.(hbRecv := None, hbReachable := None, runningSince := None, state := STARTING, popenPid := spawned)
  }

  /** A stop first withdraws all intents and ages the heartbeat; the state changes only after the
      driver was asked to shut down. */
  function StopBegun(h: Handle, cfg: Config, now: real): Handle {
    h.(nextRestart := None, automatic := false, reconnectAfter := false, reconnectGen := None,
       hbRecv := Some(now - (cfg.timeout + 1.0)))
  }

  function StopEnded(h: Handle, alive: bool, now: real): Handle {
    if !alive then h.(state := STOPPED, endpoint := None)
    else h.(state := STOPPING, stopRequested := Some(now))
  }

  function Exited(h: Handle, clean: bool): Handle {
    h.(runningSince := None,
       state := if h.state == STOPPING && h.stopRequested.Some? then STOPPED else if clean then STOPPED else FAILED)
  }

  /** The restart budget is used up. */
  function CrashLooped(h: Handle): Handle {
    h.(state := CRASHLOOP, nextRestart := None, automatic := false, reconnectAfter := false, reconnectGen := None)
  }

  /** An operator restart schedules a launch like a failure does, but outside the restart budget. */
  function RestartRequested(h: Handle, spec: Spec, now: real): Handle {
    h.(nextRestart := Some(now + spec.backoff), automatic := false)
  }

  /** The supervisor launches a driver whose scheduled restart is due; `budgetUsed` says that the
      automatic restarts allowed for the device have been used up. */
  function Supervised(h: Handle, now: real, alive: bool, budgetUsed: bool, spawned: Option<int>): Handle {
    if h.nextRestart.None? || now < h.nextRestart.value || alive then h
    else if h.automatic && budgetUsed then CrashLooped(h)
    else Started(h.(nextRestart := None), alive, spawned)
  }

  /** Auto-reconnect gave up and escalates to a restart. */
  function ReconnectExhausted(h: Handle, spec: Spec, now: real): Handle {
    h.(state := FAILED, runningSince := None, stopRequested := Some(now),
       reconnectAfter := true, reconnectGen := None, automatic := true, nextRestart := Some(now + spec.backoff))
  }

  function HeartbeatReceived(h: Handle, at: real, reachable: bool): Handle {
    h.(hbRecv := Some(at), hbReachable := Some(reachable))
  }

  // ---------------------------------------------------------------- registration and auto-connect

  datatype Registration = Registration(generation: Option<int>, endpoint: string)
  datatype Task = Task(expected: Option<int>, recovery: bool)

  predicate Obsolete(h: Handle, reg: Registration) {
    h.generation > 0 && reg.generation != Some(h.generation)
  }

  function Registered(h: Handle, reg: Registration, alive: bool, cfg: Config, now: real): Handle {
    if Obsolete(h, reg) then h
    else
      var s := h.(endpoint := Some(reg.endpoint), registered := reg.generation);
      if alive || s.state == STARTING || (s.hbRecv.Some? && now - s.hbRecv.value <= cfg.timeout)
      then s.(state := RUNNING, runningSince := Some(now)) else s
  }

  predicate ShouldRecover(h: Handle, reg: Registration) {
    h.reconnectAfter && h.reconnectGen.Some? && reg.generation == h.reconnectGen &&
    reg.generation == Some(h.generation) && h.state == RUNNING
  }

  /** The task dispatched by a registration that was not ignored. */
  function Dispatched(h: Handle, reg: Registration, autoConnect: bool): Option<Task> {
    if autoConnect || ShouldRecover(h, reg)
    then Some(Task(if ShouldRecover(h, reg) then reg.generation else None, ShouldRecover(h, reg))) else None
  }

  predicate GenerationsCoincide(h: Handle, g: int) {
    h.generation == g && h.registered == Some(g) && h.reconnectGen == Some(g)
  }

  /** Whether a delayed task gets to connect. */
  predicate MayConnect(h: Handle, t: Task) {
    (t.expected.Some? ==> GenerationsCoincide(h, t.expected.value)) && (t.recovery ==> h.reconnectAfter)
  }

  function Claimed(h: Handle, t: Task): Handle {
    if MayConnect(h, t) && t.recovery then h.(reconnectAfter := false, reconnectGen := None) else h
  }

  // ---------------------------------------------------------------- the object

  class DeviceHandle {
    const spec: Spec
    var state: ProcessState
    var popenPid: Option<int>
    var runningSince: Option<real>
    var hbRecv: Option<real>
    var hbReachable: Option<bool>
    var staleSince: Option<real>
    var staleMax: Option<real>
    var staleRun: Option<RunId>
    var generation: nat
    var registered: Option<int>
    var reconnectAfter: bool
    var reconnectGen: Option<int>
    var stopRequested: Option<real>
    var automatic: bool
    var nextRestart: Option<real>
    var endpoint: Option<string>

    ghost function View(): Handle
      reads this
    {
      Handle(state, popenPid, runningSince, hbRecv, hbReachable, staleSince, staleMax, staleRun, generation,
             registered, reconnectAfter, reconnectGen, stopRequested, automatic, nextRestart, endpoint)
    }

    constructor (spec: Spec)
      ensures this.spec == spec && View() == NEW_HANDLE
    {
      this.spec := spec;
      state, popenPid, runningSince, hbRecv, hbReachable := STOPPED, None, None, None, None;
      staleSince, staleMax, staleRun := None, None, None;
      generation, registered, reconnectAfter, reconnectGen := 0, None, false, None;
      stopRequested, automatic, nextRestart, endpoint := None, false, None, None;
    }

    method HeartbeatAge(now: real) returns (age: Option<real>)
      ensures age == Age(View(), now)
    {
      var current := hbRecv.Some? && (runningSince.None? || hbRecv.value >= runningSince.value);
      var ref := if current then hbRecv else runningSince;
      if ref.None? { return None; }
      return Some(Max(0.0, now - ref.value));
    }

    method ClearStaleEpisode()
      modifies this`staleSince, this`staleMax, this`staleRun
      ensures View() == ClearEpisode(old(View()))
    {
      staleSince, staleMax, staleRun := None, None, None;
    }

    method OpenOrExtendEpisode(age: real, now: real) returns (events: seq<Event>)
      modifies this`staleSince, this`staleMax, this`staleRun
      ensures (View(), events) == OpenOrExtend(old(View()), age, now)
    {
      if staleSince.None? {
        staleSince, staleMax, staleRun := Some(now), Some(age), Some(RunId(popenPid, runningSince));
        return [Stale(age)];
      }
      staleMax := Some(Max(age, if staleMax.Some? then staleMax.value else 0.0));
      return [];
    }

    method FailHard(age: real, now: real) returns (events: seq<Event>)
      modifies this`state, this`runningSince, this`stopRequested, this`reconnectAfter, this`reconnectGen,
               this`automatic, this`nextRestart
      ensures (View(), events) == HardFail(old(View()), spec, age, now)
    {
      state, runningSince, stopRequested := FAILED, None, Some(now);
      events := [Failed(age)];
      if spec.restartOnTimeout {
        reconnectAfter, reconnectGen := hbReachable == Some(true), None;
        automatic, nextRestart := true, Some(now + spec.backoff);
        events := [Failed(age), RestartScheduled];
      }
    }

    method EnforceHeartbeatTimeout(cfg: Config, now: real) returns (events: seq<Event>)
      modifies this`staleSince, this`staleMax, this`staleRun,
               this`state, this`runningSince, this`stopRequested, this`reconnectAfter, this`reconnectGen,
               this`automatic, this`nextRestart
      ensures (View(), events) == Enforced(old(View()), spec, cfg, now)
    {
      events := [];
      if state != RUNNING { return; }
      var ageOrNone := HeartbeatAge(now);
      if ageOrNone.None? { return; }
      hide OpenOrExtend, HardFail, Reference;
      var age := ageOrNone.value;
      if staleSince.Some? && staleRun != Some(RunId(popenPid, runningSince)) {
        ClearStaleEpisode();
      }
      var hard := if spec.hardTimeout.Some? then spec.hardTimeout.value else cfg.hardTimeout;
      if age <= cfg.timeout {
        if staleSince.Some? {
          events := [Recovered(age, Max(0.0, now - staleSince.value), staleMax)];
          ClearStaleEpisode();
        }
        return;
      }
      events := OpenOrExtendEpisode(age, now);
      if age < hard { return; }
      var failure := FailHard(age, now);
      events := events + failure;
    }

    method BeginGeneration()
      modifies this`generation, this`reconnectGen
      ensures View() == NewGeneration(old(View()))
    {
      generation := generation + 1;
      if reconnectAfter { reconnectGen := Some(generation); }
    }

    /** Forgets the previous run before the spawn. */
    method PrepareSpawn()
      modifies this`hbRecv, this`hbReachable, this`runningSince, this`popenPid, this`state, this`stopRequested,
               this`nextRestart
      ensures View() == old(View()).(hbRecv := None, hbReachable := None, runningSince := None, popenPid := None,
                                     state := STARTING, stopRequested := None, nextRestart := None)
    {
      hbRecv, hbReachable, runningSince, popenPid := None, None, None, None;
      state, stopRequested, nextRestart := STARTING, None, None;
    }

    method StartDriver(alive: bool, spawned: Option<int>)
      modifies this`generation, this`reconnectGen, this`hbRecv, this`hbReachable, this`runningSince, this`popenPid,
               this`state, this`stopRequested, this`nextRestart
      ensures View() == Started(old(View()), alive, spawned)
    {
      hide NewGeneration;
      if alive || state == CRASHLOOP { return; }
      BeginGeneration();
      var previousRecv, previousReachable, previousSince := hbRecv, hbReachable, runningSince;
      PrepareSpawn();
      if spawned.None? {
        hbRecv, hbReachable, runningSince := previousRecv, previousReachable, previousSince;
        state := FAILED;
      } else {
        popenPid := spawned;
      }
    }

    method RequestRestart(now: real)
      modifies this`nextRestart, this`automatic
      ensures View() == RestartRequested(old(View()), spec, now)
    {
      nextRestart, automatic := Some(now + spec.backoff), false;
    }

    method GiveUp()
      modifies this`state, this`nextRestart, this`automatic, this`reconnectAfter, this`reconnectGen
      ensures View() == CrashLooped(old(View()))
    {
      state, nextRestart, automatic, reconnectAfter, reconnectGen := CRASHLOOP, None, false, false, None;
    }

    method MaybeRestart(now: real, alive: bool, budgetUsed: bool, spawned: Option<int>)
      modifies this`generation, this`reconnectGen, this`hbRecv, this`hbReachable, this`runningSince, this`popenPid,
               this`state, this`stopRequested, this`nextRestart, this`automatic, this`reconnectAfter
      ensures View() == Supervised(old(View()), now, alive, budgetUsed, spawned)
    {
      hide Started, CrashLooped;
      if nextRestart.None? || now < nextRestart.value { return; }
      if alive { return; }
      if automatic && budgetUsed {
        GiveUp();
        return;
      }
      nextRestart := None;
      StartDriver(alive, spawned);
    }

    method BeginStop(cfg: Config, now: real)
      modifies this`nextRestart, this`automatic, this`reconnectAfter, this`reconnectGen, this`hbRecv
      ensures View() == StopBegun(old(View()), cfg, now)
    {
      nextRestart, automatic, reconnectAfter, reconnectGen := None, false, false, None;
      hbRecv := Some(now - (cfg.timeout + 1.0));
    }

    /** `later` is the time after the shutdown request was answered or timed out. */
    method StopDriver(alive: bool, cfg: Config, now: real, later: real)
      modifies this`nextRestart, this`automatic, this`reconnectAfter, this`reconnectGen, this`hbRecv,
               this`state, this`endpoint, this`stopRequested
      ensures View() == StopEnded(StopBegun(old(View()), cfg, now), alive, later)
    {
      BeginStop(cfg, now);
      if !alive {
        state, endpoint := STOPPED, None;
        return;
      }
      state, stopRequested := STOPPING, Some(later);
    }

    method HandleRegistry(reg: Registration, alive: bool, autoConnect: bool, cfg: Config, now: real)
      returns (task: Option<Task>)
      modifies this`endpoint, this`registered, this`state, this`runningSince
      ensures View() == Registered(old(View()), reg, alive, cfg, now)
      ensures task == if Obsolete(old(View()), reg) then None else Dispatched(View(), reg, autoConnect)
    {
      if generation > 0 && reg.generation != Some(generation) { return None; }
      endpoint := Some(reg.endpoint);
      registered := reg.generation;
      if alive || state == STARTING {
        state, runningSince := RUNNING, Some(now);
      } else if hbRecv.Some? && now - hbRecv.value <= cfg.timeout {
        state, runningSince := RUNNING, Some(now);
      }
      var recover := reconnectAfter && reconnectGen.Some? && reg.generation == reconnectGen
                     && reg.generation == Some(generation) && state == RUNNING;
      if autoConnect || recover {
        return Some(Task(if recover then reg.generation else None, recover));
      }
      return None;
    }

    method RunAutoConnect(t: Task) returns (connects: bool)
      modifies this`reconnectAfter, this`reconnectGen
      ensures connects == MayConnect(old(View()), t) && View() == Claimed(old(View()), t)
    {
      if t.expected.Some? &&
         (generation != t.expected.value || registered != t.expected || reconnectGen != t.expected) {
        return false;
      }
      if t.recovery && !reconnectAfter { return false; }
      if t.recovery {
        reconnectAfter := false;
        reconnectGen := None;
      }
      return true;
    }
  }
}
