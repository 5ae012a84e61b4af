/** The driver process (src/experiment_control/_driver/runner.py): device health as changed by RPC
    routes, telemetry ticks and scheduled streams, and the catch-up stream scheduler. */
module DeviceRunner {
  import opened Options

  // ---------------------------------------------------------------- health

  datatype DeviceState = OK | DEGRADED | FAULT | DISCONNECTED | UNKNOWN
  datatype DriverState = INIT | DRIVER_OK | DRIVER_DEGRADED

  /** `latch` is the action-failure latch; `hasError` is whether an error text is recorded. */
  datatype Health = Health(state: DeviceState, reachable: bool, latch: bool, hasError: bool)

  const AFTER_START := Health(DISCONNECTED, false, false, false)

  function Demoted(h: Health): Health {
    h.(state := if h.state != DISCONNECTED then DEGRADED else h.state)
  }

  function MarkUnreachable(h: Health): Health {
    Demoted(h).(reachable := false, latch := true, hasError := true)
  }

  function MarkActionSucceeded(h: Health): Health { h.(latch := false) }

  /** How an action request ends: refused before the device is touched, the device raised, or
      it completed. */
  datatype Action = Refused | Raised | Completed

  /** get and set. `noted` says that capability discovery recorded an error on the way. */
  function AfterAccess(h: Health, a: Action, noted: bool): Health {
    if h.state == DISCONNECTED then h else
      var g := if noted then h.(hasError := true) else h;
      match a
      case Refused => g
      case Raised => MarkUnreachable(g)
      case Completed => MarkActionSucceeded(g)
  }

  /** Commands and stream RPCs. */
  function AfterCommand(h: Health, a: Action, noted: bool): Health {
    if h.state == DISCONNECTED then h else
      var g := if noted then h.(hasError := true) else h;
      match a
      case Refused => g
      case Raised => MarkUnreachable(g)
      case Completed => MarkActionSucceeded(g.(reachable := true, hasError := false))
  }

  function AfterConnect(h: Health, ok: bool, noted: bool): Health {
    if h.state == OK && h.reachable then h
    else if !ok then h.(state := DISCONNECTED, reachable := false, hasError := true)
    else MarkActionSucceeded(Health(OK, true, h.latch, noted))
  }

  function AfterDisconnect(h: Health, ok: bool): Health {
    if h.state == DISCONNECTED then h
    else if !ok then h.(hasError := true)
    else h.(state := DISCONNECTED, reachable := false)
  }

  /** A telemetry read raised, or returned this many OK signals and this many others. */
  datatype Reading = ReadRaised | Signals(ok: nat, bad: nat)

  function ApplyQuality(h: Health, ok: nat, bad: nat): Health {
    if ok + bad == 0 || ok == 0 then Demoted(h).(reachable := false, hasError := true)
    else if h.latch then Demoted(h).(reachable := false)
    else if bad > 0 then Demoted(h).(reachable := true, hasError := true)
    else h.(reachable := true, hasError := false,
            state := if h.state == DISCONNECTED || h.state == DEGRADED then OK else h.state)
  }

  /** A read that returns on a device configured without telemetry signals. */
  function ApplyNoSignals(h: Health): Health {
    if h.latch then Demoted(h).(reachable := false)
    else h.(reachable := true, hasError := false, state := if h.state == DISCONNECTED then OK else h.state)
  }

  function AfterTelemetry(h: Health, r: Reading, hasSignals: bool): Health {
    if h.state == DISCONNECTED then h
    else match r
      case ReadRaised => Demoted(h).(reachable := false, hasError := true)
      case Signals(ok, bad) => if hasSignals then ApplyQuality(h, ok, bad) else ApplyNoSignals(h)
  }

  function AfterStream(h: Health, ok: bool): Health {
    if ok then h.(reachable := true, hasError := false, state := if h.state == DISCONNECTED then OK else h.state)
    else Demoted(h).(hasError := true)
  }

  function DriverStateOf(h: Health): DriverState {
    if h.reachable then
      (if h.state == OK || h.state == DEGRADED || h.state == FAULT
       then (if h.state == OK then DRIVER_OK else DRIVER_DEGRADED) else DRIVER_OK)
    else if h.hasError then DRIVER_DEGRADED else INIT
  }

  // ---------------------------------------------------------------- scheduler

  datatype Plan = Plan(period: real, nextDue: real)

  /** Whole periods by which a due plan is late. */
  function Missed(p: Plan, now: real): nat
    requires p.period > 0.0
  {
    var late := ((now - p.nextDue) / p.period).Floor;
    if late < 0 then 0 else late
  }

  lemma MulMonotone(a: real, b: real, w: real)
    requires w > 0.0
    ensures a <= b ==> a * w <= b * w
    ensures a < b ==> a * w < b * w
  {}

  lemma FloorBounds(x: real, w: real, q: real)
    requires x >= 0.0 && w > 0.0 && q * w == x
    ensures 0 <= q.Floor && q.Floor as real * w <= x < (q.Floor + 1) as real * w
  {
    var m, n := q.Floor, q.Floor + 1;
    assert q < n as real;
    MulMonotone(q, 0.0, w);
    MulMonotone(m as real, q, w);
    MulMonotone(q, n as real, w);
    assert x < n as real * w;
  }

  lemma MissedBounds(p: Plan, now: real)
    requires p.period > 0.0 && now >= p.nextDue
    ensures Missed(p, now) as real * p.period <= now - p.nextDue < (Missed(p, now) + 1) as real * p.period
  {
    FloorBounds(now - p.nextDue, p.period, (now - p.nextDue) / p.period);
  }

  /** A plan that is not due has missed nothing. */
  lemma MissedNothing(p: Plan, now: real)
    requires p.period > 0.0 && now < p.nextDue
    ensures Missed(p, now) == 0
  {
    var late, w := (now - p.nextDue) / p.period, p.period;
    assert late * w == now - p.nextDue;
    MulMonotone(0.0, late, w);
    assert late < 0.0;
    assert late.Floor as real <= late;
  }

  function Postponed(p: Plan, periods: nat): Plan { p.(nextDue := p.nextDue + periods as real * p.period) }

  function Advance(p: Plan, now: real): Plan
    requires p.period > 0.0
  {
    if now < p.nextDue then p else Postponed(p, Missed(p, now) + 1)
  }

  predicate PositivePeriods(plans: seq<Plan>) { forall i :: 0 <= i < |plans| ==> plans[i].period > 0.0 }

  function AdvanceAll(plans: seq<Plan>, now: real): seq<Plan>
    requires PositivePeriods(plans)
  {
    seq(|plans|, i requires 0 <= i < |plans| => Advance(plans[i], now))
  }

  function Resync(plans: seq<Plan>, now: real): seq<Plan> {
    seq(|plans|, i requires 0 <= i < |plans| => plans[i].(nextDue := now + plans[i].period))
  }

  function MissedAll(plans: seq<Plan>, now: real): nat
    requires PositivePeriods(plans)
  {
    if plans == [] then 0
    else MissedAll(plans[..|plans| - 1], now) + Missed(plans[|plans| - 1], now)
  }

  /** Health after the due plans among the first n ran with these outcomes. */
  function AfterStreams(h: Health, plans: seq<Plan>, now: real, outcomes: seq<bool>, n: nat): Health
    requires n <= |plans|
  {
    if n == 0 then h else
      var g := AfterStreams(h, plans, now, outcomes, n - 1);
      if now < plans[n - 1].nextDue then g else AfterStream(g, n <= |outcomes| && outcomes[n - 1])
  }

  datatype Runner = Runner(health: Health, plans: seq<Plan>, needResync: bool, missedTotal: nat)

  function AfterPass(r: Runner, now: real, outcomes: seq<bool>): Runner
    requires PositivePeriods(r.plans)
  {
    if r.health.state == DISCONNECTED then r.(needResync := true)
    else if r.needResync then r.(needResync := false, plans := Resync(r.plans, now))
    else r.(health := AfterStreams(r.health, r.plans, now, outcomes, |r.plans|),
            plans := AdvanceAll(r.plans, now),
            missedTotal := r.missedTotal + MissedAll(r.plans, now))
  }

  /** How the main loop starts: disconnected, every plan due one period after `start`. */
  function Start(periods: seq<real>, start: real): Runner {
    var plans := seq(|periods|, i requires 0 <= i < |periods| => Plan(periods[i], start + periods[i]));
    Runner(AFTER_START, plans, false, 0)
  }

  // ---------------------------------------------------------------- steps of a run

  datatype Op =
    | Access(a: Action, noted: bool)
    | Command(a: Action, noted: bool)
    | Connect(ok: bool, noted: bool)
    | Disconnect(ok: bool)
    | NoteError
    | Telemetry(r: Reading)
    | Pass(now: real, outcomes: seq<bool>)

  function Step(r: Runner, op: Op, hasSignals: bool): (s: Runner)
    requires PositivePeriods(r.plans)
    ensures PositivePeriods(s.plans) && |s.plans| == |r.plans|
  {
    match op
    case Access(a, noted) => r.(health := AfterAccess(r.health, a, noted))
    case Command(a, noted) => r.(health := AfterCommand(r.health, a, noted))
    case Connect(ok, noted) => r.(health := AfterConnect(r.health, ok, noted))
    case Disconnect(ok) => r.(health := AfterDisconnect(r.health, ok))
    case NoteError => r.(health := r.health.(hasError := true))
    case Telemetry(reading) => r.(health := AfterTelemetry(r.health, reading, hasSignals))
    case Pass(now, outcomes) => AfterPass(r, now, outcomes)
  }

  /** One turn of the main loop: at most one request, a telemetry tick if it is due, then always
      a pass over the scheduled streams. */
  datatype Iteration = Iteration(request: Option<Op>, reading: Option<Reading>, now: real, outcomes: seq<bool>)

  predicate Proper(it: Iteration) {
    it.request.Some? ==> !it.request.value.Telemetry? && !it.request.value.Pass?
  }

  function BeforePass(r: Runner, it: Iteration, hasSignals: bool): (s: Runner)
    requires PositivePeriods(r.plans)
    ensures PositivePeriods(s.plans)
  {
    var served := if it.request.Some? then Step(r, it.request.value, hasSignals) else r;
    if it.reading.Some? then Step(served, Telemetry(it.reading.value), hasSignals) else served
  }

  function Iterate(r: Runner, it: Iteration, hasSignals: bool): (s: Runner)
    requires PositivePeriods(r.plans)
    ensures PositivePeriods(s.plans)
  {
    Step(BeforePass(r, it, hasSignals), Pass(it.now, it.outcomes), hasSignals)
  }

  // ---------------------------------------------------------------- the object

  class DeviceRunner {
    const hasSignals: bool
    var state: DeviceState
    var reachable: bool
    var latch: bool
    var hasError: bool
    var plans: seq<Plan>
    var needResync: bool
    var missedTotal: nat

    ghost function H(): Health
      reads this
    {
      Health(state, reachable, latch, hasError)
    }

    ghost function View(): Runner
      reads this
    {
      Runner(H(), plans, needResync, missedTotal)
    }

    /** The state in which the main loop starts; plans are due one period after `start`. */
    constructor (hasSignals: bool, periods: seq<real>, start: real)
      requires forall i :: 0 <= i < |periods| ==> periods[i] > 0.0
      ensures this.hasSignals == hasSignals && PositivePeriods(plans)
      ensures View() == Start(periods, start)
    {
      this.hasSignals := hasSignals;
      state, reachable, latch, hasError := DISCONNECTED, false, false, false;
      plans := seq(|periods|, i requires 0 <= i < |periods| => Plan(periods[i], start + periods[i]));
      needResync, missedTotal := false, 0;
    }

    method MarkDeviceUnreachable()
      modifies this`state, this`reachable, this`latch, this`hasError
      ensures H() == MarkUnreachable(old(H()))
    {
      reachable := false;
      if state != DISCONNECTED { state := DEGRADED; }
      latch := true;
      hasError := true;
    }

    method RpcRouteGetOrSet(a: Action, noted: bool)
      modifies this`state, this`reachable, this`latch, this`hasError
      ensures H() == AfterAccess(old(H()), a, noted)
    {
      if state == DISCONNECTED { return; }
      if noted { hasError := true; }
      match a {
        case Refused =>
        case Raised => MarkDeviceUnreachable();
        case Completed => latch := false;
      }
    }

    method RpcDispatchDeviceCommand(a: Action, noted: bool)
      modifies this`state, this`reachable, this`latch, this`hasError
      ensures H() == AfterCommand(old(H()), a, noted)
    {
      if state == DISCONNECTED { return; }
      if noted { hasError := true; }
      match a {
        case Refused =>
        case Raised => MarkDeviceUnreachable();
        case Completed =>
          reachable := true;
          hasError := false;
          latch := false;
      }
    }

    method RpcRouteConnectDevice(ok: bool, noted: bool)
      modifies this`state, this`reachable, this`latch, this`hasError
      ensures H() == AfterConnect(old(H()), ok, noted)
    {
      if state == OK && reachable { return; }
      if !ok {
        reachable := false;
        state := DISCONNECTED;
        hasError := true;
        return;
      }
      reachable := true;
      state := OK;
      hasError := false;
      latch := false;
      if noted { hasError := true; }
    }

    method RpcRouteDisconnectDevice(ok: bool)
      modifies this`state, this`reachable, this`hasError
      ensures H() == AfterDisconnect(old(H()), ok)
    {
      if state == DISCONNECTED { return; }
      if !ok { hasError := true; return; }
      reachable := false;
      state := DISCONNECTED;
    }

    method ApplyTelemetryQualityState(ok: nat, bad: nat)
      modifies this`state, this`reachable, this`hasError
      ensures H() == ApplyQuality(old(H()), ok, bad)
    {
      if ok + bad == 0 || ok == 0 {
        reachable := false;
        if state != DISCONNECTED { state := DEGRADED; }
        hasError := true;
        return;
      }
      if latch {
        reachable := false;
        if state != DISCONNECTED { state := DEGRADED; }
        return;
      }
      reachable := true;
      if bad > 0 {
        if state != DISCONNECTED { state := DEGRADED; }
        hasError := true;
        return;
      }
      if state == DISCONNECTED { state := OK; } else if state == DEGRADED { state := OK; }
      hasError := false;
    }

    method PublishTelemetry(r: Reading)
      modifies this`state, this`reachable, this`hasError
      ensures H() == AfterTelemetry(old(H()), r, hasSignals)
    {
      if state == DISCONNECTED { return; }
      match r {
        case ReadRaised =>
          reachable := false;
          if state != DISCONNECTED { state := DEGRADED; }
          hasError := true;
        case Signals(ok, bad) =>
          if hasSignals {
            ApplyTelemetryQualityState(ok, bad);
          } else if !latch {
            reachable := true;
            state := if state == DISCONNECTED then OK else state;
            hasError := false;
          } else {
            reachable := false;
            if state != DISCONNECTED { state := DEGRADED; }
          }
      }
    }

    method ReportDriverState() returns (d: DriverState)
      ensures d == DriverStateOf(H())
    {
      if reachable {
        if state == OK || state == DEGRADED || state == FAULT {
          return if state == OK then DRIVER_OK else DRIVER_DEGRADED;
        }
        return DRIVER_OK;
      }
      return if hasError then DRIVER_DEGRADED else INIT;
    }

    method RunStream(ok: bool)
      modifies this`state, this`reachable, this`hasError
      ensures H() == AfterStream(old(H()), ok)
    {
      if ok {
        reachable := true;
        if state == DISCONNECTED { state := OK; }
        hasError := false;
      } else {
        if state != DISCONNECTED { state := DEGRADED; }
        hasError := true;
      }
    }

    method PublishScheduledStreams(now: real, outcomes: seq<bool>)
      requires PositivePeriods(plans)
      modifies this
      ensures View() == AfterPass(old(View()), now, outcomes) && PositivePeriods(plans)
    {
      if state == DISCONNECTED {
        needResync := true;
        return;
      }
      if needResync {
        needResync := false;
        ResyncPlans(now);
        return;
      }
      RunDuePlans(now, outcomes);
    }

    method ResyncPlans(now: real)
      modifies this`plans
      ensures plans == Resync(old(plans), now)
    {
      for i := 0 to |plans|
        invariant |plans| == |old(plans)|
        invariant forall k :: 0 <= k < |plans| ==>
          plans[k] == if k < i then old(plans)[k].(nextDue := now + old(plans)[k].period) else old(plans)[k]
      {
        plans := plans[i := plans[i].(nextDue := now + plans[i].period)];
      }
    }

    method RunDuePlans(now: real, outcomes: seq<bool>)
      requires PositivePeriods(plans)
      modifies this`state, this`reachable, this`hasError, this`plans, this`missedTotal
      ensures H() == AfterStreams(old(H()), old(plans), now, outcomes, |old(plans)|)
      ensures plans == AdvanceAll(old(plans), now)
      ensures missedTotal == old(missedTotal) + MissedAll(old(plans), now)
    {
      hide Missed, AfterStream, Postponed;
      ghost var was := plans;
      for i := 0 to |plans|
        invariant |plans| == |was|
        invariant forall k :: 0 <= k < |was| ==> plans[k] == if k < i then Advance(was[k], now) else was[k]
        invariant missedTotal == old(missedTotal) + MissedAll(was[..i], now)
        invariant H() == AfterStreams(old(H()), was, now, outcomes, i)
      {
        assert was[..i + 1][..i] == was[..i];
        var plan := plans[i];
        if now < plan.nextDue {
          MissedNothing(plan, now);
          continue;
        }
        var missed := Missed(plan, now);
        plans := plans[i := Postponed(plan, missed + 1)];
        if missed > 0 { missedTotal := missedTotal + missed; }
        RunStream(i < |outcomes| && outcomes[i]);
      }
      assert was[..|was|] == was;
    }

    /** Serves one request of the kinds that can change the device's health. */
    method ServeRequest(op: Op)
      requires !op.Telemetry? && !op.Pass? && PositivePeriods(plans)
      modifies this`state, this`reachable, this`latch, this`hasError
      ensures View() == Step(old(View()), op, hasSignals)
    {
      match op {
        case Access(a, noted) => RpcRouteGetOrSet(a, noted);
        case Command(a, noted) => RpcDispatchDeviceCommand(a, noted);
        case Connect(ok, noted) => RpcRouteConnectDevice(ok, noted);
        case Disconnect(ok) => RpcRouteDisconnectDevice(ok);
        case NoteError => hasError := true;
      }
    }

    /** The body of the main loop. */
    method RunIteration(it: Iteration)
      requires Proper(it) && PositivePeriods(plans)
      modifies this
      ensures View() == Iterate(old(View()), it, hasSignals) && PositivePeriods(plans)
    {
      if it.request.Some? { ServeRequest(it.request.value); }
      if it.reading.Some? { PublishTelemetry(it.reading.value); }
      PublishScheduledStreams(it.now, it.outcomes);
    }
  }

  // ---------------------------------------------------------------- runs

  function Run(r: Runner, ops: seq<Op>, hasSignals: bool): (s: Runner)
    requires PositivePeriods(r.plans)
    ensures PositivePeriods(s.plans) && |s.plans| == |r.plans|
  {
    if ops == [] then r else Step(Run(r, ops[..|ops| - 1], hasSignals), ops[|ops| - 1], hasSignals)
  }

  ghost predicate Inv(h: Health) {
    (h.state == DISCONNECTED || h.state == OK || h.state == DEGRADED) &&
    (h.state == OK ==> h.reachable && !h.latch) &&
    (h.state == DISCONNECTED ==> !h.reachable)
  }

  /** Streams run only on a connected device; they keep it connected, never promote it, and do
      not touch the latch. */
  lemma {:induction false} StreamsKeep(h: Health, plans: seq<Plan>, now: real, outcomes: seq<bool>, n: nat)
    requires n <= |plans| && h.state != DISCONNECTED && Inv(h)
    ensures var g := AfterStreams(h, plans, now, outcomes, n);
            Inv(g) && g.latch == h.latch && g.state != DISCONNECTED && (g.state == OK ==> h.state == OK)
  {
    if n == 0 {
    } else {
      StreamsKeep(h, plans, now, outcomes, n - 1);
    }
  }

  lemma StepKeepsInv(r: Runner, op: Op, hasSignals: bool)
    requires PositivePeriods(r.plans) && Inv(r.health)
    ensures Inv(Step(r, op, hasSignals).health)
  {
    if op.Pass? && r.health.state != DISCONNECTED {
      StreamsKeep(r.health, r.plans, op.now, op.outcomes, |r.plans|);
    }
  }

  /** The inductive invariant of every run, and what it means for the reported driver state. */
  lemma {:induction false} RunKeepsInv(r: Runner, ops: seq<Op>, hasSignals: bool)
    requires PositivePeriods(r.plans) && r.health == AFTER_START
    ensures Inv(Run(r, ops, hasSignals).health)
    ensures DriverStateOf(Run(r, ops, hasSignals).health) == DRIVER_OK <==> Run(r, ops, hasSignals).health.state == OK
    ensures DriverStateOf(Run(r, ops, hasSignals).health) == INIT <==>
      !Run(r, ops, hasSignals).health.reachable && !Run(r, ops, hasSignals).health.hasError
  {
    if ops == [] {
    } else {
      RunKeepsInv(r, ops[..|ops| - 1], hasSignals);
      StepKeepsInv(Run(r, ops[..|ops| - 1], hasSignals), ops[|ops| - 1], hasSignals);
    }
  }

  /** Until something happens, a driver reports that it is initialising. */
  lemma StartsInitialising(periods: seq<real>, start: real)
    ensures var h := Start(periods, start).health;
            h.state == DISCONNECTED && !h.reachable && !h.latch && DriverStateOf(h) == INIT
  {}

  predicate Recovers(op: Op) {
    ((op.Access? || op.Command?) && op.a == Completed) || (op.Connect? && op.ok)
  }

  lemma StepKeepsLatch(r: Runner, op: Op, hasSignals: bool)
    requires PositivePeriods(r.plans) && Inv(r.health) && r.health.latch && !Recovers(op)
    ensures Step(r, op, hasSignals).health.latch
  {
    if op.Pass? && r.health.state != DISCONNECTED {
      StreamsKeep(r.health, r.plans, op.now, op.outcomes, |r.plans|);
    }
  }

  /** Between a failed action and the next completed action or connect, nothing (telemetry tick,
      scheduled stream, refused or failed request) brings the device back to OK. */
  lemma {:induction false} NoSilentRecovery(r: Runner, ops: seq<Op>, hasSignals: bool)
    requires PositivePeriods(r.plans) && Inv(r.health) && r.health.latch
    requires forall i :: 0 <= i < |ops| ==> !Recovers(ops[i])
    ensures var h := Run(r, ops, hasSignals).health;
            Inv(h) && h.latch && h.state != OK && DriverStateOf(h) != DRIVER_OK
  {
    if ops == [] {
    } else {
      var s, op := Run(r, ops[..|ops| - 1], hasSignals), ops[|ops| - 1];
      hide Step;
      NoSilentRecovery(r, ops[..|ops| - 1], hasSignals);
      StepKeepsInv(s, op, hasSignals);
      StepKeepsLatch(s, op, hasSignals);
    }
  }

  lemma FailedActionSetsLatch(h: Health, noted: bool)
    requires Inv(h) && h.state != DISCONNECTED
    ensures AfterAccess(h, Raised, noted).latch && AfterCommand(h, Raised, noted).latch
    ensures Inv(AfterAccess(h, Raised, noted)) && Inv(AfterCommand(h, Raised, noted))
  {}

  /** What makes a latched device reachable again without clearing the latch: a connected pass, not
      a resync, in which some due stream succeeds. */
  ghost predicate StreamReaches(r: Runner, op: Op) {
    op.Pass? && r.health.state != DISCONNECTED && !r.needResync && SomeStreamOk(r.plans, op.now, op.outcomes, |r.plans|)
  }

  ghost predicate SomeStreamOk(plans: seq<Plan>, now: real, outcomes: seq<bool>, n: nat) {
    exists i :: 0 <= i < n <= |plans| && plans[i].nextDue <= now && i < |outcomes| && outcomes[i]
  }

  /** What makes it unreachable: a tick, a raising action or a disconnect on a connected device,
      or a failed connect. */
  predicate Unreaches(h: Health, op: Op) {
    match op
    case Telemetry(_) => h.state != DISCONNECTED
    case Access(a, _) => a == Raised && h.state != DISCONNECTED
    case Command(a, _) => a == Raised && h.state != DISCONNECTED
    case Disconnect(ok) => ok && h.state != DISCONNECTED
    case Connect(ok, _) => !ok
    case NoteError => false
    case Pass(_, _) => false
  }

  lemma {:induction false} StreamsReachIff(h: Health, plans: seq<Plan>, now: real, outcomes: seq<bool>, n: nat)
    requires n <= |plans|
    ensures AfterStreams(h, plans, now, outcomes, n).reachable <==> h.reachable || SomeStreamOk(plans, now, outcomes, n)
  {
    if n == 0 {
    } else {
      StreamsReachIff(h, plans, now, outcomes, n - 1);
      if SomeStreamOk(plans, now, outcomes, n - 1) {
        var i :| 0 <= i < n - 1 && plans[i].nextDue <= now && i < |outcomes| && outcomes[i];
        assert SomeStreamOk(plans, now, outcomes, n);
      }
    }
  }

  /** When a latched device is reachable: over every run without a recovery, it is so after a step
      exactly when a stream just reached it, or it already was and the step did not undo it. */
  lemma LatchedReachableIff(r: Runner, ops: seq<Op>, op: Op, hasSignals: bool)
    requires PositivePeriods(r.plans) && Inv(r.health) && r.health.latch && !Recovers(op)
    requires forall i :: 0 <= i < |ops| ==> !Recovers(ops[i])
    ensures var s := Run(r, ops, hasSignals);
            Run(r, ops + [op], hasSignals).health.reachable <==>
            StreamReaches(s, op) || (s.health.reachable && !Unreaches(s.health, op))
  {
    NoSilentRecovery(r, ops, hasSignals);
    assert (ops + [op])[..|ops|] == ops;
    var s := Run(r, ops, hasSignals);
    ReachableAfterIff(s, op, hasSignals);
    hide Step, StreamReaches;
  }

  /** Exactly when a telemetry tick leaves the device OK. */
  lemma TelemetryLeavesOkIff(h: Health, r: Reading, hasSignals: bool)
    requires Inv(h)
    ensures AfterTelemetry(h, r, hasSignals).state == OK <==>
      h.state != DISCONNECTED && r.Signals? && !h.latch &&
      (if hasSignals then r.ok > 0 && r.bad == 0 else h.state == OK)
  {}

  /** A device without telemetry signals is never promoted by a tick, although the comment beside
      that branch speaks of promotion: once degraded, only a successful connect restores OK. */
  lemma {:induction false} WithoutSignalsOnlyConnectRestores(r: Runner, ops: seq<Op>)
    requires PositivePeriods(r.plans) && Inv(r.health) && r.health.state != OK
    requires forall i :: 0 <= i < |ops| ==> !(ops[i].Connect? && ops[i].ok)
    ensures Run(r, ops, false).health.state != OK && Inv(Run(r, ops, false).health)
  {
    if ops == [] {
    } else {
      var s, op := Run(r, ops[..|ops| - 1], false), ops[|ops| - 1];
      hide Step;
      WithoutSignalsOnlyConnectRestores(r, ops[..|ops| - 1]);
      StepKeepsInv(s, op, false);
      WithoutSignalsStep(s, op);
    }
  }

  lemma WithoutSignalsStep(r: Runner, op: Op)
    requires PositivePeriods(r.plans) && Inv(r.health) && r.health.state != OK && !(op.Connect? && op.ok)
    ensures Step(r, op, false).health.state != OK
  {
    if op.Pass? && r.health.state != DISCONNECTED {
      StreamsKeep(r.health, r.plans, op.now, op.outcomes, |r.plans|);
    }
  }

  /** With signals, a completed action followed by a clean tick does restore it. */
  lemma CompletedActionThenCleanTickRestores(h: Health, noted: bool, ok: nat)
    requires Inv(h) && h.state != DISCONNECTED && ok > 0
    ensures AfterTelemetry(AfterAccess(h, Completed, noted), Signals(ok, 0), true).state == OK
    ensures AfterTelemetry(AfterCommand(h, Completed, noted), Signals(ok, 0), true).state == OK
  {}

  // ---------------------------------------------------------------- every field after every step

  /** Some due stream among the first n failed. */
  ghost predicate SomeStreamFailed(plans: seq<Plan>, now: real, outcomes: seq<bool>, n: nat) {
    exists i :: 0 <= i < n <= |plans| && plans[i].nextDue <= now && !(i < |outcomes| && outcomes[i])
  }

  /** The pass runs its due streams: the device is connected and no resync is owed. */
  predicate RunsStreams(r: Runner, op: Op) { op.Pass? && r.health.state != DISCONNECTED && !r.needResync }

  lemma {:induction false} StreamsLeaveOkIff(h: Health, plans: seq<Plan>, now: real, outcomes: seq<bool>, n: nat)
    requires n <= |plans| && h.state != DISCONNECTED
    ensures var g := AfterStreams(h, plans, now, outcomes, n);
            g.state != DISCONNECTED &&
            (g.state == OK <==> h.state == OK && !SomeStreamFailed(plans, now, outcomes, n))
  {
    if n == 0 {
    } else {
      StreamsLeaveOkIff(h, plans, now, outcomes, n - 1);
      if SomeStreamFailed(plans, now, outcomes, n - 1) {
        var i :| 0 <= i < n - 1 && plans[i].nextDue <= now && !(i < |outcomes| && outcomes[i]);
        assert SomeStreamFailed(plans, now, outcomes, n);
      }
    }
  }

  /** When a step leaves the device disconnected. */
  lemma DisconnectedAfterIff(r: Runner, op: Op, hasSignals: bool)
    requires PositivePeriods(r.plans) && Inv(r.health)
    ensures Step(r, op, hasSignals).health.state == DISCONNECTED <==>
      (op.Disconnect? && op.ok) || (op.Connect? && !op.ok && r.health.state != OK) ||
      (r.health.state == DISCONNECTED && !(op.Connect? && op.ok))
  {
    if RunsStreams(r, op) { StreamsKeep(r.health, r.plans, op.now, op.outcomes, |r.plans|); }
  }

  /** When a step leaves the device OK; in particular a successful connect does from every state. */
  lemma OkAfterIff(r: Runner, op: Op, hasSignals: bool)
    requires PositivePeriods(r.plans) && Inv(r.health)
    ensures Step(r, op, hasSignals).health.state == OK <==>
      match op
      case Connect(ok, _) => ok || r.health.state == OK
      case Telemetry(reading) =>
        r.health.state != DISCONNECTED && reading.Signals? && !r.health.latch &&
        (if hasSignals then reading.ok > 0 && reading.bad == 0 else r.health.state == OK)
      case Access(a, _) => r.health.state == OK && a != Raised
      case Command(a, _) => r.health.state == OK && a != Raised
      case Disconnect(ok) => r.health.state == OK && !ok
      case NoteError => r.health.state == OK
      case Pass(now, outcomes) =>
        r.health.state == OK && (r.needResync || !SomeStreamFailed(r.plans, now, outcomes, |r.plans|))
  {
    if RunsStreams(r, op) { StreamsLeaveOkIff(r.health, r.plans, op.now, op.outcomes, |r.plans|); }
    hide AfterStreams, SomeStreamFailed;
  }

  /** When a step leaves the device reachable. */
  lemma ReachableAfterIff(r: Runner, op: Op, hasSignals: bool)
    requires PositivePeriods(r.plans) && Inv(r.health)
    ensures Step(r, op, hasSignals).health.reachable <==>
      match op
      case Connect(ok, _) => ok || r.health.state == OK
      case Telemetry(reading) =>
        r.health.state != DISCONNECTED && reading.Signals? && !r.health.latch && (hasSignals ==> reading.ok > 0)
      case Access(a, _) => r.health.reachable && a != Raised
      case Command(a, _) =>
        r.health.state != DISCONNECTED && (a == Completed || (a == Refused && r.health.reachable))
      case Disconnect(ok) => r.health.reachable && !ok
      case NoteError => r.health.reachable
      case Pass(_, _) => r.health.reachable || StreamReaches(r, op)
  {
    if RunsStreams(r, op) { StreamsReachIff(r.health, r.plans, op.now, op.outcomes, |r.plans|); }
    hide AfterStreams, SomeStreamOk;
  }

  /** When a step leaves the latch set: a raising action sets it, a completed action or a successful
      connect clears it, and nothing else touches it. */
  lemma LatchAfterIff(r: Runner, op: Op, hasSignals: bool)
    requires PositivePeriods(r.plans) && Inv(r.health)
    ensures Step(r, op, hasSignals).health.latch <==>
      if (op.Access? || op.Command?) && r.health.state != DISCONNECTED && op.a != Refused then op.a == Raised
      else r.health.latch && !(op.Connect? && op.ok)
  {
    if RunsStreams(r, op) { StreamsKeep(r.health, r.plans, op.now, op.outcomes, |r.plans|); }
    hide AfterStreams;
  }

  /** The last due stream among the first n, or -1. */
  function LastDue(plans: seq<Plan>, now: real, n: nat): (i: int)
    requires n <= |plans|
    ensures -1 <= i < n && (i >= 0 ==> plans[i].nextDue <= now)
    ensures forall j :: i < j < n ==> now < plans[j].nextDue
  {
    if n == 0 then -1 else if plans[n - 1].nextDue <= now then n - 1 else LastDue(plans, now, n - 1)
  }

  lemma {:induction false} StreamsErrorIff(h: Health, plans: seq<Plan>, now: real, outcomes: seq<bool>, n: nat)
    requires n <= |plans|
    ensures var i := LastDue(plans, now, n);
            AfterStreams(h, plans, now, outcomes, n).hasError <==>
            if i < 0 then h.hasError else !(i < |outcomes| && outcomes[i])
  {
    if n == 0 {
    } else {
      StreamsErrorIff(h, plans, now, outcomes, n - 1);
    }
  }

  /** When an error is recorded after a step. */
  lemma ErrorAfterIff(r: Runner, op: Op, hasSignals: bool)
    requires PositivePeriods(r.plans) && Inv(r.health)
    ensures var h, connected := r.health, r.health.state != DISCONNECTED;
            Step(r, op, hasSignals).health.hasError <==>
            match op
            case Connect(ok, noted) => if h.state == OK then h.hasError else !ok || noted
            case Telemetry(reading) =>
              if !connected then h.hasError
              else reading.ReadRaised? || (hasSignals && reading.ok == 0) ||
                   (if h.latch then h.hasError else hasSignals && reading.bad > 0)
            case Access(a, noted) => h.hasError || (connected && (noted || a == Raised))
            case Command(a, noted) =>
              if !connected then h.hasError else a != Completed && (h.hasError || noted || a == Raised)
            case Disconnect(ok) => h.hasError || (connected && !ok)
            case NoteError => true
            case Pass(now, outcomes) =>
              var i := LastDue(r.plans, now, |r.plans|);
              if !RunsStreams(r, op) || i < 0 then h.hasError else !(i < |outcomes| && outcomes[i])
  {
    if RunsStreams(r, op) { StreamsErrorIff(r.health, r.plans, op.now, op.outcomes, |r.plans|); }
    hide AfterStreams;
  }

  /** A successful disconnect lasts: every run after it without a successful connect finds the device
      disconnected and unreachable, and the driver not OK. */
  lemma {:induction false} StaysDisconnected(r: Runner, ops: seq<Op>, hasSignals: bool)
    requires PositivePeriods(r.plans) && Inv(r.health)
    requires forall i :: 0 <= i < |ops| ==> !(ops[i].Connect? && ops[i].ok)
    ensures var h := Run(Step(r, Disconnect(true), hasSignals), ops, hasSignals).health;
            Inv(h) && h.state == DISCONNECTED && !h.reachable && DriverStateOf(h) != DRIVER_OK
  {
    hide Step;
    if ops == [] {
      StepKeepsInv(r, Disconnect(true), hasSignals);
      DisconnectedAfterIff(r, Disconnect(true), hasSignals);
    } else {
      var s := Run(Step(r, Disconnect(true), hasSignals), ops[..|ops| - 1], hasSignals);
      StaysDisconnected(r, ops[..|ops| - 1], hasSignals);
      StepKeepsInv(s, ops[|ops| - 1], hasSignals);
      DisconnectedAfterIff(s, ops[|ops| - 1], hasSignals);
    }
  }

  // ---------------------------------------------------------------- scheduler conservation

  /** Books kept beside one plan: the time of its last resync, what it fired and missed since,
      what it missed before, and the time of the last connected pass. */
  datatype Books = Books(anchor: real, fired: nat, missed: nat, missedBefore: nat, seen: real)

  function BooksStep(b: Books, p: Plan, r: Runner, now: real): Books
    requires p.period > 0.0
  {
    if r.health.state == DISCONNECTED then b
    else if r.needResync then Books(now, 0, 0, b.missedBefore + b.missed, now)
    else if now < p.nextDue then b.(seen := now)
    else b.(fired := b.fired + 1, missed := b.missed + Missed(p, now), seen := now)
  }

  /** The due time counts periods from the anchor, and every whole period that has passed since
      the anchor was either fired or counted as missed. */
  ghost predicate Balanced(p: Plan, b: Books) {
    var n := b.fired + b.missed;
    p.period > 0.0 && p.nextDue == b.anchor + (1 + n) as real * p.period &&
    n as real * p.period <= b.seen - b.anchor < (n + 1) as real * p.period
  }

  /** The books in closed form: fired plus missed is the number of whole periods between the
      anchor and the last connected pass. */
  lemma EveryPeriodIsFiredOrMissed(p: Plan, b: Books)
    requires Balanced(p, b)
    ensures b.fired + b.missed == ((b.seen - b.anchor) / p.period).Floor
  {
    var n, w, q := b.fired + b.missed, p.period, (b.seen - b.anchor) / p.period;
    QuotientBounds(b.seen - b.anchor, w, q, n);
  }

  lemma QuotientBounds(x: real, w: real, q: real, n: nat)
    requires w > 0.0 && q * w == x && n as real * w <= x < (n + 1) as real * w
    ensures q.Floor == n
  {
    Between(x, w, q, n as real, (n + 1) as real);
  }

  lemma Between(x: real, w: real, q: real, a: real, b: real)
    requires w > 0.0 && q * w == x && a * w <= x < b * w
    ensures a <= q < b
  {
    MulMonotone(q, a, w);
    MulMonotone(b, q, w);
  }

  lemma StartIsBalanced(periods: seq<real>, start: real)
    requires forall i :: 0 <= i < |periods| ==> periods[i] > 0.0
    ensures AllBalanced(Start(periods, start), seq(|periods|, _ => Books(start, 0, 0, 0, start)), start)
  {
    forall i | 0 <= i < |periods| ensures Balanced(Plan(periods[i], start + periods[i]), Books(start, 0, 0, 0, start)) {
      assert (1 as real) * periods[i] == periods[i] && (0 as real) * periods[i] == 0.0;
    }
  }

  lemma Distribute(a: nat, b: nat, w: real)
    ensures (a + b) as real * w == a as real * w + b as real * w
  {
    assert (a + b) as real == a as real + b as real;
  }

  /** One pass keeps the books balanced: afterwards the plan is due in the future, and if it
      fired it is due within one period. */
  lemma PassKeepsBalance(r: Runner, p: Plan, b: Books, now: real)
    requires PositivePeriods(r.plans) && Balanced(p, b) && b.seen <= now
    ensures var p' := if r.health.state == DISCONNECTED then p
                      else if r.needResync then p.(nextDue := now + p.period) else Advance(p, now);
            Balanced(p', BooksStep(b, p, r, now)) &&
            (r.health.state != DISCONNECTED ==> now < p'.nextDue) &&
            (r.health.state != DISCONNECTED && !r.needResync && now >= p.nextDue ==> p'.nextDue - p.period <= now)
  {
    if r.health.state != DISCONNECTED && !r.needResync && now >= p.nextDue {
      FiredPlanBalances(p, b, now);
    }
  }

  lemma FiredPlanBalances(p: Plan, b: Books, now: real)
    requires Balanced(p, b) && now >= p.nextDue
    ensures var b' := b.(fired := b.fired + 1, missed := b.missed + Missed(p, now), seen := now);
            Balanced(Advance(p, now), b') && now < Advance(p, now).nextDue && Advance(p, now).nextDue - p.period <= now
  {
    hide Missed;
    MissedBounds(p, now);
    var n, m, w := b.fired + b.missed, Missed(p, now), p.period;
    Distribute(1 + n, m, w);
    Distribute(1 + n, m + 1, w);
    Distribute(m, 1, w);
    assert (1 as real) * w == w;
  }

  function BooksRun(r: Runner, books: seq<Books>, ops: seq<Op>, hasSignals: bool): (c: seq<Books>)
    requires PositivePeriods(r.plans) && |books| == |r.plans|
    ensures |c| == |r.plans|
  {
    if ops == [] then books else
      var before, op := ops[..|ops| - 1], ops[|ops| - 1];
      var s, b := Run(r, before, hasSignals), BooksRun(r, books, before, hasSignals);
      if op.Pass? then seq(|b|, i requires 0 <= i < |b| => BooksStep(b[i], s.plans[i], s, op.now)) else b
  }

  function MissedIn(books: seq<Books>): nat {
    if books == [] then 0
    else MissedIn(books[..|books| - 1]) + books[|books| - 1].missed + books[|books| - 1].missedBefore
  }

  ghost predicate AllBalanced(r: Runner, books: seq<Books>, seen: real) {
    |books| == |r.plans| &&
    forall i :: 0 <= i < |books| ==> Balanced(r.plans[i], books[i]) && books[i].seen <= seen
  }

  /** Pass times of a run never go back before `t`. */
  predicate Monotone(ops: seq<Op>, t: real) {
    ops == [] ||
    (Monotone(ops[..|ops| - 1], t) &&
     (ops[|ops| - 1].Pass? ==> ops[|ops| - 1].now >= Latest(ops[..|ops| - 1], t)))
  }

  function Latest(ops: seq<Op>, t: real): real {
    if ops == [] then t else if ops[|ops| - 1].Pass? then ops[|ops| - 1].now else Latest(ops[..|ops| - 1], t)
  }

  lemma PassBalances(r: Runner, books: seq<Books>, now: real, outcomes: seq<bool>, seen: real)
    requires PositivePeriods(r.plans) && AllBalanced(r, books, seen) && seen <= now
    ensures var after := seq(|books|, i requires 0 <= i < |books| => BooksStep(books[i], r.plans[i], r, now));
            AllBalanced(AfterPass(r, now, outcomes), after, now)
  {
    hide Balanced, Advance;
    forall i | 0 <= i < |books|
      ensures Balanced(AfterPass(r, now, outcomes).plans[i], BooksStep(books[i], r.plans[i], r, now))
    {
      PassKeepsBalance(r, r.plans[i], books[i], now);
    }
  }

  /** Over every run with a monotone clock, every plan's books stay balanced. */
  lemma {:induction false} RunStaysBalanced(r: Runner, books: seq<Books>, ops: seq<Op>, hasSignals: bool, t: real)
    requires PositivePeriods(r.plans) && AllBalanced(r, books, t) && Monotone(ops, t)
    ensures AllBalanced(Run(r, ops, hasSignals), BooksRun(r, books, ops, hasSignals), Latest(ops, t))
  {
    hide Balanced, AfterPass, BooksStep;
    if ops == [] {
    } else {
      var before, op := ops[..|ops| - 1], ops[|ops| - 1];
      RunStaysBalanced(r, books, before, hasSignals, t);
      if op.Pass? {
        PassBalances(Run(r, before, hasSignals), BooksRun(r, books, before, hasSignals), op.now, op.outcomes,
                     Latest(before, t));
      }
    }
  }

  /** Sum over the books after one pass. */
  lemma {:induction false} MissedInStep(r: Runner, plans: seq<Plan>, books: seq<Books>, now: real)
    requires PositivePeriods(plans) && |books| == |plans|
    ensures MissedIn(seq(|books|, i requires 0 <= i < |books| => BooksStep(books[i], plans[i], r, now)))
         == MissedIn(books) + if r.health.state == DISCONNECTED || r.needResync then 0 else MissedAll(plans, now)
  {
    var after := seq(|books|, i requires 0 <= i < |books| => BooksStep(books[i], plans[i], r, now));
    if books == [] {
    } else {
      var n := |books| - 1;
      MissedInStep(r, plans[..n], books[..n], now);
      assert after[..n] == seq(n, i requires 0 <= i < n => BooksStep(books[..n][i], plans[..n][i], r, now));
    }
  }

  /** The published total is the sum over plans of what each missed, whatever else happened. */
  lemma {:induction false} MissedTotalIsTheSum(r: Runner, books: seq<Books>, ops: seq<Op>, hasSignals: bool)
    requires PositivePeriods(r.plans) && |books| == |r.plans| && r.missedTotal == MissedIn(books)
    ensures Run(r, ops, hasSignals).missedTotal == MissedIn(BooksRun(r, books, ops, hasSignals))
  {
    hide Missed, Advance, AfterStreams, BooksStep;
    if ops == [] {
    } else {
      var before, op := ops[..|ops| - 1], ops[|ops| - 1];
      MissedTotalIsTheSum(r, books, before, hasSignals);
      if op.Pass? {
        var s := Run(r, before, hasSignals);
        MissedInStep(s, s.plans, BooksRun(r, books, before, hasSignals), op.now);
      }
    }
  }

  // ---------------------------------------------------------------- outages

  predicate AllProper(its: seq<Iteration>) { forall i :: 0 <= i < |its| ==> Proper(its[i]) }

  predicate AllPositive(periods: seq<real>) { forall i :: 0 <= i < |periods| ==> periods[i] > 0.0 }

  /** The main loop from start-up. */
  function Loop(periods: seq<real>, start: real, its: seq<Iteration>, hasSignals: bool): (s: Runner)
    requires AllPositive(periods)
    ensures PositivePeriods(s.plans)
  {
    if its == [] then Start(periods, start)
    else Iterate(Loop(periods, start, its[..|its| - 1], hasSignals), its[|its| - 1], hasSignals)
  }

  function OpsOf(it: Iteration): seq<Op> {
    (if it.request.Some? then [it.request.value] else []) +
    (if it.reading.Some? then [Telemetry(it.reading.value)] else []) + [Pass(it.now, it.outcomes)]
  }

  function AllOps(its: seq<Iteration>): seq<Op> {
    if its == [] then [] else AllOps(its[..|its| - 1]) + OpsOf(its[|its| - 1])
  }

  lemma RunSnoc(r: Runner, ops: seq<Op>, op: Op, hasSignals: bool)
    requires PositivePeriods(r.plans)
    ensures Run(r, ops + [op], hasSignals) == Step(Run(r, ops, hasSignals), op, hasSignals)
  {
    assert (ops + [op])[..|ops|] == ops;
  }

  lemma IterateIsRun(r: Runner, ops: seq<Op>, it: Iteration, hasSignals: bool)
    requires PositivePeriods(r.plans)
    ensures Run(r, ops + OpsOf(it), hasSignals) == Iterate(Run(r, ops, hasSignals), it, hasSignals)
  {
    hide Step, Run;
    var served := ops + (if it.request.Some? then [it.request.value] else []);
    if it.request.Some? { RunSnoc(r, ops, it.request.value, hasSignals); } else { assert served == ops; }
    var ticked := served + (if it.reading.Some? then [Telemetry(it.reading.value)] else []);
    if it.reading.Some? {
      RunSnoc(r, served, Telemetry(it.reading.value), hasSignals);
    } else {
      assert ticked == served;
    }
    assert Run(r, ticked, hasSignals) == BeforePass(Run(r, ops, hasSignals), it, hasSignals);
    RunSnoc(r, ticked, Pass(it.now, it.outcomes), hasSignals);
    assert ops + OpsOf(it) == ticked + [Pass(it.now, it.outcomes)];
  }

  /** The loop is one of the runs that the theorems above speak of. */
  lemma {:induction false} LoopIsRun(periods: seq<real>, start: real, its: seq<Iteration>, hasSignals: bool)
    requires AllPositive(periods)
    ensures Loop(periods, start, its, hasSignals) == Run(Start(periods, start), AllOps(its), hasSignals)
  {
    hide Iterate, Step, OpsOf;
    if its == [] {
    } else {
      LoopIsRun(periods, start, its[..|its| - 1], hasSignals);
      IterateIsRun(Start(periods, start), AllOps(its[..|its| - 1]), its[|its| - 1], hasSignals);
    }
  }

  /** A step other than a pass does not touch the schedule, and only a successful connect ends
      an outage. */
  lemma RequestKeepsSchedule(r: Runner, op: Op, hasSignals: bool)
    requires PositivePeriods(r.plans) && Inv(r.health) && !op.Pass?
    ensures var s := Step(r, op, hasSignals);
            s == r.(health := s.health) &&
            (r.health.state == DISCONNECTED ==> (s.health.state != DISCONNECTED <==> op.Connect? && op.ok)) &&
            (op.Telemetry? && r.health.state != DISCONNECTED ==> s.health.state != DISCONNECTED)
  {}

  lemma BeforePassKeeps(r: Runner, it: Iteration, hasSignals: bool)
    requires PositivePeriods(r.plans) && Inv(r.health) && Proper(it)
    ensures var s := BeforePass(r, it, hasSignals);
            Inv(s.health) && s == r.(health := s.health) &&
            (r.health.state == DISCONNECTED ==> (s.health.state != DISCONNECTED <==> Connects(it)))
  {
    hide Step;
    var served := if it.request.Some? then Step(r, it.request.value, hasSignals) else r;
    if it.request.Some? {
      StepKeepsInv(r, it.request.value, hasSignals);
      RequestKeepsSchedule(r, it.request.value, hasSignals);
    }
    if it.reading.Some? {
      StepKeepsInv(served, Telemetry(it.reading.value), hasSignals);
      RequestKeepsSchedule(served, Telemetry(it.reading.value), hasSignals);
    }
  }

  predicate Connects(it: Iteration) { it.request.Some? && it.request.value.Connect? && it.request.value.ok }

  lemma IterationFlagsOutage(r: Runner, it: Iteration, hasSignals: bool)
    requires PositivePeriods(r.plans) && Inv(r.health) && Proper(it)
    ensures var s := Iterate(r, it, hasSignals);
            Inv(s.health) && (s.needResync <==> s.health.state == DISCONNECTED)
  {
    BeforePassKeeps(r, it, hasSignals);
    hide BeforePass;
    var s := BeforePass(r, it, hasSignals);
    if s.health.state != DISCONNECTED { StreamsKeep(s.health, s.plans, it.now, it.outcomes, |s.plans|); }
  }

  /** After every iteration the resync flag is set exactly when the device is disconnected: the
      flag outlives the outage. */
  lemma {:induction false} LoopFlagsOutage(periods: seq<real>, start: real, its: seq<Iteration>, hasSignals: bool)
    requires AllPositive(periods) && AllProper(its)
    ensures var s := Loop(periods, start, its, hasSignals);
            Inv(s.health) && (its != [] ==> (s.needResync <==> s.health.state == DISCONNECTED))
  {
    hide Iterate;
    if its == [] {
    } else {
      LoopFlagsOutage(periods, start, its[..|its| - 1], hasSignals);
      IterationFlagsOutage(Loop(periods, start, its[..|its| - 1], hasSignals), its[|its| - 1], hasSignals);
    }
  }

  lemma MissedSomethingIff(p: Plan, now: real)
    requires p.period > 0.0
    ensures Missed(p, now) > 0 <==> now - p.nextDue >= p.period
  {
    var late, w := (now - p.nextDue) / p.period, p.period;
    assert late * w == now - p.nextDue;
    assert 1.0 * w == w;
    if late >= 1.0 {
      MulMonotone(1.0, late, w);
      assert late.Floor >= 1;
    } else {
      MulMonotone(late, 1.0, w);
      assert late.Floor < 1;
    }
  }

  /** Some plan is late by at least one whole period. */
  ghost predicate SomeLate(plans: seq<Plan>, now: real) {
    exists i :: 0 <= i < |plans| && now - plans[i].nextDue >= plans[i].period
  }

  lemma {:induction false} MissedAnyIff(plans: seq<Plan>, now: real)
    requires PositivePeriods(plans)
    ensures MissedAll(plans, now) > 0 <==> SomeLate(plans, now)
  {
    if plans == [] {
    } else {
      hide Missed;
      var n := |plans| - 1;
      MissedAnyIff(plans[..n], now);
      MissedSomethingIff(plans[n], now);
      assert forall i :: 0 <= i < n ==> plans[..n][i] == plans[i];
    }
  }

  /** An iteration that begins disconnected leaves the missed total alone, if and only if it is
      not the very first one, connecting the device when some plan is already a period late. */
  lemma OutageAddsNothingIff(periods: seq<real>, start: real, its: seq<Iteration>, it: Iteration, hasSignals: bool)
    requires AllPositive(periods) && AllProper(its) && Proper(it)
    requires Loop(periods, start, its, hasSignals).health.state == DISCONNECTED
    ensures var before, after := Loop(periods, start, its, hasSignals), Loop(periods, start, its + [it], hasSignals);
            after.missedTotal == before.missedTotal <==>
            !(its == [] && Connects(it) && SomeLate(Start(periods, start).plans, it.now))
  {
    assert (its + [it])[..|its|] == its;
    var r := Loop(periods, start, its, hasSignals);
    LoopFlagsOutage(periods, start, its, hasSignals);
    BeforePassKeeps(r, it, hasSignals);
    MissedAnyIff(r.plans, it.now);
    hide BeforePass, MissedAll, Missed;
  }

  /** Hence, once the loop has turned, whole outages add nothing, up to and including the
      iteration that reconnects. */
  lemma {:induction false} OutageAddsNothing(periods: seq<real>, start: real, its: seq<Iteration>,
                                             outage: seq<Iteration>, hasSignals: bool)
    requires AllPositive(periods) && its != [] && AllProper(its + outage)
    requires forall i :: 0 <= i < |outage| ==>
      Loop(periods, start, its + outage[..i], hasSignals).health.state == DISCONNECTED
    ensures Loop(periods, start, its + outage, hasSignals).missedTotal
         == Loop(periods, start, its, hasSignals).missedTotal
  {
    hide Loop, SomeLate;
    if outage == [] {
      assert its + outage == its;
    } else {
      var n := |outage| - 1;
      var before, it := outage[..n], outage[n];
      PrefixProper(its, before, it);
      assert (its + before) + [it] == its + outage;
      assert forall i :: 0 <= i < n ==> before[..i] == outage[..i];
      OutageAddsNothing(periods, start, its, before, hasSignals);
      OutageAddsNothingIff(periods, start, its + before, it, hasSignals);
    }
  }

  lemma PrefixProper(its: seq<Iteration>, before: seq<Iteration>, it: Iteration)
    ensures AllProper((its + before) + [it]) ==> AllProper(its + before) && Proper(it)
  {
    var shorter, longer := its + before, (its + before) + [it];
    assert forall i :: 0 <= i < |shorter| ==> longer[i] == shorter[i];
    assert longer[|shorter|] == it;
  }

  /** The exception is real: 100 one-second periods of waiting for the first connect are counted
      as missed. */
  lemma StartupCountsAsMissed()
    ensures var first := Iteration(Some(Connect(true, false)), None, 101.0, [true]);
            Loop([1.0], 0.0, [first], true).missedTotal == 100
  {
    var first := Iteration(Some(Connect(true, false)), None, 101.0, [true]);
    var r := Start([1.0], 0.0);
    assert [first][..0] == [];
    assert Loop([1.0], 0.0, [first], true) == Iterate(Loop([1.0], 0.0, [], true), first, true);
    assert r.plans == [Plan(1.0, 1.0)];
    assert MissedAll([Plan(1.0, 1.0)], 101.0) == Missed(Plan(1.0, 1.0), 101.0) by {
      assert [Plan(1.0, 1.0)][..0] == [];
    }
  }

  lemma DisconnectedPassAwaitsResync(r: Runner, now: real, outcomes: seq<bool>)
    requires PositivePeriods(r.plans) && r.health.state == DISCONNECTED
    ensures AfterPass(r, now, outcomes) == r.(needResync := true)
  {}

  const CONNECTING := Iteration(Some(Connect(true, false)), None, 0.0, [])
  const CONNECTED := Runner(Health(OK, true, false, false), [Plan(1.0, 1.0)], false, 0)

  /** A device with one stream of period 1, connected in the first iteration. */
  lemma FirstConnect(hasSignals: bool)
    ensures Loop([1.0], 0.0, [CONNECTING], hasSignals) == CONNECTED
  {
    var plans, h := CONNECTED.plans, CONNECTED.health;
    assert [CONNECTING][..0] == [] && plans[..0] == [];
    assert Start([1.0], 0.0).plans == plans;
    assert AfterStreams(h, plans, 0.0, [], 1) == AfterStreams(h, plans, 0.0, [], 0) == h;
    MissedNothing(plans[0], 0.0);
    assert MissedAll(plans[..0], 0.0) == 0 && MissedAll(plans, 0.0) == 0;
    assert AdvanceAll(plans, 0.0) == plans;
  }

  /** A latch does not imply unreachable: connect, then a command fails and the stream due in the
      same iteration succeeds. */
  lemma LatchedCanBeReachable()
    ensures var failing := Iteration(Some(Command(Raised, false)), None, 1.0, [true]);
            var h := Loop([1.0], 0.0, [CONNECTING, failing], true).health;
            h.latch && h.reachable
  {
    var failing := Iteration(Some(Command(Raised, false)), None, 1.0, [true]);
    FirstConnect(true);
    assert [CONNECTING, failing][..1] == [CONNECTING];
    var plans, failed := CONNECTED.plans, Health(DEGRADED, false, true, true);
    assert AfterStreams(failed, plans, 1.0, [true], 0) == failed;
    assert AfterStreams(failed, plans, 1.0, [true], 1) == AfterStream(failed, true);
    assert Loop([1.0], 0.0, [CONNECTING, failing], true) == Iterate(CONNECTED, failing, true);
  }

  /** A clean tick need not promote: without telemetry signals, a failed stream degrades the device
      and the tick after it, with no latch set, leaves it degraded. */
  lemma CleanTickDoesNotPromote()
    ensures var failing := Iteration(None, None, 1.0, [false]);
            var h := Loop([1.0], 0.0, [CONNECTING, failing], false).health;
            !h.latch && h.reachable && h.state == DEGRADED && AfterTelemetry(h, Signals(0, 0), false).state == DEGRADED
  {
    var failing := Iteration(None, None, 1.0, [false]);
    FirstConnect(false);
    assert [CONNECTING, failing][..1] == [CONNECTING];
    var plans, h := CONNECTED.plans, CONNECTED.health;
    assert AfterStreams(h, plans, 1.0, [false], 0) == h;
    assert AfterStreams(h, plans, 1.0, [false], 1) == AfterStream(h, false);
    assert Loop([1.0], 0.0, [CONNECTING, failing], false) == Iterate(CONNECTED, failing, false);
  }
}
