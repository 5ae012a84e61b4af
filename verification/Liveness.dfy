/** Device liveness as the manager publishes it (src/experiment_control/manager.py) and its
    agreement with the status snapshot and the heartbeat policy. */
module Liveness {
  import opened Options
  import opened DriverHandle
  import HeartbeatEpisodes
  import BoundedQueue

  datatype Liveness = OFFLINE | STALE | DISCONNECTED | ONLINE

  /** The liveness update: a device without a heartbeat age is skipped. */
  function UpdateValue(h: Handle, cfg: Config, now: real): Option<Liveness> {
    if Age(h, now).None? then None
    else if h.state != RUNNING then Some(OFFLINE)
    else if Age(h, now).value > cfg.timeout then Some(STALE)
    else if h.hbReachable == Some(false) then Some(DISCONNECTED)
    else Some(ONLINE)
  }

  /** The status snapshot: a device without a heartbeat age is offline. */
  function SnapshotValue(h: Handle, cfg: Config, now: real): Liveness {
    if Age(h, now).Some? && h.state == RUNNING then
      (if Age(h, now).value > cfg.timeout then STALE
       else if h.hbReachable != Some(false) then ONLINE else DISCONNECTED)
    else OFFLINE
  }

  /** What each published value says of the device: when its driver runs, and how recent the latest
      sign of life (heartbeat or start of the run) is. */
  lemma UpdateMeans(h: Handle, cfg: Config, now: real)
    ensures var v := UpdateValue(h, cfg, now);
            (v == None <==> h.hbRecv == None && h.runningSince == None) &&
            (v == Some(OFFLINE) <==> h.state != RUNNING && (h.hbRecv.Some? || h.runningSince.Some?)) &&
            (v == Some(STALE) ==> h.state == RUNNING && !HeardLately(h, cfg, now)) &&
            (v == Some(DISCONNECTED) ==>
               h.state == RUNNING && HeardLately(h, cfg, now) && h.hbReachable == Some(false)) &&
            (v == Some(ONLINE) ==>
               h.state == RUNNING && HeardLately(h, cfg, now) && h.hbReachable != Some(false))
  {}

  predicate HeardLately(h: Handle, cfg: Config, now: real) {
    cfg.timeout >= 0.0 &&
    ((h.hbRecv.Some? && now - h.hbRecv.value <= cfg.timeout) ||
     (h.runningSince.Some? && now - h.runningSince.value <= cfg.timeout))
  }

  /** After enforcement, a driver that is still running has an open stale episode exactly when
      the liveness computed at the same time is STALE; a failed one is OFFLINE or unknown. */
  lemma EpisodeIffStale(h: Handle, spec: Spec, cfg: Config, now: real)
    requires h.state == RUNNING && Age(h, now).Some?
    ensures var h' := Enforced(h, spec, cfg, now).0;
            if h'.state == RUNNING then
              Age(h', now) == Age(h, now) && (HeartbeatEpisodes.Open(h') <==> UpdateValue(h', cfg, now) == Some(STALE))
            else SnapshotValue(h', cfg, now) == OFFLINE
  {
    HeartbeatEpisodes.CheckByVerdict(h, spec, cfg, now);
    EnforcedKeepsHeartbeat(h, spec, cfg, now);
  }

  lemma EnforcedKeepsHeartbeat(h: Handle, spec: Spec, cfg: Config, now: real)
    ensures Enforced(h, spec, cfg, now).0.hbRecv == h.hbRecv
    ensures Enforced(h, spec, cfg, now).0.hbReachable == h.hbReachable
  {}

  // ---------------------------------------------------------------- remembering and publishing

  /** What waits in the lifecycle-event queue: the OFFLINE event of a stop that a worker thread
      performed, or an event of another topic. */
  datatype Notice = Offline(id: string) | Other

  datatype Published = Published(id: string, value: Liveness)

  /** `last` is the remembered liveness; `marking` holds the devices that a worker has just marked
      and whose event it has not handed over yet; `events` is what subscribers were sent. */
  datatype Board = Board(last: map<string, Liveness>, marking: multiset<string>,
                         queue: BoundedQueue.Queue<Notice>, events: seq<Published>)

  const BLANK := Board(map[], multiset{}, BoundedQueue.Queue([], 0, 0), [])

  /** The main thread updates a device, stops a driver itself, publishes one waiting event or resets
      the drop counter; a worker that stops a driver remembers OFFLINE, hands its event to the
      queue and, if that was full, counts the drop. Each step is atomic. */
  datatype Op =
    | Update(id: string, value: Option<Liveness>)
    | MarkOffline(id: string)
    | DrainOne
    | Snapshot
    | WorkerMark(id: string)
    | WorkerPublish(id: string)
    | WorkerOther
    | WorkerBump

  function Post(b: Board, id: string, v: Liveness): Board {
    b.(events := b.events + [Published(id, v)])
  }

  function Remember(b: Board, id: string, v: Liveness): Board { b.(last := b.last[id := v]) }

  predicate Shows(b: Board, id: string, v: Liveness) { id in b.last && b.last[id] == v }

  function Updated(b: Board, id: string, v: Option<Liveness>): Board {
    if v.None? || Shows(b, id, v.value) then b else Post(Remember(b, id, v.value), id, v.value)
  }

  function Drained(b: Board): Board {
    var d := b.(queue := BoundedQueue.GetNowait(b.queue));
    if b.queue.items != [] && b.queue.items[0].Offline? then Post(d, b.queue.items[0].id, OFFLINE) else d
  }

  function Step(b: Board, op: Op, cap: nat): Board {
    match op
    case Update(id, v) => Updated(b, id, v)
    case MarkOffline(id) => Post(Remember(b, id, OFFLINE), id, OFFLINE)
    case DrainOne => Drained(b)
    case Snapshot => b.(queue := BoundedQueue.ResetDropped(b.queue))
    case WorkerMark(id) => Remember(b, id, OFFLINE).(marking := b.marking + multiset{id})
    case WorkerPublish(id) =>
      if id in b.marking
      then b.(marking := b.marking - multiset{id}, queue := BoundedQueue.TryPut(b.queue, Offline(id), cap))
      else b
    case WorkerOther => b.(queue := BoundedQueue.TryPut(b.queue, Other, cap))
    case WorkerBump => b.(queue := BoundedQueue.BumpDropped(b.queue))
  }

  function Run(ops: seq<Op>, cap: nat): Board {
    if ops == [] then BLANK else Step(Run(ops[..|ops| - 1], cap), ops[|ops| - 1], cap)
  }

  /** What was published for one device. */
  function EventsOf(events: seq<Published>, id: string): seq<Liveness> {
    if events == [] then []
    else
      var e := events[|events| - 1];
      EventsOf(events[..|events| - 1], id) + (if e.id == id then [e.value] else [])
  }

  ghost predicate NoRepeat(s: seq<Liveness>) { forall i :: 0 < i < |s| ==> s[i - 1] != s[i] }

  function LastOf(s: seq<Liveness>): Option<Liveness> { if s == [] then None else Some(s[|s| - 1]) }

  function RememberedAs(b: Board, id: string): Option<Liveness> {
    if id in b.last then Some(b.last[id]) else None
  }

  function ShownAs(b: Board, id: string): Option<Liveness> { LastOf(EventsOf(b.events, id)) }

  // ---------------------------------------------------------------- what the history says

  /** The last value that the main thread published directly for a device and, since then, how often
      a worker marked it offline and how often a waiting OFFLINE of it was published. */
  datatype Since = Since(direct: Option<Liveness>, marks: nat, delivered: nat)

  function Remembered(s: Since): Option<Liveness> { if s.marks > 0 then Some(OFFLINE) else s.direct }

  function Shown(s: Since): Option<Liveness> { if s.delivered > 0 then Some(OFFLINE) else s.direct }

  /** The next waiting event is this device's OFFLINE. */
  predicate Heads(b: Board, id: string) { b.queue.items != [] && b.queue.items[0] == Offline(id) }

  /** The step publishes a value for the device directly. */
  predicate Direct(s: Since, op: Op, id: string) {
    (op.Update? && op.id == id && op.value.Some? && op.value != Remembered(s)) || op == MarkOffline(id)
  }

  function NextSince(s: Since, op: Op, heads: bool, id: string): Since {
    if Direct(s, op, id) then Since(if op.Update? then op.value else Some(OFFLINE), 0, 0)
    else if op == WorkerMark(id) then s.(marks := s.marks + 1)
    else if op.DrainOne? && heads then s.(delivered := s.delivered + 1)
    else s
  }

  function SinceOf(ops: seq<Op>, cap: nat, id: string): Since {
    if ops == [] then Since(None, 0, 0)
    else
      var before := ops[..|ops| - 1];
      NextSince(SinceOf(before, cap, id), ops[|ops| - 1], Heads(Run(before, cap), id), id)
  }

  /** What a step publishes for the device. */
  function PublishedBy(s: Since, op: Op, heads: bool, id: string): Option<Liveness> {
    if Direct(s, op, id) then (if op.Update? then op.value else Some(OFFLINE))
    else if op.DrainOne? && heads then Some(OFFLINE)
    else None
  }

  lemma EventsOfPost(b: Board, at: string, v: Liveness, id: string)
    ensures EventsOf(Post(b, at, v).events, id) == EventsOf(b.events, id) + (if at == id then [v] else [])
  {
    var e := Published(at, v);
    assert (b.events + [e])[..|b.events|] == b.events;
  }

  lemma StepPublishes(b: Board, s: Since, op: Op, cap: nat, id: string)
    requires RememberedAs(b, id) == Remembered(s)
    ensures var v := PublishedBy(s, op, Heads(b, id), id);
            EventsOf(Step(b, op, cap).events, id) == EventsOf(b.events, id) + (if v.Some? then [v.value] else [])
  {
    hide EventsOf;
    assert EventsOf(b.events, id) + [] == EventsOf(b.events, id);
    match op {
      case Update(at, v) => if v.Some? { EventsOfPost(Remember(b, at, v.value), at, v.value, id); }
      case MarkOffline(at) => EventsOfPost(Remember(b, at, OFFLINE), at, OFFLINE, id);
      case DrainOne =>
        if b.queue.items != [] && b.queue.items[0].Offline? {
          EventsOfPost(b.(queue := BoundedQueue.GetNowait(b.queue)), b.queue.items[0].id, OFFLINE, id);
        }
      case _ =>
    }
  }

  lemma StepRemembers(b: Board, s: Since, op: Op, cap: nat, id: string)
    requires RememberedAs(b, id) == Remembered(s)
    ensures RememberedAs(Step(b, op, cap), id) == Remembered(NextSince(s, op, Heads(b, id), id))
  {}

  /** Over every interleaving of main thread and workers, the history decides what is remembered of
      a device and what subscribers were last shown. */
  lemma {:induction false} HistoryDecides(ops: seq<Op>, cap: nat, id: string)
    ensures RememberedAs(Run(ops, cap), id) == Remembered(SinceOf(ops, cap, id))
    ensures ShownAs(Run(ops, cap), id) == Shown(SinceOf(ops, cap, id))
  {
    if ops == [] {
      assert EventsOf([], id) == [];
    } else {
      hide EventsOf, Step, NextSince, PublishedBy, RememberedAs, Remembered, Shown, Heads;
      var before, op := ops[..|ops| - 1], ops[|ops| - 1];
      var b, s := Run(before, cap), SinceOf(before, cap, id);
      HistoryDecides(before, cap, id);
      StepPublishes(b, s, op, cap, id);
      StepRemembers(b, s, op, cap, id);
      ShownNext(s, op, Heads(b, id), id);
    }
  }

  lemma ShownNext(s: Since, op: Op, heads: bool, id: string)
    ensures var v := PublishedBy(s, op, heads, id);
            Shown(NextSince(s, op, heads, id)) == if v.Some? then v else Shown(s)
  {}

  /** The remembered liveness is the one last published if and only if, since the last direct
      publication, a worker's mark and a delivered OFFLINE both happened or neither did, or that
      publication was OFFLINE itself. */
  lemma RememberedIsShownIff(ops: seq<Op>, cap: nat, id: string)
    ensures var s := SinceOf(ops, cap, id);
            RememberedAs(Run(ops, cap), id) == ShownAs(Run(ops, cap), id) <==>
            (s.marks > 0 <==> s.delivered > 0) || s.direct == Some(OFFLINE)
  {
    HistoryDecides(ops, cap, id);
  }

  // ---------------------------------------------------------------- when publications repeat

  /** The three ways to publish what is already shown. A stop, direct or delivered, meets a device
      shown as OFFLINE. The update finds a device not running after a delivered OFFLINE was
      overtaken by a direct publication. Or the update finds a device as it was published before
      a worker's mark that is still undelivered. */
  predicate Repeats(s: Since, op: Op, heads: bool, id: string) {
    if op == MarkOffline(id) || (op.DrainOne? && heads) then s.delivered > 0 || s.direct == Some(OFFLINE)
    else if op == Update(id, Some(OFFLINE)) then s.delivered > 0 && s.marks == 0 && s.direct != Some(OFFLINE)
    else op.Update? && op.id == id && op.value.Some? && s.direct == op.value && s.marks > 0 && s.delivered == 0
  }

  predicate Clean(ops: seq<Op>, cap: nat, id: string) {
    ops == [] ||
    var before := ops[..|ops| - 1];
    Clean(before, cap, id) &&
    !Repeats(SinceOf(before, cap, id), ops[|ops| - 1], Heads(Run(before, cap), id), id)
  }

  lemma NoRepeatSnoc(s: seq<Liveness>, v: Liveness)
    ensures NoRepeat(s + [v]) <==> NoRepeat(s) && LastOf(s) != Some(v)
  {
    var t := s + [v];
    assert forall i :: 0 <= i < |s| ==> t[i] == s[i];
    if NoRepeat(t) {
      assert forall i :: 0 < i < |s| ==> t[i - 1] != t[i];
      assert s != [] ==> t[|s| - 1] != t[|s|];
    }
  }

  lemma RepeatsIff(s: Since, op: Op, heads: bool, id: string)
    ensures Repeats(s, op, heads, id) <==>
      PublishedBy(s, op, heads, id).Some? && PublishedBy(s, op, heads, id) == Shown(s)
  {}

  /** Over every interleaving of updates, stops on either thread and deliveries, the published
      liveness of a device never repeats consecutively if and only if none of the three happens. */
  lemma {:induction false} NeverRepeatsIff(ops: seq<Op>, cap: nat, id: string)
    ensures NoRepeat(EventsOf(Run(ops, cap).events, id)) <==> Clean(ops, cap, id)
  {
    if ops == [] {
    } else {
      hide EventsOf, NoRepeat, Step, Repeats, PublishedBy, NextSince;
      var before, op := ops[..|ops| - 1], ops[|ops| - 1];
      var b, s := Run(before, cap), SinceOf(before, cap, id);
      NeverRepeatsIff(before, cap, id);
      HistoryDecides(before, cap, id);
      StepPublishes(b, s, op, cap, id);
      RepeatsIff(s, op, Heads(b, id), id);
      var shown, v := EventsOf(b.events, id), PublishedBy(s, op, Heads(b, id), id);
      if v.Some? { NoRepeatSnoc(shown, v.value); } else { assert shown + [] == shown; }
    }
  }

  // ---------------------------------------------------------------- when nothing is overtaken

  /** Nothing is published directly for a device while an OFFLINE of it is undelivered, be it on its
      way to the queue, waiting there, or dropped. */
  predicate Orderly(ops: seq<Op>, cap: nat, id: string) {
    ops == [] ||
    var s := SinceOf(ops[..|ops| - 1], cap, id);
    Orderly(ops[..|ops| - 1], cap, id) && (Direct(s, ops[|ops| - 1], id) ==> s.marks == s.delivered)
  }

  /** No stop, on either thread, found the device remembered as OFFLINE. */
  predicate NoStopMeetsOffline(ops: seq<Op>, cap: nat, id: string) {
    ops == [] ||
    var op := ops[|ops| - 1];
    NoStopMeetsOffline(ops[..|ops| - 1], cap, id) &&
    !((op == MarkOffline(id) || op == WorkerMark(id)) && Shows(Run(ops[..|ops| - 1], cap), id, OFFLINE))
  }

  function Waiting(items: seq<Notice>, id: string): nat { multiset(items)[Offline(id)] }

  lemma StepWaiting(b: Board, op: Op, cap: nat, id: string)
    ensures var c := Step(b, op, cap);
            c.marking[id] + Waiting(c.queue.items, id) + (if op.DrainOne? && Heads(b, id) then 1 else 0)
            <= b.marking[id] + Waiting(b.queue.items, id) + (if op == WorkerMark(id) then 1 else 0)
  {
    hide Waiting;
    var items := b.queue.items;
    match op {
      case DrainOne => if items != [] { WaitingCons(items[0], items[1..], id); }
      case WorkerPublish(at) => WaitingSnoc(items, Offline(at), id);
      case WorkerOther => WaitingSnoc(items, Other, id);
      case _ =>
    }
    assert items != [] ==> [items[0]] + items[1..] == items;
  }

  lemma WaitingSnoc(items: seq<Notice>, n: Notice, id: string)
    ensures Waiting(items + [n], id) == Waiting(items, id) + if n == Offline(id) then 1 else 0
  {}

  lemma WaitingCons(n: Notice, items: seq<Notice>, id: string)
    ensures Waiting([n] + items, id) == Waiting(items, id) + if n == Offline(id) then 1 else 0
  {}

  /** In an orderly run every delivery is one of the marks since the last direct publication. */
  lemma {:induction false} DeliveriesAreMarks(ops: seq<Op>, cap: nat, id: string)
    requires Orderly(ops, cap, id)
    ensures var b, s := Run(ops, cap), SinceOf(ops, cap, id);
            b.marking[id] + Waiting(b.queue.items, id) + s.delivered <= s.marks
  {
    if ops == [] {
    } else {
      hide Step, Waiting;
      DeliveriesAreMarks(ops[..|ops| - 1], cap, id);
      StepWaiting(Run(ops[..|ops| - 1], cap), ops[|ops| - 1], cap, id);
    }
  }

  /** This many OFFLINE notices since the direct publication are one too many. */
  predicate TooMany(direct: Option<Liveness>, n: nat) { n >= (if direct == Some(OFFLINE) then 1 else 2) }

  lemma {:induction false} CleanAgainstStops(ops: seq<Op>, cap: nat, id: string)
    requires Orderly(ops, cap, id)
    ensures var s := SinceOf(ops, cap, id);
            var clean, calm := Clean(ops, cap, id), NoStopMeetsOffline(ops, cap, id);
            (calm ==> clean) && (clean && !TooMany(s.direct, s.marks) ==> calm) &&
            (TooMany(s.direct, s.delivered) ==> !clean) && (TooMany(s.direct, s.marks) ==> !calm)
  {
    if ops == [] {
    } else {
      hide Step, Run;
      var before := ops[..|ops| - 1];
      CleanAgainstStops(before, cap, id);
      DeliveriesAreMarks(before, cap, id);
      DeliveriesAreMarks(ops, cap, id);
      HistoryDecides(before, cap, id);
      hide ShownAs;
    }
  }

  /** When nothing is overtaken and every OFFLINE has been delivered, the condition is simply that
      no stop found the device remembered as OFFLINE. */
  lemma OrderlyNeverRepeatsIff(ops: seq<Op>, cap: nat, id: string)
    requires Orderly(ops, cap, id) && SinceOf(ops, cap, id).marks == SinceOf(ops, cap, id).delivered
    ensures NoRepeat(EventsOf(Run(ops, cap).events, id)) <==> NoStopMeetsOffline(ops, cap, id)
    ensures RememberedAs(Run(ops, cap), id) == ShownAs(Run(ops, cap), id)
  {
    NeverRepeatsIff(ops, cap, id);
    CleanAgainstStops(ops, cap, id);
    RememberedIsShownIff(ops, cap, id);
  }

  // ---------------------------------------------------------------- the repetitions are real

  /** The steps of a run in turn. */
  lemma RunAt(ops: seq<Op>, k: nat, cap: nat, id: string)
    requires k < |ops|
    ensures Run(ops[..k + 1], cap) == Step(Run(ops[..k], cap), ops[k], cap)
    ensures NoStopMeetsOffline(ops[..k + 1], cap, id) <==>
      NoStopMeetsOffline(ops[..k], cap, id) &&
      !((ops[k] == MarkOffline(id) || ops[k] == WorkerMark(id)) && Shows(Run(ops[..k], cap), id, OFFLINE))
  {
    assert ops[..k + 1][..k] == ops[..k];
  }

  lemma EventsOfOne(events: seq<Published>, id: string, v: Liveness)
    ensures EventsOf(events + [Published(id, v)], id) == EventsOf(events, id) + [v]
  {
    assert (events + [Published(id, v)])[..|events|] == events;
  }

  /** Stopping a driver twice on the main thread repeats the event. */
  lemma StoppingTwiceRepeats(id: string, cap: nat)
    ensures EventsOf(Run([MarkOffline(id), MarkOffline(id)], cap).events, id) == [OFFLINE, OFFLINE]
  {
    var ops := [MarkOffline(id), MarkOffline(id)];
    RunAt(ops, 0, cap, id);
    RunAt(ops, 1, cap, id);
    assert ops[..0] == [] && ops[..2] == ops;
    EventsOfOne([], id, OFFLINE);
    EventsOfOne([Published(id, OFFLINE)], id, OFFLINE);
  }

  /** A single stop on a worker repeats too, without ever meeting a remembered OFFLINE: after the
      mark the update still finds the driver running and publishes STALE, the waiting OFFLINE
      follows, and once the driver is stopping the update publishes OFFLINE again. */
  lemma OvertakenOfflineRepeats(id: string, cap: nat)
    requires cap > 0
    ensures var ops := Overtaking(id);
            EventsOf(Run(ops, cap).events, id) == [ONLINE, STALE, OFFLINE, OFFLINE] &&
            NoStopMeetsOffline(ops, cap, id) &&
            RememberedAs(Run(ops[..5], cap), id) == Some(STALE) && ShownAs(Run(ops[..5], cap), id) == Some(OFFLINE)
  {
    hide EventsOf, NoStopMeetsOffline, Step, Run;
    var ops := Overtaking(id);
    OvertakingSteps(id, cap);
    RunInitially(cap, id);
    RunAt(ops, 0, cap, id);
    RunAt(ops, 1, cap, id);
    RunAt(ops, 2, cap, id);
    RunAt(ops, 3, cap, id);
    RunAt(ops, 4, cap, id);
    RunAt(ops, 5, cap, id);
    assert ops[..0] == [] && ops[..6] == ops;
    var shown := [] + [Published(id, ONLINE)];
    EventsOfOne([], id, ONLINE);
    EventsOfOne(shown, id, STALE);
    EventsOfOne(shown + [Published(id, STALE)], id, OFFLINE);
    EventsOfOne(shown + [Published(id, STALE)] + [Published(id, OFFLINE)], id, OFFLINE);
    assert shown == [Published(id, ONLINE)];
  }

  function Overtaking(id: string): seq<Op> {
    [Update(id, Some(ONLINE)), WorkerMark(id), WorkerPublish(id), Update(id, Some(STALE)),
     DrainOne, Update(id, Some(OFFLINE))]
  }

  /** A board that knows one device. */
  function Only(id: string, v: Liveness, marking: multiset<string>, items: seq<Notice>, shown: seq<Published>): Board {
    Board(map[id := v], marking, BoundedQueue.Queue(items, 0, 0), shown)
  }

  lemma OvertakingSteps(id: string, cap: nat)
    requires cap > 0
    ensures var shown, ops := [Published(id, ONLINE)], Overtaking(id);
            var shown' := shown + [Published(id, STALE)];
            var b1 := Only(id, ONLINE, multiset{}, [], shown);
            var b2 := Only(id, OFFLINE, multiset{id}, [], shown);
            var b3 := Only(id, OFFLINE, multiset{}, [Offline(id)], shown);
            var b4 := Only(id, STALE, multiset{}, [Offline(id)], shown');
            var b5 := Only(id, STALE, multiset{}, [], shown' + [Published(id, OFFLINE)]);
            Step(BLANK, ops[0], cap) == b1 && Step(b1, ops[1], cap) == b2 && Step(b2, ops[2], cap) == b3 &&
            Step(b3, ops[3], cap) == b4 && Step(b4, ops[4], cap) == b5 &&
            Step(b5, ops[5], cap).events == b5.events + [Published(id, OFFLINE)]
  {
    assert multiset{} + multiset{id} == multiset{id} && multiset{id} - multiset{id} == multiset{};
    assert forall v, w: Liveness :: map[id := v][id := w] == map[id := w];
    assert [Offline(id)][1..] == [];
  }

  lemma RunInitially(cap: nat, id: string)
    ensures Run([], cap) == BLANK && NoStopMeetsOffline([], cap, id) && EventsOf([], id) == []
  {}

  /** So does a device that is found online again before the OFFLINE of a stop is delivered. */
  lemma OnlineAgainRepeats(id: string, cap: nat)
    ensures var ops := [Update(id, Some(ONLINE)), WorkerMark(id), Update(id, Some(ONLINE))];
            EventsOf(Run(ops, cap).events, id) == [ONLINE, ONLINE]
  {
    var ops := [Update(id, Some(ONLINE)), WorkerMark(id), Update(id, Some(ONLINE))];
    hide EventsOf;
    RunInitially(cap, id);
    RunAt(ops, 0, cap, id);
    RunAt(ops, 1, cap, id);
    RunAt(ops, 2, cap, id);
    assert ops[..0] == [] && ops[..3] == ops;
    EventsOfOne([], id, ONLINE);
    EventsOfOne([Published(id, ONLINE)], id, ONLINE);
    assert Run(ops, cap).events == [Published(id, ONLINE)] + [Published(id, ONLINE)];
    assert [] + [Published(id, ONLINE)] == [Published(id, ONLINE)];
  }

  // ---------------------------------------------------------------- the manager's loop

  function UpdateAll(b: Board, ids: seq<string>, handles: map<string, Handle>, cfg: Config, now: real): Board {
    if ids == [] then b
    else
      var id := ids[|ids| - 1];
      var before := UpdateAll(b, ids[..|ids| - 1], handles, cfg, now);
      if id in handles then Updated(before, id, UpdateValue(handles[id], cfg, now)) else before
  }

  /** After an update at some time, the remembered liveness of a device is what the status snapshot
      reports for that time, if and only if the device has a heartbeat age or was remembered as
      offline anyway. */
  lemma {:induction false} PublishedIsSnapshotIff(b: Board, ids: seq<string>, handles: map<string, Handle>,
                                                  cfg: Config, now: real, id: string)
    requires id in handles && (id in ids || Age(handles[id], now).None?)
    ensures Shows(UpdateAll(b, ids, handles, cfg, now), id, SnapshotValue(handles[id], cfg, now)) <==>
      Age(handles[id], now).Some? || Shows(b, id, OFFLINE)
  {
    hide Age;
    if ids == [] {
    } else {
      var n := |ids| - 1;
      assert ids == ids[..n] + [ids[n]];
      if ids[n] != id || Age(handles[id], now).None? {
        PublishedIsSnapshotIff(b, ids[..n], handles, cfg, now, id);
      }
    }
  }

  /** The liveness of a status snapshot; an unknown device is an error. */
  method DeviceStatusSnapshot(handles: map<string, Handle>, id: string, cfg: Config, now: real)
    returns (r: Option<Liveness>)
    ensures r.None? <==> id !in handles
    ensures id in handles && Age(handles[id], now).None? ==> r == Some(OFFLINE)
    ensures id in handles && Age(handles[id], now).Some? ==>
      forall b, ids :: id in ids ==> Shows(UpdateAll(b, ids, handles, cfg, now), id, r.value)
  {
    if id !in handles { return None; }
    var h := handles[id];
    var age := Age(h, now);
    var liveness := OFFLINE;
    if age.Some? {
      if h.state != RUNNING {
        liveness := OFFLINE;
      } else if age.value > cfg.timeout {
        liveness := STALE;
      } else if h.hbReachable == Some(false) {
        liveness := DISCONNECTED;
      } else {
        liveness := ONLINE;
      }
    }
    assert liveness == SnapshotValue(h, cfg, now);
    hide SnapshotValue, UpdateAll, Age, Shows;
    forall b, ids | Age(h, now).Some? && id in ids ensures Shows(UpdateAll(b, ids, handles, cfg, now), id, liveness) {
      PublishedIsSnapshotIff(b, ids, handles, cfg, now, id);
    }
    return Some(liveness);
  }

  /** The main loop's drain: every waiting event in order. */
  function DrainMany(b: Board, n: nat): Board { if n == 0 then b else Drained(DrainMany(b, n - 1)) }

  class LivenessBoard {
    const cap: nat
    var last: map<string, Liveness>
    var items: seq<Notice>
    var dropped: nat
    var events: seq<Published>

    ghost function View(): Board
      reads this
    {
      Board(last, multiset{}, BoundedQueue.Queue(items, 0, dropped), events)
    }

    constructor (cap: nat)
      ensures View() == BLANK && this.cap == cap
    {
      this.cap := cap;
      last, items, dropped, events := map[], [], 0, [];
    }

    method UpdateDeviceLiveness(ids: seq<string>, handles: map<string, Handle>, cfg: Config, now: real)
      modifies this`last, this`events
      ensures View() == UpdateAll(old(View()), ids, handles, cfg, now)
    {
      for i := 0 to |ids|
        invariant View() == UpdateAll(old(View()), ids[..i], handles, cfg, now)
      {
        assert ids[..i + 1][..i] == ids[..i];
        var id := ids[i];
        if id !in handles { continue; }
        var h := handles[id];
        var age := Age(h, now);
        if age.None? { continue; }
        var liveness: Liveness;
        if h.state != RUNNING {
          liveness := OFFLINE;
        } else if age.value > cfg.timeout {
          liveness := STALE;
        } else if h.hbReachable == Some(false) {
          liveness := DISCONNECTED;
        } else {
          liveness := ONLINE;
        }
        if !(id in last && last[id] == liveness) {
          last := last[id := liveness];
          events := events + [Published(id, liveness)];
        }
      }
      assert ids[..|ids|] == ids;
    }

    /** Marks a device offline; off the main thread the event is queued, or counted as dropped. */
    method MarkDeviceOffline(id: string, mainThread: bool)
      modifies this
      ensures mainThread ==> View() == Step(old(View()), MarkOffline(id), cap)
      ensures !mainThread ==>
        View() == Step(Step(Step(old(View()), WorkerMark(id), cap), WorkerPublish(id), cap), WorkerBump, cap)
    {
      last := last[id := OFFLINE];
      if mainThread {
        events := events + [Published(id, OFFLINE)];
      } else if |items| < cap {
        items := items + [Offline(id)];
      } else {
        dropped := dropped + 1;
      }
    }

    /** Publishes the waiting events, then resets the drop counter. */
    method DrainLifecycleEvents() returns (drained: nat)
      modifies this
      ensures drained == |old(items)| && items == [] && dropped == 0
      ensures View() == Step(DrainMany(old(View()), drained), Snapshot, cap)
    {
      hide DrainMany;
      DrainNone(View());
      drained := 0;
      while items != []
        invariant drained + |items| == |old(items)|
        invariant View() == DrainMany(old(View()), drained)
        decreases |items|
      {
        DrainOneMore(old(View()), drained);
        var notice := items[0];
        items := items[1..];
        drained := drained + 1;
        if notice.Offline? { events := events + [Published(notice.id, OFFLINE)]; }
      }
      dropped := 0;
    }
  }

  lemma DrainNone(b: Board)
    ensures DrainMany(b, 0) == b
  {}

  lemma DrainOneMore(b: Board, n: nat)
    ensures DrainMany(b, n + 1) == Drained(DrainMany(b, n))
  {}
}
