/** The manager's two-level telemetry cache (src/experiment_control/_manager/driver_pub.py):
    a bounded set of devices, each with a bounded set of signals, both evicting the least
    recently used entry, plus two side caches keyed by device. */
module TelemetryCache {
  import opened OrderedDict
  import opened Recency
  import opened Options

  type Value(==, !new)
  type Signals = Dict<string, Value>
  datatype Signal = Signal(name: string, value: Value)

  /** One ingest that reached the cache: the signals it stored, and whether it ran to the end or
      was cut short by an exception before the side caches were written. */
  datatype Ingest = Ingest(device: string, signals: seq<Signal>, ts: real, recv: real, completed: bool)

  datatype Limits = Limits(devices: nat, signals: nat)
  datatype Cache = Cache(
    latest: Dict<string, Signals>, order: seq<string>,
    lastBundle: map<string, real>, lastRecv: map<string, real>,
    evictedDevices: nat, evictedSignals: nat)

  const EMPTY := Cache(Empty(), [], map[], map[], 0, 0)

  // ---------------------------------------------------------------- operations

  function Oldest(c: Cache): Option<string> {
    if c.order != [] then Some(c.order[0])
    else if c.latest.keys != [] then Some(c.latest.keys[0])
    else None
  }

  function EvictOne(c: Cache, device: string, cap: nat): Cache {
    if device in c.latest.vals || |c.latest.keys| < cap then c
    else
      match Oldest(c)
      case None => c
      case Some(k) => c.(latest := Pop(c.latest, k), order := Without(c.order, k),
                         lastBundle := c.lastBundle - {k}, lastRecv := c.lastRecv - {k},
                         evictedDevices := c.evictedDevices + 1)
  }

  function TouchLru(order: seq<string>, k: string): seq<string> { Without(order, k) + [k] }

  function Admit(c: Cache, device: string): Cache {
    c.(latest := if device in c.latest.vals then c.latest else Put(c.latest, device, Empty()),
       order := TouchLru(c.order, device))
  }

  function Slot(c: Cache, device: string, cap: nat): Cache { Admit(EvictOne(c, device, cap), device) }

  function PutSignal(d: Signals, s: Signal, cap: nat): Signals {
    var room := if s.name in d.vals then Pop(d, s.name)
                else if |d.keys| >= cap && d.keys != [] then Pop(d, d.keys[0]) else d;
    Put(room, s.name, s.value)
  }

  predicate EvictsSignal(d: Signals, s: Signal, cap: nat) {
    s.name !in d.vals && |d.keys| >= cap && d.keys != []
  }

  function StoreSignal(c: Cache, device: string, s: Signal, lim: Limits): Cache {
    var e := Slot(c, device, lim.devices);
    if device !in e.latest.vals then e else
      var d := e.latest.vals[device];
      e.(latest := Put(e.latest, device, PutSignal(d, s, lim.signals)),
         evictedSignals := e.evictedSignals + (if EvictsSignal(d, s, lim.signals) then 1 else 0))
  }

  function StoreAll(c: Cache, device: string, signals: seq<Signal>, lim: Limits): Cache {
    if signals == [] then c
    else StoreSignal(StoreAll(c, device, signals[..|signals| - 1], lim), device, signals[|signals| - 1], lim)
  }

  /** What the end of an ingest leaves of the stored state. */
  function Finish(c: Cache, m: Ingest): Cache {
    if !m.completed then c
    else c.(lastBundle := c.lastBundle[m.device := m.ts], lastRecv := c.lastRecv[m.device := m.recv],
            order := TouchLru(c.order, m.device))
  }

  function Ingested(c: Cache, m: Ingest, lim: Limits): Cache {
    var s := StoreAll(Slot(c, m.device, lim.devices), m.device, m.signals, lim);
    Finish(s, m)
  }

  function Run(h: seq<Ingest>, lim: Limits): Cache {
    if h == [] then EMPTY else Ingested(Run(h[..|h| - 1], lim), h[|h| - 1], lim)
  }

  // ---------------------------------------------------------------- what the history says

  function Devices(h: seq<Ingest>): (r: seq<string>)
    ensures |r| == |h|
  {
    if h == [] then [] else Devices(h[..|h| - 1]) + [h[|h| - 1].device]
  }

  function Names(u: seq<Signal>): (r: seq<string>)
    ensures |r| == |u|
  {
    if u == [] then [] else Names(u[..|u| - 1]) + [u[|u| - 1].name]
  }

  /** The most recently ingested distinct devices. */
  function CachedDevices(h: seq<Ingest>, cap: nat): seq<string> { LastN(Recent(Devices(h)), cap) }

  /** The updates a device received since it was last admitted to the cache. */
  function SinceAdmission(h: seq<Ingest>, device: string, cap: nat): seq<Signal> {
    if h == [] then [] else
      var before, m := h[..|h| - 1], h[|h| - 1];
      if m.device != device then SinceAdmission(before, device, cap)
      else (if device in CachedDevices(before, cap) then SinceAdmission(before, device, cap) else []) + m.signals
  }

  /** The latest value given to a name. */
  function LatestValue(u: seq<Signal>, name: string): Option<Value> {
    if u == [] then None
    else if u[|u| - 1].name == name then Some(u[|u| - 1].value)
    else LatestValue(u[..|u| - 1], name)
  }

  /** The last ingest of a device, since it was last admitted, that was not cut short. */
  function LastCompleted(h: seq<Ingest>, device: string, cap: nat): Option<Ingest> {
    if h == [] then None else
      var before, m := h[..|h| - 1], h[|h| - 1];
      if m.device != device then LastCompleted(before, device, cap)
      else if m.completed then Some(m)
      else if device in CachedDevices(before, cap) then LastCompleted(before, device, cap)
      else None
  }

  /** How many ingests found their device not cached. */
  function Admissions(h: seq<Ingest>, cap: nat): nat {
    if h == [] then 0 else
      var before, m := h[..|h| - 1], h[|h| - 1];
      Admissions(before, cap) + (if m.device in CachedDevices(before, cap) then 0 else 1)
  }

  // ---------------------------------------------------------------- one device's signals

  function SignalCache(u: seq<Signal>, cap: nat): Signals {
    if u == [] then Empty() else PutSignal(SignalCache(u[..|u| - 1], cap), u[|u| - 1], cap)
  }

  lemma PutSignalKeys(d: Signals, s: Signal, cap: nat)
    requires Valid(d) && cap > 0
    ensures Valid(PutSignal(d, s, cap))
    ensures PutSignal(d, s, cap).keys == Touch(d.keys, s.name, cap)
    ensures forall n :: n in PutSignal(d, s, cap).vals ==>
      PutSignal(d, s, cap).vals[n] == if n == s.name then s.value else if n in d.vals then d.vals[n] else s.value
    ensures forall n :: n in PutSignal(d, s, cap).vals ==> n == s.name || n in d.vals
  {
    if s.name in d.vals {
      PopValid(d, s.name);
      PutValid(Pop(d, s.name), s.name, s.value);
    } else if |d.keys| >= cap && d.keys != [] {
      PopValid(d, d.keys[0]);
      WithoutTail(d.keys);
      PutValid(Pop(d, d.keys[0]), s.name, s.value);
    } else {
      PutValid(d, s.name, s.value);
    }
  }

  /** A device holds its most recently updated distinct signals, each with its latest value. */
  lemma {:induction false} SignalCacheSpec(u: seq<Signal>, cap: nat)
    requires cap > 0
    ensures Valid(SignalCache(u, cap))
    ensures SignalCache(u, cap).keys == LastN(Recent(Names(u)), cap)
    ensures forall n :: n in SignalCache(u, cap).vals ==> LatestValue(u, n) == Some(SignalCache(u, cap).vals[n])
  {
    if u == [] {
    } else {
      var n := |u| - 1;
      SignalCacheSpec(u[..n], cap);
      PutSignalKeys(SignalCache(u[..n], cap), u[n], cap);
      TouchKeepsMostRecent(Names(u[..n]), u[n].name, cap);
    }
  }

  // ---------------------------------------------------------------- the cache over a run

  function Lookup(m: map<string, real>, d: string): Option<real> { if d in m then Some(m[d]) else None }

  /** What the two side caches say of a device: bundle timestamp and receive time. */
  datatype Sides = Sides(bundle: Option<real>, recv: Option<real>)

  function SidesAt(c: Cache, d: string): Sides { Sides(Lookup(c.lastBundle, d), Lookup(c.lastRecv, d)) }

  function SidesOf(m: Option<Ingest>): Sides {
    if m.None? then Sides(None, None) else Sides(Some(m.value.ts), Some(m.value.recv))
  }

  /** Same devices in `latest` and in the LRU order; side caches hold no others. */
  ghost predicate Aligned(c: Cache) {
    Valid(c.latest) && Distinct(c.order) &&
    (forall d :: d in c.order <==> d in c.latest.vals) &&
    (forall d :: d in c.lastBundle || d in c.lastRecv ==> d in c.latest.vals)
  }

  /** `e` is `c` with `device` admitted as most recent and possibly another device gone. */
  ghost predicate Admitted(c: Cache, e: Cache, device: string) {
    Aligned(e) && device in e.latest.vals && e.order != [] && e.order[|e.order| - 1] == device &&
    e.latest.vals[device] == (if device in c.latest.vals then c.latest.vals[device] else Empty()) &&
    (forall d :: d in e.latest.vals && d != device ==> d in c.latest.vals && e.latest.vals[d] == c.latest.vals[d]) &&
    (forall d :: d in e.latest.vals ==> SidesAt(e, d) == SidesAt(c, d))
  }

  lemma AdmitSpec(c: Cache, device: string)
    requires Aligned(c)
    ensures Admitted(c, Admit(c, device), device)
    ensures device in c.latest.vals ==> Admit(c, device) == c.(order := TouchLru(c.order, device))
  {
    hide Without;
    if device !in c.latest.vals {
      PutValid(c.latest, device, Empty());
    }
    WithoutDistinct(c.order, device);
    TouchDistinct(c.order, device);
    hide Distinct;
  }

  lemma TouchDistinct(order: seq<string>, k: string)
    requires Distinct(order)
    ensures Distinct(TouchLru(order, k)) && forall d :: d in TouchLru(order, k) <==> d in order || d == k
  {
    WithoutDistinct(order, k);
  }

  lemma SlotSpec(c: Cache, device: string, cap: nat)
    requires Aligned(c) && cap > 0
    ensures Admitted(c, Slot(c, device, cap), device)
    ensures Slot(c, device, cap).order == Touch(c.order, device, cap)
    ensures Slot(c, device, cap).evictedDevices + |Slot(c, device, cap).order|
         == c.evictedDevices + |c.order| + (if device in c.latest.vals then 0 else 1)
    ensures device in c.latest.vals ==> Slot(c, device, cap) == c.(order := TouchLru(c.order, device))
  {
    SameLength(c.order, c.latest.keys);
    WithoutDistinct(c.order, device);
    EvictSpec(c, device, cap);
    EvictKeepsSides(c, device, cap);
    AdmitSpec(EvictOne(c, device, cap), device);
  }

  lemma EvictSpec(c: Cache, device: string, cap: nat)
    requires Aligned(c) && cap > 0 && |c.order| == |c.latest.keys|
    ensures var e := EvictOne(c, device, cap);
            Aligned(e) &&
            e.order == (if device !in c.order && |c.order| >= cap then c.order[1..] else c.order) &&
            (forall d :: d in e.latest.vals ==> d in c.latest.vals && e.latest.vals[d] == c.latest.vals[d]) &&
            e.evictedDevices + |e.order| == c.evictedDevices + |c.order| &&
            (device in c.latest.vals ==> e == c)
  {
    if !(device in c.latest.vals || |c.latest.keys| < cap) {
      var k := c.order[0];
      PopValid(c.latest, k);
      WithoutTail(c.order);
      WithoutDistinct(c.order, k);
    }
  }

  /** The side caches lose the evicted device and nothing else. */
  lemma EvictKeepsSides(c: Cache, device: string, cap: nat)
    requires Aligned(c)
    ensures var e := EvictOne(c, device, cap);
            forall d :: d in e.latest.vals || d == device ==> SidesAt(e, d) == SidesAt(c, d)
  {
    hide Without, Distinct;
  }

  /** `e` is `c` with `device`, the most recent one, showing the signal cache of `u`. */
  ghost predicate Stored(c: Cache, e: Cache, device: string, u: seq<Signal>, cap: nat) {
    Aligned(e) && e.order == c.order && e.lastBundle == c.lastBundle && e.lastRecv == c.lastRecv &&
    e.evictedDevices == c.evictedDevices &&
    e.latest.vals == c.latest.vals[device := SignalCache(u, cap)]
  }

  lemma AlignedPut(e: Cache, device: string, shown: Signals, evicted: nat)
    requires Aligned(e) && device in e.latest.vals
    ensures Aligned(e.(latest := Put(e.latest, device, shown), evictedSignals := evicted))
  {
    PutValid(e.latest, device, shown);
  }

  lemma StoreSignalInPlace(e: Cache, device: string, s: Signal, lim: Limits)
    requires Aligned(e) && lim.devices > 0 && device in e.latest.vals
    requires e.order != [] && e.order[|e.order| - 1] == device
    ensures var t := StoreSignal(e, device, s, lim);
            t == e.(latest := Put(e.latest, device, PutSignal(e.latest.vals[device], s, lim.signals)),
                    evictedSignals := t.evictedSignals)
  {
    SlotSpec(e, device, lim.devices);
    TouchLast(e.order, device);
  }

  /** Once admitted, a device stays where it is while its own signals are stored. */
  lemma StoreSignalSpec(c: Cache, e: Cache, device: string, u: seq<Signal>, s: Signal, lim: Limits)
    requires lim.devices > 0 && Stored(c, e, device, u, lim.signals)
    requires c.order != [] && c.order[|c.order| - 1] == device
    ensures Stored(c, StoreSignal(e, device, s, lim), device, u + [s], lim.signals)
  {
    hide StoreSignal, PutSignal, Aligned, SignalCache;
    StoreSignalInPlace(e, device, s, lim);
    SignalCacheSnoc(u, s, lim.signals);
    var t, cached := StoreSignal(e, device, s, lim), PutSignal(e.latest.vals[device], s, lim.signals);
    AlignedPut(e, device, cached, t.evictedSignals);
    assert t.latest.vals == e.latest.vals[device := cached];
  }

  lemma SignalCacheSnoc(u: seq<Signal>, s: Signal, cap: nat)
    ensures SignalCache(u + [s], cap) == PutSignal(SignalCache(u, cap), s, cap)
  {
    assert (u + [s])[..|u|] == u;
  }

  lemma TouchLast(order: seq<string>, k: string)
    requires Distinct(order) && order != [] && order[|order| - 1] == k
    ensures Without(order, k) + [k] == order
  {
    assert k !in order[..|order| - 1];
  }

  lemma StoredInitially(c: Cache, device: string, u: seq<Signal>, cap: nat)
    requires Aligned(c) && device in c.latest.vals && c.latest.vals[device] == SignalCache(u, cap)
    ensures Stored(c, c, device, u, cap)
  {}

  lemma {:induction false} StoreAllSpec(c: Cache, device: string, u: seq<Signal>, signals: seq<Signal>, lim: Limits)
    requires Aligned(c) && lim.devices > 0
    requires device in c.latest.vals && c.order != [] && c.order[|c.order| - 1] == device
    requires c.latest.vals[device] == SignalCache(u, lim.signals)
    ensures Stored(c, StoreAll(c, device, signals, lim), device, u + signals, lim.signals)
  {
    hide StoreSignal, Stored, Aligned, SignalCache;
    if signals == [] {
      assert u + signals == u;
      StoredInitially(c, device, u, lim.signals);
    } else {
      var n := |signals| - 1;
      StoreAllSpec(c, device, u, signals[..n], lim);
      StoreSignalSpec(c, StoreAll(c, device, signals[..n], lim), device, u + signals[..n], signals[n], lim);
      assert (u + signals[..n]) + [signals[n]] == u + signals;
    }
  }

  /** What one ingest does to the devices: `m.device` becomes the most recent one and shows its
      updates since admission `u`; every other cached device shows what it showed before. */
  ghost predicate Absorbs(c: Cache, e: Cache, m: Ingest, u: seq<Signal>, lim: Limits) {
    Aligned(e) && m.device in e.latest.vals && e.latest.vals[m.device] == SignalCache(u, lim.signals) &&
    (forall d :: d in e.latest.vals && d != m.device ==> d in c.latest.vals && e.latest.vals[d] == c.latest.vals[d]) &&
    (forall d :: d in e.latest.vals ==>
      SidesAt(e, d) == if d == m.device && m.completed then SidesOf(Some(m)) else SidesAt(c, d))
  }

  lemma FinishSpec(c: Cache, slot: Cache, stored: Cache, m: Ingest, u: seq<Signal>, lim: Limits)
    requires Admitted(c, slot, m.device) && Stored(slot, stored, m.device, u, lim.signals)
    ensures Absorbs(c, Finish(stored, m), m, u, lim) && Finish(stored, m).order == slot.order
    ensures Finish(stored, m).evictedDevices == slot.evictedDevices
  {
    hide SignalCache, Aligned;
    FinishKeepsAligned(stored, m);
    var e := Finish(stored, m);
    forall d | d in e.latest.vals
      ensures SidesAt(e, d) == if d == m.device && m.completed then SidesOf(Some(m)) else SidesAt(c, d)
    {
      assert d in slot.latest.vals;
    }
  }

  lemma FinishKeepsAligned(c: Cache, m: Ingest)
    requires Aligned(c) && m.device in c.latest.vals && c.order != [] && c.order[|c.order| - 1] == m.device
    ensures Aligned(Finish(c, m)) && Finish(c, m).order == c.order
  {
    hide Valid, Without;
    TouchLast(c.order, m.device);
    hide Distinct;
  }

  lemma IngestedSpec(c: Cache, m: Ingest, u: seq<Signal>, lim: Limits)
    requires Aligned(c) && lim.devices > 0
    requires if m.device in c.latest.vals then c.latest.vals[m.device] == SignalCache(u, lim.signals) else u == []
    ensures Absorbs(c, Ingested(c, m, lim), m, u + m.signals, lim)
    ensures Ingested(c, m, lim).order == Touch(c.order, m.device, lim.devices)
    ensures Ingested(c, m, lim).evictedDevices + |Ingested(c, m, lim).order|
         == c.evictedDevices + |c.order| + (if m.device in c.latest.vals then 0 else 1)
  {
    var slot := Slot(c, m.device, lim.devices);
    SlotSpec(c, m.device, lim.devices);
    StoreAllSpec(slot, m.device, u, m.signals, lim);
    var stored := StoreAll(slot, m.device, m.signals, lim);
    FinishSpec(c, slot, stored, m, u + m.signals, lim);
  }

  /** Signals and side-cache times of one cached device, as the history says. */
  ghost predicate ShowsDevice(c: Cache, h: seq<Ingest>, d: string, lim: Limits)
    requires d in c.latest.vals
  {
    c.latest.vals[d] == SignalCache(SinceAdmission(h, d, lim.devices), lim.signals) &&
    SidesAt(c, d) == SidesOf(LastCompleted(h, d, lim.devices))
  }

  /** The cache that a history of ingests should have produced. */
  ghost predicate Shows(c: Cache, h: seq<Ingest>, lim: Limits) {
    Aligned(c) && c.order == CachedDevices(h, lim.devices) &&
    c.evictedDevices + |c.order| == Admissions(h, lim.devices) &&
    forall d :: d in c.latest.vals ==> ShowsDevice(c, h, d, lim)
  }

  lemma ShowsInitially(lim: Limits)
    ensures Shows(EMPTY, [], lim)
  {
    assert Recent(Devices([])) == [];
  }

  /** How one more ingest changes what the history says. */
  lemma HistoryStep(h: seq<Ingest>, m: Ingest, cap: nat)
    requires cap > 0
    ensures CachedDevices(h + [m], cap) == Touch(CachedDevices(h, cap), m.device, cap)
    ensures Admissions(h + [m], cap) == Admissions(h, cap) + (if m.device in CachedDevices(h, cap) then 0 else 1)
    ensures forall d ::
      SinceAdmission(h + [m], d, cap) ==
      if d != m.device then SinceAdmission(h, d, cap)
      else (if d in CachedDevices(h, cap) then SinceAdmission(h, d, cap) else []) + m.signals
    ensures forall d ::
      LastCompleted(h + [m], d, cap) ==
      if d != m.device then LastCompleted(h, d, cap)
      else if m.completed then Some(m)
      else if d in CachedDevices(h, cap) then LastCompleted(h, d, cap) else None
  {
    hide Recent, LastN, Touch;
    assert (h + [m])[..|h|] == h;
    assert Devices(h + [m]) == Devices(h) + [m.device];
    TouchKeepsMostRecent(Devices(h), m.device, cap);
  }

  lemma ShowsStep(c: Cache, h: seq<Ingest>, m: Ingest, lim: Limits)
    requires lim.devices > 0 && Shows(c, h, lim)
    ensures Shows(Ingested(c, m, lim), h + [m], lim)
  {
    hide Ingested, SignalCache, CachedDevices, SinceAdmission, LastCompleted, Admissions, Touch, Valid, Distinct;
    HistoryStep(h, m, lim.devices);
    var u := if m.device in c.latest.vals then SinceAdmission(h, m.device, lim.devices) else [];
    IngestedSpec(c, m, u, lim);
    assert m.device in c.latest.vals <==> m.device in CachedDevices(h, lim.devices);
    assert m.device !in c.latest.vals ==> SidesAt(c, m.device) == Sides(None, None);
    var e := Ingested(c, m, lim);
    forall d | d in e.latest.vals ensures ShowsDevice(e, h + [m], d, lim) {
      assert d in c.latest.vals ==> ShowsDevice(c, h, d, lim);
      hide Aligned;
    }
  }

  /** After any run of ingests: the cached devices are the most recently ingested distinct devices
      up to the cap, in recency order; each holds exactly the signal cache of the updates since
      its last admission; the side caches name cached devices only, each with the times of its
      last completed ingest; and every admission is still cached or was counted as an eviction. */
  lemma {:induction false} RunSpec(h: seq<Ingest>, lim: Limits)
    requires lim.devices > 0
    ensures Shows(Run(h, lim), h, lim)
  {
    hide Ingested, Shows;
    if h == [] {
      ShowsInitially(lim);
    } else {
      var before, m := h[..|h| - 1], h[|h| - 1];
      RunSpec(before, lim);
      ShowsStep(Run(before, lim), before, m, lim);
      assert before + [m] == h;
    }
  }

  /** The same, read off by a client: which signals a device shows and with which values. */
  lemma CachedSignals(h: seq<Ingest>, device: string, lim: Limits)
    requires lim.devices > 0 && lim.signals > 0 && device in CachedDevices(h, lim.devices)
    ensures var u := SinceAdmission(h, device, lim.devices);
            var c := Run(h, lim);
            device in c.latest.vals &&
            c.latest.vals[device].keys == LastN(Recent(Names(u)), lim.signals) &&
            forall n :: n in c.latest.vals[device].vals ==> LatestValue(u, n) == Some(c.latest.vals[device].vals[n])
  {
    RunSpec(h, lim);
    SignalCacheSpec(SinceAdmission(h, device, lim.devices), lim.signals);
  }

  // ---------------------------------------------------------------- evicted signals

  /** The names a device shows after these updates. */
  function ShownNames(u: seq<Signal>, cap: nat): seq<string> { LastN(Recent(Names(u)), cap) }

  /** How many updates brought in a name that was not shown. */
  function Entries(u: seq<Signal>, cap: nat): nat {
    if u == [] then 0 else
      var before, s := u[..|u| - 1], u[|u| - 1];
      Entries(before, cap) + (if s.name in ShownNames(before, cap) then 0 else 1)
  }

  /** How many of them had to leave again. */
  function Left(u: seq<Signal>, cap: nat): int { Entries(u, cap) - |ShownNames(u, cap)| }

  /** What the updates of one more ingest push out of its device. */
  function PushedOut(h: seq<Ingest>, m: Ingest, lim: Limits): int {
    var u := if m.device in CachedDevices(h, lim.devices) then SinceAdmission(h, m.device, lim.devices) else [];
    Left(u + m.signals, lim.signals) - Left(u, lim.signals)
  }

  /** Signals evicted over a history. */
  function EvictedSignals(h: seq<Ingest>, lim: Limits): int {
    if h == [] then 0 else EvictedSignals(h[..|h| - 1], lim) + PushedOut(h[..|h| - 1], h[|h| - 1], lim)
  }

  lemma LeftSnoc(u: seq<Signal>, s: Signal, cap: nat)
    requires cap > 0
    ensures Left(u + [s], cap) == Left(u, cap) + if EvictsSignal(SignalCache(u, cap), s, cap) then 1 else 0
  {
    hide Recent, LastN, SignalCache;
    var u' := u + [s];
    assert u'[..|u|] == u;
    SignalCacheSpec(u, cap);
    TouchKeepsMostRecent(Names(u), s.name, cap);
    WithoutDistinct(SignalCache(u, cap).keys, s.name);
    assert Names(u') == Names(u) + [s.name];
  }

  lemma StoreSignalEvicts(e: Cache, device: string, s: Signal, lim: Limits)
    requires Aligned(e) && lim.devices > 0 && device in e.latest.vals
    requires e.order != [] && e.order[|e.order| - 1] == device
    ensures StoreSignal(e, device, s, lim).evictedSignals
         == e.evictedSignals + if EvictsSignal(e.latest.vals[device], s, lim.signals) then 1 else 0
  {
    SlotSpec(e, device, lim.devices);
  }

  lemma {:induction false} StoreAllEvicts(c: Cache, device: string, u: seq<Signal>, signals: seq<Signal>, lim: Limits)
    requires Aligned(c) && lim.devices > 0 && lim.signals > 0
    requires device in c.latest.vals && c.order != [] && c.order[|c.order| - 1] == device
    requires c.latest.vals[device] == SignalCache(u, lim.signals)
    ensures StoreAll(c, device, signals, lim).evictedSignals
         == c.evictedSignals + Left(u + signals, lim.signals) - Left(u, lim.signals)
  {
    hide StoreSignal, Aligned, SignalCache, Left, EvictsSignal;
    if signals == [] {
      assert u + signals == u;
    } else {
      var n := |signals| - 1;
      var e, before := StoreAll(c, device, signals[..n], lim), u + signals[..n];
      StoreAllEvicts(c, device, u, signals[..n], lim);
      StoreAllSpec(c, device, u, signals[..n], lim);
      StoreSignalEvicts(e, device, signals[n], lim);
      LeftSnoc(before, signals[n], lim.signals);
      assert before + [signals[n]] == u + signals;
    }
  }

  lemma SlotEvictsNoSignals(c: Cache, device: string, cap: nat)
    ensures Slot(c, device, cap).evictedSignals == c.evictedSignals
  {}

  /** The counter of evicted signals is what the history says: names that entered a device's cache and
      are no longer shown. */
  lemma {:induction false} RunEvictsSignals(h: seq<Ingest>, lim: Limits)
    requires lim.devices > 0 && lim.signals > 0
    ensures Run(h, lim).evictedSignals == EvictedSignals(h, lim)
  {
    hide Ingested, PushedOut, Shows;
    if h == [] {
    } else {
      var before := h[..|h| - 1];
      RunEvictsSignals(before, lim);
      RunSpec(before, lim);
      IngestEvicts(Run(before, lim), before, h[|h| - 1], lim);
    }
  }

  lemma IngestEvicts(c: Cache, h: seq<Ingest>, m: Ingest, lim: Limits)
    requires lim.devices > 0 && lim.signals > 0 && Shows(c, h, lim)
    ensures Ingested(c, m, lim).evictedSignals == c.evictedSignals + PushedOut(h, m, lim)
  {
    hide Slot, StoreAll, SignalCache, Left, CachedDevices, SinceAdmission, LastCompleted, Admissions, Valid, Distinct;
    var u := if m.device in CachedDevices(h, lim.devices) then SinceAdmission(h, m.device, lim.devices) else [];
    var slot := Slot(c, m.device, lim.devices);
    SlotSpec(c, m.device, lim.devices);
    SlotEvictsNoSignals(c, m.device, lim.devices);
    assert m.device in c.latest.vals ==> ShowsDevice(c, h, m.device, lim);
    EmptySignalCache(lim.signals);
    StoreAllEvicts(slot, m.device, u, m.signals, lim);
  }

  lemma EmptySignalCache(cap: nat)
    ensures SignalCache([], cap) == Empty()
  {}

  lemma {:induction false} LastCompletedExists(h: seq<Ingest>, device: string, cap: nat)
    requires (forall i :: 0 <= i < |h| ==> h[i].completed) && device in Devices(h)
    ensures LastCompleted(h, device, cap).Some?
  {
    if h[|h| - 1].device != device { LastCompletedExists(h[..|h| - 1], device, cap); }
  }

  /** When no ingest was cut short, the side caches cover every cached device. */
  lemma CompleteRunsFillSideCaches(h: seq<Ingest>, lim: Limits)
    requires lim.devices > 0 && forall i :: 0 <= i < |h| ==> h[i].completed
    ensures forall d :: d in Run(h, lim).latest.vals ==> d in Run(h, lim).lastBundle && d in Run(h, lim).lastRecv
  {
    hide Run, Shows;
    RunSpec(h, lim);
    var c := Run(h, lim);
    forall d | d in c.latest.vals ensures d in c.lastBundle && d in c.lastRecv {
      CachedWasIngested(c, h, d, lim);
      LastCompletedExists(h, d, lim.devices);
    }
  }

  lemma CachedWasIngested(c: Cache, h: seq<Ingest>, d: string, lim: Limits)
    requires Shows(c, h, lim) && d in c.latest.vals
    ensures d in Devices(h) && SidesAt(c, d) == SidesOf(LastCompleted(h, d, lim.devices))
  {
    hide Recent, Devices, SignalCache, LastCompleted, Admissions;
    RecentKeys(Devices(h));
    assert d in c.order && ShowsDevice(c, h, d, lim);
  }

  // ---------------------------------------------------------------- the object

  class TelemetryStore {
    const lim: Limits
    var latest: Dict<string, Signals>
    var order: seq<string>
    var lastBundle: map<string, real>
    var lastRecv: map<string, real>
    var evictedDevices: nat
    var evictedSignals: nat

    ghost function View(): Cache
      reads this
    {
      Cache(latest, order, lastBundle, lastRecv, evictedDevices, evictedSignals)
    }

    /** Configured limits are raised to at least one. */
    constructor (maxDevices: int, maxSignals: int)
      ensures View() == EMPTY && lim.devices > 0 && lim.signals > 0
      ensures lim == Limits(if maxDevices < 1 then 1 else maxDevices, if maxSignals < 1 then 1 else maxSignals)
    {
      lim := Limits(if maxDevices < 1 then 1 else maxDevices, if maxSignals < 1 then 1 else maxSignals);
      latest, order, lastBundle, lastRecv := Empty(), [], map[], map[];
      evictedDevices, evictedSignals := 0, 0;
    }

    method EvictOneDevice(device: string)
      modifies this
      ensures View() == EvictOne(old(View()), device, lim.devices)
    {
      if device in latest.vals || |latest.keys| < lim.devices { return; }
      if order == [] && latest.keys == [] { return; }
      var oldest := if order != [] then order[0] else latest.keys[0];
      latest := Pop(latest, oldest);
      lastBundle := lastBundle - {oldest};
      lastRecv := lastRecv - {oldest};
      order := Without(order, oldest);
      evictedDevices := evictedDevices + 1;
    }

    method EnsureDeviceSlot(device: string)
      modifies this
      ensures View() == Slot(old(View()), device, lim.devices)
    {
      EvictOneDevice(device);
      if device !in latest.vals { latest := Put(latest, device, Empty()); }
      order := TouchLru(order, device);
    }

    method StoreTelemetrySignal(device: string, s: Signal)
      modifies this
      ensures View() == StoreSignal(old(View()), device, s, lim)
    {
      EnsureDeviceSlot(device);
      if device !in latest.vals { return; }
      var cache := latest.vals[device];
      if s.name in cache.vals {
        cache := Pop(cache, s.name);
      } else if |cache.keys| >= lim.signals && cache.keys != [] {
        cache := Pop(cache, cache.keys[0]);
        evictedSignals := evictedSignals + 1;
      }
      cache := Put(cache, s.name, s.value);
      latest := Put(latest, device, cache);
    }

    method IngestTelemetry(m: Ingest)
      modifies this
      ensures View() == Ingested(old(View()), m, lim)
    {
      hide StoreSignal, Slot;
      EnsureDeviceSlot(m.device);
      ghost var slot := View();
      for i := 0 to |m.signals|
        invariant View() == StoreAll(slot, m.device, m.signals[..i], lim)
      {
        assert m.signals[..i + 1][..i] == m.signals[..i];
        StoreTelemetrySignal(m.device, m.signals[i]);
      }
      assert m.signals[..|m.signals|] == m.signals;
      if !m.completed { return; }
      lastBundle := lastBundle[m.device := m.ts];
      lastRecv := lastRecv[m.device := m.recv];
      order := TouchLru(order, m.device);
    }
  }
}
