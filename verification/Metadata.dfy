/** Runtime metadata overrides (src/experiment_control/_manager/device_routing.py and
    runtime_metadata.py): set and clear requests on per-device overrides, their revision
    counter, and the effective metadata obtained by overlaying them on the configured base. */
module Metadata {

  type Value(==, !new)
  type Attrs = map<string, Value>
  type Streams = map<string, Attrs>

  // ---------------------------------------------------------------- overlay algebra

  function AttrsOf(m: Streams, stream: string): Attrs {
    if stream in m then m[stream] else map[]
  }

  /** Two-level overlay: streams are united, and the attributes of a shared stream are overlaid. */
  function MergeStreams(base: Streams, overlay: Streams): Streams {
    map s | s in base.Keys + overlay.Keys :: AttrsOf(base, s) + AttrsOf(overlay, s)
  }

  lemma OverlayAssociative(a: Attrs, b: Attrs, c: Attrs)
    ensures (a + b) + c == a + (b + c)
  {}

  lemma MergedAttrs(base: Streams, overlay: Streams, stream: string)
    ensures AttrsOf(MergeStreams(base, overlay), stream) == AttrsOf(base, stream) + AttrsOf(overlay, stream)
  {}

  /** What a reader sees at one attribute: the overlay wins where it speaks. */
  lemma MergeStreamsLookup(base: Streams, overlay: Streams, stream: string, attr: string)
    ensures attr in AttrsOf(MergeStreams(base, overlay), stream) <==>
              attr in AttrsOf(base, stream) || attr in AttrsOf(overlay, stream)
    ensures attr in AttrsOf(overlay, stream) ==>
              AttrsOf(MergeStreams(base, overlay), stream)[attr] == overlay[stream][attr]
    ensures attr in AttrsOf(base, stream) && attr !in AttrsOf(overlay, stream) ==>
              AttrsOf(MergeStreams(base, overlay), stream)[attr] == base[stream][attr]
  {
    MergedAttrs(base, overlay, stream);
  }

  lemma MergeStreamsAssociative(a: Streams, b: Streams, c: Streams)
    ensures MergeStreams(MergeStreams(a, b), c) == MergeStreams(a, MergeStreams(b, c))
  {
    var ab, bc := MergeStreams(a, b), MergeStreams(b, c);
    forall s ensures AttrsOf(ab, s) + AttrsOf(c, s) == AttrsOf(a, s) + AttrsOf(bc, s) {
      MergedAttrs(a, b, s);
      MergedAttrs(b, c, s);
      OverlayAssociative(AttrsOf(a, s), AttrsOf(b, s), AttrsOf(c, s));
    }
  }

  lemma MergeStreamsUnit(a: Streams)
    ensures MergeStreams(a, map[]) == a && MergeStreams(map[], a) == a
  {
    forall s | s in a ensures AttrsOf(a, s) + map[] == a[s] && map[] + AttrsOf(a, s) == a[s] {}
  }

  lemma MergeStreamsIdempotent(a: Streams, b: Streams)
    ensures MergeStreams(MergeStreams(a, b), b) == MergeStreams(a, b)
  {
    var once, twice := MergeStreams(a, b), MergeStreams(MergeStreams(a, b), b);
    assert once.Keys == twice.Keys;
    forall s | s in once ensures twice[s] == once[s] {
      assert AttrsOf(a, s) + AttrsOf(b, s) + AttrsOf(b, s) == AttrsOf(a, s) + AttrsOf(b, s);
    }
  }

  /** The source's two loops over the dictionaries. */
  method MergeStreamMetadataDicts(base: Streams, overlay: Streams) returns (merged: Streams)
    ensures merged == MergeStreams(base, overlay)
  {
    hide MergeStreams;
    merged := map[];
    var todo := base.Keys;
    while todo != {}
      invariant todo <= base.Keys && merged.Keys == base.Keys - todo
      invariant forall s :: s in merged ==> merged[s] == base[s]
    {
      var stream :| stream in todo;
      merged := merged[stream := base[stream]];
      todo := todo - {stream};
    }
    todo := overlay.Keys;
    while todo != {}
      invariant todo <= overlay.Keys && merged.Keys == base.Keys + (overlay.Keys - todo)
      invariant forall s :: s in merged ==>
        merged[s] == if s in overlay && s !in todo then AttrsOf(base, s) + overlay[s] else base[s]
    {
      var stream :| stream in todo;
      var cur := AttrsOf(merged, stream);
      merged := merged[stream := cur + overlay[stream]];
      todo := todo - {stream};
    }
    forall s | s in merged ensures merged[s] == AttrsOf(base, s) + AttrsOf(overlay, s) {
      if s !in overlay {
        assert base[s] + map[] == base[s];
      }
    }
    MergedByStream(base, overlay, merged);
  }

  lemma MergedByStream(base: Streams, overlay: Streams, merged: Streams)
    requires merged.Keys == base.Keys + overlay.Keys
    requires forall s :: s in merged ==> merged[s] == AttrsOf(base, s) + AttrsOf(overlay, s)
    ensures merged == MergeStreams(base, overlay)
  {}

  // ---------------------------------------------------------------- requests

  datatype Mode = Merge | Replace
  datatype Scope = All | Device | Stream
  /** A request field is missing, an explicit null, or a (normalised) value. */
  datatype Field<+T> = Absent | Null | Given(value: T)
  datatype Request =
    | Set(mode: Mode, device: Field<Attrs>, stream: Field<Streams>)
    | Clear(scope: Scope)
  datatype Overrides = Overrides(device: Attrs, stream: Streams)
  datatype Reply = Rejected | Done(changed: bool)

  const NO_OVERRIDES := Overrides(map[], map[])

  function NextDevice(mode: Mode, field: Field<Attrs>, cur: Attrs): Attrs {
    match field
    case Absent => cur
    case Null => map[]
    case Given(v) => if mode == Replace then v else cur + v
  }

  function NextStream(mode: Mode, field: Field<Streams>, cur: Streams): Streams {
    match field
    case Absent => cur
    case Null => map[]
    case Given(v) => if mode == Replace then v else MergeStreams(cur, v)
  }

  /** A set request must name at least one of the two dictionaries. */
  predicate Acceptable(req: Request) {
    req.Set? ==> !(req.device.Absent? && req.stream.Absent?)
  }

  function Next(req: Request, cur: Overrides): Overrides {
    match req
    case Set(mode, d, s) => Overrides(NextDevice(mode, d, cur.device), NextStream(mode, s, cur.stream))
    case Clear(scope) =>
      Overrides(if scope == Stream then cur.device else map[], if scope == Device then cur.stream else map[])
  }

  /** The value of one attribute, if it is set. */
  function Look(m: Attrs, attr: string): Lookup { if attr in m then Found(m[attr]) else Missing }

  datatype Lookup = Missing | Found(value: Value)

  /** What a request leaves of each device attribute: a clear of all or of the device, a null and a
      replacement that does not name it remove it; a payload that names it sets it; anything else
      keeps it. */
  lemma DeviceAttributeAfter(req: Request, cur: Overrides, attr: string)
    ensures var before, after := Look(cur.device, attr), Look(Next(req, cur).device, attr);
            (req == Clear(All) || req == Clear(Device) ==> after == Missing) &&
            (req == Clear(Stream) ==> after == before) &&
            (req.Set? && req.device == Absent ==> after == before) &&
            (req.Set? && req.device == Null ==> after == Missing) &&
            (req.Set? && req.device.Given? && attr in req.device.value ==> after == Found(req.device.value[attr])) &&
            (req.Set? && req.device.Given? && attr !in req.device.value ==>
               after == if req.mode == Merge then before else Missing)
  {}

  /** The same for each attribute of each stream. */
  lemma StreamAttributeAfter(req: Request, cur: Overrides, stream: string, attr: string)
    ensures var before := Look(AttrsOf(cur.stream, stream), attr);
            var after := Look(AttrsOf(Next(req, cur).stream, stream), attr);
            (req == Clear(All) || req == Clear(Stream) ==> after == Missing) &&
            (req == Clear(Device) ==> after == before) &&
            (req.Set? && req.stream == Absent ==> after == before) &&
            (req.Set? && req.stream == Null ==> after == Missing) &&
            (req.Set? && req.stream.Given? && attr in AttrsOf(req.stream.value, stream) ==>
               after == Found(req.stream.value[stream][attr])) &&
            (req.Set? && req.stream.Given? && attr !in AttrsOf(req.stream.value, stream) ==>
               after == if req.mode == Merge then before else Missing)
  {
    if req.Set? && req.stream.Given? && req.mode == Merge {
      MergeStreamsLookup(cur.stream, req.stream.value, stream, attr);
    }
  }

  /** Repeating a request changes nothing more. */
  lemma NextIdempotent(req: Request, cur: Overrides)
    ensures Next(req, Next(req, cur)) == Next(req, cur)
  {
    match req {
      case Set(mode, d, s) =>
        if mode == Merge && s.Given? { MergeStreamsIdempotent(cur.stream, s.value); }
        if mode == Merge && d.Given? { assert cur.device + d.value + d.value == cur.device + d.value; }
      case Clear(_) =>
    }
  }

  method NextMetadataOverrides(mode: Mode, d: Field<Attrs>, s: Field<Streams>, cur: Overrides) returns (next: Overrides)
    ensures next == Next(Set(mode, d, s), cur)
  {
    var nextDevice, nextStream := cur.device, cur.stream;
    match d {
      case Absent =>
      case Null => nextDevice := map[];
      case Given(v) => nextDevice := if mode == Replace then v else nextDevice + v;
    }
    match s {
      case Absent =>
      case Null => nextStream := map[];
      case Given(v) =>
        if mode == Replace { nextStream := v; } else { nextStream := MergeStreamMetadataDicts(nextStream, v); }
    }
    next := Overrides(nextDevice, nextStream);
  }

  // ---------------------------------------------------------------- the manager's store

  datatype Store = Store(device: map<string, Attrs>, stream: map<string, Streams>, revision: map<string, nat>)

  function OverridesOf(st: Store, id: string): Overrides {
    Overrides(if id in st.device then st.device[id] else map[],
              if id in st.stream then st.stream[id] else map[])
  }

  function RevisionOf(st: Store, id: string): nat { if id in st.revision then st.revision[id] else 0 }

  /** Overrides that became empty are removed, never stored. */
  ghost predicate NoEmptyOverrides(st: Store) {
    (forall id :: id in st.device ==> st.device[id] != map[]) &&
    (forall id :: id in st.stream ==> st.stream[id] != map[])
  }

  class RuntimeMetadata {
    const devices: set<string>
    var device: map<string, Attrs>
    var stream: map<string, Streams>
    var revision: map<string, nat>

    ghost function View(): Store
      reads this
    {
      Store(device, stream, revision)
    }

    constructor (devices: set<string>)
      ensures this.devices == devices && View() == Store(map[], map[], map[])
    {
      this.devices := devices;
      device, stream, revision := map[], map[], map[];
    }

    method ApplyOverrideChanges(id: string, cur: Overrides, next: Overrides) returns (changed: bool)
      requires cur == OverridesOf(View(), id)
      modifies this`device, this`stream
      ensures changed == (next != cur)
      ensures OverridesOf(View(), id) == next
      ensures forall other :: other != id ==> OverridesOf(View(), other) == old(OverridesOf(View(), other))
      ensures old(NoEmptyOverrides(View())) ==> NoEmptyOverrides(View())
      ensures !changed ==> View() == old(View())
    {
      changed := false;
      if next.device != cur.device {
        changed := true;
        device := if next.device != map[] then device[id := next.device] else device - {id};
      }
      if next.stream != cur.stream {
        changed := true;
        stream := if next.stream != map[] then stream[id := next.stream] else stream - {id};
      }
    }

    method SetRoute(id: string, mode: Mode, d: Field<Attrs>, s: Field<Streams>) returns (reply: Reply)
      requires NoEmptyOverrides(View())
      modifies this`device, this`stream, this`revision
      ensures NoEmptyOverrides(View())
      ensures Answers(devices, old(View()), id, Set(mode, d, s), View(), reply)
      ensures reply == Rejected <==> id !in devices || (d == Absent && s == Absent)
    {
      if id !in devices || (d.Absent? && s.Absent?) { return Rejected; }
      var cur := Overrides(if id in device then device[id] else map[], if id in stream then stream[id] else map[]);
      var next := NextMetadataOverrides(mode, d, s, cur);
      reply := CommitOverrides(id, cur, next);
    }

    method CommitOverrides(id: string, cur: Overrides, next: Overrides) returns (reply: Reply)
      requires NoEmptyOverrides(View()) && cur == OverridesOf(View(), id)
      modifies this`device, this`stream, this`revision
      ensures NoEmptyOverrides(View()) && Moves(old(View()), id, next, View(), reply)
    {
      var changed := ApplyOverrideChanges(id, cur, next);
      if changed { TouchRevision(id); }
      return Done(changed);
    }

    method ClearRoute(id: string, scope: Scope) returns (reply: Reply)
      requires NoEmptyOverrides(View())
      modifies this`device, this`stream, this`revision
      ensures NoEmptyOverrides(View())
      ensures Answers(devices, old(View()), id, Clear(scope), View(), reply)
      ensures reply == Rejected <==> id !in devices
    {
      if id !in devices { return Rejected; }
      var changed := ClearOverrides(id, scope);
      if changed { TouchRevision(id); }
      return Done(changed);
    }

    method ClearOverrides(id: string, scope: Scope) returns (changed: bool)
      requires NoEmptyOverrides(View())
      modifies this`device, this`stream
      ensures OverridesOf(View(), id) == Next(Clear(scope), old(OverridesOf(View(), id)))
      ensures changed == (OverridesOf(View(), id) != old(OverridesOf(View(), id)))
      ensures forall other :: other != id ==> OverridesOf(View(), other) == old(OverridesOf(View(), other))
      ensures NoEmptyOverrides(View()) && (!changed ==> View() == old(View()))
    {
      changed := false;
      if scope != Stream && id in device {
        device := device - {id};
        changed := true;
      }
      if scope != Device && id in stream {
        stream := stream - {id};
        changed := true;
      }
    }

    method TouchRevision(id: string)
      modifies this`revision
      ensures revision == old(revision)[id := old(RevisionOf(View(), id)) + 1]
    {
      var current := if id in revision then revision[id] else 0;
      revision := revision[id := current + 1];
    }
  }

  /** What both routes promise: the overrides of the named device become `Next`, `changed` is
      exactly "the overrides differ", the revision counts changes, and nothing else moves. */
  ghost predicate Answers(devices: set<string>, st: Store, id: string, req: Request, st': Store, reply: Reply) {
    if id !in devices || !Acceptable(req) then reply == Rejected && st' == st
    else Moves(st, id, Next(req, OverridesOf(st, id)), st', reply)
  }

  ghost predicate Moves(st: Store, id: string, next: Overrides, st': Store, reply: Reply) {
    && OverridesOf(st', id) == next
    && reply == Done(next != OverridesOf(st, id))
    && RevisionOf(st', id) == RevisionOf(st, id) + (if reply.changed then 1 else 0)
    && (!reply.changed ==> st' == st)
    && (forall other :: other != id ==> OverridesOf(st', other) == OverridesOf(st, other)
                                        && RevisionOf(st', other) == RevisionOf(st, other))
  }

  /** Repeating a request reports changed = false and leaves the whole store alone. */
  lemma RepeatReportsUnchanged(devices: set<string>, st: Store, st1: Store, st2: Store,
                               id: string, req: Request, r1: Reply, r2: Reply)
    requires Answers(devices, st, id, req, st1, r1) && Answers(devices, st1, id, req, st2, r2)
    ensures st2 == st1 && (r2.Rejected? <==> r1.Rejected?) && (r2.Done? ==> !r2.changed)
  {
    NextIdempotent(req, OverridesOf(st, id));
  }

  // ---------------------------------------------------------------- runs

  datatype Call = Call(id: string, req: Request, reply: Reply)

  /** `states` is a run of the store: each request is answered from one state to the next. */
  ghost predicate IsRun(devices: set<string>, states: seq<Store>, calls: seq<Call>) {
    |states| == |calls| + 1 &&
    forall i :: 0 <= i < |calls| ==>
      Answers(devices, states[i], calls[i].id, calls[i].req, states[i + 1], calls[i].reply)
  }

  function ChangesOf(calls: seq<Call>, id: string): nat {
    if calls == [] then 0
    else
      var c := calls[|calls| - 1];
      ChangesOf(calls[..|calls| - 1], id) + (if c.id == id && c.reply.Done? && c.reply.changed then 1 else 0)
  }

  /** The overrides a device should hold: its accepted requests applied in order. */
  function Replay(devices: set<string>, start: Overrides, calls: seq<Call>, id: string): Overrides {
    if calls == [] then start
    else
      var c := calls[|calls| - 1];
      var before := Replay(devices, start, calls[..|calls| - 1], id);
      if c.id == id && id in devices && Acceptable(c.req) then Next(c.req, before) else before
  }

  /** Over any run, a device's revision has advanced by its number of effective changes and its
      overrides are the replay of its own requests; other devices' requests do not interfere. */
  lemma {:induction false} RunCountsChanges(devices: set<string>, states: seq<Store>, calls: seq<Call>, id: string)
    requires IsRun(devices, states, calls)
    ensures RevisionOf(states[|calls|], id) == RevisionOf(states[0], id) + ChangesOf(calls, id)
    ensures OverridesOf(states[|calls|], id) == Replay(devices, OverridesOf(states[0], id), calls, id)
  {
    if calls == [] {
    } else {
      var n := |calls| - 1;
      RunCountsChanges(devices, states[..n + 1], calls[..n], id);
      var c := calls[n];
      assert Answers(devices, states[n], c.id, c.req, states[n + 1], c.reply);
    }
  }

  // ---------------------------------------------------------------- effective metadata

  function Effective(base: Overrides, over: Overrides): Overrides {
    Overrides(base.device + over.device, MergeStreams(base.stream, over.stream))
  }

  method EffectiveMetadataForDevice(base: Overrides, st: RuntimeMetadata, id: string) returns (r: Overrides)
    ensures r == Effective(base, OverridesOf(st.View(), id))
  {
    var stream := MergeStreamMetadataDicts(base.stream, if id in st.stream then st.stream[id] else map[]);
    r := Overrides(base.device + (if id in st.device then st.device[id] else map[]), stream);
  }

  /** A client sees the override of an attribute where there is one, and the base elsewhere. */
  lemma EffectiveLookup(base: Overrides, over: Overrides, stream: string, attr: string)
    ensures Look(Effective(base, over).device, attr) ==
      if attr in over.device then Found(over.device[attr]) else Look(base.device, attr)
    ensures Look(AttrsOf(Effective(base, over).stream, stream), attr) ==
      if attr in AttrsOf(over.stream, stream) then Found(over.stream[stream][attr])
      else Look(AttrsOf(base.stream, stream), attr)
  {
    MergeStreamsLookup(base.stream, over.stream, stream, attr);
  }

  predicate IsMergePatch(req: Request) {
    req.Set? && req.mode == Merge && !req.device.Null? && !req.stream.Null? && Acceptable(req)
  }

  function PatchOf(req: Request): Overrides
    requires IsMergePatch(req)
  {
    Overrides(if req.device.Given? then req.device.value else map[],
              if req.stream.Given? then req.stream.value else map[])
  }

  /** The base with the patches laid over it one after another. */
  function OverlayAll(base: Overrides, patches: seq<Overrides>): Overrides {
    if patches == [] then base
    else Effective(OverlayAll(base, patches[..|patches| - 1]), patches[|patches| - 1])
  }

  lemma MergePatchIsOverlay(req: Request, cur: Overrides)
    requires IsMergePatch(req)
    ensures Next(req, cur) == Effective(cur, PatchOf(req))
  {
    MergeStreamsUnit(cur.stream);
    assert cur.device + map[] == cur.device;
  }

  lemma EffectiveAssociative(a: Overrides, b: Overrides, c: Overrides)
    ensures Effective(a, Effective(b, c)) == Effective(Effective(a, b), c)
  {
    MergeStreamsAssociative(a.stream, b.stream, c.stream);
    OverlayAssociative(a.device, b.device, c.device);
  }

  /** Every request for this device that is not rejected is a merge patch; what other devices are
      sent does not matter. */
  predicate OnlyMergePatches(calls: seq<Call>, id: string) {
    forall i :: 0 <= i < |calls| ==> calls[i].id == id && Acceptable(calls[i].req) ==> IsMergePatch(calls[i].req)
  }

  /** The accepted patches of one device, in order. */
  function PatchesFor(calls: seq<Call>, id: string): seq<Overrides>
    requires OnlyMergePatches(calls, id)
  {
    if calls == [] then []
    else
      var c := calls[|calls| - 1];
      PatchesFor(calls[..|calls| - 1], id) + (if c.id == id && Acceptable(c.req) then [PatchOf(c.req)] else [])
  }

  /** From empty overrides, a run of merge patches makes the effective metadata equal to the
      base overlaid by those patches in order: keeping overrides apart loses nothing. */
  lemma {:induction false} MergeRunOverlaysBase(devices: set<string>, base: Overrides,
                                                states: seq<Store>, calls: seq<Call>, id: string)
    requires IsRun(devices, states, calls) && id in devices && OverridesOf(states[0], id) == NO_OVERRIDES
    requires OnlyMergePatches(calls, id)
    ensures Effective(base, OverridesOf(states[|calls|], id)) == OverlayAll(base, PatchesFor(calls, id))
  {
    if calls == [] {
      MergeStreamsUnit(base.stream);
      assert base.device + map[] == base.device;
    } else {
      var n := |calls| - 1;
      var c, before := calls[n], PatchesFor(calls[..n], id);
      MergeRunOverlaysBase(devices, base, states[..n + 1], calls[..n], id);
      var cur := OverridesOf(states[n], id);
      assert Answers(devices, states[n], c.id, c.req, states[n + 1], c.reply);
      if c.id == id && Acceptable(c.req) {
        MergePatchIsOverlay(c.req, cur);
        EffectiveAssociative(base, cur, PatchOf(c.req));
        assert (before + [PatchOf(c.req)])[..|before|] == before;
      } else {
        assert PatchesFor(calls, id) == before + [] == before;
      }
    }
  }
}
