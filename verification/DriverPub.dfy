/** The manager's drain of the driver PUB socket (src/experiment_control/_manager/driver_pub.py):
    one FIFO of messages, a base read budget per tick, and a second budget that is spent only
    while no chunk_ready message has been seen. */
module DriverPub {

  type Body(==, !new)
  datatype Msg = Undecodable | Decoded(chunk: bool, body: Body)

  const MAX_DRAIN_PER_TICK: nat := 256

  predicate IsChunk(m: Msg) { m.Decoded? && m.chunk }

  predicate IsOther(m: Msg) { m.Decoded? && !m.chunk }

  predicate IsDecoded(m: Msg) { m.Decoded? }

  function Filter(keep: Msg -> bool, s: seq<Msg>): seq<Msg> {
    if s == [] then [] else Filter(keep, s[..|s| - 1]) + (if keep(s[|s| - 1]) then [s[|s| - 1]] else [])
  }

  function Chunks(s: seq<Msg>): seq<Msg> { Filter(IsChunk, s) }

  function Others(s: seq<Msg>): seq<Msg> { Filter(IsOther, s) }

  lemma FilterSnoc(keep: Msg -> bool, s: seq<Msg>, m: Msg)
    ensures Filter(keep, s + [m]) == Filter(keep, s) + (if keep(m) then [m] else [])
  {
    assert (s + [m])[..|s|] == s;
  }

  lemma {:induction false} FilterConcat(keep: Msg -> bool, a: seq<Msg>, b: seq<Msg>)
    ensures Filter(keep, a + b) == Filter(keep, a) + Filter(keep, b)
  {
    if b == [] {
      assert a + b == a;
    } else {
      var n := |b| - 1;
      FilterConcat(keep, a, b[..n]);
      FilterSnoc(keep, a + b[..n], b[n]);
      assert a + b == (a + b[..n]) + [b[n]];
    }
  }

  /** Filtering twice is filtering once with both conditions. */
  lemma {:induction false} FilterCompose(f: Msg -> bool, g: Msg -> bool, h: Msg -> bool, s: seq<Msg>)
    requires forall m :: h(m) <==> f(m) && g(m)
    ensures Filter(f, Filter(g, s)) == Filter(h, s)
  {
    if s == [] {
    } else {
      var n := |s| - 1;
      FilterCompose(f, g, h, s[..n]);
      if g(s[n]) {
        FilterSnoc(f, Filter(g, s[..n]), s[n]);
      } else {
        assert Filter(g, s) == Filter(g, s[..n]);
      }
    }
  }

  lemma {:induction false} FilterNone(s: seq<Msg>)
    ensures Filter((m: Msg) => false, s) == []
  {
    if s == [] {
    } else {
      FilterNone(s[..|s| - 1]);
    }
  }

  /** Index of the first chunk_ready, or the length when there is none. */
  function FirstChunk(q: seq<Msg>): (k: nat)
    ensures k <= |q| && (k < |q| ==> IsChunk(q[k])) && forall i :: 0 <= i < k ==> !IsChunk(q[i])
  {
    if q == [] || IsChunk(q[0]) then 0 else 1 + FirstChunk(q[1..])
  }

  function Min(a: int, b: int): int { if a < b then a else b }

  /** How many messages one tick reads. */
  function ReadCount(q: seq<Msg>, max: nat): (r: nat)
    ensures r <= |q|
  {
    var k := FirstChunk(q);
    if k < max then Min(|q|, max)
    else if k < 2 * max && k < |q| then k + 1
    else Min(|q|, 2 * max)
  }

  /** When a tick reports that it hit its cap. */
  predicate CapHit(q: seq<Msg>, max: nat) {
    (FirstChunk(q) < max && max <= |q|) || (2 * max - 1 <= FirstChunk(q) && 2 * max <= |q|)
  }

  /** When a tick reports that the extension gave up without finding a chunk. */
  predicate Exhausted(q: seq<Msg>, max: nat) { 2 * max <= |q| && 2 * max <= FirstChunk(q) }

  /** What one tick hands to the handlers: chunks first, then the rest. */
  function Dispatch(read: seq<Msg>): seq<Msg> { Chunks(read) + Others(read) }

  /** No other message comes before a chunk. */
  ghost predicate ChunksFirst(batch: seq<Msg>) {
    forall i, j :: 0 <= i < j < |batch| && IsChunk(batch[j]) ==> IsChunk(batch[i])
  }

  lemma {:induction false} FilterKeeps(keep: Msg -> bool, s: seq<Msg>)
    ensures forall i :: 0 <= i < |Filter(keep, s)| ==> keep(Filter(keep, s)[i])
  {
    if s == [] {
    } else {
      FilterKeeps(keep, s[..|s| - 1]);
    }
  }

  /** What is read is handled with its chunks first, and nothing undecodable is handled. */
  lemma DispatchPutsChunksFirst(read: seq<Msg>)
    ensures ChunksFirst(Dispatch(read)) && forall i :: 0 <= i < |Dispatch(read)| ==> Dispatch(read)[i].Decoded?
  {
    hide Filter;
    FilterKeeps(IsChunk, read);
    FilterKeeps(IsOther, read);
    var batch, n := Dispatch(read), |Chunks(read)|;
    assert forall i :: 0 <= i < |batch| ==> batch[i] == if i < n then Chunks(read)[i] else Others(read)[i - n];
  }

  /** Where the read loop can stop, and what that says about the queue. */
  lemma StoppedReading(q: seq<Msg>, max: nat, base: nat, extended: nat)
    requires base + extended <= |q| && base <= max && extended <= max
    requires extended > 0 ==> base == max && FirstChunk(q) >= base + extended - 1
    requires base + extended == |q| || (base == max && (FirstChunk(q) < base + extended || extended == max))
    ensures base == Min(base + extended, max)
    ensures base + extended == ReadCount(q, max)
    ensures CapHit(q, max) <==>
      base == max && (FirstChunk(q) < max + extended || extended == max)
      && !(FirstChunk(q) < max + extended && 0 < extended < max)
  {
    hide FirstChunk;
  }

  class DriverPubPump {
    var sub: seq<Msg>
    var handled: seq<Msg>
    var extendedTotal: nat
    var exhaustedTotal: nat
    var capHitTotal: nat

    constructor ()
      ensures sub == [] && handled == [] && extendedTotal == exhaustedTotal == capHitTotal == 0
    {
      sub, handled := [], [];
      extendedTotal, exhaustedTotal, capHitTotal := 0, 0, 0;
    }

    /** The read loop of one tick. `sub` holds the messages that a non-blocking receive would
        deliver before it finds the socket empty. */
    method ReadMessages()
      returns (messages: seq<Msg>, baseReads: nat, extendedReads: nat, chunkSeen: bool, capHit: bool)
      modifies this`sub
      ensures baseReads + extendedReads == ReadCount(old(sub), MAX_DRAIN_PER_TICK)
      ensures sub == old(sub)[baseReads + extendedReads..]
      ensures messages == Filter(IsDecoded, old(sub)[..baseReads + extendedReads])
      ensures baseReads == Min(baseReads + extendedReads, MAX_DRAIN_PER_TICK)
      ensures chunkSeen == (FirstChunk(old(sub)) < baseReads + extendedReads)
      ensures capHit == CapHit(old(sub), MAX_DRAIN_PER_TICK)
    {
      ghost var q := sub;
      assert Filter(IsDecoded, q[..0]) == [];
      hide Filter, FirstChunk, ReadCount, CapHit, Min;
      ghost var k := FirstChunk(q);
      ghost var n := 0;
      messages, capHit, chunkSeen := [], true, false;
      baseReads, extendedReads := 0, 0;
      while true
        invariant n == baseReads + extendedReads <= |q| && sub == q[n..]
        invariant baseReads <= MAX_DRAIN_PER_TICK && extendedReads <= MAX_DRAIN_PER_TICK
        invariant extendedReads > 0 ==> baseReads == MAX_DRAIN_PER_TICK && k >= n - 1
        invariant chunkSeen == (k < n)
        invariant messages == Filter(IsDecoded, q[..n])
        invariant capHit
        decreases |sub|
      {
        var baseCapReached := baseReads >= MAX_DRAIN_PER_TICK;
        if baseCapReached {
          var extensionExhausted := extendedReads >= MAX_DRAIN_PER_TICK;
          if chunkSeen || extensionExhausted {
            if chunkSeen && extendedReads > 0 && !extensionExhausted {
              capHit := false;
            }
            break;
          }
        }
        if sub == [] {
          capHit := false;
          break;
        }
        var m := sub[0];
        assert m == q[n] && q[..n + 1] == q[..n] + [m];
        FilterSnoc(IsDecoded, q[..n], m);
        sub := sub[1..];
        if baseCapReached { extendedReads := extendedReads + 1; } else { baseReads := baseReads + 1; }
        if m.Decoded? {
          messages := messages + [m];
          if m.chunk { chunkSeen := true; }
        }
        n := n + 1;
      }
      StoppedReading(q, MAX_DRAIN_PER_TICK, baseReads, extendedReads);
    }

    method HandleDriverPub() returns (drained: nat)
      modifies this
      ensures drained == ReadCount(old(sub), MAX_DRAIN_PER_TICK)
      ensures sub == old(sub)[drained..]
      ensures handled == old(handled) + Dispatch(old(sub)[..drained])
      ensures ChunksFirst(handled[|old(handled)|..])
      ensures extendedTotal ==
        old(extendedTotal) + (if drained > MAX_DRAIN_PER_TICK then drained - MAX_DRAIN_PER_TICK else 0)
      ensures exhaustedTotal == old(exhaustedTotal) + (if Exhausted(old(sub), MAX_DRAIN_PER_TICK) then 1 else 0)
      ensures exhaustedTotal != old(exhaustedTotal) <==>
        drained == 2 * MAX_DRAIN_PER_TICK && forall i :: 0 <= i < drained ==> !IsChunk(old(sub)[i])
      ensures capHitTotal == old(capHitTotal) + (if CapHit(old(sub), MAX_DRAIN_PER_TICK) then 1 else 0)
    {
      hide Filter, FirstChunk;
      var messages, baseReads, extendedReads, chunkSeen, capHit := ReadMessages();
      if extendedReads > 0 {
        extendedTotal := extendedTotal + extendedReads;
        if extendedReads >= MAX_DRAIN_PER_TICK && !chunkSeen {
          exhaustedTotal := exhaustedTotal + 1;
        }
      }
      drained := baseReads + extendedReads;
      FilterCompose(IsChunk, IsDecoded, IsChunk, old(sub)[..drained]);
      FilterCompose(IsOther, IsDecoded, IsOther, old(sub)[..drained]);
      handled := handled + (Chunks(messages) + Others(messages));
      DispatchPutsChunksFirst(old(sub)[..drained]);
      assert handled[|old(handled)|..] == Dispatch(old(sub)[..drained]);
      if capHit { capHitTotal := capHitTotal + 1; }
      ExhaustedIff(old(sub), MAX_DRAIN_PER_TICK);
    }
  }

  /** Hitting the cap does not prove that messages remain: these are exactly the queues on which
      a tick claims the cap and leaves the socket empty. */
  lemma CapHitWithEmptySocketIff(q: seq<Msg>, max: nat)
    requires max > 0
    ensures CapHit(q, max) && ReadCount(q, max) == |q| <==>
      (|q| == max && FirstChunk(q) < max) || (|q| == 2 * max && FirstChunk(q) >= 2 * max - 1)
  {}

  /** What an exhausted extension means: both budgets were spent and no chunk was among them. */
  lemma ExhaustedIff(q: seq<Msg>, max: nat)
    requires max > 0
    ensures Exhausted(q, max) <==>
      ReadCount(q, max) == 2 * max && forall i :: 0 <= i < 2 * max ==> !IsChunk(q[i])
  {
    var k := FirstChunk(q);
    hide FirstChunk;
  }

  /** What a cap report means: the tick stopped because a budget was used up, the base budget with a
      chunk seen in it or both budgets. */
  lemma CapHitMeansBudgetSpent(q: seq<Msg>, max: nat)
    requires max > 0
    ensures CapHit(q, max) <==>
      ReadCount(q, max) == 2 * max || (ReadCount(q, max) == max && exists i :: 0 <= i < max <= |q| && IsChunk(q[i]))
  {
    var k := FirstChunk(q);
    hide FirstChunk;
  }

  /** Such a queue for the program's own budget: one full base read of chunks. */
  lemma CapHitWithEmptySocketExists(b: Body)
    ensures var q := seq(MAX_DRAIN_PER_TICK, _ => Decoded(true, b));
            CapHit(q, MAX_DRAIN_PER_TICK) && ReadCount(q, MAX_DRAIN_PER_TICK) == |q|
  {
    var q := seq(MAX_DRAIN_PER_TICK, _ => Decoded(true, b));
    assert IsChunk(q[0]);
  }

  // ---------------------------------------------------------------- runs of ticks and arrivals

  datatype Event = Arrive(more: seq<Msg>) | Tick
  datatype Pump = Pump(queue: seq<Msg>, handled: seq<Msg>, read: nat)

  function Step(s: Pump, e: Event, max: nat): Pump {
    match e
    case Arrive(more) => s.(queue := s.queue + more)
    case Tick =>
      var r := ReadCount(s.queue, max);
      Pump(s.queue[r..], s.handled + Dispatch(s.queue[..r]), s.read + r)
  }

  function Run(s: Pump, events: seq<Event>, max: nat): Pump
    decreases |events|
  {
    if events == [] then s else Run(Step(s, events[0], max), events[1..], max)
  }

  function Arrived(events: seq<Event>): seq<Msg> {
    if events == [] then []
    else (if events[0].Arrive? then events[0].more else []) + Arrived(events[1..])
  }

  function Ticks(events: seq<Event>): nat {
    if events == [] then 0 else (if events[0].Tick? then 1 else 0) + Ticks(events[1..])
  }

  lemma KindsConcat(a: seq<Msg>, b: seq<Msg>)
    ensures Chunks(a + b) == Chunks(a) + Chunks(b) && Others(a + b) == Others(a) + Others(b)
  {
    FilterConcat(IsChunk, a, b);
    FilterConcat(IsOther, a, b);
  }

  /** Dispatching reorders only across the two kinds. */
  lemma DispatchKeepsOrder(read: seq<Msg>)
    ensures Chunks(Dispatch(read)) == Chunks(read) && Others(Dispatch(read)) == Others(read)
  {
    var none := (m: Msg) => false;
    FilterConcat(IsChunk, Chunks(read), Others(read));
    FilterConcat(IsOther, Chunks(read), Others(read));
    FilterCompose(IsChunk, IsChunk, IsChunk, read);
    FilterCompose(IsOther, IsOther, IsOther, read);
    FilterCompose(IsChunk, IsOther, none, read);
    FilterCompose(IsOther, IsChunk, none, read);
    FilterNone(read);
  }

  /** From `s`, the pump has read the first d of these messages: they are handled, chunks in
      order and others in order, and the rest is still queued. */
  ghost predicate Delivered(s: Pump, t: Pump, all: seq<Msg>) {
    var d := t.read - s.read;
    0 <= d <= |all| && t.queue == all[d..] &&
    Chunks(t.handled) == Chunks(s.handled) + Chunks(all[..d]) &&
    Others(t.handled) == Others(s.handled) + Others(all[..d])
  }

  /** Over every run, what a further tick hands over has its chunks first. */
  lemma TickHandlesChunksFirst(s: Pump, events: seq<Event>, max: nat)
    ensures var before, after := Run(s, events, max).handled, Run(s, events + [Tick], max).handled;
            before <= after && ChunksFirst(after[|before|..])
  {
    hide Filter, FirstChunk, Dispatch;
    RunSnoc(s, events, Tick, max);
    var t := Run(s, events, max);
    var batch := Dispatch(t.queue[..ReadCount(t.queue, max)]);
    DispatchPutsChunksFirst(t.queue[..ReadCount(t.queue, max)]);
    assert (t.handled + batch)[|t.handled|..] == batch;
  }

  lemma {:induction false} RunSnoc(s: Pump, events: seq<Event>, e: Event, max: nat)
    ensures Run(s, events + [e], max) == Step(Run(s, events, max), e, max)
    decreases |events|
  {
    hide Step;
    if events == [] {
      assert ([] + [e])[1..] == [];
    } else {
      RunSnoc(Step(s, events[0], max), events[1..], e, max);
      assert (events + [e])[1..] == events[1..] + [e];
    }
  }

  lemma TickDelivers(s: Pump, max: nat)
    ensures Delivered(s, Step(s, Tick, max), s.queue)
  {
    hide Filter, FirstChunk, Dispatch;
    var r := ReadCount(s.queue, max);
    DispatchKeepsOrder(s.queue[..r]);
    KindsConcat(s.handled, Dispatch(s.queue[..r]));
  }

  /** Reading on after some messages were delivered. */
  lemma DeliveredOn(s: Pump, t: Pump, u: Pump, q: seq<Msg>, later: seq<Msg>)
    requires Delivered(s, t, q) && Delivered(t, u, t.queue + later)
    ensures Delivered(s, u, q + later)
  {
    hide Filter;
    var d, e := t.read - s.read, u.read - t.read;
    SplitTwice(q, later, d, e);
    KindsConcat(q[..d], (t.queue + later)[..e]);
    Associative(Chunks(s.handled), Chunks(q[..d]), Chunks((t.queue + later)[..e]));
    Associative(Others(s.handled), Others(q[..d]), Others((t.queue + later)[..e]));
  }

  /** Dropping d messages and then e more is dropping d + e. */
  lemma SplitTwice(q: seq<Msg>, later: seq<Msg>, d: nat, e: nat)
    requires d <= |q| && d + e <= |q + later|
    ensures (q + later)[..d + e] == q[..d] + (q[d..] + later)[..e]
    ensures (q + later)[d + e..] == (q[d..] + later)[e..]
  {
    assert (q + later)[d..] == q[d..] + later;
    assert (q + later)[..d] == q[..d];
  }

  lemma Associative(a: seq<Msg>, b: seq<Msg>, c: seq<Msg>)
    ensures (a + b) + c == a + (b + c)
  {}

  lemma DeliveredNothing(s: Pump)
    ensures Delivered(s, s, s.queue + [])
  {
    assert (s.queue + [])[..0] == [];
  }

  /** Over any interleaving of arrivals and ticks, every decodable message is handled exactly once
      or still queued: what is handled is what was read, chunks in arrival order among themselves
      and all other messages in arrival order among themselves. */
  lemma {:induction false} RunDeliversInOrder(s: Pump, events: seq<Event>, max: nat)
    ensures Delivered(s, Run(s, events, max), s.queue + Arrived(events))
    decreases |events|
  {
    hide Delivered;
    if events == [] {
      DeliveredNothing(s);
    } else {
      var e, rest := events[0], events[1..];
      var t := Step(s, e, max);
      RunDeliversInOrder(t, rest, max);
      if e.Tick? {
        TickDelivers(s, max);
        DeliveredOn(s, t, Run(t, rest, max), s.queue, Arrived(rest));
        assert Arrived(events) == Arrived(rest);
      } else {
        Associative(s.queue, e.more, Arrived(rest));
        ArriveDelivers(s, e.more, Run(t, rest, max), (s.queue + e.more) + Arrived(rest));
      }
    }
  }

  lemma ArriveDelivers(s: Pump, more: seq<Msg>, u: Pump, all: seq<Msg>)
    requires Delivered(s.(queue := s.queue + more), u, all)
    ensures Delivered(s, u, all)
  {}

  // ---------------------------------------------------------------- latency

  lemma {:induction false} ReadGrows(s: Pump, events: seq<Event>, max: nat)
    ensures s.read <= Run(s, events, max).read
    decreases |events|
  {
    if events == [] {
    } else {
      ReadGrows(Step(s, events[0], max), events[1..], max);
    }
  }

  /** Reads granted when every tick is worth w. */
  function Budget(events: seq<Event>, w: nat): nat {
    if events == [] then 0 else (if events[0].Tick? then w else 0) + Budget(events[1..], w)
  }

  lemma {:induction false} BudgetCoversPosition(events: seq<Event>, w: nat, p: nat)
    requires w > 0 && Ticks(events) >= p / w + 1
    ensures Budget(events, w) > p
    decreases |events|
  {
    if events[0].Tick? {
      if p >= w {
        DivStep(p, w);
        BudgetCoversPosition(events[1..], w, p - w);
      }
    } else {
      BudgetCoversPosition(events[1..], w, p);
    }
  }

  lemma DivStep(p: nat, w: nat)
    requires p >= w > 0
    ensures (p - w) / w == p / w - 1
  {
    assert p == (p / w) * w + p % w;
    assert p - w == (p / w - 1) * w + p % w;
    DivUnique(p - w, w, p / w - 1, p % w);
  }

  lemma DivUnique(x: nat, w: nat, q: int, r: nat)
    requires r < w && x == q * w + r
    ensures x / w == q
  {
    assert (x / w - q) * w == r - x % w;
    SmallMultiple(x / w - q, w);
  }

  lemma SmallMultiple(d: int, w: nat)
    ensures 0 < d * w + w && d * w < w ==> d == 0
  {}

  lemma {:induction false} Progress(s: Pump, events: seq<Event>, max: nat, p: nat)
    requires p < |s.queue|
    ensures Run(s, events, max).read - s.read >= Min(p + 1, Budget(events, max))
    decreases |events|
  {
    hide FirstChunk, Dispatch;
    if events == [] {
    } else {
      var t := Step(s, events[0], max);
      if events[0].Tick? {
        var r := ReadCount(s.queue, max);
        if r > p { ReadGrows(t, events[1..], max); } else { Progress(t, events[1..], max, p - r); }
      } else {
        Progress(t, events[1..], max, p);
      }
    }
  }

  /** The message at queue position p has been read after floor(p / MAX) + 1 ticks, whatever
      arrives in between; in particular a chunk at p has been handled. */
  lemma HandledWithinTicks(s: Pump, events: seq<Event>, max: nat, p: nat)
    requires max > 0 && p < |s.queue| && Ticks(events) >= p / max + 1
    ensures Run(s, events, max).read > s.read + p
    ensures Chunks(s.handled) + Chunks(s.queue[..p + 1]) <= Chunks(Run(s, events, max).handled)
    ensures Others(s.handled) + Others(s.queue[..p + 1]) <= Others(Run(s, events, max).handled)
  {
    Progress(s, events, max, p);
    BudgetCoversPosition(events, max, p);
    HandledUpTo(s, events, max, p);
  }

  lemma HandledUpTo(s: Pump, events: seq<Event>, max: nat, p: nat)
    requires p < |s.queue| && Run(s, events, max).read > s.read + p
    ensures Chunks(s.handled) + Chunks(s.queue[..p + 1]) <= Chunks(Run(s, events, max).handled)
    ensures Others(s.handled) + Others(s.queue[..p + 1]) <= Others(Run(s, events, max).handled)
  {
    hide Filter, Run;
    RunDeliversInOrder(s, events, max);
    var all, d := s.queue + Arrived(events), Run(s, events, max).read - s.read;
    var first := s.queue[..p + 1];
    assert all[..d] == first + all[p + 1..d];
    KindsConcat(first, all[p + 1..d]);
    Associative(Chunks(s.handled), Chunks(first), Chunks(all[p + 1..d]));
    Associative(Others(s.handled), Others(first), Others(all[p + 1..d]));
  }

  lemma FirstChunkTail(q: seq<Msg>, r: nat, more: seq<Msg>)
    requires r <= FirstChunk(q) < |q|
    ensures FirstChunk(q[r..]) == FirstChunk(q) - r && FirstChunk(q + more) == FirstChunk(q)
  {
    var k, tail, longer := FirstChunk(q), q[r..], q + more;
    assert tail[k - r] == q[k] && longer[k] == q[k];
    assert forall i :: 0 <= i < k - r ==> tail[i] == q[r + i];
    assert forall i :: 0 <= i < k ==> longer[i] == q[i];
  }

  lemma {:induction false} ChunkProgress(s: Pump, events: seq<Event>, max: nat)
    requires FirstChunk(s.queue) < |s.queue|
    ensures Run(s, events, max).read - s.read >= Min(FirstChunk(s.queue) + 1, Budget(events, 2 * max))
    decreases |events|
  {
    hide FirstChunk, Dispatch;
    if events == [] {
    } else {
      var t, p := Step(s, events[0], max), FirstChunk(s.queue);
      if events[0].Tick? {
        var r := ReadCount(s.queue, max);
        if r > p {
          ReadGrows(t, events[1..], max);
        } else {
          FirstChunkTail(s.queue, r, []);
          ChunkProgress(t, events[1..], max);
        }
      } else {
        FirstChunkTail(s.queue, 0, events[0].more);
        ChunkProgress(t, events[1..], max);
      }
    }
  }

  /** What the priority extension buys: the first queued chunk at position p is handled within
      floor(p / (2 MAX)) + 1 ticks, twice as fast as an ordinary message there. */
  lemma FirstChunkHandledTwiceAsFast(s: Pump, events: seq<Event>, max: nat)
    requires max > 0 && FirstChunk(s.queue) < |s.queue|
    requires Ticks(events) >= FirstChunk(s.queue) / (2 * max) + 1
    ensures Run(s, events, max).read > s.read + FirstChunk(s.queue)
    ensures Chunks(s.handled) + [s.queue[FirstChunk(s.queue)]] <= Chunks(Run(s, events, max).handled)
  {
    var k := FirstChunk(s.queue);
    ChunkProgress(s, events, max);
    BudgetCoversPosition(events, 2 * max, k);
    HandledUpTo(s, events, max, k);
    assert s.queue[..k + 1] == s.queue[..k] + [s.queue[k]];
    FilterSnoc(IsChunk, s.queue[..k], s.queue[k]);
    NoChunks(s.queue[..k]);
  }

  lemma {:induction false} NoChunks(s: seq<Msg>)
    requires forall i :: 0 <= i < |s| ==> !IsChunk(s[i])
    ensures Chunks(s) == []
  {
    if s == [] {
    } else {
      NoChunks(s[..|s| - 1]);
    }
  }
}
