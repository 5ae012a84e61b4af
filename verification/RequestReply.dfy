/** Request/reply correlation over a DEALER socket: the client side
    (src/experiment_control/manager_client.py) discards stale replies by request id, the manager
    side (src/experiment_control/_manager/internal_rpc.py, src/experiment_control/manager.py)
    echoes the id. */
module RequestReply {
  import opened Options

  type Id(==, !new)
  type Body(==, !new)

  /** A frame as the client decodes it: not decodable at all, not an object, or a reply. `origin` is
      the request that the reply answers; the client does not see it. */
  datatype Frame = Undecodable | NotObject | Reply(rid: Option<Id>, origin: Id, body: Body)

  // ---------------------------------------------------------------- manager

  /** What a route handler returns; it may or may not set a request id itself. */
  datatype Response = Response(rid: Option<Id>, body: Body)
  datatype Incoming = Unparseable | Parsed(rid: Option<Id>)

  /** Reply to the request `origin`: the caller's id is added unless the handler already set one;
      a request that cannot be parsed is answered without an id. */
  function Serve(origin: Id, req: Incoming, handled: Response, parseError: Body): Frame {
    if req.Unparseable? then Reply(None, origin, parseError)
    else Reply(if handled.rid.None? then req.rid else handled.rid, origin, handled.body)
  }

  /** What may reach the client: junk, or a reply to a request that was sent, with that request's
      id or with none. A manager that does not echo ids is included. */
  ghost predicate Honest(f: Frame, sent: set<Id>, answer: Id -> Body) {
    f.Reply? ==> f.origin in sent && f.body == answer(f.origin) && (f.rid == None || f.rid == Some(f.origin))
  }

  /** The manager's replies are honest; unless the request was unparseable, they carry its id. */
  lemma ServedFramesAreHonest(origin: Id, req: Incoming, handled: Response, parseError: Body,
                              sent: set<Id>, answer: Id -> Body)
    requires origin in sent && (req.Parsed? ==> req.rid == Some(origin))
    requires handled.rid == None || handled.rid == Some(origin)
    requires answer(origin) == if req.Parsed? then handled.body else parseError
    ensures Honest(Serve(origin, req, handled, parseError), sent, answer)
    ensures Serve(origin, req, handled, parseError).rid == Some(origin) <==> req.Parsed?
  {}

  // ---------------------------------------------------------------- client

  datatype Client = Client(maybeStale: bool, inbox: seq<Frame>)
  datatype Outcome = Outcome(inbox: seq<Frame>, result: Option<Frame>)

  /** A reply that the receive loop hands to the caller of request `id`. */
  predicate Accepts(f: Frame, id: Id) { f.Reply? && (f.rid == None || f.rid == Some(id)) }

  /** The receive loop: before its i-th poll the frames arrivals[i] reach the socket; when
      `arrivals` is used up the deadline has passed. */
  function Wait(inbox: seq<Frame>, id: Id, arrivals: seq<seq<Frame>>): Outcome
    decreases |arrivals|
  {
    if arrivals == [] then Outcome(inbox, None) else
      var buffered := inbox + arrivals[0];
      if buffered == [] then Wait([], id, arrivals[1..])
      else
        var f, rest := buffered[0], buffered[1..];
        if f.Undecodable? then Outcome(rest, None)
        else if Accepts(f, id) then Outcome(rest, Some(f))
        else Wait(rest, id, arrivals[1..])
  }

  /** One call: drain if the last call may have left a reply behind, send, wait. */
  function Called(c: Client, id: Id, sent: bool, arrivals: seq<seq<Frame>>): (Client, Option<Frame>) {
    var inbox := if c.maybeStale then [] else c.inbox;
    if !sent then (Client(true, inbox), None)
    else
      var o := Wait(inbox, id, arrivals);
      (Client(o.result.None?, o.inbox), o.result)
  }

  class ManagerClient {
    var maybeStale: bool
    var inbox: seq<Frame>

    ghost function View(): Client
      reads this
    {
      Client(maybeStale, inbox)
    }

    constructor ()
      ensures View() == Client(false, [])
    {
      maybeStale, inbox := false, [];
    }

    method DrainStaleReplies()
      modifies this`inbox
      ensures inbox == []
    {
      while inbox != []
        decreases |inbox|
      {
        inbox := inbox[1..];
      }
    }

    method Call(id: Id, sent: bool, arrivals: seq<seq<Frame>>) returns (r: Option<Frame>)
      modifies this
      ensures (View(), r) == Called(old(View()), id, sent, arrivals)
    {
      if maybeStale {
        DrainStaleReplies();
        maybeStale := false;
      }
      if !sent {
        maybeStale := true;
        return None;
      }
      ghost var start := inbox;
      var i := 0;
      while i < |arrivals|
        invariant 0 <= i <= |arrivals|
        invariant Wait(inbox, id, arrivals[i..]) == Wait(start, id, arrivals)
      {
        assert arrivals[i..][1..] == arrivals[i + 1..];
        inbox := inbox + arrivals[i];
        i := i + 1;
        if inbox == [] { continue; }
        var f := inbox[0];
        inbox := inbox[1..];
        if f.Undecodable? {
          maybeStale := true;
          return None;
        }
        if f.NotObject? { continue; }
        if f.rid.Some? && f.rid.value != id { continue; }
        maybeStale := false;
        return Some(f);
      }
      maybeStale := true;
      return None;
    }
  }

  // ---------------------------------------------------------------- one call

  ghost predicate Arrives(f: Frame, arrivals: seq<seq<Frame>>) {
    exists i :: 0 <= i < |arrivals| && f in arrivals[i]
  }

  /** A call returns a frame it accepts, taken from what was buffered or arrived; the frames it
      leaves behind were buffered or arrived too. */
  lemma {:induction false} WaitTakesFromArrivals(inbox: seq<Frame>, id: Id, arrivals: seq<seq<Frame>>)
    ensures var o := Wait(inbox, id, arrivals);
            (o.result.Some? ==>
               Accepts(o.result.value, id) && (o.result.value in inbox || Arrives(o.result.value, arrivals))) &&
            forall f :: f in o.inbox ==> f in inbox || Arrives(f, arrivals)
    decreases |arrivals|
  {
    if arrivals == [] {
    } else {
      var buffered := inbox + arrivals[0];
      ArrivesTail(arrivals);
      if buffered == [] {
        WaitTakesFromArrivals([], id, arrivals[1..]);
      } else {
        assert buffered == [buffered[0]] + buffered[1..];
        WaitTakesFromArrivals(buffered[1..], id, arrivals[1..]);
      }
    }
  }

  lemma ArrivesTail(arrivals: seq<seq<Frame>>)
    requires arrivals != []
    ensures forall f :: Arrives(f, arrivals) <==> f in arrivals[0] || Arrives(f, arrivals[1..])
  {
    forall f ensures Arrives(f, arrivals) <==> f in arrivals[0] || Arrives(f, arrivals[1..]) {
      if Arrives(f, arrivals) {
        var i :| 0 <= i < |arrivals| && f in arrivals[i];
        assert i > 0 ==> f in arrivals[1..][i - 1];
      }
      if Arrives(f, arrivals[1..]) {
        var i :| 0 <= i < |arrivals[1..]| && f in arrivals[1..][i];
        assert f in arrivals[i + 1];
      }
    }
  }

  /** Every arrival was looked at and none ended the wait: the loop ran to its deadline. */
  predicate TimesOut(inbox: seq<Frame>, id: Id, arrivals: seq<seq<Frame>>)
    decreases |arrivals|
  {
    if arrivals == [] then true else
      var buffered := inbox + arrivals[0];
      if buffered == [] then TimesOut([], id, arrivals[1..])
      else !buffered[0].Undecodable? && !Accepts(buffered[0], id) && TimesOut(buffered[1..], id, arrivals[1..])
  }

  /** The receive loop never throws away a reply that it could have returned, in particular the
      reply to its own request: when the deadline passes, it is still buffered. */
  lemma {:induction false} OwnReplyIsNeverDiscarded(inbox: seq<Frame>, id: Id, arrivals: seq<seq<Frame>>, f: Frame)
    requires Accepts(f, id) && (f in inbox || Arrives(f, arrivals))
    ensures TimesOut(inbox, id, arrivals) ==>
      Wait(inbox, id, arrivals).result == None && f in Wait(inbox, id, arrivals).inbox
    decreases |arrivals|
  {
    if arrivals != [] && TimesOut(inbox, id, arrivals) {
      ArrivesTail(arrivals);
      var buffered := inbox + arrivals[0];
      if buffered == [] {
        OwnReplyIsNeverDiscarded([], id, arrivals[1..], f);
      } else {
        assert f in inbox || f in arrivals[0] ==> f in buffered;
        assert buffered == [buffered[0]] + buffered[1..];
        OwnReplyIsNeverDiscarded(buffered[1..], id, arrivals[1..], f);
      }
    }
  }

  // ---------------------------------------------------------------- what a wait returns

  function Flatten(arrivals: seq<seq<Frame>>): seq<Frame> {
    if arrivals == [] then [] else arrivals[0] + Flatten(arrivals[1..])
  }

  /** The frames in the order in which the socket hands them out. */
  function Ordered(inbox: seq<Frame>, arrivals: seq<seq<Frame>>): seq<Frame> { inbox + Flatten(arrivals) }

  /** How many frames a wait would read before its deadline if none of them ended it: one per
      poll that finds the socket non-empty. */
  function Reads(backlog: nat, arrivals: seq<seq<Frame>>): nat
    decreases |arrivals|
  {
    if arrivals == [] then 0 else
      var n := backlog + |arrivals[0]|;
      if n == 0 then Reads(0, arrivals[1..]) else 1 + Reads(n - 1, arrivals[1..])
  }

  predicate Ends(f: Frame, id: Id) { f.Undecodable? || Accepts(f, id) }

  /** Index of the first frame that ends the wait, or the length when there is none. */
  function FirstEnd(frames: seq<Frame>, id: Id): (k: nat)
    ensures k <= |frames| && (k < |frames| ==> Ends(frames[k], id)) && forall j :: 0 <= j < k ==> !Ends(frames[j], id)
  {
    if frames == [] || Ends(frames[0], id) then 0 else 1 + FirstEnd(frames[1..], id)
  }

  lemma {:induction false} ReadsFew(backlog: nat, arrivals: seq<seq<Frame>>)
    ensures Reads(backlog, arrivals) <= backlog + |Flatten(arrivals)|
    decreases |arrivals|
  {
    if arrivals == [] {
    } else {
      var n := backlog + |arrivals[0]|;
      ReadsFew(if n == 0 then 0 else n - 1, arrivals[1..]);
    }
  }

  /** The wait by its meaning: it returns the first frame, among those read before the deadline,
      that carries this id or none, unless an undecodable frame comes first. */
  lemma {:induction false} WaitReturnsFirstEnd(inbox: seq<Frame>, id: Id, arrivals: seq<seq<Frame>>)
    ensures var frames := Ordered(inbox, arrivals);
            var k := FirstEnd(frames, id);
            Reads(|inbox|, arrivals) <= |frames| &&
            Wait(inbox, id, arrivals).result ==
              if k < Reads(|inbox|, arrivals) && !frames[k].Undecodable? then Some(frames[k]) else None
    decreases |arrivals|
  {
    hide FirstEnd;
    ReadsFew(|inbox|, arrivals);
    if arrivals == [] {
    } else {
      var buffered, rest := inbox + arrivals[0], arrivals[1..];
      assert Ordered(inbox, arrivals) == buffered + Flatten(rest);
      if buffered == [] {
        WaitReturnsFirstEnd([], id, rest);
        assert Ordered(inbox, arrivals) == Ordered([], rest);
      } else {
        WaitReturnsFirstEnd(buffered[1..], id, rest);
        assert Ordered(inbox, arrivals) == [buffered[0]] + Ordered(buffered[1..], rest);
        FirstEndCons(buffered[0], Ordered(buffered[1..], rest), id);
      }
    }
  }

  lemma FirstEndCons(f: Frame, tail: seq<Frame>, id: Id)
    ensures FirstEnd([f] + tail, id) == if Ends(f, id) then 0 else 1 + FirstEnd(tail, id)
  {
    assert ([f] + tail)[1..] == tail;
  }

  /** An id-less reply to another request is, before the deadline, the first frame to end the wait. */
  predicate Misled(inbox: seq<Frame>, id: Id, arrivals: seq<seq<Frame>>) {
    var frames := Ordered(inbox, arrivals);
    var k := FirstEnd(frames, id);
    k < Reads(|inbox|, arrivals) && k < |frames| &&
    frames[k].Reply? && frames[k].rid == None && frames[k].origin != id
  }

  predicate Own(r: Option<Frame>, id: Id) { r.Some? ==> r.value.Reply? && r.value.origin == id }

  ghost predicate AllHonest(frames: seq<Frame>, sent: set<Id>, answer: Id -> Body) {
    forall i :: 0 <= i < |frames| ==> Honest(frames[i], sent, answer)
  }

  /** A wait returns a foreign reply exactly when it is misled. */
  lemma WaitIsMisledIff(inbox: seq<Frame>, id: Id, arrivals: seq<seq<Frame>>, sent: set<Id>, answer: Id -> Body)
    requires AllHonest(Ordered(inbox, arrivals), sent, answer)
    ensures !Own(Wait(inbox, id, arrivals).result, id) <==> Misled(inbox, id, arrivals)
  {
    hide Wait, Reads, Ordered, FirstEnd;
    WaitReturnsFirstEnd(inbox, id, arrivals);
    var frames := Ordered(inbox, arrivals);
    var k := FirstEnd(frames, id);
    assert k < |frames| ==> Honest(frames[k], sent, answer);
  }

  // ---------------------------------------------------------------- whole runs

  /** Between calls frames may arrive; a call sends a fresh id. */
  datatype Op = Deliver(frames: seq<Frame>) | Invoke(id: Id, sent: bool, arrivals: seq<seq<Frame>>)
  datatype World = World(client: Client, used: set<Id>, results: seq<(Id, Option<Frame>)>)

  const START := World(Client(false, []), {}, [])

  function Step(w: World, op: Op): World {
    match op
    case Deliver(frames) => w.(client := w.client.(inbox := w.client.inbox + frames))
    case Invoke(id, sent, arrivals) =>
      var (c, r) := Called(w.client, id, sent, arrivals);
      World(c, w.used + {id}, w.results + [(id, r)])
  }

  function Run(ops: seq<Op>): World {
    if ops == [] then START else Step(Run(ops[..|ops| - 1]), ops[|ops| - 1])
  }

  /** The environment: ids are distinct, and every frame is junk or an honest reply to a request
      made no later than the current one; delays, losses and reordering are unrestricted. */
  ghost predicate Allowed(w: World, op: Op, answer: Id -> Body) {
    match op
    case Deliver(frames) => AllHonest(frames, w.used, answer)
    case Invoke(id, _, arrivals) => id !in w.used && AllHonest(Flatten(arrivals), w.used + {id}, answer)
  }

  ghost predicate AllAllowed(ops: seq<Op>, answer: Id -> Body) {
    ops == [] || (AllAllowed(ops[..|ops| - 1], answer) && Allowed(Run(ops[..|ops| - 1]), ops[|ops| - 1], answer))
  }

  /** The last call returned nothing. */
  predicate LastFailed(results: seq<(Id, Option<Frame>)>) { results != [] && results[|results| - 1].1 == None }

  /** What is in the socket when the next call sends: nothing after a call that returned nothing,
      everything that was buffered otherwise. */
  function BeforeSend(w: World): seq<Frame> { if LastFailed(w.results) then [] else w.client.inbox }

  /** The call is misled by what was left before it sent or what arrived after that. */
  predicate MisledAt(w: World, op: Op) {
    op.Invoke? && op.sent && Misled(BeforeSend(w), op.id, op.arrivals)
  }

  predicate NeverMisled(ops: seq<Op>) {
    ops == [] || (NeverMisled(ops[..|ops| - 1]) && !MisledAt(Run(ops[..|ops| - 1]), ops[|ops| - 1]))
  }

  ghost predicate AllOwn(results: seq<(Id, Option<Frame>)>) {
    forall i :: 0 <= i < |results| ==> Own(results[i].1, results[i].0)
  }

  /** Everything buffered is honest; every result answers its own request, with that request's
      answer, or carries no id. */
  ghost predicate Safe(w: World, answer: Id -> Body) {
    AllHonest(w.client.inbox, w.used, answer) &&
    forall i :: 0 <= i < |w.results| ==> SafeResult(w.results[i].1, w.results[i].0, w.used, answer)
  }

  ghost predicate SafeResult(r: Option<Frame>, id: Id, used: set<Id>, answer: Id -> Body) {
    id in used && (r.Some? ==>
      Honest(r.value, used, answer) && r.value.Reply? &&
      (r.value.rid == None || r.value == Reply(Some(id), id, answer(id))))
  }

  /** The drain follows the results: over every run, a call works on what `BeforeSend` leaves, so
      after a failed call nothing that was buffered survives, and after a successful one nothing
      is discarded. */
  lemma CallStartsFrom(ops: seq<Op>, id: Id, sent: bool, arrivals: seq<seq<Frame>>)
    ensures var w, w' := Run(ops), Run(ops + [Invoke(id, sent, arrivals)]);
            var o := if sent then Wait(BeforeSend(w), id, arrivals) else Outcome(BeforeSend(w), None);
            w'.results == w.results + [(id, o.result)] && w'.client.inbox == o.inbox
  {
    assert (ops + [Invoke(id, sent, arrivals)])[..|ops|] == ops;
    FlagFollowsResults(ops);
  }

  lemma {:induction false} FlagFollowsResults(ops: seq<Op>)
    ensures Run(ops).client.maybeStale <==> LastFailed(Run(ops).results)
  {
    if ops == [] {
    } else {
      hide Wait;
      FlagFollowsResults(ops[..|ops| - 1]);
    }
  }

  /** A reply returned after a failed call arrived during this call. */
  lemma AfterFailureOnlyArrivals(ops: seq<Op>, id: Id, sent: bool, arrivals: seq<seq<Frame>>)
    requires LastFailed(Run(ops).results)
    ensures var results := Run(ops + [Invoke(id, sent, arrivals)]).results;
            var r := results[|results| - 1].1;
            r.Some? ==> Arrives(r.value, arrivals)
  {
    CallStartsFrom(ops, id, sent, arrivals);
    WaitTakesFromArrivals([], id, arrivals);
    hide Run, Wait;
  }

  /** A late id-less reply that has reached the socket before the next call is drained, not returned. */
  lemma LateReplyIsDrained(first: Id, second: Id, late: Body, answer: Body)
    ensures var own := Reply(Some(second), second, answer);
            var ops := [Invoke(first, true, []), Deliver([Reply(None, first, late)]), Invoke(second, true, [[own]])];
            Run(ops).results == [(first, None), (second, Some(own))]
  {
    var own := Reply(Some(second), second, answer);
    var a, b, c := Invoke(first, true, []), Deliver([Reply(None, first, late)]), Invoke(second, true, [[own]]);
    assert [a, b][..1] == [a] && [a][..0] == [];
    assert Run([a]) == World(Client(true, []), {first}, [(first, None)]);
    assert Run([a, b]).results == [(first, None)];
    CallStartsFrom([a, b], second, true, [[own]]);
    assert [a, b] + [c] == [a, b, c] && [] + [own] == [own];
  }

  lemma HonestGrows(frames: seq<Frame>, used: set<Id>, id: Id, answer: Id -> Body)
    requires AllHonest(frames, used, answer)
    ensures AllHonest(frames, used + {id}, answer)
  {}

  lemma {:induction false} ArrivesIsFlattened(f: Frame, arrivals: seq<seq<Frame>>)
    ensures Arrives(f, arrivals) <==> f in Flatten(arrivals)
  {
    if arrivals == [] {
    } else {
      ArrivesTail(arrivals);
      ArrivesIsFlattened(f, arrivals[1..]);
    }
  }

  lemma InvokeIsSafe(w: World, id: Id, sent: bool, arrivals: seq<seq<Frame>>, answer: Id -> Body)
    requires Safe(w, answer) && Allowed(w, Invoke(id, sent, arrivals), answer)
    ensures Safe(Step(w, Invoke(id, sent, arrivals)), answer)
  {
    var inbox, used := if w.client.maybeStale then [] else w.client.inbox, w.used + {id};
    HonestGrows(inbox, w.used, id, answer);
    WaitTakesFromArrivals(inbox, id, arrivals);
    var o := Wait(inbox, id, arrivals);
    hide Wait, Flatten;
    forall f | f in inbox || Arrives(f, arrivals) ensures Honest(f, used, answer) {
      ArrivesIsFlattened(f, arrivals);
    }
    forall i | 0 <= i < |w.results| ensures SafeResult(w.results[i].1, w.results[i].0, used, answer) {
      assert SafeResult(w.results[i].1, w.results[i].0, w.used, answer);
    }
    assert AllHonest(o.inbox, used, answer) by {
      forall i | 0 <= i < |o.inbox| ensures Honest(o.inbox[i], used, answer) { assert o.inbox[i] in o.inbox; }
    }
    assert SafeResult(if sent then o.result else None, id, used, answer);
  }

  /** Over whole runs, for every pattern of delays, timeouts, junk and late replies: each call
      returned nothing, the manager's answer to its own request, or a reply without an id. */
  lemma {:induction false} EveryCallGetsItsOwnReply(ops: seq<Op>, answer: Id -> Body)
    requires AllAllowed(ops, answer)
    ensures Safe(Run(ops), answer)
  {
    if ops == [] {
    } else {
      var w, op := Run(ops[..|ops| - 1]), ops[|ops| - 1];
      EveryCallGetsItsOwnReply(ops[..|ops| - 1], answer);
      match op {
        case Deliver(frames) =>
        case Invoke(id, sent, arrivals) => InvokeIsSafe(w, id, sent, arrivals, answer);
      }
    }
  }

  lemma CallIsMisledIff(w: World, op: Op, answer: Id -> Body)
    requires Safe(w, answer) && Allowed(w, op, answer) && op.Invoke?
    requires w.client.maybeStale <==> LastFailed(w.results)
    ensures Own(Called(w.client, op.id, op.sent, op.arrivals).1, op.id) <==> !MisledAt(w, op)
  {
    var inbox := BeforeSend(w);
    HonestGrows(inbox, w.used, op.id, answer);
    var frames := Ordered(inbox, op.arrivals);
    assert frames == inbox + Flatten(op.arrivals);
    WaitIsMisledIff(inbox, op.id, op.arrivals, w.used + {op.id}, answer);
  }

  /** The exact boundary, over every run in which replies may lack an id: each call returned
      nothing or its own reply if and only if, in no call, an id-less reply to an earlier request
      (left by the drain or arriving after it) was the first frame that the call could return. */
  lemma {:induction false} OwnRepliesIff(ops: seq<Op>, answer: Id -> Body)
    requires AllAllowed(ops, answer)
    ensures AllOwn(Run(ops).results) <==> NeverMisled(ops)
  {
    if ops == [] {
    } else {
      var before, op := ops[..|ops| - 1], ops[|ops| - 1];
      OwnRepliesIff(before, answer);
      EveryCallGetsItsOwnReply(before, answer);
      if op.Invoke? {
        FlagFollowsResults(before);
        CallIsMisledIff(Run(before), op, answer);
        hide Called, MisledAt;
        var results, r := Run(before).results, Called(Run(before).client, op.id, op.sent, op.arrivals).1;
        AllOwnSnoc(results, op.id, r);
      }
    }
  }

  lemma AllOwnSnoc(results: seq<(Id, Option<Frame>)>, id: Id, r: Option<Frame>)
    ensures AllOwn(results + [(id, r)]) <==> AllOwn(results) && Own(r, id)
  {
    var more := results + [(id, r)];
    assert forall i :: 0 <= i < |results| ==> more[i] == results[i];
    assert more[|results|] == (id, r);
  }

  predicate Echoed(frames: seq<Frame>) { forall i :: 0 <= i < |frames| ==> frames[i].Reply? ==> frames[i].rid.Some? }

  predicate AllEchoed(ops: seq<Op>) {
    forall i :: 0 <= i < |ops| ==> Echoed(if ops[i].Deliver? then ops[i].frames else Flatten(ops[i].arrivals))
  }

  /** When every reply carries an id, every call gets its own reply or nothing. */
  lemma EchoIsEnough(ops: seq<Op>, answer: Id -> Body)
    requires AllAllowed(ops, answer) && AllEchoed(ops)
    ensures AllOwn(Run(ops).results)
  {
    EchoedNeverMisled(ops);
    OwnRepliesIff(ops, answer);
  }

  lemma {:induction false} EchoedNeverMisled(ops: seq<Op>)
    requires AllEchoed(ops)
    ensures NeverMisled(ops) && Echoed(Run(ops).client.inbox)
  {
    if ops == [] {
    } else {
      var w, op := Run(ops[..|ops| - 1]), ops[|ops| - 1];
      EchoedNeverMisled(ops[..|ops| - 1]);
      if op.Invoke? {
        FlagFollowsResults(ops[..|ops| - 1]);
        EchoedCall(w, op);
      }
    }
  }

  lemma EchoedCall(w: World, op: Op)
    requires op.Invoke? && Echoed(w.client.inbox) && Echoed(Flatten(op.arrivals))
    requires w.client.maybeStale <==> LastFailed(w.results)
    ensures !MisledAt(w, op) && Echoed(Step(w, op).client.inbox)
  {
    var inbox := BeforeSend(w);
    assert Echoed(Ordered(inbox, op.arrivals));
    WaitTakesFromArrivals(inbox, op.id, op.arrivals);
    var o := Wait(inbox, op.id, op.arrivals);
    hide Wait, Flatten, Reads, FirstEnd;
    forall i | 0 <= i < |o.inbox| && o.inbox[i].Reply? ensures o.inbox[i].rid.Some? {
      assert o.inbox[i] in o.inbox;
      ArrivesIsFlattened(o.inbox[i], op.arrivals);
    }
  }

  /** The pre-send drain never discards the reply to the request about to be sent. */
  lemma DrainDiscardsOnlyOldReplies(ops: seq<Op>, answer: Id -> Body, id: Id, f: Frame)
    requires AllAllowed(ops, answer) && id !in Run(ops).used && f in Run(ops).client.inbox
    ensures f.Reply? ==> f.origin in Run(ops).used && f.origin != id && f.rid != Some(id)
  {
    EveryCallGetsItsOwnReply(ops, answer);
  }

  /** The failing family is real: an id-less late reply to a timed-out call, arriving after the
      next call's drain, is handed to that next call. */
  lemma IdlessReplyIsMisattributed(first: Id, second: Id, late: Body)
    requires first != second
    ensures var f := Reply(None, first, late);
            var ops := [Invoke(first, true, []), Invoke(second, true, [[f]])];
            Run(ops).results == [(first, None), (second, Some(f))] && !AllOwn(Run(ops).results)
  {
    var f := Reply(None, first, late);
    var a, b := Invoke(first, true, []), Invoke(second, true, [[f]]);
    assert [a, b][..1] == [a] && [a][..0] == [];
    assert Run([a]) == World(Client(true, []), {first}, [(first, None)]);
    assert [] + [f] == [f];
    assert Run([a, b]).results[1] == (second, Some(f));
  }
}
