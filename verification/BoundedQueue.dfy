/** A bounded queue filled by worker threads and drained by the main thread, with a counter for
    items that found it full. It serves the supervisor-log queue
    (src/experiment_control/_manager/process_logs.py) and the lifecycle-event queue
    (src/experiment_control/_manager/pubsub.py, src/experiment_control/manager.py). */
module BoundedQueue {

  /** `failing` counts producers whose put was refused and who have not yet taken the counter
      lock; every step below is atomic in the source. */
  datatype Queue<T> = Queue(items: seq<T>, failing: nat, dropped: nat)

  datatype Event<T> = Put(item: T) | Bump | Snapshot | Get

  function TryPut<T>(q: Queue<T>, item: T, cap: nat): Queue<T> {
    if |q.items| < cap then q.(items := q.items + [item]) else q.(failing := q.failing + 1)
  }

  function BumpDropped<T>(q: Queue<T>): Queue<T> {
    if q.failing == 0 then q else q.(failing := q.failing - 1, dropped := q.dropped + 1)
  }

  function ResetDropped<T>(q: Queue<T>): Queue<T> { q.(dropped := 0) }

  function GetNowait<T>(q: Queue<T>): Queue<T> {
    if q.items == [] then q else q.(items := q.items[1..])
  }

  /** The queue together with what an observer has seen so far. */
  datatype Observed<T> = Observed(q: Queue<T>, produced: nat, accepted: seq<T>, consumed: seq<T>, reported: nat)

  function Step<T>(o: Observed<T>, e: Event<T>, cap: nat): Observed<T> {
    match e
    case Put(item) =>
      o.(q := TryPut(o.q, item, cap), produced := o.produced + 1,
         accepted := if |o.q.items| < cap then o.accepted + [item] else o.accepted)
    case Bump => o.(q := BumpDropped(o.q))
    case Snapshot => o.(q := ResetDropped(o.q), reported := o.reported + o.q.dropped)
    case Get =>
      o.(q := GetNowait(o.q), consumed := if o.q.items == [] then o.consumed else o.consumed + [o.q.items[0]])
  }

  function Run<T>(events: seq<Event<T>>, cap: nat): Observed<T> {
    if events == [] then Observed(Queue([], 0, 0), 0, [], [], 0)
    else Step(Run(events[..|events| - 1], cap), events[|events| - 1], cap)
  }

  /** Under every interleaving of producers with a draining reader: nothing produced is lost from
      the books (consumed, queued, reported as dropped, counted, or about to be counted), consumed
      items followed by queued ones are the accepted items in order, and the bound holds. */
  lemma {:induction false} EveryItemIsAccountedFor<T>(events: seq<Event<T>>, cap: nat)
    ensures var o := Run(events, cap);
            o.produced == |o.consumed| + |o.q.items| + o.reported + o.q.dropped + o.q.failing &&
            o.consumed + o.q.items == o.accepted && |o.q.items| <= cap
  {
    if events == [] {
    } else {
      var e := events[|events| - 1];
      EveryItemIsAccountedFor(events[..|events| - 1], cap);
      var o := Run(events[..|events| - 1], cap);
      match e {
        case Put(item) =>
          assert o.consumed + (o.q.items + [item]) == (o.consumed + o.q.items) + [item];
        case Bump =>
        case Snapshot =>
        case Get =>
          if o.q.items != [] {
            assert o.consumed + o.q.items == (o.consumed + [o.q.items[0]]) + o.q.items[1..];
          }
      }
    }
  }

  /** The lifecycle-event queue: workers publish off the main thread, the main loop drains. */
  class LifecycleEvents<T> {
    const cap: nat
    var items: seq<T>
    var dropped: nat
    var published: seq<T>
    var reported: nat

    ghost function View(): Queue<T>
      reads this
    {
      Queue(items, 0, dropped)
    }

    constructor (cap: nat)
      ensures this.cap == cap && View() == Queue([], 0, 0) && published == [] && reported == 0
    {
      this.cap := cap;
      items, dropped, published, reported := [], 0, [], 0;
    }

    /** The worker-thread branch of publishing: queue the event, or count it as dropped. */
    method PublishOffThread(event: T)
      modifies this`items, this`dropped
      ensures View() == BumpDropped(TryPut(old(View()), event, cap))
    {
      if |items| < cap { items := items + [event]; } else { dropped := dropped + 1; }
    }

    /** Publishes everything queued, then reports and resets the drop counter. */
    method DrainLifecycleEvents() returns (drained: nat)
      modifies this
      ensures View() == Queue([], 0, 0) && drained == |old(items)|
      ensures published == old(published) + old(items)
      ensures reported == old(reported) + old(dropped)
    {
      drained := 0;
      while items != []
        invariant drained + |items| == |old(items)|
        invariant published + items == old(published) + old(items)
        invariant unchanged(`dropped) && unchanged(`reported)
        decreases |items|
      {
        assert items == [items[0]] + items[1..];
        published := published + [items[0]];
        items := items[1..];
        drained := drained + 1;
      }
      var snapshot := dropped;
      dropped := 0;
      if snapshot > 0 { reported := reported + snapshot; }
    }
  }
}
