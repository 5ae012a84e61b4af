/** The command-interceptor route table and its memoised, LRU-bounded chains
    (src/experiment_control/_manager/interceptor_routes.py). */
module InterceptorRoutes {
  import opened OrderedDict
  import opened Recency

  datatype Route = Route(process: string, device: string, action: string, order: nat)
  datatype Key = Key(device: string, action: string)
  datatype RawRoute = NotObject | Object(key: Key)
  datatype RawRoutes = NotList | List(items: seq<RawRoute>)
  datatype RegisterResult = Raised | Returned(added: seq<Route>)
  datatype State = State(routes: seq<Route>, cache: Dict<Key, seq<Route>>, nextOrder: nat, generation: nat)

  const INITIAL := State([], Empty(), 0, 0)

  // ---------------------------------------------------------------- the uncached chain

  predicate Matches(r: Route, k: Key) {
    (r.device == "*" || r.device == k.device) && (r.action == "*" || r.action == k.action)
  }

  /** What a route intercepts: the exact device and action it names, or anything for a wildcard. */
  lemma RouteIntercepts(r: Route, k: Key)
    ensures r.device != "*" && r.action != "*" ==> (Matches(r, k) <==> k == Key(r.device, r.action))
    ensures r.device == "*" && r.action != "*" ==> (Matches(r, k) <==> k.action == r.action)
    ensures r.device != "*" && r.action == "*" ==> (Matches(r, k) <==> k.device == r.device)
    ensures r.device == "*" && r.action == "*" ==> Matches(r, k)
  {}

  function Matching(routes: seq<Route>, k: Key): seq<Route> {
    if routes == [] then []
    else (if Matches(routes[0], k) then [routes[0]] else []) + Matching(routes[1..], k)
  }

  function InsertByOrder(r: Route, s: seq<Route>): seq<Route> {
    if s == [] || r.order <= s[0].order then [r] + s else [s[0]] + InsertByOrder(r, s[1..])
  }

  /** The stable list sort on `order`. */
  function SortByOrder(s: seq<Route>): seq<Route> {
    if s == [] then [] else InsertByOrder(s[0], SortByOrder(s[1..]))
  }

  function FirstPerProcess(s: seq<Route>, seen: set<string>): seq<Route> {
    if s == [] then []
    else if s[0].process in seen then FirstPerProcess(s[1..], seen)
    else [s[0]] + FirstPerProcess(s[1..], seen + {s[0].process})
  }

  function Chain(routes: seq<Route>, k: Key): seq<Route> {
    FirstPerProcess(SortByOrder(Matching(routes, k)), {})
  }

  ghost predicate Increasing(s: seq<Route>) {
    forall i, j :: 0 <= i < j < |s| ==> s[i].order < s[j].order
  }

  /** What callers rely on: the matching routes in order, each process once, at its earliest match. */
  ghost predicate IsChain(routes: seq<Route>, k: Key, chain: seq<Route>) {
    Increasing(chain) &&
    forall r :: r in chain <==> r in routes && Matches(r, k) && EarliestOfProcess(routes, k, r)
  }

  ghost predicate EarliestOfProcess(routes: seq<Route>, k: Key, r: Route) {
    forall q :: q in routes && Matches(q, k) && q.process == r.process ==> r.order <= q.order
  }

  lemma IncreasingCons(r: Route, s: seq<Route>)
    requires Increasing(s) && forall q :: q in s ==> r.order < q.order
    ensures Increasing([r] + s)
  {}

  lemma IncreasingConcat(a: seq<Route>, b: seq<Route>, bound: nat)
    requires Increasing(a) && Increasing(b)
    requires (forall r :: r in a ==> r.order <= bound) && (forall r :: r in b ==> bound < r.order)
    ensures Increasing(a + b)
  {
    forall i, j | 0 <= i < j < |a + b| ensures (a + b)[i].order < (a + b)[j].order {
      if i < |a| <= j {
        assert a[i] in a && b[j - |a|] in b;
      }
    }
  }

  lemma {:induction false} MatchingSpec(routes: seq<Route>, k: Key)
    requires Increasing(routes)
    ensures Increasing(Matching(routes, k))
    ensures forall r :: r in Matching(routes, k) <==> r in routes && Matches(r, k)
  {
    if routes == [] {
    } else {
      MatchingSpec(routes[1..], k);
      assert routes == [routes[0]] + routes[1..];
      IncreasingCons(routes[0], Matching(routes[1..], k));
    }
  }

  lemma {:induction false} SortIsIdentity(s: seq<Route>)
    requires Increasing(s)
    ensures SortByOrder(s) == s
  {
    if s == [] {
    } else {
      SortIsIdentity(s[1..]);
      assert s == [s[0]] + s[1..];
    }
  }

  ghost predicate FirstIn(s: seq<Route>, seen: set<string>, r: Route) {
    r in s && r.process !in seen && forall q :: q in s && q.process == r.process ==> r.order <= q.order
  }

  lemma {:induction false} FirstPerProcessSpec(s: seq<Route>, seen: set<string>)
    requires Increasing(s)
    ensures Increasing(FirstPerProcess(s, seen))
    ensures forall r :: r in FirstPerProcess(s, seen) <==> FirstIn(s, seen, r)
  {
    if s == [] {
    } else {
      var seen' := if s[0].process in seen then seen else seen + {s[0].process};
      FirstPerProcessSpec(s[1..], seen');
      assert s == [s[0]] + s[1..];
      forall r | r in s[1..] ensures s[0].order < r.order {}
      forall r ensures r in FirstPerProcess(s, seen) <==> FirstIn(s, seen, r) {
        assert FirstIn(s[1..], seen', r) <==> r in FirstPerProcess(s[1..], seen');
      }
      forall r | r in FirstPerProcess(s[1..], seen') ensures s[0].order < r.order {
        assert FirstIn(s[1..], seen', r);
      }
      IncreasingCons(s[0], FirstPerProcess(s[1..], seen'));
    }
  }

  lemma ChainMeetsSpec(routes: seq<Route>, k: Key)
    requires Increasing(routes)
    ensures IsChain(routes, k, Chain(routes, k))
  {
    var m := Matching(routes, k);
    MatchingSpec(routes, k);
    SortIsIdentity(m);
    FirstPerProcessSpec(m, {});
    forall r ensures FirstIn(m, {}, r) <==> r in routes && Matches(r, k) && EarliestOfProcess(routes, k, r) {}
  }

  /** The specification has one solution. */
  lemma {:induction false} ChainUnique(a: seq<Route>, b: seq<Route>)
    requires Increasing(a) && Increasing(b) && forall r :: r in a <==> r in b
    ensures a == b
  {
    assert |b| > 0 ==> b[0] in b;
    if a == [] {
    } else {
      assert a[0] in b && b != [];
      assert b[0] in a;
      assert a[0] == b[0];
      forall r ensures r in a[1..] <==> r in b[1..] {
        TailMembers(a, r);
        TailMembers(b, r);
      }
      ChainUnique(a[1..], b[1..]);
    }
  }

  lemma TailMembers(s: seq<Route>, r: Route)
    requires Increasing(s) && s != []
    ensures r in s[1..] <==> r in s && r != s[0]
  {
    assert s == [s[0]] + s[1..];
  }

  // ---------------------------------------------------------------- invariant

  ghost predicate Coherent(s: State) {
    forall k :: k in s.cache.vals ==> s.cache.vals[k] == Chain(s.routes, k)
  }

  ghost predicate Ordered(s: State) {
    Increasing(s.routes) && (forall r :: r in s.routes ==> 0 < r.order <= s.nextOrder) && Valid(s.cache)
  }

  ghost predicate Inv(s: State) { Ordered(s) && Coherent(s) }

  // ---------------------------------------------------------------- operations as functions

  function Invalidated(s: State): State {
    s.(cache := Empty(), generation := s.generation + 1)
  }

  function Keep(routes: seq<Route>, process: string): (kept: seq<Route>)
    ensures |kept| <= |routes|
  {
    if routes == [] then []
    else (if routes[0].process != process then [routes[0]] else []) + Keep(routes[1..], process)
  }

  function Dropped(s: State, process: string): State {
    var kept := Keep(s.routes, process);
    if |kept| != |s.routes| then Invalidated(s.(routes := kept)) else s
  }

  predicate Bad(raw: RawRoute) { raw.NotObject? || raw.key.device == "" || raw.key.action == "" }

  /** The keys of the leading acceptable entries; registration raises at the next entry, if any. */
  function GoodKeys(raws: seq<RawRoute>): (keys: seq<Key>)
    ensures |keys| <= |raws|
  {
    if raws == [] || Bad(raws[0]) then [] else [raws[0].key] + GoodKeys(raws[1..])
  }

  lemma {:induction false} GoodKeysAt(raws: seq<RawRoute>, i: nat)
    requires i < |raws| && i <= |GoodKeys(raws)|
    ensures Bad(raws[i]) <==> i == |GoodKeys(raws)|
    ensures !Bad(raws[i]) ==> GoodKeys(raws)[i] == raws[i].key
  {
    if i == 0 {
    } else {
      GoodKeysAt(raws[1..], i - 1);
    }
  }

  /** Every entry is acceptable exactly if each is an object that names a device and an action. */
  lemma {:induction false} GoodKeysAll(raws: seq<RawRoute>)
    ensures |GoodKeys(raws)| < |raws| <==>
      NotObject in raws || exists k :: Object(k) in raws && (k.device == "" || k.action == "")
    ensures |GoodKeys(raws)| == |raws| ==> forall i :: 0 <= i < |raws| ==> raws[i] == Object(GoodKeys(raws)[i])
  {
    if raws == [] {
    } else {
      GoodKeysAll(raws[1..]);
      assert raws == [raws[0]] + raws[1..];
      assert raws[0].Object? ==> raws[0] == Object(raws[0].key);
    }
  }

  /** Routes made from keys: repeats skipped, orders numbered upwards from `base`. */
  function Made(process: string, keys: seq<Key>, base: nat): seq<Route> {
    if keys == [] then [] else
      var n := |keys| - 1;
      var made := Made(process, keys[..n], base);
      if keys[n] in keys[..n] then made
      else made + [Route(process, keys[n].device, keys[n].action, base + |made| + 1)]
  }

  /** State and result of `register`; the raising exit skips the invalidation. */
  function Registered(s: State, process: string, raw: RawRoutes, replace: bool): (State, RegisterResult) {
    if raw.NotList? then (s, Raised) else
      var t := if replace then Dropped(s, process) else s;
      var keys := GoodKeys(raw.items);
      var made := Made(process, keys, t.nextOrder);
      var u := t.(routes := t.routes + made, nextOrder := t.nextOrder + |made|);
      if |keys| < |raw.items| then (u, Raised) else (Invalidated(u), Returned(made))
  }

  function MaxItems(maxCache: int): nat { if maxCache > 32 then maxCache else 32 }

  function Trim(cache: Dict<Key, seq<Route>>, max: nat): Dict<Key, seq<Route>>
    decreases |cache.keys|
  {
    if |cache.keys| <= max then cache
    else
      assert cache.keys[0] in cache.keys;
      var next := Pop(cache, cache.keys[0]);
      if |next.keys| < |cache.keys| then Trim(next, max) else next
  }

  function Looked(s: State, k: Key, maxCache: int): (State, seq<Route>) {
    if k in s.cache.vals then
      (s.(cache := Put(Pop(s.cache, k), k, s.cache.vals[k])), s.cache.vals[k])
    else
      var chain := Chain(s.routes, k);
      (s.(cache := Trim(Put(s.cache, k, chain), MaxItems(maxCache))), chain)
  }

  // ---------------------------------------------------------------- what each operation keeps

  lemma {:induction false} KeepSpec(routes: seq<Route>, process: string)
    requires Increasing(routes)
    ensures Increasing(Keep(routes, process))
    ensures forall r :: r in Keep(routes, process) <==> r in routes && r.process != process
  {
    if routes == [] {
    } else {
      KeepSpec(routes[1..], process);
      assert routes == [routes[0]] + routes[1..];
      forall r | r in Keep(routes[1..], process) ensures routes[0].order < r.order {
        assert r in routes[1..];
      }
      IncreasingCons(routes[0], Keep(routes[1..], process));
    }
  }

  lemma {:induction false} KeepSnoc(routes: seq<Route>, r: Route, process: string)
    ensures Keep(routes + [r], process) == Keep(routes, process) + if r.process != process then [r] else []
  {
    if routes == [] {
      assert ([] + [r])[1..] == [];
    } else {
      KeepSnoc(routes[1..], r, process);
      assert (routes + [r])[1..] == routes[1..] + [r] && (routes + [r])[0] == routes[0];
      var head := if routes[0].process != process then [routes[0]] else [];
      Regroup(head, Keep(routes[1..], process), if r.process != process then [r] else []);
    }
  }

  lemma {:induction false} KeepAll(routes: seq<Route>, process: string)
    requires |Keep(routes, process)| == |routes|
    ensures Keep(routes, process) == routes
  {
    if routes == [] {
    } else {
      KeepAll(routes[1..], process);
      assert routes == [routes[0]] + routes[1..];
    }
  }

  lemma DroppedKeepsInv(s: State, process: string)
    requires Ordered(s)
    ensures Ordered(Dropped(s, process)) && (Coherent(s) ==> Coherent(Dropped(s, process)))
    ensures forall r :: r in Dropped(s, process).routes <==> r in s.routes && r.process != process
  {
    KeepSpec(s.routes, process);
    if |Keep(s.routes, process)| == |s.routes| { KeepAll(s.routes, process); }
  }

  lemma MadeSnoc(process: string, keys: seq<Key>, k: Key, base: nat)
    ensures var made := Made(process, keys, base);
            Made(process, keys + [k], base) ==
            if k in keys then made else made + [Route(process, k.device, k.action, base + |made| + 1)]
  {
    assert (keys + [k])[..|keys|] == keys;
  }

  /** The registration loop after i acceptable entries. */
  ghost predicate Progress(good: seq<Key>, i: nat, seen: set<Key>, added: seq<Route>, process: string, base: nat) {
    i <= |good| && (forall k :: k in seen <==> k in good[..i]) && added == Made(process, good[..i], base)
  }

  lemma ProgressStarts(good: seq<Key>, process: string, base: nat)
    ensures Progress(good, 0, {}, [], process, base)
  {}

  lemma ProgressSteps(good: seq<Key>, i: nat, seen: set<Key>, added: seq<Route>, process: string, base: nat)
    requires Progress(good, i, seen, added, process, base) && i < |good|
    ensures var k := good[i];
            if k in seen then Progress(good, i + 1, seen, added, process, base)
            else Progress(good, i + 1, seen + {k}, added + [Route(process, k.device, k.action, base + |added| + 1)],
                          process, base)
  {
    hide Made;
    assert good[..i + 1] == good[..i] + [good[i]];
    MadeSnoc(process, good[..i], good[i], base);
  }

  lemma ProgressEnds(good: seq<Key>, seen: set<Key>, added: seq<Route>, process: string, base: nat)
    requires Progress(good, |good|, seen, added, process, base)
    ensures added == Made(process, good, base)
  {
    assert good[..|good|] == good;
  }

  lemma Regroup(a: seq<Route>, b: seq<Route>, c: seq<Route>)
    ensures (a + b) + c == a + (b + c)
  {}

  lemma NotBadIsObject(raw: RawRoute)
    ensures !Bad(raw) ==> raw.Object?
  {}

  function KeyOf(r: Route): Key { Key(r.device, r.action) }

  /** New routes are numbered on from `base`, and there is exactly one for each key. */
  lemma {:induction false} MadeSpec(process: string, keys: seq<Key>, base: nat)
    ensures forall i :: 0 <= i < |Made(process, keys, base)| ==>
      Made(process, keys, base)[i].order == base + i + 1 && Made(process, keys, base)[i].process == process
    ensures forall k :: k in keys <==> exists r :: r in Made(process, keys, base) && k == Key(r.device, r.action)
    ensures forall i, j :: 0 <= i < j < |Made(process, keys, base)| ==>
      KeyOf(Made(process, keys, base)[i]) != KeyOf(Made(process, keys, base)[j])
  {
    if keys == [] {
    } else {
      var n := |keys| - 1;
      MadeSpec(process, keys[..n], base);
      var made, all := Made(process, keys[..n], base), Made(process, keys, base);
      assert keys == keys[..n] + [keys[n]];
      if keys[n] !in keys[..n] {
        var newest := Route(process, keys[n].device, keys[n].action, base + |made| + 1);
        assert all == made + [newest];
        assert newest in all && forall r :: r in made ==> r in all;
      }
    }
  }

  lemma AppendMadeOrdered(t: State, process: string, keys: seq<Key>)
    requires Ordered(t)
    ensures var made := Made(process, keys, t.nextOrder);
            Ordered(t.(routes := t.routes + made, nextOrder := t.nextOrder + |made|))
  {
    MadeSpec(process, keys, t.nextOrder);
    IncreasingConcat(t.routes, Made(process, keys, t.nextOrder), t.nextOrder);
  }

  lemma RegisteredKeepsOrdered(s: State, process: string, raw: RawRoutes, replace: bool)
    requires Ordered(s)
    ensures Ordered(Registered(s, process, raw, replace).0)
    ensures Registered(s, process, raw, replace).1.Returned? ==> Coherent(Registered(s, process, raw, replace).0)
  {
    hide Made, GoodKeys, Dropped, Chain, Increasing;
    if raw.List? {
      DroppedKeepsInv(s, process);
      AppendMadeOrdered(if replace then Dropped(s, process) else s, process, GoodKeys(raw.items));
    }
  }

  /** A registration that returns keeps the routes of the other processes, and of its own unless it
      replaces, and adds exactly one new route for each distinct entry. */
  lemma RegisteredRoutes(s: State, process: string, raws: seq<RawRoute>, replace: bool)
    requires Ordered(s) && Registered(s, process, List(raws), replace).1.Returned?
    ensures var (after, result) := Registered(s, process, List(raws), replace);
            (forall r :: r in after.routes <==>
               (r in s.routes && !(replace && r.process == process)) || r in result.added) &&
            (forall r :: r in result.added ==> r.process == process && s.nextOrder < r.order <= after.nextOrder) &&
            (forall k :: Object(k) in raws <==> exists r :: r in result.added && k == KeyOf(r)) &&
            (forall i, j :: 0 <= i < j < |result.added| ==> KeyOf(result.added[i]) != KeyOf(result.added[j]))
  {
    hide Made, Bad;
    var t := if replace then Dropped(s, process) else s;
    DroppedKeepsInv(s, process);
    GoodKeysAll(raws);
    hide GoodKeys;
    var keys := GoodKeys(raws);
    MadeSpec(process, keys, t.nextOrder);
    forall k ensures Object(k) in raws <==> k in keys {
      if k in keys { var i :| 0 <= i < |keys| && keys[i] == k; assert raws[i] == Object(k); }
      if Object(k) in raws { var i :| 0 <= i < |raws| && raws[i] == Object(k); assert keys[i] == k; }
    }
  }

  lemma {:induction false} TrimSpec(cache: Dict<Key, seq<Route>>, max: nat)
    requires Valid(cache) && max > 0
    ensures Valid(Trim(cache, max)) && |Trim(cache, max).keys| <= max
    ensures forall k :: k in Trim(cache, max).vals ==> k in cache.vals && Trim(cache, max).vals[k] == cache.vals[k]
    ensures cache.keys != [] ==> cache.keys[|cache.keys| - 1] in Trim(cache, max).vals
    decreases |cache.keys|
  {
    if |cache.keys| > max {
      PopValid(cache, cache.keys[0]);
      WithoutTail(cache.keys);
      TrimSpec(Pop(cache, cache.keys[0]), max);
    }
  }

  lemma HitKeepsInv(s: State, k: Key)
    requires Inv(s) && k in s.cache.vals
    ensures var t := Put(Pop(s.cache, k), k, s.cache.vals[k]);
            Valid(t) && t.vals == s.cache.vals
  {
    PopValid(s.cache, k);
    PutValid(Pop(s.cache, k), k, s.cache.vals[k]);
    assert (s.cache.vals - {k})[k := s.cache.vals[k]] == s.cache.vals;
  }

  lemma MissKeepsInv(s: State, k: Key, max: nat)
    requires Inv(s) && k !in s.cache.vals && max > 0
    ensures var t := Trim(Put(s.cache, k, Chain(s.routes, k)), max);
            Inv(s.(cache := t)) && k in t.vals && |t.keys| <= max
  {
    var chain := Chain(s.routes, k);
    PutValid(s.cache, k, chain);
    TrimSpec(Put(s.cache, k, chain), max);
  }

  /** `chain` answers with the uncached function, on a hit as on a miss, and keeps the invariant;
      a miss leaves at most max(32, max_cache) chains, the fresh one among them. */
  lemma LookedRefinesChain(s: State, k: Key, maxCache: int)
    requires Inv(s)
    ensures Inv(Looked(s, k, maxCache).0) && Looked(s, k, maxCache).1 == Chain(s.routes, k)
    ensures Looked(s, k, maxCache).0.routes == s.routes && k in Looked(s, k, maxCache).0.cache.vals
    ensures k !in s.cache.vals ==>
      |Looked(s, k, maxCache).0.cache.keys| <= 32 || |Looked(s, k, maxCache).0.cache.keys| <= maxCache
    ensures k in s.cache.vals ==> Looked(s, k, maxCache).0.cache.vals == s.cache.vals
  {
    if k in s.cache.vals {
      HitKeepsInv(s, k);
    } else {
      MissKeepsInv(s, k, MaxItems(maxCache));
    }
  }

  /** A lookup touches its key as a bounded recency list would. */
  lemma LookedTouches(s: State, k: Key, maxCache: int)
    requires Valid(s.cache) && |s.cache.keys| <= MaxItems(maxCache)
    ensures Looked(s, k, maxCache).0.cache.keys == Touch(s.cache.keys, k, MaxItems(maxCache))
    ensures Valid(Looked(s, k, maxCache).0.cache)
  {
    hide Chain, Trim;
    if k in s.cache.vals {
      PopValid(s.cache, k);
      PutValid(Pop(s.cache, k), k, s.cache.vals[k]);
    } else {
      PutAndTrimTouches(s.cache, k, Chain(s.routes, k), MaxItems(maxCache));
    }
  }

  lemma PutAndTrimTouches(cache: Dict<Key, seq<Route>>, k: Key, chain: seq<Route>, max: nat)
    requires Valid(cache) && |cache.keys| <= max && max > 0 && k !in cache.vals
    ensures Valid(Trim(Put(cache, k, chain), max)) && Trim(Put(cache, k, chain), max).keys == Touch(cache.keys, k, max)
  {
    hide Valid, Distinct, Put, Trim;
    var put := Put(cache, k, chain);
    PutNewKey(cache, k, chain);
    TrimSpec(put, max);
    if |put.keys| > max {
      TrimOne(put, max);
      assert put.keys[1..] == (cache.keys + [k])[1..] == cache.keys[1..] + [k];
    } else {
      TrimNone(put, max);
    }
  }

  lemma PutNewKey(cache: Dict<Key, seq<Route>>, k: Key, chain: seq<Route>)
    requires Valid(cache) && k !in cache.vals
    ensures var put := Put(cache, k, chain);
            Valid(put) && Distinct(put.keys) && put.keys == cache.keys + [k] && k !in cache.keys
  {
    PutValid(cache, k, chain);
  }

  lemma TrimNone(cache: Dict<Key, seq<Route>>, max: nat)
    requires |cache.keys| <= max
    ensures Trim(cache, max) == cache
  {}

  lemma TrimOne(cache: Dict<Key, seq<Route>>, max: nat)
    requires Distinct(cache.keys) && |cache.keys| == max + 1
    ensures Trim(cache, max).keys == cache.keys[1..]
  {
    WithoutTail(cache.keys);
    hide Without;
    var next := Pop(cache, cache.keys[0]);
    assert |next.keys| == max;
  }

  function LookAll(s: State, ks: seq<Key>, maxCache: int): State {
    if ks == [] then s else Looked(LookAll(s, ks[..|ks| - 1], maxCache), ks[|ks| - 1], maxCache).0
  }

  /** Nothing is forgotten while at most 32 keys, or as many as configured, were asked for. */
  lemma FewKeysStayCached(s: State, ks: seq<Key>, maxCache: int, k: Key)
    requires s.cache == Empty() && k in ks && (|Recent(ks)| <= 32 || |Recent(ks)| <= maxCache)
    ensures k in LookAll(s, ks, maxCache).cache.vals
  {
    hide LookAll;
    CacheKeepsMostRecentKeys(s, ks, maxCache);
    RecentKeys(ks);
  }

  /** Between invalidations the cache holds the chains of the most recently asked keys. */
  lemma {:induction false} CacheKeepsMostRecentKeys(s: State, ks: seq<Key>, maxCache: int)
    requires s.cache == Empty()
    ensures HoldsMostRecent(LookAll(s, ks, maxCache), ks, maxCache)
  {
    hide Looked, HoldsMostRecent;
    if ks == [] {
      HoldsNothing(s, maxCache);
    } else {
      var before, k := ks[..|ks| - 1], ks[|ks| - 1];
      CacheKeepsMostRecentKeys(s, before, maxCache);
      HoldsMostRecentStep(LookAll(s, before, maxCache), before, k, maxCache);
      assert before + [k] == ks;
    }
  }

  ghost predicate HoldsMostRecent(s: State, ks: seq<Key>, maxCache: int) {
    Valid(s.cache) && s.cache.keys == LastN(Recent(ks), MaxItems(maxCache))
  }

  lemma HoldsNothing(s: State, maxCache: int)
    requires s.cache == Empty()
    ensures HoldsMostRecent(s, [], maxCache)
  {
    assert Recent<Key>([]) == [];
  }

  lemma HoldsMostRecentStep(s: State, ks: seq<Key>, k: Key, maxCache: int)
    requires HoldsMostRecent(s, ks, maxCache)
    ensures HoldsMostRecent(Looked(s, k, maxCache).0, ks + [k], maxCache)
  {
    hide Looked, Recent, Touch, Valid;
    LookedTouches(s, k, maxCache);
    TouchKeepsMostRecent(ks, k, MaxItems(maxCache));
  }

  // ---------------------------------------------------------------- the raising exit

  function Processes(s: seq<Route>): set<string> { set r | r in s :: r.process }

  lemma {:induction false} MatchingConcat(a: seq<Route>, b: seq<Route>, k: Key)
    ensures Matching(a + b, k) == Matching(a, k) + Matching(b, k)
  {
    if a == [] {
      assert a + b == b;
    } else {
      MatchingConcat(a[1..], b, k);
      assert (a + b)[1..] == a[1..] + b && (a + b)[0] == a[0];
      Regroup(if Matches(a[0], k) then [a[0]] else [], Matching(a[1..], k), Matching(b, k));
    }
  }

  lemma {:induction false} FirstPerProcessConcat(a: seq<Route>, b: seq<Route>, seen: set<string>)
    ensures FirstPerProcess(a + b, seen) == FirstPerProcess(a, seen) + FirstPerProcess(b, seen + Processes(a))
  {
    if a == [] {
      assert a + b == b && seen + Processes(a) == seen;
    } else {
      var seen' := seen + {a[0].process};
      assert (a + b)[1..] == a[1..] + b;
      assert a == [a[0]] + a[1..];
      assert seen + Processes(a) == seen' + Processes(a[1..]);
      if a[0].process in seen {
        assert seen' == seen;
      }
      FirstPerProcessConcat(a[1..], b, seen');
    }
  }

  lemma {:induction false} FirstPerProcessEmpty(s: seq<Route>, seen: set<string>)
    ensures FirstPerProcess(s, seen) == [] <==> Processes(s) <= seen
  {
    if s == [] {
    } else {
      FirstPerProcessEmpty(s[1..], seen);
      assert s == [s[0]] + s[1..];
      assert s[0].process in Processes(s);
    }
  }

  /** Appending routes leaves a chain alone exactly when every appended match belongs to a
      process that already had a match. */
  lemma AppendKeepsChain(routes: seq<Route>, more: seq<Route>, k: Key)
    requires Increasing(routes + more)
    ensures Chain(routes + more, k) == Chain(routes, k) <==>
      forall r :: r in more && Matches(r, k) ==> exists q :: q in routes && Matches(q, k) && q.process == r.process
    ensures Chain(routes, k) <= Chain(routes + more, k)
  {
    assert forall i :: 0 <= i < |routes| ==> (routes + more)[i] == routes[i];
    assert forall i :: 0 <= i < |more| ==> (routes + more)[|routes| + i] == more[i];
    assert Increasing(routes) && Increasing(more);
    var m, n := Matching(routes, k), Matching(more, k);
    MatchingSpec(routes, k);
    MatchingSpec(more, k);
    MatchingSpec(routes + more, k);
    MatchingConcat(routes, more, k);
    SortIsIdentity(m);
    SortIsIdentity(m + n);
    FirstPerProcessConcat(m, n, {});
    assert {} + Processes(m) == Processes(m);
    FirstPerProcessEmpty(n, Processes(m));
    var chain, tail := FirstPerProcess(m, {}), FirstPerProcess(n, Processes(m));
    assert chain + tail == chain <==> tail == [] by { assert |chain + tail| == |chain| + |tail|; }
    forall r | r in n ensures r.process in Processes(n) {}
  }

  /** The chain of k would not gain the process: it already has it, or no new key matches. */
  ghost predicate Gainless(routes: seq<Route>, process: string, keys: seq<Key>, k: Key) {
    forall key :: key in keys && Matches(Route(process, key.device, key.action, 0), k) ==>
      exists q :: q in routes && Matches(q, k) && q.process == process
  }

  lemma GainlessByRoutes(routes: seq<Route>, process: string, keys: seq<Key>, made: seq<Route>, k: Key)
    requires forall r :: r in made ==> r.process == process
    requires forall key :: key in keys <==> exists r :: r in made && key == Key(r.device, r.action)
    ensures Gainless(routes, process, keys, k) <==>
      forall r :: r in made && Matches(r, k) ==> exists q :: q in routes && Matches(q, k) && q.process == r.process
  {
    forall r | r in made ensures Key(r.device, r.action) in keys {}
  }

  /** The routes that a registration adds extend the chain of k, unless k would not gain. */
  lemma MadeExtendsChain(t: State, process: string, keys: seq<Key>, k: Key)
    requires Ordered(t)
    ensures var routes := t.routes + Made(process, keys, t.nextOrder);
            Chain(t.routes, k) <= Chain(routes, k) &&
            (Chain(routes, k) == Chain(t.routes, k) <==> Gainless(t.routes, process, keys, k))
  {
    hide Made, Chain, Matches;
    var made := Made(process, keys, t.nextOrder);
    MadeSpec(process, keys, t.nextOrder);
    AppendMadeOrdered(t, process, keys);
    AppendKeepsChain(t.routes, made, k);
    GainlessByRoutes(t.routes, process, keys, made, k);
    hide Gainless;
  }

  /** A registration that raises leaves the cache coherent if and only if no cached chain gains
      the process from the entries before the malformed one. */
  lemma RaisedCoherentIff(s: State, process: string, raws: seq<RawRoute>, replace: bool)
    requires Inv(s) && |GoodKeys(raws)| < |raws|
    ensures var t := if replace then Dropped(s, process) else s;
            Coherent(Registered(s, process, List(raws), replace).0) <==>
            forall k :: k in t.cache.vals ==> Gainless(t.routes, process, GoodKeys(raws), k)
  {
    hide Made, Chain, Gainless, Dropped, GoodKeys;
    var t := if replace then Dropped(s, process) else s;
    DroppedKeepsInv(s, process);
    var keys := GoodKeys(raws);
    var u := Registered(s, process, List(raws), replace).0;
    assert u.routes == t.routes + Made(process, keys, t.nextOrder) && u.cache == t.cache;
    forall k | k in t.cache.vals
      ensures Chain(u.routes, k) == Chain(t.routes, k) <==> Gainless(t.routes, process, keys, k)
    {
      MadeExtendsChain(t, process, keys, k);
    }
  }

  // ---------------------------------------------------------------- runs

  datatype Op =
    | Register(process: string, raw: RawRoutes, replace: bool)
    | Drop(process: string)
    | Invalidate
    | Look(k: Key, maxCache: int)

  function After(s: State, op: Op): State {
    match op
    case Register(p, raw, replace) => Registered(s, p, raw, replace).0
    case Drop(p) => Dropped(s, p)
    case Invalidate => Invalidated(s)
    case Look(k, m) => Looked(s, k, m).0
  }

  predicate Returns(s: State, op: Op) {
    op.Register? ==> Registered(s, op.process, op.raw, op.replace).1.Returned?
  }

  function Run(ops: seq<Op>): State {
    if ops == [] then INITIAL else After(Run(ops[..|ops| - 1]), ops[|ops| - 1])
  }

  predicate AllReturn(ops: seq<Op>) {
    ops == [] || (AllReturn(ops[..|ops| - 1]) && Returns(Run(ops[..|ops| - 1]), ops[|ops| - 1]))
  }

  /** After any run of returning calls the cache refines the uncached function: `chain` gives
      exactly the matching routes in order, keeping each process's first. */
  lemma {:induction false} RunRefinesUncached(ops: seq<Op>, k: Key, maxCache: int)
    requires AllReturn(ops)
    ensures Inv(Run(ops)) && IsChain(Run(ops).routes, k, Looked(Run(ops), k, maxCache).1)
  {
    RunKeepsInv(ops);
    LookedRefinesChain(Run(ops), k, maxCache);
    ChainMeetsSpec(Run(ops).routes, k);
  }

  lemma {:induction false} RunKeepsInv(ops: seq<Op>)
    requires AllReturn(ops)
    ensures Inv(Run(ops))
  {
    if ops == [] {
    } else {
      var s, op := Run(ops[..|ops| - 1]), ops[|ops| - 1];
      RunKeepsInv(ops[..|ops| - 1]);
      match op {
        case Register(p, raw, replace) => RegisteredKeepsOrdered(s, p, raw, replace);
        case Drop(p) => DroppedKeepsInv(s, p);
        case Invalidate =>
        case Look(key, m) => LookedRefinesChain(s, key, m);
      }
    }
  }

  /** The calls that empty the cache are those that advance the generation: an invalidation, a
      register that returns, and a drop (or the drop of a replacing register) that has an effect. */
  lemma ClearsCacheIff(s: State, op: Op)
    ensures After(s, op).generation != s.generation <==>
      op.Invalidate? || (op.Register? && Returns(s, op)) ||
      (op.Drop? && |Keep(s.routes, op.process)| != |s.routes|) ||
      (op.Register? && op.raw.List? && op.replace && |Keep(s.routes, op.process)| != |s.routes|)
    ensures After(s, op).generation != s.generation ==> After(s, op).cache == Empty()
  {
    hide Made, Trim, Chain, Keep, GoodKeys;
  }

  /** A raising register that neither clears the cache nor is harmless to every cached chain. */
  ghost predicate Harms(s: State, op: Op) {
    op.Register? && !Returns(s, op) && op.raw.List? && After(s, op).generation == s.generation &&
    exists k :: k in s.cache.vals && !Gainless(s.routes, op.process, GoodKeys(op.raw.items), k)
  }

  /** No harm since the cache was last empty. */
  ghost predicate Unharmed(ops: seq<Op>) {
    ops == [] ||
    var s, op := Run(ops[..|ops| - 1]), ops[|ops| - 1];
    After(s, op).generation != s.generation || (Unharmed(ops[..|ops| - 1]) && !Harms(s, op))
  }

  lemma AfterKeepsOrdered(s: State, op: Op)
    requires Ordered(s)
    ensures Ordered(After(s, op))
  {
    match op {
      case Register(p, raw, replace) => RegisteredKeepsOrdered(s, p, raw, replace);
      case Drop(p) => DroppedKeepsInv(s, p);
      case Invalidate =>
      case Look(k, m) => LookedKeepsOrdered(s, k, m);
    }
  }

  lemma LookedKeepsOrdered(s: State, k: Key, maxCache: int)
    requires Ordered(s)
    ensures Ordered(Looked(s, k, maxCache).0)
  {
    hide Trim, Chain;
    if k in s.cache.vals {
      PopValid(s.cache, k);
      PutValid(Pop(s.cache, k), k, s.cache.vals[k]);
    } else {
      PutValid(s.cache, k, Chain(s.routes, k));
      TrimSpec(Put(s.cache, k, Chain(s.routes, k)), MaxItems(maxCache));
    }
  }

  /** A raising register without effective drop is coherent exactly when it does no harm. */
  lemma HarmlessKeepsInv(s: State, op: Op)
    requires Inv(s) && After(s, op).generation == s.generation && !Harms(s, op)
    ensures Inv(After(s, op))
  {
    AfterKeepsOrdered(s, op);
    ClearsCacheIff(s, op);
    match op {
      case Register(p, raw, replace) =>
        if raw.List? {
          UnclearedRegister(s, p, raw.items, replace);
          RaisedCoherentIff(s, p, raw.items, replace);
        }
      case Drop(p) => DroppedKeepsInv(s, p);
      case Invalidate =>
      case Look(k, m) => LookedRefinesChain(s, k, m);
    }
  }

  lemma UnclearedRegister(s: State, process: string, raws: seq<RawRoute>, replace: bool)
    requires Registered(s, process, List(raws), replace).0.generation == s.generation
    ensures |GoodKeys(raws)| < |raws| && (replace ==> Dropped(s, process) == s)
  {
    hide Made, Keep, GoodKeys;
  }

  /** Over every run, raising registrations included: routes stay ordered, and from the last call
      that empties the cache onwards `chain` answers with the fresh chain until a raising
      register does harm; so incoherence lasts at most until the next call that empties it. */
  lemma {:induction false} RunHealsAtInvalidation(ops: seq<Op>, k: Key, maxCache: int)
    ensures Ordered(Run(ops))
    ensures Unharmed(ops) ==> Inv(Run(ops)) && IsChain(Run(ops).routes, k, Looked(Run(ops), k, maxCache).1)
  {
    hide After, Chain, IsChain, Harms, Looked;
    RunOrdered(ops);
    if Unharmed(ops) {
      UnharmedIsCoherent(ops);
      LookedRefinesChain(Run(ops), k, maxCache);
      ChainMeetsSpec(Run(ops).routes, k);
    }
  }

  lemma {:induction false} RunOrdered(ops: seq<Op>)
    ensures Ordered(Run(ops))
  {
    hide After;
    if ops == [] {
    } else {
      RunOrdered(ops[..|ops| - 1]);
      AfterKeepsOrdered(Run(ops[..|ops| - 1]), ops[|ops| - 1]);
    }
  }

  lemma {:induction false} UnharmedIsCoherent(ops: seq<Op>)
    requires Unharmed(ops)
    ensures Inv(Run(ops))
  {
    hide After, Harms, Chain;
    if ops == [] {
    } else {
      var before, op := ops[..|ops| - 1], ops[|ops| - 1];
      var s := Run(before);
      RunOrdered(ops);
      if After(s, op).generation != s.generation {
        ClearsCacheIff(s, op);
      } else {
        UnharmedIsCoherent(before);
        HarmlessKeepsInv(s, op);
      }
    }
  }

  // ---------------------------------------------------------------- one cached chain

  /** A raising register that would extend the chain of k. */
  ghost predicate Extends(s: State, op: Op, k: Key) {
    op.Register? && op.raw.List? && !Returns(s, op) && !Gainless(s.routes, op.process, GoodKeys(op.raw.items), k)
  }

  /** Such a register came since the chain of k was last computed or the cache last emptied. */
  ghost predicate Extended(ops: seq<Op>, k: Key) {
    ops != [] &&
    var s, op := Run(ops[..|ops| - 1]), ops[|ops| - 1];
    After(s, op).generation == s.generation && !(op.Look? && op.k == k && k !in s.cache.vals) &&
    (Extended(ops[..|ops| - 1], k) || Extends(s, op, k))
  }

  /** A lookup adds the fresh chain of its key; every other chain it keeps is unchanged. */
  lemma LookedKeepsValues(s: State, k: Key, maxCache: int)
    requires Valid(s.cache)
    ensures forall x :: x in Looked(s, k, maxCache).0.cache.vals ==>
      if x == k && k !in s.cache.vals then Looked(s, k, maxCache).0.cache.vals[x] == Chain(s.routes, k)
      else x in s.cache.vals && Looked(s, k, maxCache).0.cache.vals[x] == s.cache.vals[x]
  {
    hide Chain, Trim;
    if k in s.cache.vals {
      assert (s.cache.vals - {k})[k := s.cache.vals[k]] == s.cache.vals;
    } else {
      PutValid(s.cache, k, Chain(s.routes, k));
      TrimSpec(Put(s.cache, k, Chain(s.routes, k)), MaxItems(maxCache));
    }
  }

  /** How far a cached chain may lag behind: it is a prefix of the fresh one. */
  ghost predicate Lags(s: State, k: Key, stale: bool)
    requires k in s.cache.vals
  {
    s.cache.vals[k] <= Chain(s.routes, k) && (s.cache.vals[k] != Chain(s.routes, k) <==> stale)
  }

  lemma RegisterLags(s: State, op: Op, k: Key, stale: bool)
    requires Ordered(s) && op.Register? && After(s, op).generation == s.generation
    requires k in s.cache.vals && Lags(s, k, stale)
    ensures After(s, op).cache == s.cache && Lags(After(s, op), k, stale || Extends(s, op, k))
  {
    ClearsCacheIff(s, op);
    hide Made, Chain, Gainless, GoodKeys;
    if op.raw.List? {
      UnclearedRegister(s, op.process, op.raw.items, op.replace);
      hide Dropped;
      MadeExtendsChain(s, op.process, GoodKeys(op.raw.items), k);
    }
  }

  lemma {:induction false} StaleChainLags(ops: seq<Op>, k: Key)
    requires k in Run(ops).cache.vals
    ensures Lags(Run(ops), k, Extended(ops, k))
  {
    if ops == [] {
      assert false;
    } else {
      hide Chain, Made, GoodKeys, Gainless, Trim;
      var before, op := ops[..|ops| - 1], ops[|ops| - 1];
      var s := Run(before);
      RunOrdered(before);
      ClearsCacheIff(s, op);
      match op {
        case Register(_, _, _) =>
          if After(s, op).generation == s.generation {
            UnclearedCache(s, op);
            StaleChainLags(before, k);
            RegisterLags(s, op, k, Extended(before, k));
          }
        case Drop(p) => StaleChainLags(before, k);
        case Invalidate =>
        case Look(at, m) =>
          LookedKeepsValues(s, at, m);
          if k in s.cache.vals { StaleChainLags(before, k); }
      }
    }
  }

  lemma UnclearedCache(s: State, op: Op)
    requires op.Register? && After(s, op).generation == s.generation
    ensures After(s, op).cache == s.cache
  {
    hide Made, GoodKeys, Keep;
  }

  /** Over every run, raising registrations included: a cached chain differs from the fresh one if
      and only if a raising register that would extend it came since that chain was last computed;
      it is then a proper prefix of the fresh one. */
  lemma StaleChainIff(ops: seq<Op>, k: Key)
    requires k in Run(ops).cache.vals
    ensures var s := Run(ops);
            s.cache.vals[k] <= Chain(s.routes, k) &&
            (s.cache.vals[k] != Chain(s.routes, k) <==> Extended(ops, k))
  {
    StaleChainLags(ops, k);
  }

  /** The failing family is real: the cached empty chain of a first lookup survives a registration
      that raised after adding a matching route. */
  lemma RaisedCanBreakCoherence()
    ensures var k := Key("dev", "set");
            var ops := [Look(k, 0), Register("p", List([Object(k), NotObject]), false)];
            !Returns(Run(ops[..1]), ops[1]) && !Coherent(Run(ops))
  {
    var k, raws := Key("dev", "set"), [Object(Key("dev", "set")), NotObject];
    var ops := [Look(k, 0), Register("p", List(raws), false)];
    assert ops[..2] == ops && ops[..1] == [Look(k, 0)];
    FirstLook(k);
    var s := Run(ops[..1]);
    assert raws[1..] == [NotObject] && GoodKeys(raws) == [k];
    assert !Gainless(s.routes, "p", GoodKeys(raws), k) by {
      assert k in GoodKeys(raws) && Matches(Route("p", "dev", "set", 0), k);
    }
    RaisedCoherentIff(s, "p", raws, false);
  }

  lemma FirstLook(k: Key)
    ensures Run([Look(k, 0)]) == INITIAL.(cache := Put(Empty(), k, [])) && Inv(Run([Look(k, 0)]))
  {
    var put: Dict<Key, seq<Route>> := Put(Empty(), k, []);
    assert [Look(k, 0)][..0] == [];
    assert Run([Look(k, 0)]) == Looked(INITIAL, k, 0).0;
    assert Chain([], k) == [];
    TrimNone(put, MaxItems(0));
    LookedRefinesChain(INITIAL, k, 0);
  }

  // ---------------------------------------------------------------- the object

  class InterceptorRouteState {
    var routes: seq<Route>
    var cache: Dict<Key, seq<Route>>
    var nextOrder: nat
    var generation: nat
    var maxCache: int

    ghost function View(): State
      reads this
    {
      State(routes, cache, nextOrder, generation)
    }

    constructor (maxCache: int)
      ensures View() == INITIAL && Inv(View()) && this.maxCache == maxCache
    {
      routes, cache, nextOrder, generation := [], Empty(), 0, 0;
      this.maxCache := maxCache;
    }

    method InvalidateCache()
      modifies this`cache, this`generation
      ensures View() == Invalidated(old(View()))
    {
      generation := generation + 1;
      cache := Empty();
    }

    method OtherRoutes(process: string) returns (kept: seq<Route>)
      ensures kept == Keep(routes, process)
    {
      kept := [];
      assert Keep(routes[..0], process) == [];
      hide Keep;
      for i := 0 to |routes|
        invariant kept == Keep(routes[..i], process)
      {
        assert routes[..i + 1] == routes[..i] + [routes[i]];
        KeepSnoc(routes[..i], routes[i], process);
        if routes[i].process != process { kept := kept + [routes[i]]; }
      }
      assert routes[..|routes|] == routes;
    }

    method DropProcess(process: string) returns (changed: bool)
      modifies this`routes, this`cache, this`generation
      ensures View() == Dropped(old(View()), process)
      ensures changed == (|Keep(old(routes), process)| != |old(routes)|)
    {
      hide Keep;
      var kept := OtherRoutes(process);
      changed := |kept| != |routes|;
      if changed {
        routes := kept;
        InvalidateCache();
      }
    }

    method RegisterRoutes(process: string, raw: RawRoutes, replace: bool) returns (r: RegisterResult)
      modifies this`routes, this`cache, this`generation, this`nextOrder
      ensures (View(), r) == Registered(old(View()), process, raw, replace)
      ensures raw == NotList ==> r == Raised
      ensures raw.List? ==>
        (r == Raised <==>
         NotObject in raw.items || exists k :: Object(k) in raw.items && (k.device == "" || k.action == ""))
    {
      if raw.NotList? { return Raised; }
      GoodKeysAll(raw.items);
      if replace { var _ := DropProcess(process); }
      var ok, added := AppendRoutes(process, raw.items);
      if !ok { return Raised; }
      InvalidateCache();
      return Returned(added);
    }

    /** The registration loop: stops at the first malformed entry. */
    method AppendRoutes(process: string, items: seq<RawRoute>) returns (ok: bool, added: seq<Route>)
      modifies this`routes, this`nextOrder
      ensures ok == (|GoodKeys(items)| == |items|)
      ensures added == Made(process, GoodKeys(items), old(nextOrder))
      ensures routes == old(routes) + added && nextOrder == old(nextOrder) + |added|
    {
      hide GoodKeys, Bad, Progress;
      ghost var good, base := GoodKeys(items), routes;
      var seen: set<Key> := {};
      added := [];
      ProgressStarts(good, process, nextOrder);
      for i := 0 to |items|
        invariant i <= |good| && Progress(good, i, seen, added, process, old(nextOrder))
        invariant routes == base + added && nextOrder == old(nextOrder) + |added|
      {
        GoodKeysAt(items, i);
        NotBadIsObject(items[i]);
        if Bad(items[i]) {
          ProgressEnds(good, seen, added, process, old(nextOrder));
          return false, added;
        }
        var key := items[i].key;
        ProgressSteps(good, i, seen, added, process, old(nextOrder));
        if key !in seen {
          seen := seen + {key};
          var entry := AppendRoute(process, key);
          Regroup(base, added, [entry]);
          added := added + [entry];
        }
      }
      ProgressEnds(good, seen, added, process, old(nextOrder));
      ok := true;
    }

    method AppendRoute(process: string, key: Key) returns (entry: Route)
      modifies this`routes, this`nextOrder
      ensures nextOrder == old(nextOrder) + 1 && entry == Route(process, key.device, key.action, nextOrder)
      ensures routes == old(routes) + [entry]
    {
      nextOrder := nextOrder + 1;
      entry := Route(process, key.device, key.action, nextOrder);
      routes := routes + [entry];
    }

    method LookUp(k: Key) returns (chain: seq<Route>)
      requires Valid(cache)
      modifies this`cache
      ensures (View(), chain) == Looked(old(View()), k, maxCache)
    {
      if k in cache.vals {
        chain := cache.vals[k];
        cache := Put(Pop(cache, k), k, chain);
        return;
      }
      var matches := SortByOrder(Matching(routes, k));
      var seen: set<string> := {};
      chain := [];
      for i := 0 to |matches|
        invariant chain + FirstPerProcess(matches[i..], seen) == Chain(routes, k)
      {
        assert matches[i..][1..] == matches[i + 1..];
        if matches[i].process !in seen {
          seen := seen + {matches[i].process};
          chain := chain + [matches[i]];
        }
      }
      assert matches[|matches|..] == [] && chain == Chain(routes, k);
      PutValid(cache, k, chain);
      cache := Put(cache, k, chain);
      ghost var put := cache;
      var maxItems := MaxItems(maxCache);
      while |cache.keys| > maxItems
        invariant Valid(cache) && Trim(cache, maxItems) == Trim(put, maxItems)
        invariant View() == old(View()).(cache := cache)
        decreases |cache.keys|
      {
        PopValid(cache, cache.keys[0]);
        cache := Pop(cache, cache.keys[0]);
      }
    }
  }
}
