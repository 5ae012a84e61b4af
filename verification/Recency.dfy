/** Least-recently-used bookkeeping: the touch step that the bounded caches perform, and the
    declarative meaning it has over a whole history of touches. */
module Recency {
  import opened OrderedDict

  /** The distinct keys of a history, least recently touched first. */
  function Recent<K(==, !new)>(h: seq<K>): seq<K> {
    if h == [] then []
    else Without(Recent(h[..|h| - 1]), h[|h| - 1]) + [h[|h| - 1]]
  }

  function LastIndex<K(==)>(h: seq<K>, k: K): (i: int)
    ensures -1 <= i < |h| && (i == -1 <==> k !in h)
    ensures i >= 0 ==> h[i] == k
    ensures forall j :: i < j < |h| ==> h[j] != k
  {
    if h == [] then -1
    else if h[|h| - 1] == k then |h| - 1
    else LastIndex(h[..|h| - 1], k)
  }

  lemma {:induction false} RecentKeys<K(!new)>(h: seq<K>)
    ensures Distinct(Recent(h)) && forall k :: k in Recent(h) <==> k in h
  {
    if h == [] {
      assert Recent(h) == [];
    } else {
      hide Recent, Without, Distinct;
      var n := |h| - 1;
      var others := Without(Recent(h[..n]), h[n]);
      RecentKeys(h[..n]);
      RecentStep(h);
      WithoutDistinct(Recent(h[..n]), h[n]);
      DistinctSnoc(others, h[n]);
      MembersSnoc(others, h[..n], h[n]);
      assert h == h[..n] + [h[n]];
    }
  }

  lemma RecentStep<K(!new)>(h: seq<K>)
    requires h != []
    ensures Recent(h) == Without(Recent(h[..|h| - 1]), h[|h| - 1]) + [h[|h| - 1]]
  {}

  lemma MembersSnoc<K(!new)>(others: seq<K>, h: seq<K>, k: K)
    requires forall x :: x in others <==> x in h && x != k
    ensures forall x :: x in others + [k] <==> x in h + [k]
  {}

  lemma DistinctSnoc<K>(s: seq<K>, k: K)
    requires Distinct(s) && k !in s
    ensures Distinct(s + [k])
  {}

  /** Sorted by the last touch in this history. */
  ghost predicate ByLastTouch<K(!new)>(s: seq<K>, h: seq<K>) {
    forall i, j :: 0 <= i < j < |s| ==> LastIndex(h, s[i]) < LastIndex(h, s[j])
  }

  lemma ByLastTouchSnoc<K(!new)>(s: seq<K>, x: K, h: seq<K>)
    requires ByLastTouch(s, h) && forall y :: y in s ==> LastIndex(h, y) < LastIndex(h, x)
    ensures ByLastTouch(s + [x], h)
  {
    hide LastIndex;
    assert forall i :: 0 <= i < |s| ==> (s + [x])[i] == s[i] && s[i] in s;
  }

  lemma ByLastTouchFront<K(!new)>(s: seq<K>, h: seq<K>)
    requires s != [] && ByLastTouch(s, h)
    ensures ByLastTouch(s[..|s| - 1], h)
    ensures forall y :: y in s[..|s| - 1] ==> LastIndex(h, y) < LastIndex(h, s[|s| - 1])
  {
    hide LastIndex;
    var n := |s| - 1;
    assert forall i :: 0 <= i < n ==> s[..n][i] == s[i];
    forall y | y in s[..n] ensures LastIndex(h, y) < LastIndex(h, s[n]) {
      var i :| 0 <= i < n && s[..n][i] == y;
      assert s[i] == y;
    }
  }

  /** Removing an element keeps the others sorted. */
  lemma {:induction false} WithoutKeepsOrder<K(!new)>(s: seq<K>, k: K, h: seq<K>)
    requires ByLastTouch(s, h)
    ensures ByLastTouch(Without(s, k), h)
  {
    hide LastIndex, ByLastTouch;
    if s != [] {
      var n := |s| - 1;
      ByLastTouchFront(s, h);
      WithoutKeepsOrder(s[..n], k, h);
      if s[n] != k { ByLastTouchSnoc(Without(s[..n], k), s[n], h); }
    } else {
      assert Without(s, k) == s;
    }
  }

  /** A later touch of another key moves nothing. */
  lemma LastTouchUnmoved<K(!new)>(s: seq<K>, h: seq<K>)
    requires h != [] && h[|h| - 1] !in s && ByLastTouch(s, h[..|h| - 1])
    ensures ByLastTouch(s, h)
  {
    forall k | k in s ensures LastIndex(h, k) == LastIndex(h[..|h| - 1], k) {}
    hide LastIndex;
    assert forall i :: 0 <= i < |s| ==> s[i] in s;
  }

  /** `Recent` lists exactly the keys of the history, once each, by their last touch. */
  lemma {:induction false} RecentSpec<K(!new)>(h: seq<K>)
    ensures Distinct(Recent(h)) && (forall k :: k in Recent(h) <==> k in h) && ByLastTouch(Recent(h), h)
  {
    RecentKeys(h);
    if h != [] {
      var n := |h| - 1;
      RecentSpec(h[..n]);
      hide ByLastTouch, Distinct;
      var others := Without(Recent(h[..n]), h[n]);
      WithoutKeepsOrder(Recent(h[..n]), h[n], h[..n]);
      LastTouchUnmoved(others, h);
      forall y | y in others ensures LastIndex(h, y) < LastIndex(h, h[n]) {}
      ByLastTouchSnoc(others, h[n], h);
    } else {
      assert Recent(h) == [];
    }
  }

  function LastN<K>(s: seq<K>, n: nat): (r: seq<K>)
    ensures |r| == if |s| < n then |s| else n
  {
    if |s| <= n then s else s[|s| - n..]
  }

  /** One touch of a bounded recency list: an old key moves to the end; a new key is appended
      after the oldest has made room. */
  function Touch<K(==, !new)>(order: seq<K>, k: K, cap: nat): seq<K> {
    if k in order then Without(order, k) + [k]
    else if |order| >= cap && order != [] then order[1..] + [k]
    else order + [k]
  }

  lemma {:induction false} WithoutConcat<K(!new)>(a: seq<K>, b: seq<K>, k: K)
    ensures Without(a + b, k) == Without(a, k) + Without(b, k)
  {
    if b == [] {
      assert a + b == a;
    } else {
      var n := |b| - 1;
      WithoutConcat(a, b[..n], k);
      assert (a + b)[..|a + b| - 1] == a + b[..n];
    }
  }

  lemma DistinctSplit<K>(a: seq<K>, b: seq<K>)
    requires Distinct(a + b)
    ensures Distinct(a) && Distinct(b) && forall i, j :: 0 <= i < |a| && 0 <= j < |b| ==> a[i] != b[j]
  {
    assert forall i :: 0 <= i < |a| ==> (a + b)[i] == a[i];
    assert forall j :: 0 <= j < |b| ==> (a + b)[|a| + j] == b[j];
  }

  lemma LastNOfConcat<K>(a: seq<K>, b: seq<K>, n: nat)
    ensures |b| == n ==> LastN(a + b, n) == b
    ensures |b| == n + 1 ==> LastN(a + b, n) == b[1..]
    ensures |b| <= n && a == [] ==> LastN(a + b, n) == b
  {
    if |b| == n + 1 { assert (a + b)[|a| + 1..] == b[1..]; }
  }

  /** Bounded touching of the kept tail is the tail of unbounded touching. */
  lemma TouchOfTail<K(!new)>(gone: seq<K>, kept: seq<K>, k: K, cap: nat)
    requires cap > 0 && Distinct(gone + kept)
    requires |kept| <= cap && (|kept| < cap ==> gone == [])
    ensures LastN(Without(gone + kept, k) + [k], cap) == Touch(kept, k, cap)
  {
    hide Without;
    DistinctSplit(gone, kept);
    WithoutConcat(gone, kept, k);
    WithoutDistinct(kept, k);
    if k in kept {
      assert Without(gone, k) == gone;
      LastNOfConcat(gone, Without(kept, k) + [k], cap);
      assert Without(gone + kept, k) + [k] == gone + (Without(kept, k) + [k]);
    } else {
      LastNOfConcat(Without(gone, k), kept + [k], cap);
      assert Without(gone + kept, k) + [k] == Without(gone, k) + (kept + [k]);
      assert kept != [] ==> (kept + [k])[1..] == kept[1..] + [k];
    }
  }

  /** The list kept by bounded touching is always the most recent `cap` distinct keys. */
  lemma TouchKeepsMostRecent<K(!new)>(h: seq<K>, k: K, cap: nat)
    requires cap > 0
    ensures LastN(Recent(h + [k]), cap) == Touch(LastN(Recent(h), cap), k, cap)
  {
    assert (h + [k])[..|h|] == h;
    var all, kept := Recent(h), LastN(Recent(h), cap);
    var gone := all[..|all| - |kept|];
    assert all == gone + kept;
    RecentKeys(h);
    TouchOfTail(gone, kept, k, cap);
  }

  lemma {:induction false} SameLength<K(!new)>(a: seq<K>, b: seq<K>)
    requires Distinct(a) && Distinct(b) && forall k :: k in a <==> k in b
    ensures |a| == |b|
  {
    assert |b| > 0 ==> b[0] in b;
    if a == [] {
    } else {
      var n := |a| - 1;
      WithoutDistinct(b, a[n]);
      assert a[n] !in a[..n] && a == a[..n] + [a[n]];
      SameLength(a[..n], Without(b, a[n]));
    }
  }
}
