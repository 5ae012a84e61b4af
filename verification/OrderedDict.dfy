/** Insertion-ordered dictionaries as Python keeps them: assigning to a present key keeps its
    place, a new key goes to the end, and removing a key closes the gap. */
module OrderedDict {

  datatype Dict<K, V> = Dict(keys: seq<K>, vals: map<K, V>)

  ghost predicate Distinct<K>(s: seq<K>) {
    forall i, j :: 0 <= i < j < |s| ==> s[i] != s[j]
  }

  ghost predicate Valid<K(!new), V>(d: Dict<K, V>) {
    Distinct(d.keys) && forall k :: k in d.keys <==> k in d.vals
  }

  function Empty<K(!new), V>(): (d: Dict<K, V>)
    ensures Valid(d)
  {
    Dict([], map[])
  }

  /** The sequence without k. */
  function Without<K(==, !new)>(s: seq<K>, k: K): (r: seq<K>)
    ensures forall x :: x in r <==> x in s && x != k
    ensures |r| <= |s| && (k !in s ==> r == s)
  {
    if s == [] then [] else
      var n := |s| - 1;
      if s[n] == k then Without(s[..n], k) else Without(s[..n], k) + [s[n]]
  }

  lemma {:induction false} WithoutDistinct<K(!new)>(s: seq<K>, k: K)
    requires Distinct(s)
    ensures Distinct(Without(s, k))
    ensures k in s ==> |Without(s, k)| == |s| - 1
  {
    if s == [] {
    } else {
      var n := |s| - 1;
      WithoutDistinct(s[..n], k);
      assert s[n] !in s[..n];
      assert s[n] !in Without(s[..n], k);
    }
  }

  function Pop<K(==, !new), V>(d: Dict<K, V>, k: K): Dict<K, V> {
    Dict(Without(d.keys, k), d.vals - {k})
  }

  function Put<K(==, !new), V>(d: Dict<K, V>, k: K, v: V): Dict<K, V> {
    Dict(if k in d.vals then d.keys else d.keys + [k], d.vals[k := v])
  }

  lemma PopValid<K(!new), V>(d: Dict<K, V>, k: K)
    requires Valid(d)
    ensures Valid(Pop(d, k)) && |Pop(d, k).keys| == |d.keys| - (if k in d.vals then 1 else 0)
  {
    WithoutDistinct(d.keys, k);
  }

  lemma PutValid<K(!new), V>(d: Dict<K, V>, k: K, v: V)
    requires Valid(d)
    ensures Valid(Put(d, k, v)) && |Put(d, k, v).keys| == |d.keys| + (if k in d.vals then 0 else 1)
  {
    forall x ensures x in Put(d, k, v).keys <==> x in Put(d, k, v).vals {}
  }

  lemma {:induction false} WithoutTail<K(!new)>(s: seq<K>)
    requires Distinct(s) && s != []
    ensures Without(s, s[0]) == s[1..]
  {
    var n := |s| - 1;
    if n == 0 {
    } else {
      WithoutTail(s[..n]);
      assert s[n] != s[0];
      assert s[..n][1..] + [s[n]] == s[1..];
    }
  }
}
