/**
  Facts about sequences that the forecast aggregation relies on: the
  insertion-ordered key list of a JavaScript object (`FirstSeen`), where a key
  first occurs (`FirstIndex`) and how often it occurs (`Count`).
*/
module Sequences {

  predicate Distinct<K(==)>(s: seq<K>) {
    forall i, j :: 0 <= i < j < |s| ==> s[i] != s[j]
  }

  /** Number of occurrences of `x` in `s`. */
  function Count<K(==)>(s: seq<K>, x: K): nat {
    if s == [] then 0 else Count(s[..|s| - 1], x) + (if s[|s| - 1] == x then 1 else 0)
  }

  /** The distinct elements of `s`, each kept where it first occurs: the key order
      of a JavaScript object into which the elements of `s` are inserted one by one. */
  function FirstSeen<K(==)>(s: seq<K>): (r: seq<K>)
    ensures forall x :: x in r ==> x in s
    ensures forall x :: x in s ==> x in r
    ensures Distinct(r)
  {
    if s == [] then []
    else
      var seen := FirstSeen(s[..|s| - 1]);
      assert s == s[..|s| - 1] + [s[|s| - 1]];
      if s[|s| - 1] in seen then seen else seen + [s[|s| - 1]]
  }

  /** The position of the first occurrence of `x` in `s`. */
  function FirstIndex<K(==)>(s: seq<K>, x: K): (i: nat)
    requires x in s
    ensures i < |s| && s[i] == x && x !in s[..i]
  {
    if s[0] == x then 0
    else
      var j := FirstIndex(s[1..], x);
      assert s[..j + 1] == [s[0]] + s[1..][..j];
      j + 1
  }

  /** `s.slice(0, n)`: the first `n` elements, or all of them when there are fewer. */
  function Prefix<K>(s: seq<K>, n: nat): (p: seq<K>)
    ensures p <= s
    ensures |p| == if |s| <= n then |s| else n
  {
    if |s| <= n then s else s[..n]
  }

  /** Sum, over the keys in `keys`, of their number of occurrences in `s`. */
  function SumCounts<K(==)>(keys: seq<K>, s: seq<K>): nat {
    if keys == [] then 0 else SumCounts(keys[..|keys| - 1], s) + Count(s, keys[|keys| - 1])
  }

  lemma {:induction false} CountPositive<K>(s: seq<K>, x: K)
    ensures Count(s, x) > 0 <==> x in s
  {
    if s != [] {
      var p := s[..|s| - 1];
      assert s == p + [s[|s| - 1]];
      CountPositive(p, x);
    }
  }

  lemma CountAppend<K>(s: seq<K>, y: K, x: K)
    ensures Count(s + [y], x) == Count(s, x) + (if y == x then 1 else 0)
  {
    assert (s + [y])[..|s|] == s;
  }

  lemma FirstIndexAppend<K>(s: seq<K>, x: K, y: K)
    requires y in s
    ensures FirstIndex(s + [x], y) == FirstIndex(s, y)
  {
    var i, j := FirstIndex(s + [x], y), FirstIndex(s, y);
    assert forall k :: 0 <= k < i ==> (s + [x])[..i][k] == (s + [x])[k] != y;
    assert (s + [x])[j] == y;
    assert i <= j && s[i] == y;
    assert forall k :: 0 <= k < j ==> s[..j][k] == s[k] != y;
  }

  lemma FirstIndexAppendNew<K>(s: seq<K>, x: K)
    requires x !in s
    ensures FirstIndex(s + [x], x) == |s|
  {
    var i := FirstIndex(s + [x], x);
    assert forall k :: 0 <= k < |s| ==> (s + [x])[k] == s[k];
  }

  /** The elements of `FirstSeen(s)` are ordered by where each first occurs in `s`. */
  lemma {:induction false} FirstSeenSpec<K>(s: seq<K>)
    ensures forall i, j :: 0 <= i < j < |FirstSeen(s)| ==>
              FirstIndex(s, FirstSeen(s)[i]) < FirstIndex(s, FirstSeen(s)[j])
  {
    if s != [] {
      var p, x := s[..|s| - 1], s[|s| - 1];
      assert s == p + [x];
      FirstSeenSpec(p);
      forall y | y in p
        ensures FirstIndex(s, y) == FirstIndex(p, y)
      {
        FirstIndexAppend(p, x, y);
      }
      if x !in FirstSeen(p) {
        FirstIndexAppendNew(p, x);
      }
    }
  }

  /** Inserting more keys never reorders the keys already there. */
  lemma {:induction false} FirstSeenPrefix<K>(a: seq<K>, b: seq<K>)
    ensures FirstSeen(a) <= FirstSeen(a + b)
    decreases |b|
  {
    if b == [] {
      assert a + b == a;
    } else {
      var b' := b[..|b| - 1];
      assert (a + b)[..|a + b| - 1] == a + b';
      FirstSeenPrefix(a, b');
    }
  }

  lemma {:induction false} DistinctCardinality<K>(s: seq<K>)
    requires Distinct(s)
    ensures |set x | x in s| == |s|
  {
    if s != [] {
      var p, x := s[..|s| - 1], s[|s| - 1];
      assert s == p + [x];
      DistinctCardinality(p);
      assert (set y | y in s) == (set y | y in p) + {x};
      assert x !in (set y | y in p);
    }
  }

  /** An object filled from `s` has one key per distinct element of `s`. */
  lemma FirstSeenCount<K>(s: seq<K>)
    ensures |FirstSeen(s)| == |set x | x in s|
  {
    DistinctCardinality(FirstSeen(s));
    assert (set x | x in FirstSeen(s)) == (set x | x in s);
  }

  lemma {:induction false} SumCountsAppend<K>(keys: seq<K>, s: seq<K>, x: K)
    requires Distinct(keys)
    ensures SumCounts(keys, s + [x]) == SumCounts(keys, s) + (if x in keys then 1 else 0)
  {
    if keys != [] {
      var p, k := keys[..|keys| - 1], keys[|keys| - 1];
      assert keys == p + [k];
      SumCountsAppend(p, s, x);
      CountAppend(s, x, k);
    }
  }

  /** Every element of `s` is counted once under its own key. */
  lemma {:induction false} SumCountsOfFirstSeen<K>(s: seq<K>)
    ensures SumCounts(FirstSeen(s), s) == |s|
  {
    if s != [] {
      var p, x := s[..|s| - 1], s[|s| - 1];
      assert s == p + [x];
      SumCountsOfFirstSeen(p);
      FirstSeenSpec(p);
      SumCountsAppend(FirstSeen(p), p, x);
      if x !in FirstSeen(p) {
        CountPositive(p, x);
        CountAppend(p, x, x);
      }
    }
  }
}
