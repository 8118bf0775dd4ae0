/**
 * `Array.prototype.sort` with a comparator `(a, b) => key(b) - key(a)`: the
 * array is reordered in place so that keys never increase.  The engine's own
 * algorithm is not observable; an insertion sort stands in for it.
 */
module Sorting {

  /** Keys never increase from left to right (newest first when the key is a time). */
  ghost predicate SortedDescending<T>(s: seq<T>, key: T -> int) {
    forall p, q :: 0 <= p < q < |s| ==> key(s[p]) >= key(s[q])
  }

  method Swap<T>(a: array<T>, i: nat, j: nat)
    requires i < a.Length && j < a.Length
    modifies a
    ensures a[i] == old(a[j]) && a[j] == old(a[i])
    ensures forall m :: 0 <= m < a.Length && m != i && m != j ==> a[m] == old(a[m])
    ensures multiset(a[..]) == old(multiset(a[..]))
  {
    a[i], a[j] := a[j], a[i];
  }

  /** Sorts `a` in place, newest (largest key) first; the elements are only permuted. */
  method SortDescending<T>(a: array<T>, key: T -> int)
    modifies a
    ensures SortedDescending(a[..], key)
    ensures multiset(a[..]) == old(multiset(a[..]))
  {
    if a.Length == 0 {
      return;
    }
    var i := 1;
    while i < a.Length
      invariant 1 <= i <= a.Length
      invariant forall p, q :: 0 <= p < q < i ==> key(a[p]) >= key(a[q])
      invariant multiset(a[..]) == old(multiset(a[..]))
    {
      var j := i;
      while j > 0 && key(a[j - 1]) < key(a[j])
        invariant 0 <= j <= i
        invariant forall p, q :: 0 <= p < q <= i && q != j ==> key(a[p]) >= key(a[q])
        invariant multiset(a[..]) == old(multiset(a[..]))
      {
        Swap(a, j - 1, j);
        j := j - 1;
      }
      i := i + 1;
    }
  }

  // ---------------------------------------------------------------------------
  // What a permutation keeps
  // ---------------------------------------------------------------------------

  /** The number of elements of `s` that satisfy `f`. */
  function CountWhere<T>(s: seq<T>, f: T -> bool): nat {
    if |s| == 0 then 0 else (if f(s[0]) then 1 else 0) + CountWhere(s[1..], f)
  }

  lemma {:induction false} CountAppend<T>(a: seq<T>, b: seq<T>, f: T -> bool)
    ensures CountWhere(a + b, f) == CountWhere(a, f) + CountWhere(b, f)
  {
    if |a| > 0 {
      assert (a + b)[0] == a[0];
      assert (a + b)[1..] == a[1..] + b;
      CountAppend(a[1..], b, f);
    } else {
      assert a + b == b;
    }
  }

  /** Taking one element out of a sequence takes it out of its multiset. */
  lemma {:induction false} RemoveAt<T>(b: seq<T>, p: nat)
    requires p < |b|
    ensures multiset(b[..p] + b[p + 1..]) == multiset(b) - multiset{b[p]}
  {
    assert b == b[..p] + [b[p]] + b[p + 1..];
  }

  /** Taking one element out of a sequence takes its contribution out of the count. */
  lemma {:induction false} CountRemoveAt<T>(b: seq<T>, p: nat, f: T -> bool)
    requires p < |b|
    ensures CountWhere(b, f) == CountWhere(b[..p] + b[p + 1..], f) + (if f(b[p]) then 1 else 0)
  {
    var tail := [b[p]] + b[p + 1..];
    assert b == b[..p] + tail;
    CountAppend(b[..p], tail, f);
    CountAppend(b[..p], b[p + 1..], f);
    assert tail[0] == b[p] && tail[1..] == b[p + 1..];
  }

  /** Removing the first element of `a` and some equal element of a permutation `b` leaves permutations. */
  lemma {:induction false} MatchFirst<T>(a: seq<T>, b: seq<T>) returns (p: nat)
    requires |a| > 0 && multiset(a) == multiset(b)
    ensures p < |b| && b[p] == a[0]
    ensures multiset(a[1..]) == multiset(b[..p] + b[p + 1..])
  {
    assert a[0] in multiset(b);
    p :| 0 <= p < |b| && b[p] == a[0];
    RemoveAt(b, p);
    assert a == [a[0]] + a[1..];
  }

  /** Reordering does not change how many elements satisfy a condition. */
  lemma {:induction false} CountPreserved<T>(a: seq<T>, b: seq<T>, f: T -> bool)
    requires multiset(a) == multiset(b)
    ensures CountWhere(a, f) == CountWhere(b, f)
    decreases |a|
  {
    if |a| == 0 {
      assert |multiset(b)| == 0;
    } else {
      var p := MatchFirst(a, b);
      CountPreserved(a[1..], b[..p] + b[p + 1..], f);
      CountRemoveAt(b, p, f);
    }
  }

  /** Reordering keeps pairwise-distinct keys pairwise distinct. */
  lemma {:induction false} DistinctKeysPreserved<T>(a: seq<T>, b: seq<T>, id: T -> int)
    requires multiset(a) == multiset(b)
    requires forall i, j :: 0 <= i < j < |b| ==> id(b[i]) != id(b[j])
    ensures forall i, j :: 0 <= i < j < |a| ==> id(a[i]) != id(a[j])
    decreases |a|
  {
    if |a| > 0 {
      var p := MatchFirst(a, b);
      var rest := b[..p] + b[p + 1..];
      assert forall i :: 0 <= i < |rest| ==> rest[i] == b[if i < p then i else i + 1];
      DistinctKeysPreserved(a[1..], rest, id);
      forall j | 0 < j < |a|
        ensures id(a[0]) != id(a[j])
      {
        assert a[j] == a[1..][j - 1];
        assert a[j] in multiset(rest);
        var q :| 0 <= q < |rest| && rest[q] == a[j];
      }
      forall i, j | 0 < i < j < |a|
        ensures id(a[i]) != id(a[j])
      {
        assert a[i] == a[1..][i - 1] && a[j] == a[1..][j - 1];
      }
    }
  }

  /** When every element satisfies `f`, all of them are counted. */
  lemma {:induction false} CountAll<T>(s: seq<T>, f: T -> bool)
    requires forall k :: 0 <= k < |s| ==> f(s[k])
    ensures CountWhere(s, f) == |s|
  {
    if |s| > 0 {
      CountAll(s[1..], f);
    }
  }

  /** When no element satisfies `f`, none is counted. */
  lemma {:induction false} CountNone<T>(s: seq<T>, f: T -> bool)
    requires forall k :: 0 <= k < |s| ==> !f(s[k])
    ensures CountWhere(s, f) == 0
  {
    if |s| > 0 {
      CountNone(s[1..], f);
    }
  }
}
