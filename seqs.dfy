/** Sequence helpers shared by the model: JavaScript's `filter`, `slice(0, n)`
    and a descending sort by an integer key (`[...xs].sort((a, b) => key(b) - key(a))`). */
module Seqs {

  /** `xs.filter(p)`: the elements of `s` that satisfy `p`, in their original order. */
  function Filter<T>(s: seq<T>, p: T -> bool): (r: seq<T>)
    ensures |r| <= |s|
    ensures forall i :: 0 <= i < |r| ==> r[i] in s && p(r[i])
    ensures forall i :: 0 <= i < |s| && p(s[i]) ==> s[i] in r
  {
    if s == [] then [] else (if p(s[0]) then [s[0]] else []) + Filter(s[1..], p)
  }

  /** Filtering distributes over concatenation: together with the
      one-element case this says the filter keeps the original order. */
  lemma {:induction false} FilterConcat<T>(a: seq<T>, b: seq<T>, p: T -> bool)
    ensures Filter(a + b, p) == Filter(a, p) + Filter(b, p)
  {
    if a == [] {
      assert a + b == b;
    } else {
      assert (a + b)[1..] == a[1..] + b;
      FilterConcat(a[1..], b, p);
    }
  }

  /** Filtering one more trailing element. */
  lemma FilterSnoc<T>(a: seq<T>, x: T, p: T -> bool)
    ensures Filter(a + [x], p) == Filter(a, p) + (if p(x) then [x] else [])
  {
    FilterConcat(a, [x], p);
    assert [x][1..] == [];
  }

  /** When every element passes, the filter is the identity. */
  lemma {:induction false} FilterAll<T>(s: seq<T>, p: T -> bool)
    requires forall i :: 0 <= i < |s| ==> p(s[i])
    ensures Filter(s, p) == s
  {
    if s != [] {
      FilterAll(s[1..], p);
    }
  }

  /** When no element passes, the filter is empty. */
  lemma {:induction false} FilterNone<T>(s: seq<T>, p: T -> bool)
    requires forall i :: 0 <= i < |s| ==> !p(s[i])
    ensures Filter(s, p) == []
  {
    if s != [] {
      FilterNone(s[1..], p);
    }
  }

  /** `s` is obtained from `t` by deleting elements (order kept), decided greedily. */
  predicate IsSubsequence<T(==)>(s: seq<T>, t: seq<T>)
    decreases |t|
  {
    if s == [] then true
    else if t == [] then false
    else if s[0] == t[0] then IsSubsequence(s[1..], t[1..])
    else IsSubsequence(s, t[1..])
  }

  /** A subsequence of the tail of `t` is a subsequence of `t`. */
  lemma {:induction false} SubsequenceOfTail<T>(s: seq<T>, t: seq<T>)
    requires t != [] && IsSubsequence(s, t[1..])
    ensures IsSubsequence(s, t)
    decreases |t|
  {
    if s != [] && s[0] == t[0] {
      // the greedy match takes t[0]; the rest of s still fits in t[1..]
      SubsequenceDropHead(s, t[1..]);
      if s[1..] != [] {
        SubsequenceOfTail(s[1..], t[1..]);
      }
    }
  }

  /** Dropping the first element of `s` keeps it a subsequence. */
  lemma {:induction false} SubsequenceDropHead<T>(s: seq<T>, t: seq<T>)
    requires s != [] && IsSubsequence(s, t)
    ensures IsSubsequence(s[1..], t[1..])
    decreases |t|
  {
    if s[0] != t[0] {
      if |s| > 1 {
        SubsequenceDropHead(s, t[1..]);
        SubsequenceOfTail(s[1..], t[1..]);
      }
    }
  }

  lemma {:induction false} FilterIsSubsequence<T>(s: seq<T>, p: T -> bool)
    ensures IsSubsequence(Filter(s, p), s)
  {
    if s != [] {
      FilterIsSubsequence(s[1..], p);
      if p(s[0]) {
        assert Filter(s, p) == [s[0]] + Filter(s[1..], p);
        assert Filter(s, p)[1..] == Filter(s[1..], p);
      } else {
        assert Filter(s, p) == Filter(s[1..], p);
        if Filter(s, p) != [] {
          SubsequenceOfTail(Filter(s, p), s);
        }
      }
    }
  }

  /** Every sequence is a subsequence of itself. */
  lemma {:induction false} SubsequenceReflexive<T>(s: seq<T>)
    ensures IsSubsequence(s, s)
  {
    if s != [] {
      SubsequenceReflexive(s[1..]);
    }
  }

  /** Every prefix of a subsequence of `t` is a subsequence of `t`. */
  lemma {:induction false} PrefixOfSubsequence<T>(s: seq<T>, t: seq<T>, n: nat)
    requires n <= |s| && IsSubsequence(s, t)
    ensures IsSubsequence(s[..n], t)
    decreases |t|
  {
    if n > 0 {
      if s[0] == t[0] {
        PrefixOfSubsequence(s[1..], t[1..], n - 1);
        assert s[..n][1..] == s[1..][..n - 1];
      } else {
        PrefixOfSubsequence(s, t[1..], n);
      }
    }
  }

  /** `xs.slice(0, n)` for a non-negative `n`. */
  function Take<T>(s: seq<T>, n: nat): (r: seq<T>)
    ensures |r| == if n < |s| then n else |s|
    ensures r <= s
  {
    if n < |s| then s[..n] else s
  }

  /** The order a descending comparator establishes: no element has a
      larger key than one before it. */
  ghost predicate NonIncreasing<T>(s: seq<T>, key: T -> int)
  {
    forall i, j :: 0 <= i < j < |s| ==> key(s[i]) >= key(s[j])
  }

  /** `[...s].sort((a, b) => key(b) - key(a))`: sorts a fresh copy of `s`
      in place by insertion, so the caller's sequence is never reordered.
      Only the permutation and the order are stated; the relative order of
      equal keys is not. */
  method SortByKeyDescending<T>(s: seq<T>, key: T -> int) returns (r: seq<T>)
    ensures multiset(r) == multiset(s)
    ensures |r| == |s|
    ensures NonIncreasing(r, key)
  {
    var a := new T[|s|](i requires 0 <= i < |s| => s[i]);
    assert a[..] == s;
    var i := 0;
    while i < a.Length
      invariant 0 <= i <= a.Length
      invariant multiset(a[..]) == multiset(s)
      invariant NonIncreasing(a[..i], key)
    {
      SinkInto(a, i, key);
      i := i + 1;
    }
    assert a[..a.Length] == a[..];
    r := a[..];
  }

  /** One insertion step: moves `a[i]` left past every element with a
      strictly smaller key, so that `a[..i + 1]` becomes ordered. */
  method SinkInto<T>(a: array<T>, i: nat, key: T -> int)
    requires i < a.Length
    requires NonIncreasing(a[..i], key)
    modifies a
    ensures multiset(a[..]) == old(multiset(a[..]))
    ensures NonIncreasing(a[..i + 1], key)
  {
    assert forall k, l :: 0 <= k < l < i ==> key(a[k]) >= key(a[l]) by {
      forall k, l | 0 <= k < l < i ensures key(a[k]) >= key(a[l]) {
        assert a[k] == a[..i][k] && a[l] == a[..i][l];
      }
    }
    var j := i;
    while j > 0 && key(a[j - 1]) < key(a[j])
      invariant 0 <= j <= i
      invariant multiset(a[..]) == old(multiset(a[..]))
      invariant forall k, l :: 0 <= k < l <= i && k != j && l != j ==> key(a[k]) >= key(a[l])
      invariant forall l :: j < l <= i ==> key(a[j]) > key(a[l])
    {
      SwapAdjacent(a, j);
      j := j - 1;
    }
    ghost var done := a[..i + 1];
    forall k, l | 0 <= k < l < |done| ensures key(done[k]) >= key(done[l]) {
      if k < j && l > j {
        assert key(a[k]) >= key(a[j - 1]);
      }
    }
  }

  /** Exchanges `a[j - 1]` and `a[j]`. */
  method SwapAdjacent<T>(a: array<T>, j: nat)
    requires 0 < j < a.Length
    modifies a
    ensures a[j - 1] == old(a[j]) && a[j] == old(a[j - 1])
    ensures forall k :: 0 <= k < a.Length && k != j - 1 && k != j ==> a[k] == old(a[k])
    ensures multiset(a[..]) == old(multiset(a[..]))
  {
    a[j - 1], a[j] := a[j], a[j - 1];
  }
}
