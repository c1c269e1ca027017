/** Python list idioms used throughout the application: slices with negative or
    out-of-range bounds, `x in list`, and "keeps order" relations. */
module Sequences {

  function Min(a: int, b: int): int {
    if a <= b then a else b
  }

  /** `s[:n]`: Python slicing never fails, it stops at the end of the list. */
  function Take<T>(s: seq<T>, n: nat): (r: seq<T>)
    ensures |r| == if |s| <= n then |s| else n
    ensures r <= s
  {
    if |s| <= n then s else s[..n]
  }

  /** `s[-n:]` for n > 0: the last n elements, or the whole list when it is shorter. */
  function LastN<T>(s: seq<T>, n: nat): (r: seq<T>)
    ensures |r| == if |s| <= n then |s| else n
    ensures r == s[|s| - |r|..]
  {
    if |s| > n then s[|s| - n..] else s
  }

  /** `a` can be obtained from `b` by deleting elements: order is kept. */
  predicate IsSubsequence<T(==)>(a: seq<T>, b: seq<T>)
    decreases |b|
  {
    a == [] || (b != [] && if a[0] == b[0] then IsSubsequence(a[1..], b[1..]) else IsSubsequence(a, b[1..]))
  }

  /** Appending the same element to both sides keeps a subsequence, and so
      does appending to the longer side only. */
  lemma {:induction false} SubsequenceSnoc<T>(a: seq<T>, b: seq<T>, x: T)
    requires IsSubsequence(a, b)
    ensures IsSubsequence(a, b + [x]) && IsSubsequence(a + [x], b + [x])
    decreases |b|
  {
    if b == [] {
      assert a == [];
      assert ([x] + [])[1..] == [];
    } else {
      assert (b + [x])[1..] == b[1..] + [x];
      if a == [] {
        SubsequenceSnoc(a, b[1..], x);
        assert a + [x] == [x];
      } else {
        assert (a + [x])[1..] == a[1..] + [x];
        if a[0] == b[0] {
          SubsequenceSnoc(a[1..], b[1..], x);
        } else {
          SubsequenceSnoc(a, b[1..], x);
        }
      }
    }
  }

  /** No element occurs twice. */
  predicate NoDuplicates<T(==)>(s: seq<T>) {
    forall i, j :: 0 <= i < j < |s| ==> s[i] != s[j]
  }

  lemma NoDuplicatesSnoc<T>(s: seq<T>, x: T)
    requires NoDuplicates(s) && x !in s
    ensures NoDuplicates(s + [x])
  {
    var r := s + [x];
    forall i, j | 0 <= i < j < |r|
      ensures r[i] != r[j]
    {
      if j < |s| {
        assert r[i] == s[i] && r[j] == s[j];
      } else {
        assert r[i] == s[i] && r[j] == x;
      }
    }
  }

  /** Position of the first occurrence of `x` in `s`. */
  function FirstIndex<T(==)>(s: seq<T>, x: T): (k: nat)
    requires x in s
    ensures k < |s| && s[k] == x
    ensures forall j :: 0 <= j < k ==> s[j] != x
  {
    if s[0] == x then 0 else 1 + FirstIndex(s[1..], x)
  }

  lemma {:induction false} FirstIndexAppend<T>(s: seq<T>, t: T, x: T)
    requires x in s
    ensures x in s + [t] && FirstIndex(s + [t], x) == FirstIndex(s, x)
  {
    if s[0] != x {
      assert (s + [t])[1..] == s[1..] + [t];
      FirstIndexAppend(s[1..], t, x);
    }
  }

  /** The elements of `xs` all occur in `s`, in the order of their first
      occurrences there. */
  predicate InOrderOf<T(==)>(xs: seq<T>, s: seq<T>) {
    (forall x :: x in xs ==> x in s)
    && forall i, j :: 0 <= i < j < |xs| ==> xs[i] in s && xs[j] in s && FirstIndex(s, xs[i]) < FirstIndex(s, xs[j])
  }

  /** Growing `s` at the end moves no first occurrence. */
  lemma InOrderOfExtend<T>(xs: seq<T>, s: seq<T>, t: T)
    requires InOrderOf(xs, s)
    ensures InOrderOf(xs, s + [t])
  {
    forall x | x in xs
      ensures x in s + [t] && FirstIndex(s + [t], x) == FirstIndex(s, x)
    {
      FirstIndexAppend(s, t, x);
    }
  }

  /** An element new to `s` comes after everything already there. */
  lemma InOrderOfSnoc<T>(xs: seq<T>, s: seq<T>, t: T)
    requires InOrderOf(xs, s) && t !in s
    ensures InOrderOf(xs + [t], s + [t])
  {
    InOrderOfExtend(xs, s, t);
    var r := xs + [t];
    assert FirstIndex(s + [t], t) == |s|;
    forall i, j | 0 <= i < j < |r|
      ensures r[i] in s + [t] && r[j] in s + [t] && FirstIndex(s + [t], r[i]) < FirstIndex(s + [t], r[j])
    {
      assert r[i] == xs[i] && r[i] in xs;
      if j < |xs| {
        assert r[j] == xs[j];
      }
    }
  }

  lemma AppendAssoc<T>(a: seq<T>, b: seq<T>, c: seq<T>)
    ensures a + (b + c) == a + b + c
  {
  }
}
