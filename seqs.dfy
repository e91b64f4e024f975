/**
 * Generic sequence operations that the JavaScript code reaches through the
 * built-in array methods `find`, `filter` and `splice`.
 */
module Seqs {
  import opened Wrappers

  /** `i` is the position of the first element of `s` whose key is `k`. */
  predicate IsFirst<T>(s: seq<T>, key: T -> int, k: int, i: int)
  {
    0 <= i < |s| && key(s[i]) == k && forall j :: 0 <= j < i ==> key(s[j]) != k
  }

  /**
   * The position of the first element of `s` whose key is `k`, as
   * `s.find(x => key(x) === k)` picks it; `None` when no element has that key.
   */
  function IndexOf<T>(s: seq<T>, key: T -> int, k: int): (r: Option<nat>)
    ensures r.Some? ==> IsFirst(s, key, k, r.value)
    ensures r.None? ==> forall i :: 0 <= i < |s| ==> key(s[i]) != k
    decreases |s|
  {
    if |s| == 0 then None
    else if key(s[0]) == k then Some(0)
    else match IndexOf(s[1..], key, k)
      case None => None
      case Some(i) => assert s[1..][i] == s[i + 1]; Some(i + 1)
  }

  /** There is only one first position. */
  lemma FirstIsUnique<T>(s: seq<T>, key: T -> int, k: int, i: int, j: int)
    requires IsFirst(s, key, k, i) && IsFirst(s, key, k, j)
    ensures i == j
  {
  }

  /** `a` is `b` with some elements left out, the others kept in their order. */
  predicate IsSubsequence<T(==)>(a: seq<T>, b: seq<T>)
    decreases |b|
  {
    |a| == 0 ||
    (|b| != 0 && ((a[0] == b[0] && IsSubsequence(a[1..], b[1..])) || IsSubsequence(a, b[1..])))
  }

  lemma {:induction false} SubsequenceReflexive<T>(s: seq<T>)
    ensures IsSubsequence(s, s)
    decreases |s|
  {
    if |s| != 0 {
      SubsequenceReflexive(s[1..]);
    }
  }

  lemma {:induction false} SubsequenceTransitive<T>(a: seq<T>, b: seq<T>, c: seq<T>)
    requires IsSubsequence(a, b) && IsSubsequence(b, c)
    ensures IsSubsequence(a, c)
    decreases |c|
  {
    if |a| != 0 {
      if IsSubsequence(b, c[1..]) {
        SubsequenceTransitive(a, b, c[1..]);
      } else if a[0] == b[0] && IsSubsequence(a[1..], b[1..]) {
        SubsequenceTransitive(a[1..], b[1..], c[1..]);
      } else {
        SubsequenceTransitive(a, b[1..], c[1..]);
      }
    }
  }

  /** Leaving out the element at position `p` keeps the others in order. */
  lemma {:induction false} DropOneIsSubsequence<T>(s: seq<T>, p: nat)
    requires p < |s|
    ensures IsSubsequence(s[..p] + s[p + 1..], s)
    decreases p
  {
    var r := s[..p] + s[p + 1..];
    if p == 0 {
      assert r == s[1..];
      SubsequenceReflexive(s[1..]);
    } else {
      DropOneIsSubsequence(s[1..], p - 1);
      assert r[0] == s[0];
      assert r[1..] == s[1..][..p - 1] + s[1..][p..];
    }
  }

  /**
   * `s.filter(keep)`: the elements of `s` that `keep` accepts, in their order,
   * each as often as it occurs in `s`.
   */
  function Filter<T(==)>(s: seq<T>, keep: T -> bool): (r: seq<T>)
    ensures IsSubsequence(r, s)
    ensures forall x :: x in r ==> keep(x)
    ensures forall x :: x in s && keep(x) ==> x in r
    ensures multiset(r) <= multiset(s)
    ensures forall x :: x in s && keep(x) ==> multiset(r)[x] == multiset(s)[x]
    decreases |s|
  {
    if |s| == 0 then []
    else
      var rest := Filter(s[1..], keep);
      assert s == [s[0]] + s[1..];
      if keep(s[0]) then
        assert ([s[0]] + rest)[1..] == rest;
        [s[0]] + rest
      else rest
  }

  /**
   * Where `s.splice(start, 1)` starts deleting in an array of length `len`:
   * a negative `start` counts back from the end (and stops at 0), a start
   * beyond the end stops at `len`.
   */
  function SpliceStart(len: nat, start: int): (p: nat)
    ensures p <= len
    ensures 0 <= start <= len ==> p == start
    ensures start < 0 && len + start >= 0 ==> p == len + start
  {
    if start < 0 then (if len + start < 0 then 0 else len + start)
    else if start > len then len
    else start
  }

  /**
   * What is left of `s` after `s.splice(start, 1)`: one element removed when
   * the start position falls inside `s`, nothing otherwise.
   */
  function SpliceOne<T(==)>(s: seq<T>, start: int): (r: seq<T>)
    ensures IsSubsequence(r, s)
    ensures SpliceStart(|s|, start) == |s| ==> r == s
    ensures SpliceStart(|s|, start) < |s| ==>
      |r| == |s| - 1 &&
      forall j :: 0 <= j < |r| ==> r[j] == if j < SpliceStart(|s|, start) then s[j] else s[j + 1]
  {
    var p := SpliceStart(|s|, start);
    if p < |s| then
      DropOneIsSubsequence(s, p);
      s[..p] + s[p + 1..]
    else
      SubsequenceReflexive(s);
      s
  }
}
