/** Array.prototype.filter over Dafny sequences, with the facts the
    components' filters rely on: soundness, completeness, order. */
module Seqs {

  /** s.filter(p), keeping the original order. */
  function Filter<T>(s: seq<T>, p: T -> bool): (r: seq<T>)
    ensures |r| <= |s|
    ensures forall x :: x in r ==> x in s && p(x)
    ensures forall x :: x in s && p(x) ==> x in r
    decreases |s|
  {
    if s == [] then []
    else if p(s[0]) then [s[0]] + Filter(s[1..], p)
    else Filter(s[1..], p)
  }

  /** Filtering a concatenation filters each part in turn, so the filter
      keeps the relative order of the elements it keeps. */
  lemma {:induction false} FilterAppend<T>(a: seq<T>, b: seq<T>, p: T -> bool)
    ensures Filter(a + b, p) == Filter(a, p) + Filter(b, p)
    decreases |a|
  {
    if a != [] {
      assert (a + b)[0] == a[0];
      assert (a + b)[1..] == a[1..] + b;
      FilterAppend(a[1..], b, p);
    } else {
      assert a + b == b;
    }
  }

  /** A filter every element passes returns the sequence itself. */
  lemma {:induction false} FilterAll<T>(s: seq<T>, p: T -> bool)
    requires forall i :: 0 <= i < |s| ==> p(s[i])
    ensures Filter(s, p) == s
    decreases |s|
  {
    if s != [] {
      FilterAll(s[1..], p);
    }
  }

  /** A filter no element passes returns the empty sequence. */
  lemma {:induction false} FilterNone<T>(s: seq<T>, p: T -> bool)
    requires forall i :: 0 <= i < |s| ==> !p(s[i])
    ensures Filter(s, p) == []
    decreases |s|
  {
    if s != [] {
      FilterNone(s[1..], p);
    }
  }

  /** A predicate and its negation split a sequence: the two filters hold
      every element between them. */
  lemma {:induction false} FilterSplit<T>(s: seq<T>, p: T -> bool, q: T -> bool)
    requires forall x :: q(x) == !p(x)
    ensures |Filter(s, p)| + |Filter(s, q)| == |s|
    decreases |s|
  {
    if s != [] {
      FilterSplit(s[1..], p, q);
    }
  }

  /** A weaker predicate keeps at least as many elements. */
  lemma {:induction false} FilterImplies<T>(s: seq<T>, p: T -> bool, q: T -> bool)
    requires forall i :: 0 <= i < |s| ==> p(s[i]) ==> q(s[i])
    ensures |Filter(s, p)| <= |Filter(s, q)|
    decreases |s|
  {
    if s != [] {
      FilterImplies(s[1..], p, q);
    }
  }

  /** Filters by equivalent predicates agree. */
  lemma {:induction false} FilterSame<T>(s: seq<T>, p: T -> bool, q: T -> bool)
    requires forall i :: 0 <= i < |s| ==> p(s[i]) == q(s[i])
    ensures Filter(s, p) == Filter(s, q)
    decreases |s|
  {
    if s != [] {
      FilterSame(s[1..], p, q);
    }
  }

  /** xs.slice(0, n). */
  function Take<T>(s: seq<T>, n: nat): (r: seq<T>)
    ensures |r| == if n < |s| then n else |s|
    ensures forall i :: 0 <= i < |r| ==> r[i] == s[i]
  {
    if n < |s| then s[..n] else s
  }

  /** [...xs].reverse(). */
  function Reverse<T>(s: seq<T>): (r: seq<T>)
    ensures |r| == |s|
    ensures forall i :: 0 <= i < |s| ==> r[i] == s[|s| - 1 - i]
    decreases |s|
  {
    if s == [] then [] else Reverse(s[1..]) + [s[0]]
  }

  /** r lists elements of s at strictly increasing positions idx. */
  ghost predicate IndexedBy<T>(r: seq<T>, s: seq<T>, idx: seq<nat>) {
    && |idx| == |r|
    && (forall k :: 0 <= k < |idx| ==> idx[k] < |s| && r[k] == s[idx[k]])
    && (forall k, l :: 0 <= k < l < |idx| ==> idx[k] < idx[l])
  }

  /** r is s with some elements dropped and the rest in their original order. */
  ghost predicate SubsequenceOf<T>(r: seq<T>, s: seq<T>) {
    exists idx :: IndexedBy(r, s, idx)
  }

  /** Every position moved one place right. */
  function Shift(idx: seq<nat>): (r: seq<nat>)
    ensures |r| == |idx| && forall k :: 0 <= k < |idx| ==> r[k] == idx[k] + 1
  {
    seq(|idx|, k requires 0 <= k < |idx| => idx[k] + 1)
  }

  /** Positions in the tail of s are positions in s, one further on. */
  lemma ShiftIndexed<T>(r: seq<T>, s: seq<T>, idx: seq<nat>)
    requires s != [] && IndexedBy(r, s[1..], idx)
    ensures IndexedBy(r, s, Shift(idx))
  {
    forall k | 0 <= k < |idx| ensures Shift(idx)[k] < |s| && r[k] == s[Shift(idx)[k]] {
      assert r[k] == s[1..][idx[k]];
    }
  }

  /** Keeping the head of s puts position 0 in front of the tail's positions. */
  lemma ConsIndexed<T>(r: seq<T>, s: seq<T>, idx: seq<nat>)
    requires s != [] && IndexedBy(r, s, idx)
    requires forall k :: 0 <= k < |idx| ==> idx[k] > 0
    ensures IndexedBy([s[0]] + r, s, [0] + idx)
  {
  }

  /** The positions in s of the elements a filter keeps. */
  lemma {:induction false} FilterIndices<T>(s: seq<T>, p: T -> bool) returns (idx: seq<nat>)
    ensures IndexedBy(Filter(s, p), s, idx)
    decreases |s|
  {
    if s == [] {
      idx := [];
    } else {
      var rest := FilterIndices(s[1..], p);
      ShiftIndexed(Filter(s[1..], p), s, rest);
      if p(s[0]) {
        ConsIndexed(Filter(s[1..], p), s, Shift(rest));
        idx := [0] + Shift(rest);
      } else {
        idx := Shift(rest);
      }
    }
  }

  /** A filter keeps the original order of what it keeps. */
  lemma FilterIsSubsequence<T>(s: seq<T>, p: T -> bool)
    ensures SubsequenceOf(Filter(s, p), s)
  {
    var idx := FilterIndices(s, p);
  }
}
