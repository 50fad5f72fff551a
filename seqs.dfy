/** `Array.prototype.filter`, which the notification queue and both search
    boxes use, with the facts about it that those callers rely on. */
module Seqs {

  function Filter<T(!new)>(s: seq<T>, keep: T -> bool): (r: seq<T>)
    ensures |r| <= |s|
    ensures forall x :: x in r ==> x in s && keep(x)
    ensures forall x :: x in s && keep(x) ==> x in r
    ensures forall x :: multiset(r)[x] == if keep(x) then multiset(s)[x] else 0
  {
    if s == [] then []
    else
      var rest := Filter(s[1..], keep);
      assert s == [s[0]] + s[1..];
      if keep(s[0]) then [s[0]] + rest else rest
  }

  /** `idx` picks the elements of `r` out of `s` at strictly increasing
      positions. */
  ghost predicate PicksOut<T>(r: seq<T>, s: seq<T>, idx: seq<nat>) {
    && |idx| == |r|
    && (forall k :: 0 <= k < |idx| ==> idx[k] < |s| && r[k] == s[idx[k]])
    && (forall k, l :: 0 <= k < l < |idx| ==> idx[k] < idx[l])
  }

  /** `r` is an order-preserving subsequence of `s`. */
  ghost predicate Subsequence<T>(r: seq<T>, s: seq<T>) {
    exists idx :: PicksOut(r, s, idx)
  }

  function Shift(idx: seq<nat>): (r: seq<nat>)
    ensures |r| == |idx| && forall k :: 0 <= k < |idx| ==> r[k] == idx[k] + 1
  {
    seq(|idx|, k requires 0 <= k < |idx| => idx[k] + 1)
  }

  /** Skipping the head of `s`: indices into `s[1..]` shift by one. */
  lemma SkipHead<T>(r: seq<T>, s: seq<T>, idx: seq<nat>)
    requires s != [] && PicksOut(r, s[1..], idx)
    ensures PicksOut(r, s, Shift(idx))
  {
  }

  /** Keeping the head of `s`: it goes first, at index 0. */
  lemma KeepHead<T>(r: seq<T>, s: seq<T>, idx: seq<nat>)
    requires s != [] && PicksOut(r, s[1..], idx)
    ensures PicksOut([s[0]] + r, s, [0] + Shift(idx))
  {
    var shifted := Shift(idx);
    var full := [0] + shifted;
    forall k | 0 <= k < |full|
      ensures full[k] < |s| && ([s[0]] + r)[k] == s[full[k]]
    {
      if k > 0 {
        assert full[k] == idx[k - 1] + 1;
      }
    }
  }

  /** The filtered list keeps its elements in their original order. */
  lemma {:induction false} FilterIsSubsequence<T(!new)>(s: seq<T>, keep: T -> bool)
    ensures Subsequence(Filter(s, keep), s)
  {
    if s == [] {
      assert PicksOut([], s, []);
    } else {
      var rest := Filter(s[1..], keep);
      FilterIsSubsequence(s[1..], keep);
      var idx :| PicksOut(rest, s[1..], idx);
      if keep(s[0]) {
        KeepHead(rest, s, idx);
        assert Filter(s, keep) == [s[0]] + rest;
      } else {
        SkipHead(rest, s, idx);
        assert Filter(s, keep) == rest;
      }
    }
  }

  /** When every element is kept, the list comes back unchanged. */
  lemma {:induction false} FilterKeepsAll<T(!new)>(s: seq<T>, keep: T -> bool)
    requires forall k :: 0 <= k < |s| ==> keep(s[k])
    ensures Filter(s, keep) == s
  {
    if s != [] {
      FilterKeepsAll(s[1..], keep);
    }
  }

  /** Filtering distributes over concatenation. */
  lemma {:induction false} FilterAppend<T(!new)>(a: seq<T>, b: seq<T>, keep: T -> bool)
    ensures Filter(a + b, keep) == Filter(a, keep) + Filter(b, keep)
  {
    if a == [] {
      assert a + b == b;
    } else {
      var ab := a + b;
      assert ab[0] == a[0] && ab[1..] == a[1..] + b;
      FilterAppend(a[1..], b, keep);
      var tail := Filter(a[1..], keep) + Filter(b, keep);
      if keep(a[0]) {
        calc {
          Filter(ab, keep);
          [a[0]] + Filter(a[1..] + b, keep);
          [a[0]] + tail;
          ([a[0]] + Filter(a[1..], keep)) + Filter(b, keep);
        }
      } else {
        assert Filter(ab, keep) == Filter(a[1..] + b, keep);
      }
    }
  }

  /** Filtering twice with the same test is filtering once. */
  lemma {:induction false} FilterIdempotent<T(!new)>(s: seq<T>, keep: T -> bool)
    ensures Filter(Filter(s, keep), keep) == Filter(s, keep)
  {
    var r := Filter(s, keep);
    assert forall k :: 0 <= k < |r| ==> keep(r[k]) by {
      forall k | 0 <= k < |r| ensures keep(r[k]) {
        assert r[k] in r;
      }
    }
    FilterKeepsAll(r, keep);
  }

  /** Two tests that agree on every element filter alike. */
  lemma {:induction false} FilterSameTest<T(!new)>(s: seq<T>, f: T -> bool, g: T -> bool)
    requires forall k :: 0 <= k < |s| ==> f(s[k]) == g(s[k])
    ensures Filter(s, f) == Filter(s, g)
  {
    if s != [] {
      FilterSameTest(s[1..], f, g);
    }
  }
}
