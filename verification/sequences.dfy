/** Order-preserving filtering of sequences and what it means to be a subsequence.
    The evaluator's list comprehensions and its label check are both filters. */
module Sequences {

  /** The elements of `s` that satisfy `p`, in their original order. */
  function Filter<T>(s: seq<T>, p: T -> bool): (r: seq<T>)
    ensures |r| <= |s|
    ensures forall x :: x in r ==> x in s && p(x)
    decreases |s|
  {
    if |s| == 0 then []
    else Filter(s[..|s| - 1], p) + (if p(s[|s| - 1]) then [s[|s| - 1]] else [])
  }

  /** `idx` lists strictly increasing positions of `ys` at which the elements of `xs` occur. */
  ghost predicate EmbeddedAt<T>(xs: seq<T>, ys: seq<T>, idx: seq<nat>)
  {
    && |idx| == |xs|
    && (forall k :: 0 <= k < |idx| ==> idx[k] < |ys| && xs[k] == ys[idx[k]])
    && (forall k, l :: 0 <= k < l < |idx| ==> idx[k] < idx[l])
  }

  /** `xs` is obtained from `ys` by deleting elements, keeping the order of the rest. */
  ghost predicate IsSubsequence<T>(xs: seq<T>, ys: seq<T>)
  {
    exists idx :: EmbeddedAt(xs, ys, idx)
  }

  lemma {:induction false} FilterIsSubsequence<T>(s: seq<T>, p: T -> bool)
    ensures IsSubsequence(Filter(s, p), s)
    decreases |s|
  {
    if |s| == 0 {
      assert EmbeddedAt(Filter(s, p), s, []);
    } else {
      var init, last := s[..|s| - 1], s[|s| - 1];
      FilterIsSubsequence(init, p);
      var idx: seq<nat> :| EmbeddedAt(Filter(init, p), init, idx);
      assert Filter(s, p) == Filter(init, p) + (if p(last) then [last] else []);
      if p(last) {
        var idx' := idx + [|init|];
        assert EmbeddedAt(Filter(s, p), s, idx');
      } else {
        assert EmbeddedAt(Filter(s, p), s, idx);
      }
    }
  }

  /** Each element occurs in the filtered sequence as often as in the input when it satisfies
      `p`, and not at all otherwise. */
  lemma {:induction false} FilterCount<T>(s: seq<T>, p: T -> bool, x: T)
    ensures multiset(Filter(s, p))[x] == if p(x) then multiset(s)[x] else 0
    decreases |s|
  {
    if |s| != 0 {
      var init, last := s[..|s| - 1], s[|s| - 1];
      FilterCount(init, p, x);
      assert s == init + [last];
    }
  }

  /** Filtering a sequence whose every element satisfies `p` leaves it as it is. */
  lemma {:induction false} FilterKeepsAll<T>(s: seq<T>, p: T -> bool)
    requires forall i :: 0 <= i < |s| ==> p(s[i])
    ensures Filter(s, p) == s
    decreases |s|
  {
    if |s| != 0 {
      var init, last := s[..|s| - 1], s[|s| - 1];
      assert forall i :: 0 <= i < |init| ==> init[i] == s[i];
      FilterKeepsAll(init, p);
      assert Filter(s, p) == init + [last];
    }
  }

  lemma FilterIdempotent<T>(s: seq<T>, p: T -> bool)
    ensures Filter(Filter(s, p), p) == Filter(s, p)
  {
    var r := Filter(s, p);
    assert forall i :: 0 <= i < |r| ==> r[i] in r;
    FilterKeepsAll(r, p);
  }

  /** Filtering one more element extends the filtered prefix by that element or by nothing. */
  lemma FilterSnoc<T>(s: seq<T>, x: T, p: T -> bool)
    ensures Filter(s + [x], p) == Filter(s, p) + (if p(x) then [x] else [])
  {
    assert (s + [x])[..|s|] == s;
  }
}
