/** Order-keeping selection from a sequence, shared by the code picker and the history query. */
module Sequences {

  /** `a` is `b` with some elements left out, the rest kept in order. */
  predicate IsSubsequence<T(==)>(a: seq<T>, b: seq<T>)
    decreases |b|
  {
    if a == [] then true
    else if b == [] then false
    else (a[|a| - 1] == b[|b| - 1] && IsSubsequence(a[..|a| - 1], b[..|b| - 1])) || IsSubsequence(a, b[..|b| - 1])
  }

  /** Appending the same element to both sides keeps the relation. */
  lemma ExtendBoth<T>(a: seq<T>, b: seq<T>, x: T)
    requires IsSubsequence(a, b)
    ensures IsSubsequence(a + [x], b + [x])
  {
    assert (a + [x])[..|a|] == a;
    assert (b + [x])[..|b|] == b;
  }

  /** Appending an element to the larger side only keeps the relation. */
  lemma ExtendRight<T>(a: seq<T>, b: seq<T>, x: T)
    requires IsSubsequence(a, b)
    ensures IsSubsequence(a, b + [x])
  {
    assert (b + [x])[..|b|] == b;
  }

  /** Appending an element to `b`, and to `a` when `keep` holds, keeps the relation. */
  lemma ExtendKeeping<T>(a: seq<T>, b: seq<T>, x: T, keep: bool)
    requires IsSubsequence(a, b)
    ensures IsSubsequence(a + (if keep then [x] else []), b + [x])
  {
    if keep {
      ExtendBoth(a, b, x);
    } else {
      assert a + [] == a;
      ExtendRight(a, b, x);
    }
  }

  /** `Array.prototype.filter`: the elements satisfying `p`, in their original order. */
  function Filter<T(!new)>(s: seq<T>, p: T -> bool): (r: seq<T>)
    ensures forall x :: x in r <==> x in s && p(x)
  {
    if s == [] then []
    else
      var init := s[..|s| - 1];
      var last := s[|s| - 1];
      assert s == init + [last];
      var keep := p(last);
      Filter(init, p) + (if keep then [last] else [])
  }

  /** Each element satisfying `p` is kept as often as it occurs, the others dropped, in order. */
  lemma {:induction false} FilterKeepsCountsAndOrder<T(!new)>(s: seq<T>, p: T -> bool)
    ensures forall x :: multiset(Filter(s, p))[x] == if p(x) then multiset(s)[x] else 0
    ensures IsSubsequence(Filter(s, p), s)
  {
    if s != [] {
      var init := s[..|s| - 1];
      var last := s[|s| - 1];
      assert s == init + [last];
      var keep := p(last);
      assert Filter(s, p) == Filter(init, p) + (if keep then [last] else []);
      FilterKeepsCountsAndOrder(init, p);
      ExtendKeeping(Filter(init, p), init, last, keep);
    }
  }
}
