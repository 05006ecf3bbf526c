/** Order-preserving selections from a sequence, as `Array.prototype.filter` makes them. */
module Sequences {

  /** `r` is `xs` with some elements left out, the rest in their order. */
  predicate IsSubsequence<T(==)>(r: seq<T>, xs: seq<T>)
    decreases |xs|
  {
    if r == [] then true
    else if xs == [] then false
    else if r[0] == xs[0] then IsSubsequence(r[1..], xs[1..])
    else IsSubsequence(r, xs[1..])
  }

  /** A subsequence of the tail is a subsequence of the whole. */
  lemma {:induction false} SubsequenceOfTail<T>(r: seq<T>, xs: seq<T>)
    requires xs != [] && IsSubsequence(r, xs[1..])
    ensures IsSubsequence(r, xs)
    decreases |xs|, 0
  {
    if r != [] && r[0] == xs[0] {
      DropHead(r, xs[1..]);
    }
  }

  /** Leaving out the first element of a subsequence keeps it a subsequence. */
  lemma {:induction false} DropHead<T>(r: seq<T>, t: seq<T>)
    requires r != [] && IsSubsequence(r, t)
    ensures IsSubsequence(r[1..], t)
    decreases |t|, 1
  {
    if r[0] == t[0] {
      SubsequenceOfTail(r[1..], t);
    } else {
      DropHead(r, t[1..]);
      SubsequenceOfTail(r[1..], t);
    }
  }

  /** Keeping the head of both sides keeps a subsequence. */
  lemma ConsSubsequence<T>(x: T, r: seq<T>, xs: seq<T>)
    requires IsSubsequence(r, xs)
    ensures IsSubsequence([x] + r, [x] + xs)
  {
    assert ([x] + r)[1..] == r;
    assert ([x] + xs)[1..] == xs;
  }

  /** A subsequence is never longer than the sequence it is taken from. */
  lemma {:induction false} SubsequenceLength<T>(r: seq<T>, xs: seq<T>)
    requires IsSubsequence(r, xs)
    ensures |r| <= |xs|
    decreases |xs|
  {
    if r != [] {
      if r[0] == xs[0] {
        SubsequenceLength(r[1..], xs[1..]);
      } else {
        SubsequenceLength(r, xs[1..]);
      }
    }
  }
}
