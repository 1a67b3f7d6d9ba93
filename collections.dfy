/** The list operations the tracker is built from: JavaScript's
    `Array.prototype.filter` and `Array.prototype.map` over immutable
    sequences, and the order-preserving subsequence relation that says
    what a filter keeps. */
module Collections {

  datatype Option<+T> = None | Some(value: T) {

    /** The wrapped value, or `default` when there is none. */
    function GetOr(default: T): T {
      match this
      case Some(v) => v
      case None => default
    }
  }

  /** `xs.filter(p)`: the elements of `xs` that satisfy `p`, in their order. */
  function FilterSeq<T(==)>(xs: seq<T>, p: T -> bool): (r: seq<T>)
    ensures |r| <= |xs|
    ensures forall i :: 0 <= i < |r| ==> p(r[i]) && r[i] in xs
    ensures forall i :: 0 <= i < |xs| && p(xs[i]) ==> xs[i] in r
  {
    if xs == [] then [] else (if p(xs[0]) then [xs[0]] else []) + FilterSeq(xs[1..], p)
  }

  /** `xs.map(f)`: `f` applied to every element, position by position. */
  function MapSeq<T, U>(xs: seq<T>, f: T -> U): (r: seq<U>)
    ensures |r| == |xs|
    ensures forall i :: 0 <= i < |xs| ==> r[i] == f(xs[i])
  {
    if xs == [] then [] else [f(xs[0])] + MapSeq(xs[1..], f)
  }

  /** `xs` is obtained from `ys` by deleting elements, without reordering. */
  predicate IsSubsequence<T(==)>(xs: seq<T>, ys: seq<T>)
  {
    if xs == [] then true
    else if ys == [] then false
    else (xs[0] == ys[0] && IsSubsequence(xs[1..], ys[1..])) || IsSubsequence(xs, ys[1..])
  }

  /** A filter keeps the survivors in their relative order. */
  lemma {:induction false} FilterIsSubsequence<T>(xs: seq<T>, p: T -> bool)
    ensures IsSubsequence(FilterSeq(xs, p), xs)
  {
    if xs != [] {
      var rest := FilterSeq(xs[1..], p);
      FilterIsSubsequence(xs[1..], p);
      if p(xs[0]) {
        var r := FilterSeq(xs, p);
        assert r == [xs[0]] + rest;
        assert r[1..] == rest;
      } else {
        assert FilterSeq(xs, p) == rest;
        SubsequenceOfTail(rest, xs);
      }
    }
  }

  /** Dropping the head of `ys` never shrinks the set of its subsequences. */
  lemma {:induction false} SubsequenceOfTail<T>(xs: seq<T>, ys: seq<T>)
    requires ys != [] && IsSubsequence(xs, ys[1..])
    ensures IsSubsequence(xs, ys)
  {
  }

  /** Filtering distributes over concatenation. */
  lemma {:induction false} FilterAppend<T>(a: seq<T>, b: seq<T>, p: T -> bool)
    ensures FilterSeq(a + b, p) == FilterSeq(a, p) + FilterSeq(b, p)
  {
    if a == [] {
      assert a + b == b;
    } else {
      var head := if p(a[0]) then [a[0]] else [];
      var ab := a + b;
      assert ab[0] == a[0] && ab[1..] == a[1..] + b;
      calc {
        FilterSeq(ab, p);
        head + FilterSeq(a[1..] + b, p);
        { FilterAppend(a[1..], b, p); }
        head + (FilterSeq(a[1..], p) + FilterSeq(b, p));
        (head + FilterSeq(a[1..], p)) + FilterSeq(b, p);
        FilterSeq(a, p) + FilterSeq(b, p);
      }
    }
  }

  /** A filter whose predicate holds everywhere returns its input. */
  lemma {:induction false} FilterKeepsAll<T>(xs: seq<T>, p: T -> bool)
    requires forall i :: 0 <= i < |xs| ==> p(xs[i])
    ensures FilterSeq(xs, p) == xs
  {
    if xs != [] {
      FilterKeepsAll(xs[1..], p);
      assert [xs[0]] + xs[1..] == xs;
    }
  }

  /** Filtering twice by the same predicate is filtering once. */
  lemma FilterIdempotent<T>(xs: seq<T>, p: T -> bool)
    ensures FilterSeq(FilterSeq(xs, p), p) == FilterSeq(xs, p)
  {
    FilterKeepsAll(FilterSeq(xs, p), p);
  }

  /** Two predicates that agree on every element filter alike. */
  lemma {:induction false} FilterCongruent<T>(xs: seq<T>, p: T -> bool, q: T -> bool)
    requires forall i :: 0 <= i < |xs| ==> (p(xs[i]) <==> q(xs[i]))
    ensures FilterSeq(xs, p) == FilterSeq(xs, q)
  {
    if xs != [] {
      FilterCongruent(xs[1..], p, q);
    }
  }

  /** When `pq` is the disjoint union of `p` and `q`, it keeps as many
      elements as `p` and `q` together. */
  lemma {:induction false} FilterDisjointUnionLength<T>(xs: seq<T>, p: T -> bool, q: T -> bool, pq: T -> bool)
    requires forall i :: 0 <= i < |xs| ==> (pq(xs[i]) <==> p(xs[i]) || q(xs[i]))
    requires forall i :: 0 <= i < |xs| ==> !(p(xs[i]) && q(xs[i]))
    ensures |FilterSeq(xs, pq)| == |FilterSeq(xs, p)| + |FilterSeq(xs, q)|
  {
    if xs != [] {
      FilterDisjointUnionLength(xs[1..], p, q, pq);
    }
  }
}
