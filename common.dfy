/** Small shared vocabulary: optional values and list filtering with its laws. */
module Common {

  /** A value that JavaScript may leave `undefined`. */
  datatype Option<T> = None | Some(value: T)

  /** Concatenation is associative; stated once so that proofs need not rediscover it. */
  lemma AppendAssoc<T>(x: seq<T>, y: seq<T>, z: seq<T>)
    ensures (x + y) + z == x + (y + z)
  {
  }

  /** `xs.filter(p)`: the elements satisfying `p`, in their original order. */
  function Filter<T>(xs: seq<T>, p: T -> bool): (r: seq<T>)
    ensures |r| <= |xs|
    ensures forall x :: x in r ==> x in xs && p(x)
  {
    if xs == [] then [] else if p(xs[0]) then [xs[0]] + Filter(xs[1..], p) else Filter(xs[1..], p)
  }

  /** `a` is obtained from `b` by deleting elements, without reordering the rest. */
  predicate IsSubsequence<T(==)>(a: seq<T>, b: seq<T>)
    decreases |b|
  {
    if a == [] then true
    else if b == [] then false
    else (a[0] == b[0] && IsSubsequence(a[1..], b[1..])) || IsSubsequence(a, b[1..])
  }

  /** Every element of `xs` that satisfies `p` survives the filter. */
  lemma {:induction false} FilterKeeps<T>(xs: seq<T>, p: T -> bool, x: T)
    requires x in xs && p(x)
    ensures x in Filter(xs, p)
  {
    if xs[0] != x {
      FilterKeeps(xs[1..], p, x);
    }
  }

  /** A filter keeps the order of what it keeps. */
  lemma {:induction false} FilterIsSubsequence<T>(xs: seq<T>, p: T -> bool)
    ensures IsSubsequence(Filter(xs, p), xs)
  {
    if xs != [] {
      FilterIsSubsequence(xs[1..], p);
    }
  }

  /** Filtering with a stronger predicate yields a sub-list of filtering with a weaker one. */
  lemma {:induction false} FilterStrongerIsSubsequence<T>(xs: seq<T>, strong: T -> bool, weak: T -> bool)
    requires forall x :: x in xs && strong(x) ==> weak(x)
    ensures IsSubsequence(Filter(xs, strong), Filter(xs, weak))
  {
    if xs != [] {
      FilterStrongerIsSubsequence(xs[1..], strong, weak);
      var a, b := Filter(xs, strong), Filter(xs, weak);
      if !strong(xs[0]) && weak(xs[0]) {
        assert b[1..] == Filter(xs[1..], weak);
      }
    }
  }

  /** Filtering with a predicate that holds everywhere changes nothing. */
  lemma {:induction false} FilterAll<T>(xs: seq<T>, p: T -> bool)
    requires forall x :: x in xs ==> p(x)
    ensures Filter(xs, p) == xs
  {
    if xs != [] {
      FilterAll(xs[1..], p);
    }
  }

  /** Filtering a concatenation filters each part. */
  lemma {:induction false} FilterAppend<T>(a: seq<T>, b: seq<T>, p: T -> bool)
    ensures Filter(a + b, p) == Filter(a, p) + Filter(b, p)
  {
    if a == [] {
      assert a + b == b;
    } else {
      var t := a[1..];
      FilterAppend(t, b, p);
      var ab := a + b;
      assert ab[0] == a[0] && ab[1..] == t + b;
      if p(a[0]) {
        AppendAssoc([a[0]], Filter(t, p), Filter(b, p));
      }
    }
  }
}
