/** Order-preserving subsequences, shared by the cart's filter and the catalog filter. */
module Seqs {
  /** `a` is obtained from `b` by deleting elements, keeping the order of the rest. */
  ghost predicate IsSubsequence<T>(a: seq<T>, b: seq<T>)
    decreases |b|
  {
    if a == [] then true
    else if b == [] then false
    else (a[0] == b[0] && IsSubsequence(a[1..], b[1..])) || IsSubsequence(a, b[1..])
  }

  /** `xs` with every occurrence of `x` dropped, the rest in order. */
  function Without<T(==)>(xs: seq<T>, x: T): (r: seq<T>)
    ensures IsSubsequence(r, xs)
  {
    if xs == [] then []
    else if xs[0] == x then Without(xs[1..], x)
    else [xs[0]] + Without(xs[1..], x)
  }

  /** `Without` keeps every other value exactly as often as `xs` has it, and `x` never. */
  lemma {:induction false} WithoutCounts<T>(xs: seq<T>, x: T)
    ensures forall y :: multiset(Without(xs, x))[y] == if y == x then 0 else multiset(xs)[y]
  {
    if xs != [] {
      assert xs == [xs[0]] + xs[1..];
      WithoutCounts(xs[1..], x);
    }
  }

  /** Dropping a value from a concatenation drops it from each part. */
  lemma {:induction false} WithoutAppend<T>(a: seq<T>, b: seq<T>, x: T)
    ensures Without(a + b, x) == Without(a, x) + Without(b, x)
  {
    if a == [] {
      assert a + b == b;
    } else {
      assert (a + b)[1..] == a[1..] + b;
      WithoutAppend(a[1..], b, x);
    }
  }

  /** A single value is kept exactly when it is not the one dropped. */
  lemma WithoutSingleton<T>(y: T, x: T)
    ensures Without([y], x) == if y == x then [] else [y]
  {
    assert [y][1..] == [];
  }
}
