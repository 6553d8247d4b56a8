/** Small functions that several modules share. */
module Helpers {

  function Max(a: int, b: int): (r: int)
    ensures r >= a && r >= b && (r == a || r == b)
  {
    if a < b then b else a
  }

  function Min(a: int, b: int): (r: int)
    ensures r <= a && r <= b && (r == a || r == b)
  {
    if a < b then a else b
  }

  /** The elements other than `x`, in order. */
  function Without<T(==, !new)>(xs: seq<T>, x: T): (r: seq<T>)
    ensures forall y :: y in r <==> y in xs && y != x
  {
    if xs == [] then []
    else if xs[0] == x then Without(xs[1..], x)
    else [xs[0]] + Without(xs[1..], x)
  }

  lemma {:induction false} WithoutConcat<T(!new)>(a: seq<T>, b: seq<T>, x: T)
    ensures Without(a + b, x) == Without(a, x) + Without(b, x)
  {
    if a == [] {
      assert a + b == b;
    } else {
      assert (a + b)[1..] == a[1..] + b;
      WithoutConcat(a[1..], b, x);
    }
  }

  lemma {:induction false} WithoutAbsent<T(!new)>(xs: seq<T>, x: T)
    requires x !in xs
    ensures Without(xs, x) == xs
  {
    if xs != [] { WithoutAbsent(xs[1..], x); }
  }

  /** The elements to keep, in order. */
  function Kept<T(!new)>(xs: seq<T>, keep: T -> bool): (r: seq<T>)
    ensures forall y :: y in r <==> y in xs && keep(y)
  {
    if xs == [] then []
    else if keep(xs[0]) then [xs[0]] + Kept(xs[1..], keep)
    else Kept(xs[1..], keep)
  }

  function Not<T(==, !new)>(x: T): T -> bool { y => y != x }

  function Neither<T(==, !new)>(x: T, z: T): T -> bool { y => y != x && y != z }

  lemma {:induction false} WithoutKeeps<T(!new)>(xs: seq<T>, x: T, z: T)
    ensures Without(xs, x) == Kept(xs, Not(x))
    ensures Without(Without(xs, x), z) == Kept(xs, Neither(x, z))
  {
    if xs != [] { WithoutKeeps(xs[1..], x, z); }
  }
}
