/**
  Sums of products over vectors of natural numbers: the three running sums that
  `cosineSimilarity` accumulates, and the Cauchy-Schwarz inequality that bounds
  the resulting score by 1.
 */
module Vectors {

  /** The sum of `xs[i] * ys[i]`, accumulated from the front as a loop would. */
  function Dot(xs: seq<nat>, ys: seq<nat>): nat
    requires |xs| == |ys|
    decreases |xs|
  {
    if xs == [] then 0
    else Dot(xs[..|xs| - 1], ys[..|ys| - 1]) + xs[|xs| - 1] * ys[|ys| - 1]
  }

  /** The sum of squares is zero exactly when every component is zero. */
  lemma {:induction false} SumOfSquaresZero(xs: seq<nat>)
    ensures Dot(xs, xs) == 0 <==> forall i :: 0 <= i < |xs| ==> xs[i] == 0
  {
    if xs != [] {
      var n := |xs| - 1;
      SumOfSquaresZero(xs[..n]);
      assert xs[n] * xs[n] == 0 <==> xs[n] == 0;
      if Dot(xs, xs) == 0 {
        forall i | 0 <= i < |xs| ensures xs[i] == 0 {
          if i < n { assert xs[..n][i] == xs[i]; }
        }
      } else {
        if xs[n] == 0 {
          var i :| 0 <= i < n && xs[..n][i] != 0;
          assert xs[i] != 0;
        }
      }
    }
  }

  /** The dot product does not depend on the order of its two arguments. */
  lemma {:induction false} DotSymmetric(xs: seq<nat>, ys: seq<nat>)
    requires |xs| == |ys|
    ensures Dot(xs, ys) == Dot(ys, xs)
  {
    if xs != [] {
      DotSymmetric(xs[..|xs| - 1], ys[..|ys| - 1]);
    }
  }

  /** Arithmetic mean and geometric mean: `4pq <= (p + q)^2`. */
  lemma FourProductsAtMostSquaredSum(p: int, q: int)
    ensures 4 * (p * q) <= (p + q) * (p + q)
  {
    assert (p + q) * (p + q) - 4 * (p * q) == (p - q) * (p - q);
  }

  /** Squaring is strictly increasing on the non-negative numbers. */
  lemma SquareStrict(u: int, v: int)
    requires 0 <= v
    ensures v < u ==> v * v < u * u
  {
    if v < u {
      assert v * v <= v * u by { MultiplyMonotone(v, u, v); }
      assert v * u < u * u by { assert (u - v) * u > 0; }
    }
  }

  /** Squaring reflects order on the non-negative numbers. */
  lemma SquareMonotone(u: int, v: int)
    requires 0 <= u && 0 <= v
    requires u * u <= v * v
    ensures u <= v
  {
    SquareStrict(u, v);
  }

  /** The step of the Cauchy-Schwarz induction: `2dxy <= a y^2 + b x^2` when `d^2 <= ab`. */
  lemma CrossTermBound(d: nat, a: nat, b: nat, x: nat, y: nat)
    requires d * d <= a * b
    ensures 2 * (d * (x * y)) <= a * (y * y) + b * (x * x)
  {
    var xx, yy := Product(x, x), Product(y, y);
    var s := Product(xx, yy);
    var u := 2 * Product(d, Product(x, y));
    var p, q := Product(a, yy), Product(b, xx);
    DoubledSquareOfProduct(d, x, y);
    MultiplyMonotone(d * d, a * b, s);
    Rearrange(a, b, xx, yy);
    FourProductsAtMostSquaredSum(p, q);
    RootBound(u, p + q, (d * d) * s, p * q);
  }

  /** A non-negative product, named so that its sign comes with its type. */
  function Product(x: nat, y: nat): (r: nat)
    ensures r == x * y
  {
    x * y
  }

  /** `u <= v` once `u^2 = 4m`, `m <= n` and `4n <= v^2`. */
  lemma RootBound(u: nat, v: nat, m: int, n: int)
    requires u * u == 4 * m && m <= n && 4 * n <= v * v
    ensures u <= v
  {
    SquareMonotone(u, v);
  }

  lemma DoubledSquareOfProduct(d: int, x: int, y: int)
    ensures (2 * (d * (x * y))) * (2 * (d * (x * y))) == 4 * ((d * d) * ((x * x) * (y * y)))
  {
    DoubledSquare(d, x * y);
    SquareOfProduct(x, y);
  }

  lemma DoubledSquare(m: int, n: int)
    ensures (2 * (m * n)) * (2 * (m * n)) == 4 * ((m * m) * (n * n))
  {
    SquareOfProduct(m, n);
  }

  lemma SquareOfProduct(m: int, n: int)
    ensures (m * n) * (m * n) == (m * m) * (n * n)
  {
  }

  lemma Rearrange(a: int, b: int, c: int, e: int)
    ensures (a * b) * (c * e) == (a * e) * (b * c)
  {
  }

  lemma MultiplyMonotone(s: int, t: int, k: nat)
    requires s <= t
    ensures s * k <= t * k
  {
  }

  /** Appending one component pair keeps `d^2 <= ab`. */
  lemma CauchySchwarzStep(d: nat, a: nat, b: nat, x: nat, y: nat)
    requires d * d <= a * b
    ensures (d + x * y) * (d + x * y) <= (a + x * x) * (b + y * y)
  {
    CrossTermBound(d, a, b, x, y);
    calc {
      (d + x * y) * (d + x * y);
    ==
      d * d + 2 * (d * (x * y)) + (x * y) * (x * y);
    <=
      a * b + a * (y * y) + b * (x * x) + (x * x) * (y * y);
    ==
      (a + x * x) * (b + y * y);
    }
  }

  /** Cauchy-Schwarz: `(x . y)^2 <= (x . x)(y . y)`. */
  lemma {:induction false} CauchySchwarz(xs: seq<nat>, ys: seq<nat>)
    requires |xs| == |ys|
    ensures Dot(xs, ys) * Dot(xs, ys) <= Dot(xs, xs) * Dot(ys, ys)
  {
    if xs != [] {
      var n := |xs| - 1;
      var xs', ys' := xs[..n], ys[..n];
      CauchySchwarz(xs', ys');
      var d, a, b := Dot(xs', ys'), Dot(xs', xs'), Dot(ys', ys');
      var x, y := xs[n], ys[n];
      assert Dot(xs, ys) == d + Product(x, y);
      assert Dot(xs, xs) == a + Product(x, x);
      assert Dot(ys, ys) == b + Product(y, y);
      CauchySchwarzStep(d, a, b, x, y);
    }
  }
}
