/**
  The value of `cosineSimilarity` without square roots.

  The source accumulates `dot`, `magA` (the sum of squares of the first vector)
  and `magB`, returns 0 when either sum of squares is 0, and otherwise returns
  `dot / (sqrt(magA) * sqrt(magB))`. All three sums are natural numbers here, so
  the score is the non-negative real whose square is `Num / Den` below, and two
  scores compare exactly as their cross-multiplied squares do.
 */
module Similarity {

  /** The three running sums of one `cosineSimilarity` call. */
  datatype Sim = Sim(dot: nat, magA: nat, magB: nat) {

    /** The zero guard: either sum of squares is 0, so the score is 0. */
    predicate Degenerate() {
      magA == 0 || magB == 0
    }

    /** Numerator of the squared score. */
    function Num(): nat {
      if Degenerate() then 0 else dot * dot
    }

    /** Denominator of the squared score; never zero. */
    function Den(): (d: nat)
      ensures d > 0
    {
      if Degenerate() then 1 else magA * magB
    }

    /** The square of the score, as an exact rational. */
    function Squared(): real {
      Num() as real / Den() as real
    }
  }

  /** `s` is the value the source's `cosineSimilarity` denotes for the sums `c`. */
  predicate IsScore(s: real, c: Sim) {
    0.0 <= s && s * s == c.Squared()
  }

  /** The ranking comparison: `p` scores at least as high as `q`. */
  predicate AtLeast(p: Sim, q: Sim) {
    p.Num() * q.Den() >= q.Num() * p.Den()
  }

  /** The ranking comparison: `p` scores strictly higher than `q`. */
  predicate Greater(p: Sim, q: Sim) {
    p.Num() * q.Den() > q.Num() * p.Den()
  }

  lemma DivideOrder(a: nat, b: nat, c: nat, d: nat)
    requires b > 0 && d > 0
    ensures a * d <= c * b <==> a as real / b as real <= c as real / d as real
  {
    var x, y := a as real / b as real, c as real / d as real;
    assert x * b as real == a as real;
    assert y * d as real == c as real;
    assert (a * d) as real == x * (b as real * d as real);
    assert (c * b) as real == y * (b as real * d as real);
    assert b as real * d as real > 0.0;
  }

  /** The integer comparisons order sums exactly as their squared scores. */
  lemma OrderIsSquaredOrder(p: Sim, q: Sim)
    ensures AtLeast(p, q) <==> p.Squared() >= q.Squared()
    ensures Greater(p, q) <==> p.Squared() > q.Squared()
  {
    DivideOrder(q.Num(), q.Den(), p.Num(), p.Den());
    DivideOrder(p.Num(), p.Den(), q.Num(), q.Den());
  }

  /** The strict ranking comparison is transitive. */
  lemma GreaterTransitive(p: Sim, q: Sim, s: Sim)
    requires Greater(p, q) && Greater(q, s)
    ensures Greater(p, s)
  {
    OrderIsSquaredOrder(p, q);
    OrderIsSquaredOrder(q, s);
    OrderIsSquaredOrder(p, s);
  }

  lemma RealSquareStrict(s: real, t: real)
    requires 0.0 <= t
    ensures t < s ==> t * t < s * s
  {
    if t < s {
      var a, b := t * t, t * s;
      assert a <= b by { assert t * (s - t) >= 0.0; }
      assert b < s * s by { assert (s - t) * s > 0.0; }
    }
  }

  /** Scores are compared, as the source's comparator does, by their values:
      `s >= t` exactly when `AtLeast` holds of their sums. */
  lemma ScoreOrder(s: real, t: real, p: Sim, q: Sim)
    requires IsScore(s, p) && IsScore(t, q)
    ensures s >= t <==> AtLeast(p, q)
    ensures s > t <==> Greater(p, q)
  {
    OrderIsSquaredOrder(p, q);
    RealSquareStrict(s, t);
    RealSquareStrict(t, s);
  }

  /** A score is determined by its sums. */
  lemma ScoreUnique(s: real, t: real, c: Sim)
    requires IsScore(s, c) && IsScore(t, c)
    ensures s == t
  {
    ScoreOrder(s, t, c, c);
    ScoreOrder(t, s, c, c);
  }

  /** The zero guard: a degenerate call scores exactly 0. */
  lemma DegenerateScoresZero(s: real, c: Sim)
    requires c.Degenerate()
    requires IsScore(s, c)
    ensures s == 0.0
  {
    RealSquareStrict(s, 0.0);
  }

  /** Otherwise the source's quotient `dot / (sqrt(magA) * sqrt(magB))` is the score. */
  lemma QuotientIsScore(c: Sim, ra: real, rb: real)
    requires !c.Degenerate()
    requires 0.0 < ra && ra * ra == c.magA as real
    requires 0.0 < rb && rb * rb == c.magB as real
    ensures IsScore(c.dot as real / (ra * rb), c)
  {
    var s := c.dot as real / (ra * rb);
    assert s * (ra * rb) == c.dot as real;
    assert (s * s) * ((ra * ra) * (rb * rb)) == (c.dot * c.dot) as real;
    assert (ra * ra) * (rb * rb) == (c.magA * c.magB) as real;
    assert c.Num() as real == (s * s) * c.Den() as real;
  }

  /** Under `dot^2 <= magA * magB` (Cauchy-Schwarz) a score lies in [0, 1]. */
  lemma ScoreInUnitInterval(s: real, c: Sim)
    requires c.dot * c.dot <= c.magA * c.magB
    requires IsScore(s, c)
    ensures 0.0 <= s <= 1.0
  {
    assert c.Num() <= c.Den();
    DivideOrder(c.Num(), c.Den(), 1, 1);
    RealSquareStrict(s, 1.0);
  }

  /** For one fixed user vector (`magA` shared and positive) and place vectors with
      positive sums of squares, `score(p) >= score(q)` exactly when
      `dot_p^2 * magB_q >= dot_q^2 * magB_p`. */
  lemma FixedUserOrder(p: Sim, q: Sim)
    requires p.magA == q.magA > 0
    requires p.magB > 0 && q.magB > 0
    ensures AtLeast(p, q) <==> p.dot * p.dot * q.magB >= q.dot * q.dot * p.magB
  {
    var a := p.magA;
    var x, y := p.dot * p.dot * q.magB, q.dot * q.dot * p.magB;
    assert p.Num() * q.Den() == a * x;
    assert q.Num() * p.Den() == a * y;
    if x >= y {
      assert a * x >= a * y;
    } else {
      assert a * x < a * y;
    }
  }
}
