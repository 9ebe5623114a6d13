/**
 * Numeric ground rules shared by the tree and grass models.
 *
 * JavaScript doubles are modelled as reals. `Math.random` is a stream of
 * draws in [0,1) read through a cursor, and `Math.sin`, `Math.cos` and
 * `Math.sqrt` are passed in as function values: the model assumes of them
 * only what a lemma states it needs (a square root is a non-negative root,
 * sine and cosine satisfy sin^2 + cos^2 = 1).
 */
module Numeric {

  /** `Math.PI`, read as an exact real. */
  const PI: real := 3.141592653589793

  /** `Math.PI * 2`, the full turn used for angle steps and random azimuths. */
  const TWO_PI: real := PI * 2.0

  /** The successive results of `Math.random()`: the n-th call returns d(n). */
  type Draws = nat -> real

  /** What `Math.random` promises: every draw lies in [0,1). */
  ghost predicate Unit(d: Draws)
  {
    forall n: nat :: 0.0 <= d(n) < 1.0
  }

  /** The three library functions the animation and sampling code call. */
  datatype MathFns = MathFns(sin: real -> real, cos: real -> real, sqrt: real -> real)

  /** `sqrt` returns the non-negative root of a non-negative argument. */
  ghost predicate SqrtOk(m: MathFns)
  {
    forall x: real :: 0.0 <= x ==> 0.0 <= m.sqrt(x) && m.sqrt(x) * m.sqrt(x) == x
  }

  /** `sin` and `cos` lie on the unit circle. */
  ghost predicate TrigOk(m: MathFns)
  {
    forall a: real :: m.sin(a) * m.sin(a) + m.cos(a) * m.cos(a) == 1.0
  }

  /** `Math.min` on two reals. */
  function Min(a: real, b: real): (r: real)
    ensures r <= a && r <= b
    ensures r == a || r == b
  {
    if a <= b then a else b
  }

  /** `Math.min(1, x / reach)`: an attenuation factor, never above 1 and in [0,1] whenever x is non-negative. */
  function Attenuation(x: real, reach: real): (r: real)
    requires 0.0 < reach
    ensures r <= 1.0
    ensures 0.0 <= x ==> 0.0 <= r
    ensures r == 1.0 <==> reach <= x
    ensures x == 0.0 ==> r == 0.0
  {
    QuotientOrder(x, reach);
    Min(1.0, x / reach)
  }

  /** Dividing by a positive reach keeps the order against 0 and against the reach itself. */
  lemma QuotientOrder(x: real, reach: real)
    requires 0.0 < reach
    ensures reach <= x <==> 1.0 <= x / reach
    ensures 0.0 <= x <==> 0.0 <= x / reach
  {
    var q := x / reach;
    assert q * reach == x;
    if reach <= x && q < 1.0 { MulRightStrict(q, 1.0, reach); }
    if x < reach && 1.0 <= q { MulLeft(reach, 1.0, q); }
    if 0.0 <= x && q < 0.0 { MulRightStrict(q, 0.0, reach); }
    if x < 0.0 && 0.0 <= q { MulLeft(reach, 0.0, q); }
  }

  lemma SquareStrict(a: real, b: real)
    requires 0.0 <= a < b
    ensures a * a < b * b
  {
    var d := b - a;
    assert b * b == a * a + 2.0 * a * d + d * d;
    assert 0.0 <= a * d;
    assert 0.0 < d * d;
  }

  lemma MulLeft(k: real, a: real, b: real)
    requires 0.0 <= k && a <= b
    ensures k * a <= k * b
  {
    assert k * b - k * a == k * (b - a);
  }

  lemma MulRightStrict(a: real, b: real, k: real)
    requires a < b && 0.0 < k
    ensures a * k < b * k
  {
    assert b * k - a * k == (b - a) * k;
  }

  /** The root of 0 is 0. */
  lemma SqrtZero(m: MathFns)
    requires SqrtOk(m)
    ensures m.sqrt(0.0) == 0.0
  {
    var s := m.sqrt(0.0);
    assert 0.0 <= s && s * s == 0.0;
    if s > 0.0 {
      SquareStrict(0.0, s);
    }
  }

  /** Comparing a root with a non-negative bound is comparing the squares. */
  lemma SqrtLess(m: MathFns, x: real, c: real)
    requires SqrtOk(m) && 0.0 <= x && 0.0 <= c
    ensures m.sqrt(x) < c <==> x < c * c
  {
    var s := m.sqrt(x);
    assert 0.0 <= s && s * s == x;
    if s < c {
      SquareStrict(s, c);
    } else {
      assert c <= s;
      if c < s { SquareStrict(c, s); }
    }
  }

  /** The root of a draw in [0,1) lies in [0,1). */
  lemma SqrtOfDraw(m: MathFns, u: real)
    requires SqrtOk(m) && 0.0 <= u < 1.0
    ensures 0.0 <= m.sqrt(u) < 1.0
  {
    SqrtLess(m, u, 1.0);
  }

  /** A square is never negative. */
  lemma SquareNonNegative(a: real)
    ensures 0.0 <= a * a
  {
    if a < 0.0 { assert a * a == (-a) * (-a); }
  }

  /** A real within `[-b, b]` has a square of at most `b * b`. */
  lemma SquareWithin(x: real, b: real)
    requires -b <= x <= b
    ensures x * x <= b * b
  {
    var a := if x < 0.0 then -x else x;
    assert x * x == a * a;
    MulLeft(a, a, b);
    MulLeft(b, a, b);
  }
}
