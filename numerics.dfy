/** Numeric vocabulary shared by the geometry, solar and game modules.

    The source computes with IEEE doubles and the JavaScript `Math` object.
    Here the numbers are `real`, and the transcendental functions together
    with `Math.PI` are fields of a `Math` record handed to every computation
    that needs them. Nothing is assumed about them except where a lemma names
    one of the identities below in its `requires`.
 */
module Numerics {

  /** The slice of JavaScript's `Math` object that the core uses. */
  datatype Math = Math(pi: real, sin: real -> real, cos: real -> real, asin: real -> real, sqrt: real -> real)

  /** sin² + cos² = 1 at every angle. */
  ghost predicate Pythagorean(m: Math)
  {
    forall a: real :: m.sin(a) * m.sin(a) + m.cos(a) * m.cos(a) == 1.0
  }

  /** sin and cos repeat after 2π. */
  ghost predicate Periodic(m: Math)
  {
    forall a: real :: m.sin(a + 2.0 * m.pi) == m.sin(a) && m.cos(a + 2.0 * m.pi) == m.cos(a)
  }

  /** sin 0 = 0 and cos 0 = 1. */
  ghost predicate ZeroAngle(m: Math)
  {
    m.sin(0.0) == 0.0 && m.cos(0.0) == 1.0
  }

  /** On its domain [-1, 1], asin answers in [-π/2, π/2], where cos is never
      negative. */
  ghost predicate CosOfAsinNonNegative(m: Math)
  {
    forall v: real :: -1.0 <= v <= 1.0 ==> m.cos(m.asin(v)) >= 0.0
  }

  /** sqrt of a non-negative number is its non-negative square root. */
  ghost predicate SqrtSpec(m: Math)
  {
    forall v: real :: v >= 0.0 ==> m.sqrt(v) >= 0.0 && m.sqrt(v) * m.sqrt(v) == v
  }

  function Abs(x: real): (r: real)
    ensures r >= 0.0
    ensures r == x || r == -x
  {
    if x < 0.0 then -x else x
  }

  /** `Math.max` on two numbers. */
  function Max(a: real, b: real): (r: real)
    ensures r >= a && r >= b
    ensures r == a || r == b
  {
    if a >= b then a else b
  }

  /** `Math.min` on two numbers. */
  function Min(a: real, b: real): (r: real)
    ensures r <= a && r <= b
    ensures r == a || r == b
  {
    if a <= b then a else b
  }

  /** A quotient a/b with 0 <= a <= b is a fraction in [0, 1], and it
      grows with a. */
  lemma FractionBounds(a: real, b: real)
    requires b > 0.0 && 0.0 <= a <= b
    ensures 0.0 <= a / b <= 1.0
    ensures a == b ==> a / b == 1.0
  {
    var q := a / b;
    assert b * q == a;
    if q < 0.0 { ScaleLt(b, q, 0.0); }
    if q > 1.0 { ScaleLt(b, 1.0, q); }
    if a == b {
      SelfQuotient(b);
    }
  }

  lemma SelfQuotient(b: real)
    requires b > 0.0
    ensures b / b == 1.0
  {
  }

  lemma QuotientMonotone(a1: real, a2: real, b: real)
    requires b > 0.0 && a1 <= a2
    ensures a1 / b <= a2 / b
  {
    var q1, q2 := a1 / b, a2 / b;
    assert b * q1 == a1 && b * q2 == a2;
    if q1 > q2 { ScaleLt(b, q2, q1); }
  }

  /** A draw r in [0, 1) times a non-negative span lands in [0, span], and
      strictly below span when the span is positive. */
  lemma UnitDrawScaled(r: real, span: real)
    requires 0.0 <= r < 1.0 && span >= 0.0
    ensures 0.0 <= r * span <= span
    ensures span > 0.0 ==> r * span < span
  {
    if span > 0.0 {
      ScaleLe(span, 0.0, r);
      ScaleLt(span, r, 1.0);
    }
  }

  function Square(x: real): (r: real)
    ensures r >= 0.0
  {
    x * x
  }

  /** Truncation toward zero, as JavaScript's `%` uses for its quotient. */
  function Trunc(q: real): (k: int)
    ensures q >= 0.0 ==> k as real <= q < k as real + 1.0
    ensures q < 0.0 ==> k as real - 1.0 < q <= k as real
  {
    if q >= 0.0 then q.Floor else -((-q).Floor)
  }

  /** JavaScript's `x % y` on numbers: the remainder of the truncated
      quotient, so its sign follows the dividend. */
  function FMod(x: real, y: real): (r: real)
    requires y > 0.0
    ensures x >= 0.0 ==> 0.0 <= r < y
    ensures x < 0.0 ==> -y < r <= 0.0
    ensures 0.0 <= x < y ==> r == x
    ensures IsMultiple(x - r, y)
  {
    var k := Trunc(x / y);
    QuotientBounds(x, y, k);
    MultipleOf(y, k);
    x - y * (k as real)
  }

  /** d is a whole multiple of y > 0: d / y is an integer. */
  predicate IsMultiple(d: real, y: real)
    requires y > 0.0
  {
    (d / y).Floor as real == d / y
  }

  lemma MultipleOf(y: real, k: int)
    requires y > 0.0
    ensures IsMultiple(y * (k as real), y)
  {
    var q := (y * (k as real)) / y;
    assert y * q == y * (k as real);
    CancelFactor(y, q, k as real);
  }

  /** A positive factor cancels from both sides of an equation. */
  lemma CancelFactor(y: real, a: real, b: real)
    requires y > 0.0 && y * a == y * b
    ensures a == b
  {
    if a < b { ScaleLt(y, a, b); }
    if b < a { ScaleLt(y, b, a); }
  }

  /** Multiplying the bounds on the truncated quotient back by y. */
  lemma QuotientBounds(x: real, y: real, k: int)
    requires y > 0.0
    requires k == Trunc(x / y)
    ensures x >= 0.0 ==> 0.0 <= x - y * (k as real) < y
    ensures x < 0.0 ==> -y < x - y * (k as real) <= 0.0
    ensures 0.0 <= x < y ==> k == 0
  {
    var q := x / y;
    assert y * q == x;
    if x >= 0.0 {
      assert q >= 0.0;
      RemainderBounds(x, y, q, k as real);
      if x < y {
        ScaleLt(y, q, 1.0);
      }
    } else {
      assert q < 0.0;
      RemainderBounds(x, y, q, k as real);
    }
  }

  /** The real-only core of QuotientBounds: with x = y·q and c the
      truncation of q, x - y·c lies within one y of zero, on x's side. */
  lemma RemainderBounds(x: real, y: real, q: real, c: real)
    requires y > 0.0 && y * q == x
    requires q >= 0.0 ==> c <= q < c + 1.0
    requires q < 0.0 ==> c - 1.0 < q <= c
    ensures q >= 0.0 ==> 0.0 <= x - y * c < y
    ensures q < 0.0 ==> -y < x - y * c <= 0.0
  {
    var f := q - c;
    var g := x - y * c;
    assert g == y * f;
    FractionScaled(y, f);
    if q < 0.0 {
      assert f <= 0.0;
      assert -y < y * f;
      assert -y < g;
    }
  }

  /** A fraction f in (-1, 1) scaled by y > 0 stays in (-y, y), on f's side. */
  lemma FractionScaled(y: real, f: real)
    requires y > 0.0 && -1.0 < f < 1.0
    ensures f >= 0.0 ==> 0.0 <= y * f < y
    ensures f <= 0.0 ==> -y < y * f <= 0.0
  {
    if f >= 0.0 {
      ScaleLe(y, 0.0, f);
      ScaleLt(y, f, 1.0);
    } else {
      ScaleLt(y, -f, 1.0);
      ScaleLe(y, f, 0.0);
    }
  }

  lemma ScaleLe(y: real, a: real, b: real)
    requires y > 0.0 && a <= b
    ensures y * a <= y * b
  {
    assert y * b - y * a == y * (b - a);
  }

  lemma ScaleLt(y: real, a: real, b: real)
    requires y > 0.0 && a < b
    ensures y * a < y * b
  {
    assert y * b - y * a == y * (b - a);
  }

  /** A point r·(a·c, b, a·d) has squared length r² whenever
      a² + b² = 1 and c² + d² = 1; both spherical mappings of the core
      are of this shape. */
  lemma SphericalNorm(r: real, a: real, b: real, c: real, d: real)
    requires a * a + b * b == 1.0
    requires c * c + d * d == 1.0
    ensures (r * a * c) * (r * a * c) + (r * b) * (r * b) + (r * a * d) * (r * a * d) == r * r
  {
    calc {
      (r * a * c) * (r * a * c) + (r * b) * (r * b) + (r * a * d) * (r * a * d);
      (r * r) * (a * a) * (c * c + d * d) + (r * r) * (b * b);
      (r * r) * (a * a) + (r * r) * (b * b);
      (r * r) * (a * a + b * b);
      r * r;
    }
  }

  /** One leg of a unit circle point lies in [-1, 1]. */
  lemma UnitBound(s: real, c: real)
    requires s * s + c * c == 1.0
    ensures -1.0 <= s <= 1.0
  {
    assert c * c >= 0.0 by { SquareGrows(0.0, Abs(c)); assert Abs(c) * Abs(c) == c * c; }
    assert Abs(s) * Abs(s) == s * s;
    SquareMonotone(1.0, Abs(s));
  }

  /** A factor in [-1, 1] never enlarges a product: |a·b| <= |a|. */
  lemma FactorBounded(a: real, b: real)
    ensures -1.0 <= b <= 1.0 ==> Abs(a * b) <= Abs(a)
  {
    if -1.0 <= b <= 1.0 {
      if a > 0.0 {
        ScaleLe(a, -1.0, b);
        ScaleLe(a, b, 1.0);
      } else if a < 0.0 {
        var p := -a;
        ScaleLe(p, -1.0, b);
        ScaleLe(p, b, 1.0);
        assert a * b == -(p * b);
      }
    }
  }

  /** For non-negative s and t, s < t exactly when s² < t². */
  lemma SquareMonotone(s: real, t: real)
    requires s >= 0.0 && t >= 0.0
    ensures s < t <==> s * s < t * t
  {
    if s < t {
      SquareGrows(s, t);
    } else {
      SquareGrows(t, s);
    }
  }

  lemma SquareGrows(s: real, t: real)
    requires 0.0 <= s <= t
    ensures s * s <= t * t
    ensures s < t ==> s * s < t * t
  {
    var d := t - s;
    assert t * t == s * s + d * (t + s);
    if d > 0.0 {
      ScaleLt(d, 0.0, t + s);
    }
  }

}

/** Option, for values the source may not have: a missing DOM element, a
    callback that was not called. */
module Wrappers {
  datatype Option<+T> = None | Some(value: T)
}
