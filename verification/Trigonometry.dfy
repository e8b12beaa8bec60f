/** The functions of `<cmath>` that the docking code uses, over real numbers. */
module Trigonometry {
  import opened Basics

  /** One component of a vector of length `length`, rescaled to length `size`. */
  function Rescaled(size: real, component: real, length: real): real
    requires length != 0.0
  {
    size * component / length
  }

  /** The library is a value handed to the code; `Laws` is all that is ever assumed of it. Each law is
      stated at a point, so that a proof names the points it needs. */
  datatype Trig = Trig(
    pi: real,
    hypot: (real, real) -> real,
    cos: real -> real,
    sin: real -> real,
    atan2: (real, real) -> real)
  {
    ghost predicate HypotAt(x: real, y: real) {
      && hypot(x, y) * hypot(x, y) == x * x + y * y
      && hypot(x, y) >= 0.0 && (hypot(x, y) == 0.0 <==> x == 0.0 && y == 0.0)
    }

    ghost predicate CircleAt(a: real) {
      cos(a) * cos(a) + sin(a) * sin(a) == 1.0
    }

    ghost predicate AdditionAt(a: real, b: real) {
      && cos(a + b) == cos(a) * cos(b) - sin(a) * sin(b)
      && sin(a + b) == sin(a) * cos(b) + cos(a) * sin(b)
    }

    ghost predicate PolarAt(x: real, y: real) {
      && hypot(x, y) * cos(atan2(y, x)) == x
      && hypot(x, y) * sin(atan2(y, x)) == y
      && -pi < atan2(y, x) <= pi
      && (x >= 0.0 ==> -pi / 2.0 <= atan2(y, x) <= pi / 2.0)
    }

    ghost predicate PrincipalAt(a: real) {
      && (-pi < a <= pi ==> atan2(sin(a), cos(a)) == a)
      && (-pi / 2.0 <= a <= pi / 2.0 ==> cos(a) >= 0.0)
    }

    ghost predicate Laws() {
      && 3.1415926 < pi < 3.1415927
      && cos(0.0) == 1.0 && sin(0.0) == 0.0
      && cos(pi) == -1.0 && sin(pi) == 0.0
      && (forall x, y :: HypotAt(x, y))
      && (forall a :: CircleAt(a))
      && (forall a, b :: AdditionAt(a, b))
      && (forall x, y :: PolarAt(x, y))
      && (forall a :: PrincipalAt(a))
    }

    function WrapAngle(angle: real): real {
      atan2(sin(angle), cos(angle))
    }

    /** Two nonnegative numbers with one square are one number. */
    lemma SquaresAgree(a: real, b: real)
      requires a >= 0.0 && b >= 0.0 && a * a == b * b
      ensures a == b
    {
      if a + b > 0.0 {
        assert a * (a + b) == a * a + a * b;
        assert b * (a + b) == a * b + b * b;
        Cancel(a, b, a + b);
      }
    }

    lemma Scale(k: real, a: real, b: real)
      requires a == b
      ensures k * a == k * b
    {
    }

    lemma Cancel(a: real, b: real, k: real)
      requires k > 0.0 && a * k == b * k
      ensures a == b
    {
      assert (a - b) * k == 0.0;
    }

    /** A length is determined by its square. */
    lemma HypotIs(x: real, y: real, s: real)
      requires Laws() && s >= 0.0 && x * x + y * y == s * s
      ensures hypot(x, y) == s
    {
      assert HypotAt(x, y);
      SquaresAgree(hypot(x, y), s);
    }

    /** The length of a vector given by its polar coordinates. */
    lemma HypotOfPolar(x: real, y: real, s: real, a: real)
      requires Laws() && s >= 0.0 && x == s * cos(a) && y == s * sin(a)
      ensures hypot(x, y) == s
    {
      assert CircleAt(a);
      assert x * x + y * y == s * s * (cos(a) * cos(a) + sin(a) * sin(a));
      HypotIs(x, y, s);
    }

    lemma ScaledSquare(x: real, y: real, h: real, s: real)
      requires h > 0.0 && x * x + y * y == h * h
      ensures (s * x / h) * (s * x / h) + (s * y / h) * (s * y / h) == s * s
    {
      var c := s / h;
      assert s * x / h == c * x && s * y / h == c * y;
      assert (c * x) * (c * x) + (c * y) * (c * y) == (c * c) * (x * x + y * y);
      Scale(c * c, x * x + y * y, h * h);
      assert (c * c) * (h * h) == (c * h) * (c * h);
      assert c * h == s;
      Scale(c * h, c * h, s);
      Scale(s, c * h, s);
    }

    /** Scaling a vector to a chosen length. */
    lemma HypotOfScaled(s: real, x: real, y: real)
      requires Laws() && s >= 0.0 && hypot(x, y) > 0.0
      ensures hypot(Rescaled(s, x, hypot(x, y)), Rescaled(s, y, hypot(x, y))) == s
    {
      var h := hypot(x, y);
      assert HypotAt(x, y);
      ScaledSquare(x, y, h, s);
      HypotIs(s * x / h, s * y / h, s);
    }

    /** Wrapping loses a whole turn only at the lower end of the principal range. */
    lemma WrapOfMinusPi()
      requires Laws()
      ensures WrapAngle(-pi) == pi
    {
      assert AdditionAt(pi, -pi) && PrincipalAt(pi);
      assert pi + -pi == 0.0;
    }

    /** Wrapping does not turn a direction. */
    lemma WrapKeepsDirection(a: real)
      requires Laws()
      ensures cos(WrapAngle(a)) == cos(a) && sin(WrapAngle(a)) == sin(a)
      ensures -pi < WrapAngle(a) <= pi
    {
      assert CircleAt(a) && PolarAt(cos(a), sin(a));
      HypotIs(cos(a), sin(a), 1.0);
    }
  }
}
