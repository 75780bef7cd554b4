/** Numeric primitives shared by every variant of the SIA error calculator.

    The scripts call `cos`, `sin`, `sqrt` and `atan2` from numpy or `math`.
    Those functions are not definable here, so they are carried around as a
    record of arrow functions, `Math`, and every property that depends on
    them names the law it needs (`Pythagorean`, `HalfTurn`, `SqrtLaw`,
    `Atan2Law`). Angles are in degrees: `cosDeg(a)` stands for
    `cos(deg2rad(a))` and `atan2Deg(y, x)` for `rad2deg(atan2(y, x))`.

    Decimal rounding and the floating-point `%` are definable on reals and
    are modelled exactly. */
module Numerics {

  datatype Math = Math(
    cosDeg: real -> real,
    sinDeg: real -> real,
    sqrt: real -> real,
    atan2Deg: (real, real) -> real)

  /** cos^2 + sin^2 == 1 at every angle. */
  ghost predicate Pythagorean(m: Math) {
    forall u :: m.cosDeg(u) * m.cosDeg(u) + m.sinDeg(u) * m.sinDeg(u) == 1.0
  }

  /** Turning by 180 degrees negates cosine and sine. */
  ghost predicate HalfTurn(m: Math) {
    forall u, v :: v == u + 180.0 ==> m.cosDeg(v) == -m.cosDeg(u) && m.sinDeg(v) == -m.sinDeg(u)
  }

  /** `sqrt` returns the non-negative square root of a non-negative argument.
      The law is stated through `SquareRootAt` so that a proof uses it only at
      the arguments it names. */
  ghost predicate SqrtLaw(m: Math) {
    forall x :: 0.0 <= x ==> SquareRootAt(m, x)
  }

  ghost predicate SquareRootAt(m: Math, x: real) {
    0.0 <= m.sqrt(x) && m.sqrt(x) * m.sqrt(x) == x
  }

  /** `atan2Deg(y, x)` recovers, up to whole turns, the angle `t` of any point
      `(x, y)` that lies on the open ray from the origin in direction `t`
      (parallel to `(cos t, sin t)` with a positive dot product). The law is
      stated through `RayAngleAt` so that a proof uses it only at the points
      it names. */
  ghost predicate Atan2Law(m: Math) {
    forall t, x, y :: RayAngleAt(m, t, x, y)
  }

  ghost predicate RayAngleAt(m: Math, t: real, x: real, y: real) {
    x * m.sinDeg(t) == y * m.cosDeg(t) && 0.0 < x * m.cosDeg(t) + y * m.sinDeg(t) ==>
    FloorMod(m.atan2Deg(y, x), 360.0) == FloorMod(t, 360.0)
  }

  function Abs(x: real): (r: real)
    ensures 0.0 <= r && (r == x || r == -x)
  {
    if x < 0.0 then -x else x
  }

  lemma AbsOfNegated(x: real)
    ensures Abs(-1.0 * x) == Abs(x)
  {
  }

  /** Python's `x % d` on floats for a positive divisor `d`: the remainder
      takes the sign of the divisor. */
  function FloorMod(x: real, d: real): (r: real)
    requires 0.0 < d
    ensures 0.0 <= r < d
    ensures 0.0 <= x < d ==> r == x
  {
    FloorBounds(x, d);
    x - d * (x / d).Floor as real
  }

  /** Shifting by a whole number of periods does not change the remainder:
      with the range and the identity on [0, d), this fixes `%` uniquely. */
  lemma FloorModShift(x: real, d: real, k: int)
    requires 0.0 < d
    ensures FloorMod(x + d * k as real, d) == FloorMod(x, d)
  {
    var q := x / d;
    assert (x + d * k as real) / d == q + k as real;
    assert (q + k as real).Floor == q.Floor + k;
  }

  lemma FloorBounds(x: real, d: real)
    requires 0.0 < d
    ensures d * (x / d).Floor as real <= x < d * (x / d).Floor as real + d
    ensures 0.0 <= x < d ==> (x / d).Floor == 0
  {
    var q := x / d;
    var f := q.Floor as real;
    assert f <= q < f + 1.0;
    assert d * q == x;
    ScaleMonotone(d, f, q);
    ScaleMonotone(d, q, f + 1.0);
    assert d * q < d * (f + 1.0) == d * f + d;
    assert x < d * f + d;
    QuotientInUnit(x, d);
  }

  lemma QuotientInUnit(x: real, d: real)
    requires 0.0 < d
    ensures 0.0 <= x < d ==> 0.0 <= x / d < 1.0
  {
    var q := x / d;
    assert d * q == x;
    assert d * 1.0 == d && d * 0.0 == 0.0;
    ScaleMonotone(d, 1.0, q);
    ScaleMonotone(d, q, 0.0);
    assert 1.0 <= q ==> d <= x;
    assert q < 0.0 ==> x < 0.0;
  }

  lemma ScaleMonotone(d: real, a: real, b: real)
    requires 0.0 < d
    ensures a <= b ==> d * a <= d * b
    ensures a < b ==> d * a < d * b
    ensures d * (a + 1.0) == d * a + d
  {
  }

  /** Halving an angle taken modulo 360 gives the half-angle modulo 180. */
  lemma {:induction false} FloorModHalve(x: real)
    ensures FloorMod(0.5 * x, 180.0) == 0.5 * FloorMod(x, 360.0)
  {
    assert (0.5 * x) / 180.0 == x / 360.0;
  }

  /** Two angles that agree modulo 360 have halves that agree modulo 180. */
  lemma HalvesAgree(x: real, y: real)
    requires FloorMod(x, 360.0) == FloorMod(y, 360.0)
    ensures FloorMod(0.5 * x, 180.0) == FloorMod(0.5 * y, 180.0)
  {
    FloorModHalve(x);
    FloorModHalve(y);
  }

  /** Two non-negative reals with the same square are equal. */
  lemma SquareRootUnique(r: real, a: real)
    requires 0.0 <= r && 0.0 <= a && r * r == a * a
    ensures r == a
  {
    SquareStrictlyMonotone(a, r);
    SquareStrictlyMonotone(r, a);
  }

  lemma SquareStrictlyMonotone(a: real, b: real)
    ensures 0.0 <= a < b ==> a * a < b * b
  {
    if 0.0 <= a < b {
      var aa, ab, bb := a * a, a * b, b * b;
      assert aa <= ab;
      assert ab < bb;
    }
  }

  lemma SquareNonNegative(a: real)
    ensures 0.0 <= a * a
    ensures a * a == 0.0 <==> a == 0.0
  {
    var b := Abs(a);
    assert a * a == b * b;
    SquareStrictlyMonotone(0.0, b);
  }

  lemma ProductNonNegative(a: real, b: real)
    requires 0.0 <= a && 0.0 <= b
    ensures 0.0 <= a * b
  {
  }

  /** `sqrt` of a non-negative argument is non-negative, and `sqrt(0) == 0`. */
  lemma SqrtNonNegative(m: Math, x: real)
    requires SqrtLaw(m) && 0.0 <= x
    ensures 0.0 <= m.sqrt(x)
    ensures x == 0.0 ==> m.sqrt(x) == 0.0
  {
    assert SquareRootAt(m, x);
    if x == 0.0 {
      SquareRootUnique(m.sqrt(x), 0.0);
    }
  }

  /** Instance of `Atan2Law` at one point. */
  lemma Atan2At(m: Math, t: real, x: real, y: real)
    requires Atan2Law(m)
    requires x * m.sinDeg(t) == y * m.cosDeg(t) && 0.0 < x * m.cosDeg(t) + y * m.sinDeg(t)
    ensures FloorMod(m.atan2Deg(y, x), 360.0) == FloorMod(t, 360.0)
  {
    assert RayAngleAt(m, t, x, y);
  }

  /** The unique non-negative square root of `x * x` is `|x|`. */
  lemma SqrtOfSquare(m: Math, x: real)
    requires SqrtLaw(m)
    ensures m.sqrt(x * x) == Abs(x)
  {
    var a := Abs(x);
    assert a * a == x * x;
    assert 0.0 <= x * x;
    assert SquareRootAt(m, x * x);
    SquareRootUnique(m.sqrt(x * x), a);
  }

  function Pow10(n: nat): (p: real)
    ensures 1.0 <= p
  {
    if n == 0 then 1.0 else 10.0 * Pow10(n - 1)
  }

  /** Round a real to the nearest integer, ties to the even neighbour. */
  function RoundHalfEven(y: real): (n: int)
    ensures -0.5 <= n as real - y <= 0.5
  {
    var f := y.Floor;
    var frac := y - f as real;
    if frac < 0.5 then f
    else if frac > 0.5 then f + 1
    else if f % 2 == 0 then f
    else f + 1
  }

  /** Python's `round(x, places)` on the exact value `x`: the nearest multiple
      of 10^-places, ties to even. */
  function Round(x: real, places: nat): real {
    RoundScaled(x, Pow10(places))
  }

  /** The nearest multiple of 1/scale, ties to even. */
  function RoundScaled(x: real, scale: real): real
    requires 1.0 <= scale
  {
    RoundHalfEven(x * scale) as real / scale
  }

  /** Rounding keeps a non-negative value non-negative. */
  lemma RoundNonNegative(x: real, places: nat)
    ensures 0.0 <= x ==> 0.0 <= Round(x, places)
  {
    var p := Pow10(places);
    assert Round(x, places) == RoundScaled(x, p);
    RoundScaledNonNegative(x, p);
  }

  /** Rounding moves a value by at most half a unit in the last place. */
  lemma RoundError(x: real, places: nat)
    ensures Abs(Round(x, places) - x) <= HalfUnit(places)
  {
    HalfUnitScale(places);
    RoundScaledError(x, Pow10(places), HalfUnit(places));
  }

  /** Half a unit in the last of `places` decimal places. */
  function HalfUnit(places: nat): (h: real)
    ensures 0.0 < h
  {
    if places == 0 then 0.5 else HalfUnit(places - 1) / 10.0
  }

  /** Half a unit in the last place, scaled by 10^places, is one half. */
  lemma {:induction false} HalfUnitScale(places: nat)
    ensures HalfUnit(places) * Pow10(places) == 0.5
  {
    if places > 0 {
      HalfUnitScale(places - 1);
      var h, p := HalfUnit(places - 1), Pow10(places - 1);
      assert (h / 10.0) * (10.0 * p) == h * p;
    }
  }

  lemma RoundScaledError(x: real, p: real, h: real)
    requires 1.0 <= p && h * p == 0.5
    ensures Abs(RoundScaled(x, p) - x) <= h
  {
    var n := RoundHalfEven(x * p);
    RoundBound(x, p, n);
    ScaledBelow(Abs(n as real / p - x), h, p);
  }

  lemma ScaledBelow(a: real, h: real, p: real)
    requires 0.0 < p && a * p <= 0.5 && h * p == 0.5
    ensures a <= h
  {
    ScaleMonotone(p, h, a);
  }

  /** A value already on the 10^-places grid is left unchanged by rounding. */
  lemma RoundOnGrid(x: real, places: nat, n: int)
    requires x * Pow10(places) == n as real
    ensures Round(x, places) == x
  {
    RoundScaledOnGrid(x, Pow10(places), n);
  }

  lemma RoundScaledOnGrid(x: real, p: real, n: int)
    requires 1.0 <= p && x * p == n as real
    ensures RoundScaled(x, p) == x
  {
    RoundHalfEvenOfInteger(x * p, n);
    CancelScale(x, p);
  }

  /** Rounding zero gives zero. */
  lemma RoundOfZero(places: nat)
    ensures Round(0.0, places) == 0.0
  {
    RoundOnGrid(0.0, places, 0);
  }

  /** `x` measured in units of 10^-places. */
  function Units(x: real, places: nat): real {
    x * Pow10(places)
  }

  /** `round(x, n)` is a whole number of 10^-n units, namely the integer
      nearest to `x` in those units: with `RoundError`, it is a grid point
      within half a unit of `x`. */
  lemma RoundIsOnGrid(x: real, places: nat)
    ensures Units(Round(x, places), places) == RoundHalfEven(Units(x, places)) as real
  {
    ScaledGridPoint(Units(Round(x, places), places), Round(x, places), x, Pow10(places), Units(x, places));
  }

  /** `q = r * p` for `r` the value rounded at scale `p`, and `y = x * p`. */
  lemma ScaledGridPoint(q: real, r: real, x: real, p: real, y: real)
    requires 1.0 <= p && r == RoundScaled(x, p) && q == r * p && y == x * p
    ensures q == RoundHalfEven(y) as real
  {
    var n := RoundHalfEven(y);
    assert r == n as real / p;
    assert (n as real / p) * p == n as real;
  }

  lemma RoundHalfEvenOfInteger(y: real, n: int)
    requires y == n as real
    ensures RoundHalfEven(y) == n
  {
  }

  lemma CancelScale(x: real, p: real)
    requires 0.0 < p
    ensures (x * p) / p == x
  {
  }

  lemma RoundScaledNonNegative(x: real, p: real)
    requires 1.0 <= p
    ensures 0.0 <= x ==> 0.0 <= RoundScaled(x, p)
  {
    RoundBound(x, p, RoundHalfEven(x * p));
  }

  lemma RoundBound(x: real, p: real, n: int)
    requires 1.0 <= p
    requires -0.5 <= n as real - x * p <= 0.5
    ensures 0.0 <= x ==> 0.0 <= n as real / p
    ensures Abs(n as real / p - x) * p <= 0.5
  {
    var q := n as real / p;
    assert q * p == n as real;
    assert (q - x) * p == n as real - x * p;
    if 0.0 <= x {
      assert 0.0 <= x * p;
      assert -0.5 <= n as real;
      assert 0 <= n;
    }
  }
}
