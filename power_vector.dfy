/** The vector arithmetic every calculator variant shares: a clinical
    astigmatism value (magnitude, axis in degrees) becomes a 2-D vector, two
    such vectors are subtracted component-wise, and the Euclidean length of
    the difference is the vectorial error. The variants differ only in the
    sign/scale applied to the magnitude and in how the axis becomes an
    angle; `Convention` names those choices. */
module PowerVector {
  import opened Numerics

  datatype Vec2 = Vec2(x: real, y: real)

  /** How a clinical axis becomes the angle of the vector:
      `Doubled` (power vectors, 2a), `Direct` (a) or `Mirrored` (180 - a). */
  datatype AngleRule = Doubled | Direct | Mirrored

  /** `scale` multiplies the magnitude before it is projected on the angle. */
  datatype Convention = Convention(scale: real, rule: AngleRule)

  /** Power vectors without a sign change: (mag cos 2a, mag sin 2a). */
  const Unscaled: Convention := Convention(1.0, Doubled)

  function Angle(rule: AngleRule, axis: real): real {
    match rule
    case Doubled => 2.0 * axis
    case Direct => axis
    case Mirrored => 180.0 - axis
  }

  /** Polar (magnitude, axis) to Cartesian under convention `c`. */
  function ToVector(m: Math, c: Convention, mag: real, axis: real): (v: Vec2)
    ensures mag == 0.0 ==> v == Vec2(0.0, 0.0)
  {
    var t := Angle(c.rule, axis);
    Vec2(c.scale * mag * m.cosDeg(t), c.scale * mag * m.sinDeg(t))
  }

  function Add(a: Vec2, b: Vec2): Vec2 {
    Vec2(a.x + b.x, a.y + b.y)
  }

  /** Component-wise difference: the vector that carries `b` onto `a`. */
  function Sub(a: Vec2, b: Vec2): (d: Vec2)
    ensures Add(d, b) == a
  {
    Vec2(a.x - b.x, a.y - b.y)
  }

  /** Squared Euclidean length. */
  function NormSq(v: Vec2): (r: real)
    ensures 0.0 <= r
    ensures r == 0.0 <==> v == Vec2(0.0, 0.0)
  {
    SquareNonNegative(v.x);
    SquareNonNegative(v.y);
    v.x * v.x + v.y * v.y
  }

  /** Euclidean length, `sqrt(x**2 + y**2)` or `np.linalg.norm`. */
  function Norm(m: Math, v: Vec2): real {
    m.sqrt(NormSq(v))
  }

  /** Length of the difference between the vectors of two clinical values. */
  function ErrorMagnitude(m: Math, c: Convention, mag1: real, axis1: real, mag2: real, axis2: real): real {
    Norm(m, Sub(ToVector(m, c, mag1, axis1), ToVector(m, c, mag2, axis2)))
  }

  /** Back-conversion of a difference vector to (magnitude, axis): the axis
      is half the vector's angle, reduced into [0, 180). */
  datatype Polar = Polar(mag: real, axis: real)

  function ToPolar(m: Math, gain: real, v: Vec2): (p: Polar)
    ensures 0.0 <= p.axis < 180.0
  {
    Polar(gain * Norm(m, v), FloorMod(0.5 * m.atan2Deg(v.y, v.x), 180.0))
  }

  lemma ToPolarMagnitudeIsScaledNorm(m: Math, gain: real, v: Vec2)
    ensures ToPolar(m, gain, v).mag == gain * Norm(m, v)
  {
  }

  lemma ToPolarOfZeroLength(m: Math, gain: real, v: Vec2)
    requires Norm(m, v) == 0.0
    ensures ToPolar(m, gain, v).mag == 0.0
  {
    ToPolarMagnitudeIsScaledNorm(m, gain, v);
  }

  /** The back-converted magnitude is non-negative for a non-negative gain. */
  lemma ToPolarMagnitude(m: Math, gain: real, v: Vec2)
    requires SqrtLaw(m) && 0.0 <= gain
    ensures 0.0 <= ToPolar(m, gain, v).mag
  {
    var n := Norm(m, v);
    assert ToPolar(m, gain, v).mag == gain * n;
    SqrtNonNegative(m, NormSq(v));
    ProductNonNegative(gain, n);
  }

  // ---------------------------------------------------------------------
  // Properties of the vector image

  /** The vector of (mag, axis) has squared length (scale * mag)^2. */
  lemma {:induction false} NormSqToVector(m: Math, c: Convention, mag: real, axis: real)
    requires Pythagorean(m)
    ensures NormSq(ToVector(m, c, mag, axis)) == (c.scale * mag) * (c.scale * mag)
  {
    var t := Angle(c.rule, axis);
    var k, co, si := c.scale * mag, m.cosDeg(t), m.sinDeg(t);
    assert co * co + si * si == 1.0;
    calc {
      NormSq(ToVector(m, c, mag, axis));
      (k * co) * (k * co) + (k * si) * (k * si);
      (k * k) * (co * co + si * si);
      k * k;
    }
  }

  /** Norm preservation: the vector of (mag, axis) has length |scale * mag|. */
  lemma NormOfToVector(m: Math, c: Convention, mag: real, axis: real)
    requires Pythagorean(m) && SqrtLaw(m)
    ensures Norm(m, ToVector(m, c, mag, axis)) == Abs(c.scale * mag)
  {
    var k := c.scale * mag;
    NormSqToVector(m, c, mag, axis);
    assert NormSq(ToVector(m, c, mag, axis)) == k * k;
    SqrtOfSquare(m, k);
    assert m.sqrt(k * k) == Abs(k);
  }

  /** Two values on the same axis differ by a vector along that axis. */
  lemma SameAxisDifference(m: Math, c: Convention, mag1: real, mag2: real, axis: real)
    ensures Sub(ToVector(m, c, mag1, axis), ToVector(m, c, mag2, axis)) == ToVector(m, c, mag1 - mag2, axis)
  {
    var t := Angle(c.rule, axis);
    var co, si := m.cosDeg(t), m.sinDeg(t);
    assert c.scale * mag1 * co - c.scale * mag2 * co == c.scale * (mag1 - mag2) * co;
    assert c.scale * mag1 * si - c.scale * mag2 * si == c.scale * (mag1 - mag2) * si;
  }

  // ---------------------------------------------------------------------
  // Properties of the vectorial error

  lemma ErrorNonNegative(m: Math, c: Convention, mag1: real, axis1: real, mag2: real, axis2: real)
    requires SqrtLaw(m)
    ensures 0.0 <= ErrorMagnitude(m, c, mag1, axis1, mag2, axis2)
  {
    SqrtNonNegative(m, NormSq(Sub(ToVector(m, c, mag1, axis1), ToVector(m, c, mag2, axis2))));
  }

  /** Zero-error identity: a value compared with itself has no error. */
  lemma ErrorOfSelf(m: Math, c: Convention, mag: real, axis: real)
    requires SqrtLaw(m)
    ensures ErrorMagnitude(m, c, mag, axis, mag, axis) == 0.0
  {
    var v := ToVector(m, c, mag, axis);
    assert Sub(v, v) == Vec2(0.0, 0.0);
    SqrtNonNegative(m, NormSq(Sub(v, v)));
  }

  /** Back-converting the difference of a value with itself gives size zero. */
  lemma ToPolarOfSelfDifference(m: Math, c: Convention, gain: real, mag: real, axis: real)
    requires SqrtLaw(m)
    ensures ToPolar(m, gain, Sub(ToVector(m, c, mag, axis), ToVector(m, c, mag, axis))).mag == 0.0
  {
    var d := Sub(ToVector(m, c, mag, axis), ToVector(m, c, mag, axis));
    ErrorOfSelf(m, c, mag, axis);
    ToPolarOfZeroLength(m, gain, d);
  }

  /** The error is symmetric in its two arguments. */
  lemma {:induction false} ErrorSymmetric(m: Math, c: Convention, mag1: real, axis1: real, mag2: real, axis2: real)
    ensures ErrorMagnitude(m, c, mag1, axis1, mag2, axis2) == ErrorMagnitude(m, c, mag2, axis2, mag1, axis1)
  {
    var a, b := ToVector(m, c, mag1, axis1), ToVector(m, c, mag2, axis2);
    var dx, dy := a.x - b.x, a.y - b.y;
    assert (-dx) * (-dx) == dx * dx && (-dy) * (-dy) == dy * dy;
    assert NormSq(Sub(a, b)) == NormSq(Sub(b, a));
  }

  /** On a common axis the error is |scale| * |mag1 - mag2|; in particular
      it is zero when the magnitudes agree. */
  lemma SameAxisError(m: Math, c: Convention, mag1: real, mag2: real, axis: real)
    requires Pythagorean(m) && SqrtLaw(m)
    ensures ErrorMagnitude(m, c, mag1, axis, mag2, axis) == Abs(c.scale * (mag1 - mag2))
  {
    SameAxisDifference(m, c, mag1, mag2, axis);
    NormOfToVector(m, c, mag1 - mag2, axis);
  }

  /** With no actual astigmatism the error is the length of the assumed vector. */
  lemma ErrorFromZero(m: Math, c: Convention, axis1: real, mag2: real, axis2: real)
    requires Pythagorean(m) && SqrtLaw(m)
    ensures ErrorMagnitude(m, c, 0.0, axis1, mag2, axis2) == Abs(c.scale * mag2)
  {
    var b := ToVector(m, c, mag2, axis2);
    var d := Sub(ToVector(m, c, 0.0, axis1), b);
    assert d == Vec2(-b.x, -b.y);
    assert NormSq(d) == NormSq(b) by {
      assert (-b.x) * (-b.x) == b.x * b.x && (-b.y) * (-b.y) == b.y * b.y;
    }
    NormOfToVector(m, c, mag2, axis2);
  }

  // ---------------------------------------------------------------------
  // Axis periodicity of the doubled-angle representation

  /** With angle doubling, axes 180 degrees apart give the same vector. */
  lemma {:induction false} DoubledAxisPeriod(m: Math, c: Convention, mag: real, axis: real)
    requires HalfTurn(m) && c.rule == Doubled
    ensures ToVector(m, c, mag, axis + 180.0) == ToVector(m, c, mag, axis)
  {
    var t := 2.0 * axis;
    assert Angle(c.rule, axis + 180.0) == (t + 180.0) + 180.0;
    assert m.cosDeg(t + 180.0) == -m.cosDeg(t) && m.sinDeg(t + 180.0) == -m.sinDeg(t);
    assert m.cosDeg((t + 180.0) + 180.0) == -m.cosDeg(t + 180.0);
    assert m.sinDeg((t + 180.0) + 180.0) == -m.sinDeg(t + 180.0);
  }

  /** Axis periodicity: a value and the same value 180 degrees on have no error. */
  lemma DoubledAxisPeriodError(m: Math, c: Convention, mag: real, axis: real)
    requires HalfTurn(m) && SqrtLaw(m) && c.rule == Doubled
    ensures ErrorMagnitude(m, c, mag, axis, mag, axis + 180.0) == 0.0
  {
    DoubledAxisPeriod(m, c, mag, axis);
    ErrorOfSelf(m, c, mag, axis);
  }

  // ---------------------------------------------------------------------
  // Round trip through the back-conversion

  /** A doubled-angle vector of signed length `s` on axis `a` points along
      2a when `s` is positive and along 2a + 180 when it is negative. */
  lemma {:induction false} Atan2OfDoubled(m: Math, c: Convention, mag: real, axis: real)
    requires Pythagorean(m) && HalfTurn(m) && Atan2Law(m) && c.rule == Doubled
    requires c.scale * mag != 0.0
    ensures var v := ToVector(m, c, mag, axis);
            FloorMod(m.atan2Deg(v.y, v.x), 360.0)
            == FloorMod(if 0.0 < c.scale * mag then 2.0 * axis else 2.0 * axis + 180.0, 360.0)
  {
    var v := ToVector(m, c, mag, axis);
    var s := c.scale * mag;
    var t := 2.0 * axis;
    assert v == Vec2(s * m.cosDeg(t), s * m.sinDeg(t));
    if 0.0 < s {
      PositiveRay(m, t, s);
    } else {
      NegativeRay(m, t, s);
    }
  }

  /** A positive multiple of the direction of `t` has angle `t`. */
  lemma PositiveRay(m: Math, t: real, s: real)
    requires Pythagorean(m) && Atan2Law(m) && 0.0 < s
    ensures FloorMod(m.atan2Deg(s * m.sinDeg(t), s * m.cosDeg(t)), 360.0) == FloorMod(t, 360.0)
  {
    assert m.cosDeg(t) * m.cosDeg(t) + m.sinDeg(t) * m.sinDeg(t) == 1.0;
    RayAngle(m, t, s, s * m.cosDeg(t), s * m.sinDeg(t));
  }

  /** A negative multiple of the direction of `t` has angle `t + 180`. */
  lemma NegativeRay(m: Math, t: real, s: real)
    requires Pythagorean(m) && HalfTurn(m) && Atan2Law(m) && s < 0.0
    ensures FloorMod(m.atan2Deg(s * m.sinDeg(t), s * m.cosDeg(t)), 360.0) == FloorMod(t + 180.0, 360.0)
  {
    var u := t + 180.0;
    assert m.cosDeg(u) == -m.cosDeg(t) && m.sinDeg(u) == -m.sinDeg(t);
    assert m.cosDeg(t) * m.cosDeg(t) + m.sinDeg(t) * m.sinDeg(t) == 1.0;
    NegatedUnit(m.cosDeg(u), m.sinDeg(u), m.cosDeg(t), m.sinDeg(t));
    var r := -s;
    NegatedProduct(r, m.sinDeg(u), s, m.sinDeg(t));
    NegatedProduct(r, m.cosDeg(u), s, m.cosDeg(t));
    RayAngle(m, u, r, s * m.cosDeg(t), s * m.sinDeg(t));
  }

  /** `atan2` of a point a positive distance along the unit direction of
      angle `t` gives `t`, up to whole turns. */
  lemma RayAngle(m: Math, t: real, s: real, x: real, y: real)
    requires Atan2Law(m) && 0.0 < s
    requires m.cosDeg(t) * m.cosDeg(t) + m.sinDeg(t) * m.sinDeg(t) == 1.0
    requires x == s * m.cosDeg(t) && y == s * m.sinDeg(t)
    ensures FloorMod(m.atan2Deg(y, x), 360.0) == FloorMod(t, 360.0)
  {
    OnRay(s, m.cosDeg(t), m.sinDeg(t));
    Atan2At(m, t, x, y);
  }

  lemma NegatedUnit(cu: real, su: real, co: real, si: real)
    requires cu == -co && su == -si && co * co + si * si == 1.0
    ensures cu * cu + su * su == 1.0
  {
  }

  lemma NegatedProduct(r: real, a: real, s: real, b: real)
    requires r == -s && a == -b
    ensures r * a == s * b
  {
  }

  /** The point `s * (co, si)` on a unit direction lies on the ray of that
      direction when `s` is positive. */
  lemma OnRay(s: real, co: real, si: real)
    requires co * co + si * si == 1.0 && 0.0 < s
    ensures (s * co) * si == (s * si) * co
    ensures 0.0 < (s * co) * co + (s * si) * si
  {
    assert (s * co) * co + (s * si) * si == s * (co * co + si * si);
  }

  /** Round trip: back-converting the vector of (mag, axis) yields
      `gain * |scale * mag|` and the axis reduced into [0, 180) — shifted by
      90 degrees when the signed length `scale * mag` is negative (the
      minus-cylinder / plus-cylinder transposition). */
  lemma {:induction false} RoundTrip(m: Math, c: Convention, gain: real, mag: real, axis: real)
    requires Pythagorean(m) && HalfTurn(m) && SqrtLaw(m) && Atan2Law(m) && c.rule == Doubled
    requires c.scale * mag != 0.0
    ensures ToPolar(m, gain, ToVector(m, c, mag, axis))
            == Polar(gain * Abs(c.scale * mag),
                     if 0.0 < c.scale * mag then FloorMod(axis, 180.0) else FloorMod(axis + 90.0, 180.0))
  {
    var v := ToVector(m, c, mag, axis);
    NormOfToVector(m, c, mag, axis);
    Atan2OfDoubled(m, c, mag, axis);
    var t := if 0.0 < c.scale * mag then 2.0 * axis else 2.0 * axis + 180.0;
    HalvesAgree(m.atan2Deg(v.y, v.x), t);
    assert 0.5 * t == if 0.0 < c.scale * mag then axis else axis + 90.0;
  }
}
