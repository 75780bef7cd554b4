/** appv8.py: refraction cylinders as Thibos power vectors with half the
    negated cylinder, J0 = -cyl/2 cos 2a and J45 = -cyl/2 sin 2a, the
    post-operative minus expected difference, and its back-conversion to a
    (cylinder, axis) pair. */
module AppV8 {
  import opened Numerics
  import opened PowerVector

  const HalfNegated: Convention := Convention(-0.5, Doubled)

  /** `cyl_to_j0_j45`: a zero cylinder is the zero vector. */
  function CylToJ0J45(m: Math, cyl: real, axis: real): (j: Vec2)
    ensures cyl == 0.0 ==> j == Vec2(0.0, 0.0)
  {
    ToVector(m, HalfNegated, cyl, axis)
  }

  /** `j0_j45_to_cyl_axis`: magnitude 2 * sqrt(J0^2 + J45^2) and axis half
      the vector's angle, reduced into [0, 180). */
  function J0J45ToCylAxis(m: Math, j: Vec2): (p: Polar)
    ensures 0.0 <= p.axis < 180.0
  {
    ToPolar(m, 2.0, j)
  }

  /** The back-converted cylinder is non-negative. */
  lemma CylMagnitudeNonNegative(m: Math, j: Vec2)
    requires SqrtLaw(m)
    ensures 0.0 <= J0J45ToCylAxis(m, j).mag
  {
    ToPolarMagnitude(m, 2.0, j);
  }

  /** Converting a cylinder to J0/J45 and back recovers its size. */
  lemma RoundTripMagnitude(m: Math, cyl: real, axis: real)
    requires Pythagorean(m) && SqrtLaw(m)
    ensures J0J45ToCylAxis(m, CylToJ0J45(m, cyl, axis)).mag == Abs(cyl)
  {
    NormOfToVector(m, HalfNegated, cyl, axis);
    assert 2.0 * Abs(-0.5 * cyl) == Abs(cyl);
  }

  /** The full round trip: a minus cylinder keeps its axis (reduced into
      [0, 180)); a plus cylinder comes back transposed, as the same size on
      the axis 90 degrees away. */
  lemma RoundTrip(m: Math, cyl: real, axis: real)
    requires Pythagorean(m) && HalfTurn(m) && SqrtLaw(m) && Atan2Law(m)
    requires cyl != 0.0
    ensures J0J45ToCylAxis(m, CylToJ0J45(m, cyl, axis))
            == Polar(Abs(cyl), if cyl < 0.0 then FloorMod(axis, 180.0) else FloorMod(axis + 90.0, 180.0))
  {
    PowerVector.RoundTrip(m, HalfNegated, 2.0, cyl, axis);
    assert 2.0 * Abs(-0.5 * cyl) == Abs(cyl);
    assert 0.0 < -0.5 * cyl <==> cyl < 0.0;
  }

  /** `delta_J0, delta_J45`: post-operative minus expected, component-wise. */
  function Delta(m: Math, postCyl: real, postAxis: real, expectedCyl: real, expectedAxis: real): (d: Vec2)
    ensures Add(d, CylToJ0J45(m, expectedCyl, expectedAxis)) == CylToJ0J45(m, postCyl, postAxis)
  {
    Sub(CylToJ0J45(m, postCyl, postAxis), CylToJ0J45(m, expectedCyl, expectedAxis))
  }

  /** `error_mag, error_axis`: the difference converted back to a cylinder. */
  function VectorError(m: Math, postCyl: real, postAxis: real, expectedCyl: real, expectedAxis: real): (e: Polar)
    ensures 0.0 <= e.axis < 180.0
  {
    J0J45ToCylAxis(m, Delta(m, postCyl, postAxis, expectedCyl, expectedAxis))
  }

  /** The vector error's size is twice the power-vector distance. */
  lemma VectorErrorIsDistance(m: Math, postCyl: real, postAxis: real, expectedCyl: real, expectedAxis: real)
    ensures VectorError(m, postCyl, postAxis, expectedCyl, expectedAxis).mag
            == 2.0 * ErrorMagnitude(m, HalfNegated, postCyl, postAxis, expectedCyl, expectedAxis)
  {
  }

  lemma VectorErrorNonNegative(m: Math, postCyl: real, postAxis: real, expectedCyl: real, expectedAxis: real)
    requires SqrtLaw(m)
    ensures 0.0 <= VectorError(m, postCyl, postAxis, expectedCyl, expectedAxis).mag
  {
    CylMagnitudeNonNegative(m, Delta(m, postCyl, postAxis, expectedCyl, expectedAxis));
  }

  /** A result that matches the plan exactly has no vector error. */
  lemma NoErrorWhenOnPlan(m: Math, cyl: real, axis: real)
    requires SqrtLaw(m)
    ensures VectorError(m, cyl, axis, cyl, axis).mag == 0.0
  {
    ToPolarOfSelfDifference(m, HalfNegated, 2.0, cyl, axis);
  }

  /** Swapping post-operative and expected values leaves the size unchanged. */
  lemma VectorErrorSymmetric(m: Math, postCyl: real, postAxis: real, expectedCyl: real, expectedAxis: real)
    ensures VectorError(m, postCyl, postAxis, expectedCyl, expectedAxis).mag
            == VectorError(m, expectedCyl, expectedAxis, postCyl, postAxis).mag
  {
    VectorErrorIsDistance(m, postCyl, postAxis, expectedCyl, expectedAxis);
    VectorErrorIsDistance(m, expectedCyl, expectedAxis, postCyl, postAxis);
    ErrorSymmetric(m, HalfNegated, postCyl, postAxis, expectedCyl, expectedAxis);
  }
}
