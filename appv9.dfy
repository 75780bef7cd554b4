/** appv9.py: power vectors (mag cos 2a, mag sin 2a) without a sign
    change, their component-wise difference and its length, the
    back-conversion used for the diagram, and the scan of the default
    assumed magnitudes into a dict with the least and most erroneous
    keys picked by `min`/`max` with `key=errors.get`. */
module AppV9 {
  import opened Numerics
  import opened PowerVector
  import opened Selection
  import opened OrderedDict

  /** `to_double_angle_vector`: a zero magnitude is the zero vector. */
  function ToDoubleAngleVector(m: Math, magnitude: real, axisDeg: real): (v: Vec2)
    ensures magnitude == 0.0 ==> v == Vec2(0.0, 0.0)
  {
    ToVector(m, Unscaled, magnitude, axisDeg)
  }

  /** `vector_difference_components`: `vec1 - vec2`, component-wise. */
  function VectorDifferenceComponents(m: Math, mag1: real, axis1: real, mag2: real, axis2: real): (d: Vec2)
    ensures Add(d, ToDoubleAngleVector(m, mag2, axis2)) == ToDoubleAngleVector(m, mag1, axis1)
  {
    Sub(ToDoubleAngleVector(m, mag1, axis1), ToDoubleAngleVector(m, mag2, axis2))
  }

  /** `vector_difference_magnitude`: `np.linalg.norm` of the difference. */
  function VectorDifferenceMagnitude(m: Math, mag1: real, axis1: real, mag2: real, axis2: real): real {
    Norm(m, VectorDifferenceComponents(m, mag1, axis1, mag2, axis2))
  }

  lemma DifferenceMagnitudeNonNegative(m: Math, mag1: real, axis1: real, mag2: real, axis2: real)
    requires SqrtLaw(m)
    ensures 0.0 <= VectorDifferenceMagnitude(m, mag1, axis1, mag2, axis2)
  {
    ErrorNonNegative(m, Unscaled, mag1, axis1, mag2, axis2);
  }

  lemma DifferenceMagnitudeSymmetric(m: Math, mag1: real, axis1: real, mag2: real, axis2: real)
    ensures VectorDifferenceMagnitude(m, mag1, axis1, mag2, axis2)
            == VectorDifferenceMagnitude(m, mag2, axis2, mag1, axis1)
  {
    ErrorSymmetric(m, Unscaled, mag1, axis1, mag2, axis2);
  }

  lemma DifferenceMagnitudeOfSelf(m: Math, mag: real, axis: real)
    requires SqrtLaw(m)
    ensures VectorDifferenceMagnitude(m, mag, axis, mag, axis) == 0.0
  {
    ErrorOfSelf(m, Unscaled, mag, axis);
  }

  /** Axes 180 degrees apart are the same meridian: no difference. */
  lemma OppositeAxesAgree(m: Math, mag: real, axis: real)
    requires HalfTurn(m) && SqrtLaw(m)
    ensures VectorDifferenceMagnitude(m, mag, axis, mag, axis + 180.0) == 0.0
  {
    DoubledAxisPeriodError(m, Unscaled, mag, axis);
  }

  /** `double_angle_to_polar`: the norm of the vector and half its angle,
      reduced into [0, 180). */
  function DoubleAngleToPolar(m: Math, vec: Vec2): (p: Polar)
    ensures 0.0 <= p.axis < 180.0
  {
    ToPolar(m, 1.0, vec)
  }

  lemma PolarMagnitudeIsNorm(m: Math, vec: Vec2)
    requires SqrtLaw(m)
    ensures DoubleAngleToPolar(m, vec).mag == Norm(m, vec)
    ensures 0.0 <= DoubleAngleToPolar(m, vec).mag
  {
    ToPolarMagnitudeIsScaledNorm(m, 1.0, vec);
    ToPolarMagnitude(m, 1.0, vec);
  }

  /** Back-conversion inverts `to_double_angle_vector` for a positive
      magnitude, up to the reduction of the axis into [0, 180). */
  lemma PolarRoundTrip(m: Math, magnitude: real, axisDeg: real)
    requires Pythagorean(m) && HalfTurn(m) && SqrtLaw(m) && Atan2Law(m)
    requires 0.0 < magnitude
    ensures DoubleAngleToPolar(m, ToDoubleAngleVector(m, magnitude, axisDeg))
            == Polar(magnitude, FloorMod(axisDeg, 180.0))
  {
    RoundTrip(m, Unscaled, 1.0, magnitude, axisDeg);
  }

  /** The error drawn in the diagram: actual minus expected, where the
      expected value lies on the incision axis, back-converted. */
  function DiagramError(m: Math, actualMag: real, actualAxis: real, expectedMag: real, incisionAxis: real): (p: Polar)
    ensures 0.0 <= p.axis < 180.0
  {
    var expectedAxis := incisionAxis;
    DoubleAngleToPolar(m, VectorDifferenceComponents(m, actualMag, actualAxis, expectedMag, expectedAxis))
  }

  /** When the diagram's expected magnitude is one of the scanned values,
      the plotted error size is that value's entry in the error table. */
  lemma DiagramMatchesTable(m: Math, actualMag: real, actualAxis: real, expectedMag: real, incisionAxis: real,
                            errors: Dict)
    requires SqrtLaw(m)
    requires forall k :: k in errors.vals ==>
               errors.vals[k] == VectorDifferenceMagnitude(m, actualMag, actualAxis, k, incisionAxis)
    requires expectedMag in errors.vals
    ensures DiagramError(m, actualMag, actualAxis, expectedMag, incisionAxis).mag == errors.vals[expectedMag]
  {
    PolarMagnitudeIsNorm(m, VectorDifferenceComponents(m, actualMag, actualAxis, expectedMag, incisionAxis));
  }

  /** When the actual flattening lies on the incision axis, the error lies
      on that axis if the actual effect is the larger and 90 degrees away
      if it is the smaller. */
  lemma DiagramErrorOnIncisionAxis(m: Math, actualMag: real, expectedMag: real, incisionAxis: real)
    requires Pythagorean(m) && HalfTurn(m) && SqrtLaw(m) && Atan2Law(m)
    requires actualMag != expectedMag
    ensures DiagramError(m, actualMag, incisionAxis, expectedMag, incisionAxis)
            == Polar(Abs(actualMag - expectedMag),
                     if expectedMag < actualMag then FloorMod(incisionAxis, 180.0)
                     else FloorMod(incisionAxis + 90.0, 180.0))
  {
    SameAxisDifference(m, Unscaled, actualMag, expectedMag, incisionAxis);
    RoundTrip(m, Unscaled, 1.0, actualMag - expectedMag, incisionAxis);
  }

  /** `sia_values`. */
  const SiaValues: seq<real> := [0.0, 0.1, 0.2, 0.3, 0.4, 0.5]

  /** The scan list has no repeats, so its dict keeps every entry in order. */
  lemma ScanListIsItsOwnKeys()
    ensures FirstOccurrences(SiaValues) == SiaValues
  {
    FirstOccurrencesOfDistinct(SiaValues);
  }

  /** The scan: `errors[val] = vector_difference_magnitude(actual_mag,
      actual_axis, val, incision_axis)` for each value, in order. */
  method ScanErrors(m: Math, actualMag: real, actualAxis: real, incisionAxis: real, values: seq<real>)
    returns (errors: Dict)
    ensures Valid(errors)
    ensures errors.keys == FirstOccurrences(values)
    ensures forall k :: k in errors.vals ==>
              errors.vals[k] == VectorDifferenceMagnitude(m, actualMag, actualAxis, k, incisionAxis)
  {
    errors := Fill(values, k => VectorDifferenceMagnitude(m, actualMag, actualAxis, k, incisionAxis));
  }

  /** `min(errors, key=errors.get)`: the first key, in insertion order,
      whose error is the smallest. */
  function LeastSia(errors: Dict): (k: real)
    requires Valid(errors) && |errors.keys| > 0
    ensures k in errors.vals
    ensures forall j :: j in errors.vals ==> errors.vals[k] <= errors.vals[j]
    ensures forall i :: 0 <= i < |errors.keys| && errors.vals[errors.keys[i]] == errors.vals[k] ==>
              k in errors.keys[..i + 1]
  {
    var s := Values(errors);
    var a := ArgMin(s);
    assert errors.keys[a] in errors.keys[..a + 1];
    forall j | j in errors.vals
      ensures s[a] <= errors.vals[j]
    {
      var i :| 0 <= i < |errors.keys| && errors.keys[i] == j;
      assert s[i] == errors.vals[j];
    }
    forall i | 0 <= i < |errors.keys| && s[i] == s[a]
      ensures errors.keys[a] in errors.keys[..i + 1]
    {
      assert errors.keys[..i + 1][a] == errors.keys[a];
    }
    errors.keys[a]
  }

  /** `max(errors, key=errors.get)`: the first key whose error is the largest. */
  function MostSia(errors: Dict): (k: real)
    requires Valid(errors) && |errors.keys| > 0
    ensures k in errors.vals
    ensures forall j :: j in errors.vals ==> errors.vals[j] <= errors.vals[k]
    ensures forall i :: 0 <= i < |errors.keys| && errors.vals[errors.keys[i]] == errors.vals[k] ==>
              k in errors.keys[..i + 1]
  {
    var s := Values(errors);
    var a := ArgMax(s);
    assert errors.keys[a] in errors.keys[..a + 1];
    forall j | j in errors.vals
      ensures errors.vals[j] <= s[a]
    {
      var i :| 0 <= i < |errors.keys| && errors.keys[i] == j;
      assert s[i] == errors.vals[j];
    }
    forall i | 0 <= i < |errors.keys| && s[i] == s[a]
      ensures errors.keys[a] in errors.keys[..i + 1]
    {
      assert errors.keys[..i + 1][a] == errors.keys[a];
    }
    errors.keys[a]
  }

  /** The script: scan `sia_values` and pick the least and most erroneous. */
  method Run(m: Math, incisionAxis: real, actualAxis: real, actualMag: real)
    returns (errors: Dict, leastSia: real, mostSia: real)
    ensures Valid(errors) && errors.keys == SiaValues
    ensures forall k :: k in errors.vals ==>
              errors.vals[k] == VectorDifferenceMagnitude(m, actualMag, actualAxis, k, incisionAxis)
    ensures leastSia == LeastSia(errors) && mostSia == MostSia(errors)
  {
    errors := ScanErrors(m, actualMag, actualAxis, incisionAxis, SiaValues);
    ScanListIsItsOwnKeys();
    leastSia := LeastSia(errors);
    mostSia := MostSia(errors);
  }
}
