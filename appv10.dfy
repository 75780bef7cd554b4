/** appv10.py: SIA vectors on the plain (un-doubled) angle, mirrored to
    180 - a unless the eye is labelled "RE", the scan of the default assumed
    magnitudes into a dict of errors rounded to three places, and the best
    and worst keys found as the first whose error equals `min` / `max` of
    the values.

    The script binds `eye` to the number read for the incision axis
    (`eye = incision_axis = st.number_input(...)`), so `eye == "RE"` never
    holds there and every vector is mirrored. */
module AppV10 {
  import opened Numerics
  import opened PowerVector
  import opened Selection
  import opened OrderedDict

  /** What `eye` can hold: a label such as "RE", or a number. */
  datatype EyeValue = Label(text: string) | Number(value: real)

  function EyeConvention(eye: EyeValue): Convention {
    Convention(1.0, if eye == Label("RE") then Direct else Mirrored)
  }

  /** `sia_vector`. */
  function SiaVector(m: Math, magnitude: real, axisDeg: real, eye: EyeValue): (v: Vec2)
    ensures magnitude == 0.0 ==> v == Vec2(0.0, 0.0)
  {
    ToVector(m, EyeConvention(eye), magnitude, axisDeg)
  }

  /** The vector lies at the axis itself for a right eye and at 180 - axis
      otherwise, with no angle doubling. */
  lemma SiaVectorAngle(m: Math, magnitude: real, axisDeg: real, eye: EyeValue)
    ensures var t := if eye == Label("RE") then axisDeg else 180.0 - axisDeg;
            SiaVector(m, magnitude, axisDeg, eye) == Vec2(magnitude * m.cosDeg(t), magnitude * m.sinDeg(t))
  {
  }

  /** As the script calls it, with `eye` holding the incision axis, the
      vector is always the mirrored one. */
  lemma ScriptAlwaysMirrors(m: Math, magnitude: real, axisDeg: real, incisionAxis: real)
    ensures SiaVector(m, magnitude, axisDeg, Number(incisionAxis))
            == Vec2(magnitude * m.cosDeg(180.0 - axisDeg), magnitude * m.sinDeg(180.0 - axisDeg))
  {
    SiaVectorAngle(m, magnitude, axisDeg, Number(incisionAxis));
  }

  /** The vector's length is the magnitude, whichever eye. */
  lemma SiaVectorLength(m: Math, magnitude: real, axisDeg: real, eye: EyeValue)
    requires Pythagorean(m) && SqrtLaw(m)
    ensures Norm(m, SiaVector(m, magnitude, axisDeg, eye)) == Abs(magnitude)
  {
    NormOfToVector(m, EyeConvention(eye), magnitude, axisDeg);
    assert 1.0 * magnitude == magnitude;
  }

  /** Without angle doubling, axes 180 degrees apart give opposite vectors. */
  lemma {:induction false} OppositeAxesOpposeVectors(m: Math, magnitude: real, axisDeg: real, eye: EyeValue)
    requires HalfTurn(m)
    ensures SiaVector(m, magnitude, axisDeg + 180.0, eye)
            == Vec2(-SiaVector(m, magnitude, axisDeg, eye).x, -SiaVector(m, magnitude, axisDeg, eye).y)
  {
    if eye == Label("RE") {
      assert m.cosDeg(axisDeg + 180.0) == -m.cosDeg(axisDeg);
      assert m.sinDeg(axisDeg + 180.0) == -m.sinDeg(axisDeg);
    } else {
      var u := -axisDeg;
      assert 180.0 - (axisDeg + 180.0) == u && 180.0 - axisDeg == u + 180.0;
      assert m.cosDeg(u + 180.0) == -m.cosDeg(u);
      assert m.sinDeg(u + 180.0) == -m.sinDeg(u);
    }
  }

  /** Unlike the power-vector variants, the same magnitude on axes 180
      degrees apart counts as an error of twice the magnitude. */
  lemma OppositeAxesError(m: Math, magnitude: real, axisDeg: real, eye: EyeValue)
    requires Pythagorean(m) && HalfTurn(m) && SqrtLaw(m)
    ensures ErrorMagnitude(m, EyeConvention(eye), magnitude, axisDeg, magnitude, axisDeg + 180.0)
            == 2.0 * Abs(magnitude)
  {
    var c := EyeConvention(eye);
    var v := ToVector(m, c, magnitude, axisDeg);
    OppositeAxesOpposeVectors(m, magnitude, axisDeg, eye);
    assert Sub(v, ToVector(m, c, magnitude, axisDeg + 180.0)) == ToVector(m, c, 2.0 * magnitude, axisDeg);
    NormOfToVector(m, c, 2.0 * magnitude, axisDeg);
    assert Abs(1.0 * (2.0 * magnitude)) == 2.0 * Abs(magnitude);
  }

  /** Errors are rounded to three decimal places. */
  const ErrorPlaces: nat := 3

  /** One scan entry: `round(error, 3)`, the assumed value on the incision axis. */
  function ScanEntry(m: Math, actualMag: real, actualAxis: real, assumed: real, incisionAxis: real, eye: EyeValue): real {
    Round(ErrorMagnitude(m, EyeConvention(eye), actualMag, actualAxis, assumed, incisionAxis), ErrorPlaces)
  }

  lemma ScanEntryNonNegative(m: Math, actualMag: real, actualAxis: real, assumed: real, incisionAxis: real, eye: EyeValue)
    requires SqrtLaw(m)
    ensures 0.0 <= ScanEntry(m, actualMag, actualAxis, assumed, incisionAxis, eye)
  {
    ErrorNonNegative(m, EyeConvention(eye), actualMag, actualAxis, assumed, incisionAxis);
    RoundNonNegative(ErrorMagnitude(m, EyeConvention(eye), actualMag, actualAxis, assumed, incisionAxis), ErrorPlaces);
  }

  /** The entry for the actual magnitude is zero when the actual axis is the
      incision axis. */
  lemma MatchingEntryIsZero(m: Math, actualMag: real, incisionAxis: real, eye: EyeValue)
    requires SqrtLaw(m)
    ensures ScanEntry(m, actualMag, incisionAxis, actualMag, incisionAxis, eye) == 0.0
  {
    ErrorOfSelf(m, EyeConvention(eye), actualMag, incisionAxis);
    RoundOfZero(ErrorPlaces);
  }

  /** The scan loop: `errors[sia_input] = round(error, 3)` for each input. */
  method ScanErrors(m: Math, actualMag: real, actualAxis: real, incisionAxis: real, eye: EyeValue, inputs: seq<real>)
    returns (errors: Dict)
    ensures Valid(errors)
    ensures errors.keys == FirstOccurrences(inputs)
    ensures forall k :: k in errors.vals ==>
              errors.vals[k] == ScanEntry(m, actualMag, actualAxis, k, incisionAxis, eye)
  {
    errors := Fill(inputs, k => ScanEntry(m, actualMag, actualAxis, k, incisionAxis, eye));
  }

  /** `[k for k, v in errors.items() if v == min(errors.values())][0]`: the
      first key in insertion order holding the smallest value, which is the
      key at `np.argmin` of the values. */
  function BestSia(errors: Dict): (k: real)
    requires Valid(errors) && |errors.keys| > 0
    ensures k in errors.vals
    ensures forall j :: j in errors.vals ==> errors.vals[k] <= errors.vals[j]
    ensures k == errors.keys[ArgMin(Values(errors))]
  {
    var s := Values(errors);
    var i := FirstIndexOf(s, MinValue(s));
    FirstOfMinIsArgMin(s);
    forall j | j in errors.vals
      ensures s[i] <= errors.vals[j]
    {
      var h :| 0 <= h < |errors.keys| && errors.keys[h] == j;
      assert s[h] == errors.vals[j];
    }
    errors.keys[i]
  }

  /** `[k for k, v in errors.items() if v == max(errors.values())][0]`: the
      key at `np.argmax` of the values. */
  function WorstSia(errors: Dict): (k: real)
    requires Valid(errors) && |errors.keys| > 0
    ensures k in errors.vals
    ensures forall j :: j in errors.vals ==> errors.vals[j] <= errors.vals[k]
    ensures k == errors.keys[ArgMax(Values(errors))]
  {
    var s := Values(errors);
    var i := FirstIndexOf(s, MaxValue(s));
    FirstOfMaxIsArgMax(s);
    forall j | j in errors.vals
      ensures errors.vals[j] <= s[i]
    {
      var h :| 0 <= h < |errors.keys| && errors.keys[h] == j;
      assert s[h] == errors.vals[j];
    }
    errors.keys[i]
  }

  const SiaInputs: seq<real> := [0.0, 0.1, 0.2, 0.3, 0.4, 0.5]

  /** The scan list has no repeats, so its dict keeps every entry in order. */
  lemma ScanListIsItsOwnKeys()
    ensures FirstOccurrences(SiaInputs) == SiaInputs
  {
    FirstOccurrencesOfDistinct(SiaInputs);
  }

  /** The script: `eye` holds the incision axis; scan and pick. */
  method Run(m: Math, incisionAxis: real, actualAxis: real, actualMag: real)
    returns (errors: Dict, bestSia: real, worstSia: real)
    ensures Valid(errors) && errors.keys == SiaInputs
    ensures forall k :: k in errors.vals ==>
              errors.vals[k] == ScanEntry(m, actualMag, actualAxis, k, incisionAxis, Number(incisionAxis))
    ensures bestSia == BestSia(errors) && worstSia == WorstSia(errors)
  {
    var eye := Number(incisionAxis);
    errors := ScanErrors(m, actualMag, actualAxis, incisionAxis, eye, SiaInputs);
    ScanListIsItsOwnKeys();
    bestSia := BestSia(errors);
    worstSia := WorstSia(errors);
  }
}
