/** app.py: the negated power-vector error of every candidate assumed SIA
    magnitude at the incision axis, rounded to four places, and the least
    and most erroneous candidates picked with `np.argmin` / `np.argmax`. */
module App {
  import opened Numerics
  import opened PowerVector
  import opened Selection

  /** J0 = -mag cos 2a, J45 = -mag sin 2a. */
  const Negated: Convention := Convention(-1.0, Doubled)

  /** Errors are rounded to four decimal places. */
  const ErrorPlaces: nat := 4

  /** The error `compute_error` records for one assumed magnitude. */
  function CandidateError(m: Math, actualAxis: real, actualMag: real, assumedMag: real, incisionAxis: real): real {
    Round(ErrorMagnitude(m, Negated, actualMag, actualAxis, assumedMag, incisionAxis), ErrorPlaces)
  }

  /** `compute_error`: one rounded error per assumed magnitude, in list
      order, every one measured against the incision axis. */
  method ComputeError(m: Math, actualAxis: real, actualMag: real, assumedMagList: seq<real>, incisionAxis: real)
    returns (errors: seq<real>)
    ensures |errors| == |assumedMagList|
    ensures forall i :: 0 <= i < |errors| ==>
              errors[i] == CandidateError(m, actualAxis, actualMag, assumedMagList[i], incisionAxis)
  {
    var actual := ToVector(m, Negated, actualMag, actualAxis);
    errors := [];
    for k := 0 to |assumedMagList|
      invariant |errors| == k
      invariant forall i :: 0 <= i < k ==>
                  errors[i] == CandidateError(m, actualAxis, actualMag, assumedMagList[i], incisionAxis)
    {
      var assumed := ToVector(m, Negated, assumedMagList[k], incisionAxis);
      var error := Round(Norm(m, Sub(actual, assumed)), ErrorPlaces);
      errors := errors + [error];
    }
  }

  /** `[round(i * 0.1, 1) for i in range(6)]`. */
  function DefaultCandidates(): seq<real> {
    seq(6, i requires 0 <= i < 6 => Round(i as real * 0.1, 1))
  }

  /** The default scan list is 0.0, 0.1, ..., 0.5, in increasing order. */
  lemma DefaultCandidatesValues()
    ensures DefaultCandidates() == [0.0, 0.1, 0.2, 0.3, 0.4, 0.5]
  {
    var d := DefaultCandidates();
    forall i | 0 <= i < 6
      ensures d[i] == i as real * 0.1
    {
      assert Pow10(1) == 10.0;
      RoundOnGrid(i as real * 0.1, 1, i);
    }
  }

  /** The "Calculate" button: scan the default list and report the
      candidates with the least and the most error. */
  method Calculate(m: Math, incisionAxis: real, actualAxis: real, actualMag: real)
    returns (candidates: seq<real>, errors: seq<real>, least: real, most: real)
    ensures candidates == [0.0, 0.1, 0.2, 0.3, 0.4, 0.5]
    ensures |errors| == |candidates|
    ensures forall i :: 0 <= i < |errors| ==>
              errors[i] == CandidateError(m, actualAxis, actualMag, candidates[i], incisionAxis)
    ensures least == candidates[ArgMin(errors)] && most == candidates[ArgMax(errors)]
  {
    candidates := DefaultCandidates();
    DefaultCandidatesValues();
    errors := ComputeError(m, actualAxis, actualMag, candidates, incisionAxis);
    var minIdx := ArgMin(errors);
    var maxIdx := ArgMax(errors);
    least := candidates[minIdx];
    most := candidates[maxIdx];
  }

  /** Every recorded error is non-negative. */
  lemma CandidateErrorNonNegative(m: Math, actualAxis: real, actualMag: real, assumedMag: real, incisionAxis: real)
    requires SqrtLaw(m)
    ensures 0.0 <= CandidateError(m, actualAxis, actualMag, assumedMag, incisionAxis)
  {
    ErrorNonNegative(m, Negated, actualMag, actualAxis, assumedMag, incisionAxis);
    RoundNonNegative(ErrorMagnitude(m, Negated, actualMag, actualAxis, assumedMag, incisionAxis), ErrorPlaces);
  }

  /** A candidate equal to the actual magnitude, on the actual axis, has no error. */
  lemma MatchingCandidateHasNoError(m: Math, axis: real, mag: real)
    requires SqrtLaw(m)
    ensures CandidateError(m, axis, mag, mag, axis) == 0.0
  {
    ErrorOfSelf(m, Negated, mag, axis);
    RoundOfZero(ErrorPlaces);
  }

  /** With no actual SIA a candidate's error is its own magnitude, rounded. */
  lemma NoActualSia(m: Math, actualAxis: real, assumedMag: real, incisionAxis: real)
    requires Pythagorean(m) && SqrtLaw(m)
    ensures CandidateError(m, actualAxis, 0.0, assumedMag, incisionAxis) == Round(Abs(assumedMag), ErrorPlaces)
  {
    ErrorFromZero(m, Negated, actualAxis, assumedMag, incisionAxis);
    assert Abs(-1.0 * assumedMag) == Abs(assumedMag);
  }

  /** Incision and actual axis 90 degrees, actual magnitude 0.20: the scan
      gives 0.2, 0.1, 0.0, 0.1, 0.2, 0.3; the least error is at 0.2 (index 2)
      and the most at 0.5 (index 5). */
  lemma CoincidentAxisScenario(m: Math)
    requires Pythagorean(m) && SqrtLaw(m)
    ensures var errors := seq(6, i requires 0 <= i < 6 =>
                              CandidateError(m, 90.0, 0.2, [0.0, 0.1, 0.2, 0.3, 0.4, 0.5][i], 90.0));
            && errors == [0.2, 0.1, 0.0, 0.1, 0.2, 0.3]
            && ArgMin(errors) == 2 && ArgMax(errors) == 5
  {
    var cands := [0.0, 0.1, 0.2, 0.3, 0.4, 0.5];
    var want := [0.2, 0.1, 0.0, 0.1, 0.2, 0.3];
    var tenths := [2, 1, 0, 1, 2, 3];
    var errors := seq(6, i requires 0 <= i < 6 => CandidateError(m, 90.0, 0.2, cands[i], 90.0));
    forall i | 0 <= i < 6
      ensures errors[i] == want[i]
    {
      SameAxisCandidate(m, 90.0, 0.2, cands[i], want[i], tenths[i]);
    }
    assert errors == want;
    ScenarioExtremes(want);
  }

  lemma ScenarioExtremes(s: seq<real>)
    requires s == [0.2, 0.1, 0.0, 0.1, 0.2, 0.3]
    ensures ArgMin(s) == 2 && ArgMax(s) == 5
  {
    ArgMinUnique(s, 2);
    ArgMaxUnique(s, 5);
  }

  /** One entry of the scenario above: on a common axis the error of a
      candidate a tenth-multiple away from the actual magnitude is exact. */
  lemma SameAxisCandidate(m: Math, axis: real, actualMag: real, assumedMag: real, want: real, n: int)
    requires Pythagorean(m) && SqrtLaw(m)
    requires Abs(actualMag - assumedMag) == want && want == n as real * 0.1
    ensures CandidateError(m, axis, actualMag, assumedMag, axis) == want
  {
    RoundedSameAxisError(m, actualMag, assumedMag, axis, ErrorPlaces);
    TenthsOnGrid(want, n);
  }

  lemma RoundedSameAxisError(m: Math, mag1: real, mag2: real, axis: real, places: nat)
    requires Pythagorean(m) && SqrtLaw(m)
    ensures Round(ErrorMagnitude(m, Negated, mag1, axis, mag2, axis), places)
            == Round(Abs(mag1 - mag2), places)
  {
    NegatedSameAxisError(m, mag1, mag2, axis);
  }

  lemma NegatedSameAxisError(m: Math, mag1: real, mag2: real, axis: real)
    requires Pythagorean(m) && SqrtLaw(m)
    ensures ErrorMagnitude(m, Negated, mag1, axis, mag2, axis) == Abs(mag1 - mag2)
  {
    SameAxisError(m, Negated, mag1, mag2, axis);
    AbsOfNegated(mag1 - mag2);
  }

  /** A multiple of a tenth survives rounding to four places. */
  lemma TenthsOnGrid(x: real, n: int)
    requires x == n as real * 0.1
    ensures Round(x, ErrorPlaces) == x
  {
    assert Pow10(ErrorPlaces) == 10000.0;
    RoundOnGrid(x, ErrorPlaces, n * 1000);
  }
}
