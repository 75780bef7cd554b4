# SIA vector-error calculator, modelled in Dafny

The repository is a family of small Streamlit calculators for surgically
induced astigmatism (SIA). Each script turns a clinical astigmatism value
(a magnitude in dioptres and an axis in degrees) into a 2-D vector. It
subtracts the "assumed" or "expected" vector from the "actual" one and
reports the Euclidean length of the difference as the vectorial error.
Some scripts also convert the difference back to a (magnitude, axis) pair.
Others scan the assumed magnitudes 0.0, 0.1, ..., 0.5 at the incision axis
and report the candidates with the least and the most error. One script
applies the single-case formula to every row of a spreadsheet.

The five scripts differ in small ways:

| script | vector of (mag, a) | rounding | scan container | best/worst |
|---|---|---|---|---|
| app.py | (-mag cos 2a, -mag sin 2a) | 4 places | list | `np.argmin` / `np.argmax` |
| appv8.py | (-mag/2 cos 2a, -mag/2 sin 2a) | none | no scan | no pick |
| appv9.py | (mag cos 2a, mag sin 2a) | none | dict | `min` / `max` with `key=errors.get` |
| appv10.py | (mag cos t, mag sin t), t = a or 180 - a | 3 places | dict | first key equal to `min` / `max` of the values |
| appv11.py | (mag cos 2a, mag sin 2a) | 3 places | row-wise batch | no pick |

The model shares one vector engine (`PowerVector`). A `Convention` records
the scale applied to the magnitude and how the axis becomes an angle.
Each script is its own module (`App`, `AppV8`, `AppV9`, `AppV10`, `AppV11`)
and fixes its own convention.

Modelling choices:

- **Trigonometry.** `cos`, `sin`, `sqrt` and `atan2` cannot be defined on
  reals. They are the fields of a `Math` record of functions in degrees.
  Every property that needs them names the law it relies on: `Pythagorean`
  (cos² + sin² = 1), `HalfTurn` (turning by 180° negates both), `SqrtLaw`
  (the non-negative square root) and `Atan2Law` (`atan2` recovers the
  direction of a point on a ray, up to whole turns).
- **Python's `round(x, n)`** is modelled exactly on reals, as round half to
  even of x·10ⁿ (`Numerics.Round`).
- **Python's float `%`** with a positive divisor is `Numerics.FloorMod`.
- **The dicts** in appv9 and appv10 are `OrderedDict.Dict`: the keys in
  first-insertion order plus a map. Assigning to a key that is already
  present replaces its value and keeps its position.
- **The scan loops** are methods with loop invariants (`App.ComputeError`,
  `OrderedDict.Fill`). The picks are functions over `seq<real>` in
  `Selection`.

What the scripts do at the points where they differ from one another:

- **Batch errors.** appv11.py wraps the whole `df.apply` in one `try`, so
  one row that raises discards the whole sheet (`AppV11.ApplyBatch`
  returns `Failed`). No row is reported on its own.
- **Round trip.** appv9.py's back-conversion recovers (m, a mod 180) for a
  positive magnitude m (`AppV9.PolarRoundTrip`). appv8.py negates and
  halves the cylinder, so a plus cylinder comes back on the axis 90° away
  and a minus cylinder on its own axis (`AppV8.RoundTrip`). For m = 0 the
  axis is whatever `atan2(0, 0)` gives.
- **Duplicate candidates.** The dict-based scans of appv9.py and appv10.py
  keep one entry per distinct value, at its first position
  (`OrderedDict.FirstOccurrences`).
- **Rounding places.** The scripts use four places, three places or no
  rounding, as in the table above.

## Model

| member | source | states |
|---|---|---|
| Numerics.FloorMod | appv9.py:26 | `x % d` for a positive divisor lies in [0, d) and leaves values already in [0, d) unchanged; with `FloorModShift` this fixes its value |
| Numerics.FloorModShift | appv8.py:15 | adding whole periods to `x` leaves `x % d` unchanged, so the result differs from `x` by a whole number of periods |
| Numerics.FloorModHalve | appv9.py:25-26 | half an angle reduced mod 180 is half the angle reduced mod 360 |
| Numerics.HalvesAgree | appv9.py:25-26 | angles equal mod 360 have halves equal mod 180 |
| Numerics.SqrtNonNegative | appv9.py:21 | under the square-root law, `sqrt` of a non-negative value is non-negative and `sqrt(0) == 0` |
| Numerics.SqrtOfSquare | app.py:25 | under the square-root law, `sqrt(x*x)` equals the absolute value of `x` |
| Numerics.RoundHalfEven | app.py:25 | the integer chosen is within one half of its argument |
| Numerics.Round | app.py:25 | `round(x, n)` is the grid point nearest `x`: on the 10⁻ⁿ grid (`RoundIsOnGrid`), within half a unit of `x` (`RoundError`), fixed on grid points (`RoundOnGrid`), and non-negative for non-negative `x` (`RoundNonNegative`) |
| Numerics.RoundNonNegative | app.py:25 | `round` keeps a non-negative value non-negative |
| Numerics.RoundError | appv11.py:26 | `round(x, n)` is within half a unit in the n-th place of `x` |
| Numerics.RoundIsOnGrid | appv10.py:33 | `round(x, n)`·10ⁿ is the integer nearest to x·10ⁿ, so the result is a whole number of 10⁻ⁿ units |
| Numerics.HalfUnitScale | appv11.py:26 | half a unit in the n-th place, times 10ⁿ, is one half |
| Numerics.RoundOnGrid | app.py:30 | a value that is a whole number of 10⁻ⁿ units is unchanged by `round(x, n)` |
| Numerics.RoundOfZero | app.py:25 | rounding zero gives zero |
| PowerVector.ToVector | app.py:17-19 | the vector of a zero magnitude is the zero vector |
| PowerVector.Sub | appv9.py:16 | the difference is component-wise: adding the subtrahend back gives the minuend |
| PowerVector.NormSq | appv9.py:21 | the squared length is non-negative and zero exactly for the zero vector |
| PowerVector.Norm | appv9.py:21 | the length is non-negative, zero for the zero vector, and \|scale·mag\| for the vector of (mag, a) (`SqrtNonNegative`, `NormOfToVector`) |
| PowerVector.ToPolar | appv9.py:23-27 | the back-converted axis lies in [0, 180) |
| PowerVector.ToPolarMagnitude | appv8.py:13 | the back-converted magnitude is non-negative for a non-negative gain |
| PowerVector.NormSqToVector | appv9.py:8-11 | the vector of (mag, a) has squared length (scale·mag)² |
| PowerVector.ErrorMagnitude | appv9.py:13-21 | the vectorial error is non-negative, symmetric, zero on self, and \|scale\|·\|mag1 - mag2\| on a common axis (`ErrorNonNegative`, `ErrorSymmetric`, `ErrorOfSelf`, `SameAxisError`) |
| PowerVector.NormOfToVector | appv9.py:8-11 | the vector of (mag, a) has length \|scale·mag\| |
| PowerVector.SameAxisDifference | appv9.py:13-17 | two values on one axis differ by the vector of the magnitude difference on that axis |
| PowerVector.ErrorNonNegative | appv9.py:19-21 | the vectorial error is non-negative |
| PowerVector.ErrorOfSelf | appv9.py:13-21 | a value compared with itself has error zero |
| PowerVector.ToPolarOfSelfDifference | appv8.py:28-34 | back-converting the difference of a value with itself gives magnitude zero |
| PowerVector.ErrorSymmetric | appv9.py:19-21 | swapping the two values leaves the error unchanged |
| PowerVector.SameAxisError | app.py:17-25 | on a common axis the error is \|scale\|·\|mag1 - mag2\| |
| PowerVector.ErrorFromZero | app.py:17-25 | with no actual astigmatism the error is the length of the other vector |
| PowerVector.DoubledAxisPeriod | appv9.py:8-11 | with angle doubling, axes 180° apart give the same vector |
| PowerVector.DoubledAxisPeriodError | appv9.py:19-21 | with angle doubling, a value and the same value 180° on have error zero |
| PowerVector.Atan2OfDoubled | appv9.py:25 | `atan2` of a doubled-angle vector gives 2a mod 360 for a positive signed length and 2a + 180 for a negative one |
| PowerVector.RoundTrip | appv9.py:23-27 | back-conversion of the vector of (mag, a) gives gain·\|scale·mag\| and a mod 180, or (a + 90) mod 180 when scale·mag is negative |
| Selection.ArgMin | app.py:39 | the index is in range, holds the minimum, and every earlier entry is strictly larger |
| Selection.ArgMax | app.py:40 | the index is in range, holds the maximum, and every earlier entry is strictly smaller |
| Selection.ArgMinUnique | app.py:39 | any index with the `ArgMin` properties is `ArgMin` |
| Selection.ArgMaxUnique | app.py:40 | any index with the `ArgMax` properties is `ArgMax` |
| Selection.MinValue | appv10.py:36 | `min(values)` is one of the values and no larger than any of them |
| Selection.MaxValue | appv10.py:37 | `max(values)` is one of the values and no smaller than any of them |
| Selection.FirstIndexOf | appv10.py:38 | the index holds the value and no earlier index does |
| Selection.FirstOfMinIsArgMin | appv10.py:36-38 | the first position holding `min(values)` is `np.argmin` |
| Selection.FirstOfMaxIsArgMax | appv10.py:37-39 | the first position holding `max(values)` is `np.argmax` |
| OrderedDict.Put | appv9.py:45 | assignment keeps the dict well formed, updates the map, and appends the key only if it is new |
| OrderedDict.Values | appv10.py:36 | `values()` lists the value of each key in insertion order |
| OrderedDict.FirstOccurrences | appv9.py:43-45 | the keys have the same elements as the inserted list, without repeats, ordered by each element's first position in the list |
| OrderedDict.FirstOccurrencesOfDistinct | appv9.py:42-45 | a list without repeats keeps its order as dict keys |
| OrderedDict.Fill | appv9.py:43-45 | the scan loop yields a well-formed dict keyed by the first occurrences of the candidates, each mapped to f of itself |
| App.ComputeError | app.py:16-27 | one error per assumed magnitude, in list order, each rounded to 4 places and measured against the incision axis |
| App.CandidateError | app.py:22-25 | a candidate's error is non-negative, zero for the actual value on the actual axis, and its rounded absolute value when there is no actual SIA (`CandidateErrorNonNegative`, `MatchingCandidateHasNoError`, `NoActualSia`) |
| App.DefaultCandidatesValues | app.py:30 | the default scan list is exactly 0.0, 0.1, 0.2, 0.3, 0.4, 0.5 |
| App.DefaultCandidates | app.py:30 | the default scan list is exactly 0.0, 0.1, ..., 0.5 (`DefaultCandidatesValues`) |
| App.Calculate | app.py:29-42 | the scan covers the default list, and the least and most erroneous candidates are those at `np.argmin` / `np.argmax` of the errors |
| App.CandidateErrorNonNegative | app.py:25 | every recorded error is non-negative |
| App.MatchingCandidateHasNoError | app.py:17-25 | a candidate equal to the actual magnitude, on the actual axis, has error zero |
| App.NoActualSia | app.py:17-25 | with no actual SIA, a candidate's error is its rounded absolute value |
| App.RoundedSameAxisError | app.py:17-25 | on a common axis, a candidate's rounded error is the rounded magnitude difference |
| App.SameAxisCandidate | app.py:17-25 | on a common axis, a candidate a whole number of tenths from the actual magnitude has exactly that difference as its error |
| App.TenthsOnGrid | app.py:25 | rounding to 4 places leaves multiples of a tenth unchanged |
| App.ScenarioExtremes | app.py:39-40 | for errors 0.2, 0.1, 0.0, 0.1, 0.2, 0.3 the picks are indices 2 and 5 |
| App.CoincidentAxisScenario | app.py:16-40 | both axes 90° and actual 0.2 D: errors 0.2, 0.1, 0.0, 0.1, 0.2, 0.3, least at 0.2 D, most at 0.5 D |
| AppV8.CylToJ0J45 | appv8.py:6-10 | a zero cylinder is the zero vector |
| AppV8.J0J45ToCylAxis | appv8.py:12-16 | the returned axis lies in [0, 180) |
| AppV8.CylMagnitudeNonNegative | appv8.py:13 | the returned cylinder is non-negative |
| AppV8.RoundTripMagnitude | appv8.py:6-13 | converting a cylinder to J0/J45 and back recovers \|cyl\| |
| AppV8.RoundTrip | appv8.py:6-16 | a minus cylinder comes back on its axis mod 180, a plus cylinder on the axis 90° away |
| AppV8.Delta | appv8.py:32-33 | the delta is post-operative minus expected, component-wise |
| AppV8.VectorError | appv8.py:32-34 | the error axis lies in [0, 180) |
| AppV8.VectorErrorNonNegative | appv8.py:34 | the error magnitude is non-negative |
| AppV8.NoErrorWhenOnPlan | appv8.py:28-34 | identical post-operative and expected values give error magnitude zero |
| AppV8.VectorErrorSymmetric | appv8.py:28-34 | swapping post-operative and expected values leaves the error magnitude unchanged |
| AppV9.ToDoubleAngleVector | appv9.py:8-11 | magnitude zero gives the zero vector |
| AppV9.VectorDifferenceComponents | appv9.py:13-17 | the difference is `vec1 - vec2`, component-wise |
| AppV9.VectorDifferenceMagnitude | appv9.py:19-21 | the difference magnitude is non-negative, symmetric, zero on self, and zero for axes 180° apart (`DifferenceMagnitudeNonNegative`, `DifferenceMagnitudeSymmetric`, `DifferenceMagnitudeOfSelf`, `OppositeAxesAgree`) |
| AppV9.DifferenceMagnitudeNonNegative | appv9.py:19-21 | the difference magnitude is non-negative |
| AppV9.DifferenceMagnitudeSymmetric | appv9.py:19-21 | swapping the two (mag, axis) pairs leaves the magnitude unchanged |
| AppV9.DifferenceMagnitudeOfSelf | appv9.py:13-21 | `vector_difference_magnitude(m, a, m, a) == 0` |
| AppV9.OppositeAxesAgree | appv9.py:8-21 | axes a and a + 180 have difference magnitude zero |
| AppV9.DoubleAngleToPolar | appv9.py:23-27 | the axis lies in [0, 180) |
| AppV9.PolarMagnitudeIsNorm | appv9.py:23-24 | the magnitude is the vector's norm, and it is non-negative |
| AppV9.PolarRoundTrip | appv9.py:8-27 | for a positive magnitude, back-conversion gives (mag, axis mod 180) |
| AppV9.DiagramError | appv9.py:92-93 | the plotted error axis lies in [0, 180) |
| AppV9.DiagramMatchesTable | appv9.py:92-93 | when the diagram's expected magnitude is a scanned value, the plotted error size equals that value's entry in the scan dict |
| AppV9.DiagramErrorOnIncisionAxis | appv9.py:92-93 | with the actual flattening on the incision axis, the error lies on that axis when the actual effect is larger, and 90° away when it is smaller |
| AppV9.ScanListIsItsOwnKeys | appv9.py:42-45 | the six scan values have no repeats, so the dict's keys are exactly the list, in order |
| AppV9.ScanErrors | appv9.py:43-45 | one entry per distinct value, in scan order, each the unrounded difference magnitude at the incision axis |
| AppV9.LeastSia | appv9.py:48 | the key has the smallest error, and no earlier key has an equal error |
| AppV9.MostSia | appv9.py:49 | the key has the largest error, and no earlier key has an equal error |
| AppV9.Run | appv9.py:39-49 | the keys are exactly the six default values in order, and the picks are `LeastSia` / `MostSia` of the scan |
| AppV10.SiaVector | appv10.py:21-25 | magnitude zero gives the zero vector |
| AppV10.SiaVectorAngle | appv10.py:21-25 | the angle is the axis for `eye == "RE"` and 180 - axis otherwise, without doubling |
| AppV10.EyeConvention | appv10.py:22 | `eye == "RE"` keeps the axis and anything else mirrors it to 180 - axis, with no scaling and no doubling (`SiaVectorAngle`, `SiaVectorLength`) |
| AppV10.ScriptAlwaysMirrors | appv10.py:13 | with `eye` holding the numeric incision axis, every vector uses 180 - axis |
| AppV10.SiaVectorLength | appv10.py:21-25 | the vector's length is \|magnitude\| |
| AppV10.OppositeAxesOpposeVectors | appv10.py:21-25 | axes 180° apart give opposite vectors |
| AppV10.OppositeAxesError | appv10.py:27-32 | the same magnitude on axes 180° apart has error 2·\|magnitude\|, not zero |
| AppV10.ScanEntryNonNegative | appv10.py:32-33 | every scan value is non-negative |
| AppV10.ScanEntry | appv10.py:31-33 | a scan entry is non-negative and is zero for the actual magnitude on the incision axis (`ScanEntryNonNegative`, `MatchingEntryIsZero`) |
| AppV10.MatchingEntryIsZero | appv10.py:27-33 | the entry for the actual magnitude is zero when the actual axis is the incision axis |
| AppV10.ScanListIsItsOwnKeys | appv10.py:30-33 | the six scan inputs have no repeats, so the dict's keys are exactly the list, in order |
| AppV10.ScanErrors | appv10.py:30-33 | one entry per distinct input, in scan order, each the distance at the incision axis rounded to 3 places |
| AppV10.BestSia | appv10.py:36-38 | the best key's value is no larger than any value, and the key is the one at `np.argmin` of the values, i.e. the first minimum in insertion order |
| AppV10.WorstSia | appv10.py:37-39 | the worst key's value is no smaller than any value, and the key is the one at `np.argmax` of the values, i.e. the first maximum in insertion order |
| AppV10.Run | appv10.py:13-39 | with `eye` bound to the incision axis, the keys are the six inputs in order and the picks are `BestSia` / `WorstSia` |
| AppV11.CalculateSiaError | appv11.py:6-26 | the error is non-negative, zero when the SIA is as assumed, within 0.0005 of the exact distance, and periodic in the incision axis (`SiaErrorNonNegative`, `NoErrorWhenAsAssumed`, `SiaErrorIsRoundedDistance`, `IncisionAxisPeriod`) |
| AppV11.SiaErrorNonNegative | appv11.py:6-26 | the single-case error is non-negative |
| AppV11.SiaErrorIsRoundedDistance | appv11.py:21-26 | the result is within 0.0005 of the length of actual minus expected, with expected on the incision axis |
| AppV11.NoErrorWhenAsAssumed | appv11.py:6-26 | the error is zero when the actual axis is the incision axis and the actual magnitude is the assumed one |
| AppV11.IncisionAxisPeriod | appv11.py:11-18 | incision axes 180° apart give the same error |
| AppV11.AssumedCell | appv11.py:53 | the assumed cell is the row's own when the column exists, and 0.5 otherwise |
| AppV11.EvaluateRow | appv11.py:49-54 | a row fails exactly when a required column is missing or a used cell holds text, and gives NaN exactly when it does not fail and some used cell is blank |
| AppV11.NumericRow | appv11.py:49-54 | a row of numbers gives `calculate_sia_error` of its four fields, in argument order |
| AppV11.MissingAssumedMeansDefault | appv11.py:53 | without the assumed-magnitude column a row is evaluated as if it held 0.5 there |
| AppV11.RowDependsOnItsFields | appv11.py:49-54 | two rows that agree on the four columns give the same result |
| AppV11.ApplyBatch | appv11.py:46-65 | the batch succeeds exactly when every row does, and then yields one result per row, in row order |

## Left out

- Streamlit widgets, page titles, buttons, markdown and HTML output, text
  areas and number formatting. These are presentation, and each script's
  inputs become parameters.
- The input widgets' bounds, which differ from script to script (appv8.py
  sets none on its cylinders). The model accepts any real, so it covers
  whatever the widgets let through.
- Matplotlib diagrams (`plot_vector`, `polar_to_cartesian`, circles and
  arrows) are drawing only. appv10's expected-SIA inputs feed only the
  diagram and are left out with it.
- Reading and writing Excel and CSV files, upload and download, and the
  sample template are file I/O. The batch is modelled from the rows
  pandas would hand to `apply`.
- The exception text shown by `st.error`. A failed batch is just `Failed`.
- Binary floating point. `round` and `%` are exact on reals, so float
  rounding of the products and the tie behaviour of binary fractions are
  not modelled.
- `cos`, `sin`, `sqrt` and `atan2` are not defined. Properties that need
  them take the named laws as hypotheses.
- PowerVector.ToPolar: the axis of a zero vector is not stated. Python
  returns `atan2(0, 0) == 0`, and `Atan2Law` says nothing at the origin.
- Selection.ArgMin, Selection.ArgMax, Selection.MinValue, Selection.MaxValue:
  these require a non-empty sequence. Python raises on an empty one, and
  every script scans six candidates.
- AppV9.LeastSia, AppV9.MostSia, AppV10.BestSia, AppV10.WorstSia: these
  require a non-empty dict, for the same reason.
- AppV11.EvaluateRow: NaN is a single `NotANumber` result, and NaN
  arithmetic is not modelled further. Booleans and other cell types that
  pandas may produce are not modelled.
- AppV11.ApplyBatch: for an empty sheet the model returns `Done([])`.
  What pandas does when assigning the result of `apply` on an empty frame
  is not modelled.
- The unused `incision_axis` radians value at appv11.py:9 has no effect,
  so nothing models it.
