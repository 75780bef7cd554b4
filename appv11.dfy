/** appv11.py: the single-case SIA error (power vectors without a sign
    change, the assumed value on the incision axis, rounded to three
    places) and the batch mode, which applies it to every row of an
    uploaded sheet and either yields one result per row or reports a
    single error for the whole sheet. */
module AppV11 {
  import opened Wrappers
  import opened Numerics
  import opened PowerVector

  /** `assumed_mag=0.5`. */
  const DefaultAssumedMag: real := 0.5

  /** Errors are rounded to three decimal places. */
  const ErrorPlaces: nat := 3

  /** `calculate_sia_error`. */
  function CalculateSiaError(m: Math, incisionAxis: real, actualMag: real, actualAxis: real, assumedMag: real): real {
    Round(ErrorMagnitude(m, Unscaled, actualMag, actualAxis, assumedMag, incisionAxis), ErrorPlaces)
  }

  lemma SiaErrorNonNegative(m: Math, incisionAxis: real, actualMag: real, actualAxis: real, assumedMag: real)
    requires SqrtLaw(m)
    ensures 0.0 <= CalculateSiaError(m, incisionAxis, actualMag, actualAxis, assumedMag)
  {
    ErrorNonNegative(m, Unscaled, actualMag, actualAxis, assumedMag, incisionAxis);
    RoundNonNegative(ErrorMagnitude(m, Unscaled, actualMag, actualAxis, assumedMag, incisionAxis), ErrorPlaces);
  }

  /** The rounded error is within half a unit in the third place of the
      exact distance between the actual and the expected vectors. */
  lemma SiaErrorIsRoundedDistance(m: Math, incisionAxis: real, actualMag: real, actualAxis: real, assumedMag: real)
    ensures var exact := Norm(m, Sub(ToVector(m, Unscaled, actualMag, actualAxis),
                                     ToVector(m, Unscaled, assumedMag, incisionAxis)));
            Abs(CalculateSiaError(m, incisionAxis, actualMag, actualAxis, assumedMag) - exact) <= 0.0005
  {
    RoundError(ErrorMagnitude(m, Unscaled, actualMag, actualAxis, assumedMag, incisionAxis), ErrorPlaces);
    assert HalfUnit(ErrorPlaces) == 0.0005;
  }

  /** No error when the actual SIA is the assumed one, on the incision axis. */
  lemma NoErrorWhenAsAssumed(m: Math, incisionAxis: real, mag: real)
    requires SqrtLaw(m)
    ensures CalculateSiaError(m, incisionAxis, mag, incisionAxis, mag) == 0.0
  {
    ErrorOfSelf(m, Unscaled, mag, incisionAxis);
    RoundOfZero(ErrorPlaces);
  }

  /** Incision axes 180 degrees apart give the same error. */
  lemma IncisionAxisPeriod(m: Math, incisionAxis: real, actualMag: real, actualAxis: real, assumedMag: real)
    requires HalfTurn(m)
    ensures CalculateSiaError(m, incisionAxis + 180.0, actualMag, actualAxis, assumedMag)
            == CalculateSiaError(m, incisionAxis, actualMag, actualAxis, assumedMag)
  {
    DoubledAxisPeriod(m, Unscaled, assumedMag, incisionAxis);
  }

  // ---------------------------------------------------------------------
  // Batch mode

  /** A spreadsheet cell as pandas reads it: a number, an empty cell (NaN)
      or text. */
  datatype Cell = Number(value: real) | Blank | Text(text: string)

  /** A row maps the sheet's column headers to its cells. */
  type Row = map<string, Cell>

  const IncisionAxisColumn: string := "Incision Axis"
  const ActualMagColumn: string := "Actual SIA Magnitude"
  const ActualAxisColumn: string := "Actual SIA Axis"
  const AssumedMagColumn: string := "Assumed SIA Magnitude"

  /** The value written to the "SIA Error" column: a number, or NaN when a
      blank cell reached the arithmetic. */
  datatype RowResult = Error(value: real) | NotANumber

  /** `row.get("Assumed SIA Magnitude", 0.5)`. */
  function AssumedCell(row: Row): (c: Cell)
    ensures AssumedMagColumn in row ==> c == row[AssumedMagColumn]
    ensures AssumedMagColumn !in row ==> c == Number(DefaultAssumedMag)
  {
    if AssumedMagColumn in row then row[AssumedMagColumn] else Number(DefaultAssumedMag)
  }

  /** One row of the `apply`: `None` when it raises — a required column is
      missing (a `KeyError`) or a cell holds text, which `math.radians` and
      the multiplications reject — otherwise the row's value. */
  function EvaluateRow(m: Math, row: Row): (r: Option<RowResult>)
    ensures r == None <==>
              IncisionAxisColumn !in row || ActualMagColumn !in row || ActualAxisColumn !in row
              || row[IncisionAxisColumn].Text? || row[ActualMagColumn].Text?
              || row[ActualAxisColumn].Text? || AssumedCell(row).Text?
    ensures r == Some(NotANumber) <==>
              r != None
              && (row[IncisionAxisColumn].Blank? || row[ActualMagColumn].Blank?
                  || row[ActualAxisColumn].Blank? || AssumedCell(row).Blank?)
  {
    if IncisionAxisColumn !in row || ActualMagColumn !in row || ActualAxisColumn !in row then None
    else
      var cells := [row[IncisionAxisColumn], row[ActualMagColumn], row[ActualAxisColumn], AssumedCell(row)];
      assert cells[0] == row[IncisionAxisColumn] && cells[1] == row[ActualMagColumn]
             && cells[2] == row[ActualAxisColumn] && cells[3] == AssumedCell(row);
      if exists i :: 0 <= i < 4 && cells[i].Text? then None
      else if exists i :: 0 <= i < 4 && cells[i].Blank? then Some(NotANumber)
      else Some(Error(CalculateSiaError(m, cells[0].value, cells[1].value, cells[2].value, cells[3].value)))
  }

  /** A row of four numbers yields `calculate_sia_error` of them, taken in
      the order incision axis, actual magnitude, actual axis, assumed magnitude. */
  lemma NumericRow(m: Math, row: Row, incisionAxis: real, actualMag: real, actualAxis: real)
    requires IncisionAxisColumn in row && row[IncisionAxisColumn] == Number(incisionAxis)
    requires ActualMagColumn in row && row[ActualMagColumn] == Number(actualMag)
    requires ActualAxisColumn in row && row[ActualAxisColumn] == Number(actualAxis)
    requires AssumedCell(row).Number?
    ensures EvaluateRow(m, row)
            == Some(Error(CalculateSiaError(m, incisionAxis, actualMag, actualAxis, AssumedCell(row).value)))
  {
  }

  /** A sheet without the assumed-magnitude column is evaluated as if every
      row had 0.5 there. */
  lemma MissingAssumedMeansDefault(m: Math, row: Row)
    requires AssumedMagColumn !in row
    ensures EvaluateRow(m, row) == EvaluateRow(m, row[AssumedMagColumn := Number(DefaultAssumedMag)])
  {
    var full := row[AssumedMagColumn := Number(DefaultAssumedMag)];
    assert AssumedCell(full) == AssumedCell(row);
    assert IncisionAxisColumn != AssumedMagColumn && ActualMagColumn != AssumedMagColumn
           && ActualAxisColumn != AssumedMagColumn;
  }

  /** A row's result depends only on its four fields: other columns do not matter. */
  lemma RowDependsOnItsFields(m: Math, row: Row, other: Row)
    requires forall col :: col in [IncisionAxisColumn, ActualMagColumn, ActualAxisColumn, AssumedMagColumn] ==>
               (col in row <==> col in other) && (col in row ==> row[col] == other[col])
    ensures EvaluateRow(m, row) == EvaluateRow(m, other)
  {
    assert AssumedCell(row) == AssumedCell(other);
  }

  /** What the batch shows: the results column, or one error for the sheet. */
  datatype BatchResult = Done(errors: seq<RowResult>) | Failed

  /** `df.apply(..., axis=1)` inside the `try`: the first row that raises
      abandons the whole sheet. */
  function ApplyBatch(m: Math, rows: seq<Row>): (r: BatchResult)
    ensures r.Done? <==> forall i :: 0 <= i < |rows| ==> EvaluateRow(m, rows[i]).Some?
    ensures r.Done? ==> |r.errors| == |rows|
                        && forall i :: 0 <= i < |rows| ==> Some(r.errors[i]) == EvaluateRow(m, rows[i])
  {
    if rows == [] then Done([])
    else
      match EvaluateRow(m, rows[0])
      case None => Failed
      case Some(first) =>
        match ApplyBatch(m, rows[1..])
        case Failed => Failed
        case Done(rest) => Done([first] + rest)
  }
}
