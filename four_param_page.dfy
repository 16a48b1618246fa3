/**
 * The four-parameter page of `src/gui/pages/four_param_page.py`: the coordinate validator,
 * the add / edit / save / delete / select-all handlers over the control-point table, and the
 * guards and bookkeeping of `on_calculate_clicked` around `calculate_four_parameters`.
 * Widgets are fields; message boxes become returned outcomes.
 */
module FourParamPage {
  import opened Wrappers
  import opened Text
  import opened ControlTable
  import Linear
  import FourPar

  /** `table.setColumnCount(5)`: the check box and the four coordinate columns, no RMS column. */
  const ColumnCount: nat := 5

  /** The entries of `ellipsoid_combo`. */
  const EllipsoidItems: seq<string> := ["WGS84", "北京54"]

  /** `validate_coordinate_format`: `float(value)` succeeds. */
  predicate ValidateCoordinateFormat(value: string) {
    ParseFloat(value).Some?
  }

  /** Why `on_add_clicked` or `on_save_clicked` refuses the input. */
  datatype InputFault = EmptyField | NotNumeric

  /** The checks shared by add and save: any empty field first, then any field that is not a number. */
  function CheckInputs(values: seq<string>): (r: Option<InputFault>)
    requires |values| == 4
    ensures r == Some(EmptyField) <==> "" in values
    ensures r.None? <==> "" !in values && forall i :: 0 <= i < 4 ==> ValidateCoordinateFormat(values[i])
  {
    if "" in values then Some(EmptyField)
    else if exists i :: 0 <= i < 4 && !ValidateCoordinateFormat(values[i]) then Some(NotNumeric)
    else None
  }

  /** Four empty input fields, as `clear_inputs` leaves them. */
  const Cleared: seq<string> := ["", "", "", ""]

  // ---------------------------------------------------------------------------
  // Reading the selected rows for the calculation
  // ---------------------------------------------------------------------------

  /** One row read as `float()` of columns 1-4: ([x0, y0], [x1, y1]); a row without four cells does not read. */
  function RowRead(cells: seq<string>): (r: Option<(seq<real>, seq<real>)>)
    ensures r.Some? <==> |cells| == 4 && ValidateCoordinateFormat(cells[0]) && ValidateCoordinateFormat(cells[1])
                         && ValidateCoordinateFormat(cells[2]) && ValidateCoordinateFormat(cells[3])
    ensures r.Some? ==> r.value == ([ParseFloat(cells[0]).value, ParseFloat(cells[1]).value],
                                    [ParseFloat(cells[2]).value, ParseFloat(cells[3]).value])
  {
    if |cells| != 4 then None
    else
      var x0, y0, x1, y1 := ParseFloat(cells[0]), ParseFloat(cells[1]), ParseFloat(cells[2]), ParseFloat(cells[3]);
      if x0.Some? && y0.Some? && x1.Some? && y1.Some? then Some(([x0.value, y0.value], [x1.value, y1.value]))
      else None
  }

  function RowReader(): (read: Reader)
    ensures forall cells :: read(cells) == RowRead(cells)
  {
    cells => RowRead(cells)
  }

  /** The coordinate pairs as plane points. */
  function ToPoints(rows: seq<seq<real>>): (ps: seq<FourPar.Point2>)
    requires forall i :: 0 <= i < |rows| ==> |rows[i]| == 2
    ensures |ps| == |rows| && forall i :: 0 <= i < |rows| ==> ps[i] == FourPar.Point2(rows[i][0], rows[i][1])
  {
    seq(|rows|, i requires 0 <= i < |rows| => FourPar.Point2(rows[i][0], rows[i][1]))
  }

  /** Rows that read give two-component points on both sides. */
  lemma CoordinatesShaped(rows: seq<Row>, sel: seq<nat>)
    requires forall k :: 0 <= k < |sel| ==> sel[k] < |rows|
    requires Coordinates(rows, sel, RowReader()).Some?
    ensures var c := Coordinates(rows, sel, RowReader()).value;
      (forall k :: 0 <= k < |sel| ==> |c.0[k]| == 2 && |c.1[k]| == 2)
  {
    var c := Coordinates(rows, sel, RowReader()).value;
    forall k | 0 <= k < |sel|
      ensures |c.0[k]| == 2 && |c.1[k]| == 2
    {
      assert RowRead(rows[sel[k]].cells) == Some((c.0[k], c.1[k]));
    }
  }

  /** The fit's own count errors cannot occur behind the page's guard, so they have no outcome here. */
  datatype CalcOutcome = TooFewPoints | ReadFailed | Computed(fit: FourPar.FourFit)

  /**
   * What `on_calculate_clicked` ends in: fewer than two ticked rows, a row that does not
   * read, or the fit of the ticked rows' points taken in ascending row order.
   */
  function Calculation(rows: seq<Row>, lstsq: (Linear.Matrix, Linear.Vector) -> FourPar.FourParams,
                       sqrt: real -> real, atan2: (real, real) -> real): CalcOutcome
  {
    var sel := Selected(rows);
    if |sel| < 2 then TooFewPoints
    else
      match Coordinates(rows, sel, RowReader())
      case None => ReadFailed
      case Some(c) =>
        CoordinatesShaped(rows, sel);
        var src, tgt := ToPoints(c.0), ToPoints(c.1);
        Computed(FourPar.FitOf(lstsq(FourPar.Design(src), FourPar.Observations(tgt)), sqrt, atan2))
  }

  /**
   * The calculation ends in too few points exactly when fewer than two rows are ticked, in a
   * read failure exactly when one of them does not read, and otherwise in the fit of the
   * two-component points read from the ticked rows.
   */
  lemma CalculationCases(rows: seq<Row>, lstsq: (Linear.Matrix, Linear.Vector) -> FourPar.FourParams,
                         sqrt: real -> real, atan2: (real, real) -> real)
    ensures var o := Calculation(rows, lstsq, sqrt, atan2);
      && (o == TooFewPoints <==> |Selected(rows)| < 2)
      && (o == ReadFailed <==> |Selected(rows)| >= 2 && Coordinates(rows, Selected(rows), RowReader()).None?)
      && (o.Computed? ==>
        var c := Coordinates(rows, Selected(rows), RowReader()).value;
        (forall k :: 0 <= k < |c.0| ==> |c.0[k]| == 2 && |c.1[k]| == 2)
        && o.fit.params == lstsq(FourPar.Design(ToPoints(c.0)), FourPar.Observations(ToPoints(c.1))))
  {
    var sel := Selected(rows);
    if |sel| >= 2 && Coordinates(rows, sel, RowReader()).Some? {
      CoordinatesShaped(rows, sel);
    }
  }

  /** The six result fields a, b, dx, dy, s with eight decimals, and theta with the radian suffix. */
  function ResultTexts(f: FourPar.FourFit, fmt: real -> string): (r: seq<string>)
    ensures |r| == 6
    ensures r[0] == fmt(f.params.a) && r[1] == fmt(f.params.b) && r[2] == fmt(f.params.dx)
    ensures r[3] == fmt(f.params.dy) && r[4] == fmt(f.s) && r[5] == fmt(f.theta) + " rad"
  {
    [fmt(f.params.a), fmt(f.params.b), fmt(f.params.dx), fmt(f.params.dy), fmt(f.s), fmt(f.theta) + " rad"]
  }

  /** The reading and fitting steps of `on_calculate_clicked`. */
  method Calculate(rows: seq<Row>, lstsq: (Linear.Matrix, Linear.Vector) -> FourPar.FourParams,
                   sqrt: real -> real, atan2: (real, real) -> real) returns (o: CalcOutcome)
    ensures o == Calculation(rows, lstsq, sqrt, atan2)
  {
    var sel := CollectSelected(rows);
    if |sel| < 2 {
      return TooFewPoints;
    }
    var coords := ReadCoordinates(rows, sel, RowReader());
    if coords.None? {
      return ReadFailed;
    }
    CoordinatesShaped(rows, sel);
    var src, tgt := ToPoints(coords.value.0), ToPoints(coords.value.1);
    var fit := FourPar.CalculateFourParameters(src, tgt, lstsq, sqrt, atan2);
    assert fit.Ok?;
    return Computed(fit.value);
  }

  // ---------------------------------------------------------------------------
  // The page
  // ---------------------------------------------------------------------------

  datatype SaveOutcome = NotEditing | SaveRejected(fault: InputFault) | Saved
  datatype DeleteOutcome = NoneSelected | Declined | Deleted(count: nat)

  /** A table of four-column rows, none with an RMS text. */
  predicate FourColumnRows(rows: seq<Row>) {
    forall i :: 0 <= i < |rows| ==> |rows[i].cells| == 4 && rows[i].rms.None?
  }

  class Page {
    /** The table rows. */
    var rows: seq<Row>
    /** `self.editing_row`. */
    var editingRow: Option<nat>
    /** The texts of `x0_input`, `y0_input`, `x1_input`, `y1_input`. */
    var inputs: seq<string>
    /** The current text of `ellipsoid_combo`. */
    var ellipsoid: string
    /** The texts of `a_result`, `b_result`, `dx_result`, `dy_result`, `s_result`, `theta_result`. */
    var resultTexts: seq<string>

    ghost predicate Valid()
      reads this
    {
      |inputs| == 4 && |resultTexts| == 6 && ellipsoid in EllipsoidItems && FourColumnRows(rows)
    }

    /** The state `__init__` / `setup_ui` leave. */
    constructor ()
      ensures Valid()
      ensures rows == [] && editingRow == None && inputs == Cleared && ellipsoid == "WGS84"
      ensures resultTexts == ["", "", "", "", "", ""]
    {
      rows := [];
      editingRow := None;
      inputs := Cleared;
      ellipsoid := "WGS84";
      resultTexts := ["", "", "", "", "", ""];
    }

    /** The four input texts with `.strip()` applied. */
    function Entered(): (v: seq<string>)
      reads this
      requires Valid()
      ensures |v| == 4 && forall i :: 0 <= i < 4 ==> v[i] == Strip(inputs[i])
    {
      var texts := inputs;
      seq(4, i requires 0 <= i < 4 => Strip(texts[i]))
    }

    /**
     * `on_add_clicked`: when all four stripped texts are non-empty numbers, one unticked row
     * holding them is appended and the inputs are cleared; otherwise nothing changes.
     */
    method OnAddClicked() returns (fault: Option<InputFault>)
      requires Valid()
      modifies this`rows, this`inputs
      ensures Valid()
      ensures fault == CheckInputs(old(Entered()))
      ensures fault.None? ==> rows == old(rows) + [Row(false, old(Entered()), None)] && inputs == Cleared
      ensures fault.Some? ==> rows == old(rows) && inputs == old(inputs)
    {
      var values := Entered();
      fault := CheckInputs(values);
      if fault.None? {
        rows := rows + [Row(false, values, None)];
        inputs := Cleared;
      }
    }

    /**
     * `on_edit_clicked`: with exactly one row ticked, that row becomes the editing row and its
     * texts are loaded into the inputs; otherwise nothing changes.
     */
    method OnEditClicked() returns (r: Result<nat, EditRefusal>)
      requires Valid()
      modifies this`editingRow, this`inputs
      ensures Valid()
      ensures r == EditTarget(rows)
      ensures r.Ok? ==> editingRow == Some(r.value) && inputs == rows[r.value].cells
      ensures r.Err? ==> editingRow == old(editingRow) && inputs == old(inputs)
    {
      var sel := CollectSelected(rows);
      if |sel| == 0 {
        return Err(NothingSelected);
      } else if |sel| > 1 {
        return Err(SeveralSelected);
      }
      var row := sel[0];
      editingRow := Some(row);
      inputs := rows[row].cells;
      return Ok(row);
    }

    /**
     * `on_save_clicked`: without an editing row nothing happens; when the checks pass,
     * columns 1-4 of the editing row get the stripped texts, its tick is cleared, the inputs
     * are cleared and the editing row is reset.
     */
    method OnSaveClicked() returns (o: SaveOutcome)
      requires Valid()
      modifies this`rows, this`inputs, this`editingRow
      ensures Valid()
      ensures old(editingRow).None? ==> o == NotEditing && rows == old(rows) && inputs == old(inputs) && editingRow == None
      ensures old(editingRow).Some? ==>
        match CheckInputs(old(Entered()))
        case Some(f) => o == SaveRejected(f) && rows == old(rows) && inputs == old(inputs) && editingRow == old(editingRow)
        case None => o == Saved && rows == Overwrite(old(rows), old(editingRow).value, old(Entered()))
                     && inputs == Cleared && editingRow == None
    {
      if editingRow.None? {
        return NotEditing;
      }
      var current := editingRow.value;
      var values := Entered();
      var fault := CheckInputs(values);
      if fault.Some? {
        return SaveRejected(fault.value);
      }
      rows := Overwrite(rows, current, values);
      inputs := Cleared;
      editingRow := None;
      return Saved;
    }

    /**
     * `on_delete_clicked` with the answer of the confirmation box: all ticked rows go, the
     * rest keep their order; the editing state is reset only when the editing row was ticked.
     */
    method OnDeleteClicked(confirmed: bool) returns (o: DeleteOutcome)
      requires Valid()
      modifies this`rows, this`inputs, this`editingRow
      ensures Valid()
      ensures var sel := Selected(old(rows));
        if sel == [] then o == NoneSelected && rows == old(rows) && inputs == old(inputs) && editingRow == old(editingRow)
        else if !confirmed then o == Declined && rows == old(rows) && inputs == old(inputs) && editingRow == old(editingRow)
        else o == Deleted(|sel|) && rows == Unchecked(old(rows))
             && (if old(editingRow).Some? && old(editingRow).value in sel
                 then inputs == Cleared && editingRow == None
                 else inputs == old(inputs) && editingRow == old(editingRow))
    {
      var sel := CollectSelected(rows);
      if sel == [] {
        return NoneSelected;
      }
      if !confirmed {
        return Declined;
      }
      var kept := RemoveSelected(rows, sel);
      forall i | 0 <= i < |kept|
        ensures |kept[i].cells| == 4 && kept[i].rms.None?
      {
        UncheckedMembers(rows, kept[i]);
      }
      rows := kept;
      if editingRow.Some? && editingRow.value in sel {
        inputs := Cleared;
        editingRow := None;
      }
      return Deleted(|sel|);
    }

    /** `on_header_clicked(logicalIndex)`. */
    method OnHeaderClicked(logicalIndex: int)
      requires Valid()
      modifies this`rows
      ensures Valid()
      ensures rows == HeaderToggle(old(rows), logicalIndex)
    {
      if logicalIndex == 0 && |rows| != 0 {
        var all := FindAllChecked(rows);
        rows := SetAllChecks(rows, !all);
      }
    }

    /**
     * `on_calculate_clicked`: fewer than two ticked rows are refused; otherwise the ticked
     * rows are read in row order and fitted, and the six result fields are written. A row
     * that does not read changes nothing.
     */
    method OnCalculateClicked(lstsq: (Linear.Matrix, Linear.Vector) -> FourPar.FourParams,
                              sqrt: real -> real, atan2: (real, real) -> real,
                              fmt8: real -> string) returns (o: CalcOutcome)
      requires Valid()
      modifies this`resultTexts
      ensures Valid()
      ensures o == Calculation(old(rows), lstsq, sqrt, atan2)
      ensures o.Computed? ==> resultTexts == ResultTexts(o.fit, fmt8)
      ensures !o.Computed? ==> resultTexts == old(resultTexts)
    {
      o := Calculate(rows, lstsq, sqrt, atan2);
      if o.Computed? {
        resultTexts := ResultTexts(o.fit, fmt8);
      }
    }
  }
}
