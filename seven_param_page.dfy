/**
 * The seven-parameter page of `src/gui/pages/seven_param_page.py`: the input validators,
 * the table reader for angle texts, the add / edit / save / delete / select-all handlers over
 * the control-point table, and the guards and bookkeeping of `on_calculate_clicked` around
 * `bursa_seven_parameters`. Widgets are fields; message boxes become returned outcomes.
 */
module SevenParamPage {
  import opened Wrappers
  import opened Text
  import opened Angles
  import opened ControlTable
  import Linear
  import SevenPar
  import TransformPage

  // ---------------------------------------------------------------------------
  // Validators and readers
  // ---------------------------------------------------------------------------

  /**
   * The two entries of the non-editable unit combo boxes, "度:分:秒" (degrees, minutes and
   * seconds) and "度" (decimal degrees); the combo's current text is always one of them.
   */
  datatype AngleUnit = DegMinSec | Degree

  /** The entry text of a unit. */
  function UnitText(u: AngleUnit): string {
    match u
    case DegMinSec => "度:分:秒"
    case Degree => "度"
  }

  /** `\d{lo,hi}` for ASCII digits. */
  predicate DigitCount(s: string, lo: nat, hi: nat) {
    lo <= |s| <= hi && AllDigits(s)
  }

  /** `\d{1,2}(\.\d+)?`. */
  predicate SecondsPattern(s: string) {
    var n := DigitRun(s);
    1 <= n <= 2 && (n == |s| || (s[n] == '.' && n + 1 < |s| && AllDigits(s[n + 1..])))
  }

  /**
   * `^\d{1,3}:\d{1,2}:\d{1,2}(\.\d+)?$`. No piece of the pattern matches a colon, so a
   * text matches exactly when it has three colon-separated parts matching the three pieces.
   */
  predicate DmsPattern(v: string) {
    var p := Split(v, ':');
    |p| == 3 && DigitCount(p[0], 1, 3) && DigitCount(p[1], 1, 2) && SecondsPattern(p[2])
  }

  /**
   * `validate_degree_format`: in the degrees-minutes-seconds unit the pattern, then
   * `int(min) < 60` and `float(sec) < 60`; in any other unit a number in [-180, 180].
   */
  function ValidateDegreeFormat(value: string, unit: AngleUnit): (ok: bool)
    ensures unit == DegMinSec ==>
      (ok <==> DmsPattern(value) && NatValue(Split(value, ':')[1]) < 60
               && ParseFloat(Split(value, ':')[2]).Some? && ParseFloat(Split(value, ':')[2]).value < 60.0)
    ensures unit == Degree ==>
      (ok <==> ParseFloat(value).Some? && -180.0 <= ParseFloat(value).value <= 180.0)
  {
    if unit == DegMinSec then
      DmsPattern(value) &&
        var p := Split(value, ':');
        NatValue(p[1]) < 60 && ParseFloat(p[2]).Some? && ParseFloat(p[2]).value < 60.0
    else
      var f := ParseFloat(value);
      f.Some? && -180.0 <= f.value <= 180.0
  }

  /** `validate_xyz_format`: `float(value)` succeeds. */
  predicate ValidateXyzFormat(value: string) {
    ParseFloat(value).Some?
  }

  /** `dms_to_decimal`: exactly three parts, each read by `float()`, no range check on minutes or seconds. */
  function DmsToDecimal(s: string): (r: Option<real>)
    ensures r.Some? <==> TransformPage.DmsFields(s).Some?
  {
    match TransformPage.DmsFields(s)
    case None => None
    case Some(f) => Some(DmsDegrees(f.deg, f.min, f.sec))
  }

  /** `get_coordinate_value` on a cell's text: angle texts through `dms_to_decimal`, the rest through `float()`. */
  function GetCoordinateValue(text: string): (r: Option<real>)
    ensures ':' !in text ==> r == ParseFloat(text)
    ensures ':' in text ==> r == DmsToDecimal(text)
  {
    if ':' in text then DmsToDecimal(text) else ParseFloat(text)
  }

  /** A literal that starts with a digit carries no sign and reads as a non-negative number. */
  lemma DigitLedNonNegative(t: string)
    requires t != [] && IsDigit(t[0]) && IsDigit(t[|t| - 1])
    ensures ParseFloat(t).Some? ==> ParseFloat(t).value >= 0.0
  {
    StripUnchanged(t);
    ParseFloatUnsigned(t);
  }

  /** Three pieces glued back together. */
  lemma JoinThree(p: seq<string>, sep: char)
    requires |p| == 3
    ensures Join(p, sep) == p[0] + [sep] + p[1] + [sep] + p[2]
  {
    assert p[1..][1..] == [p[2]];
    assert Join(p[1..], sep) == p[1] + [sep] + Join(p[1..][1..], sep);
  }

  /** A text with three colon-separated parts is those parts joined by colons. */
  lemma ThreeParts(v: string)
    requires |Split(v, ':')| == 3
    ensures var p := Split(v, ':'); v == p[0] + [':'] + p[1] + [':'] + p[2]
  {
    JoinThree(Split(v, ':'), ':');
  }

  /** The seconds piece is a digit-led, digit-ended literal of digits and at most one point. */
  lemma SecondsShape(s: string)
    requires SecondsPattern(s)
    ensures s != [] && IsDigit(s[0]) && IsDigit(s[|s| - 1])
    ensures forall k :: 0 <= k < |s| ==> IsDigit(s[k]) || s[k] == '.'
  {
    var n := DigitRun(s);
    assert s[0] == s[..n][0];
    if n < |s| {
      assert s[|s| - 1] == s[n + 1..][|s| - n - 2];
      forall k | 0 <= k < |s|
        ensures IsDigit(s[k]) || s[k] == '.'
      {
        if k < n {
          assert s[k] == s[..n][k];
        } else if k > n {
          assert s[k] == s[n + 1..][k - n - 1];
        }
      }
    } else {
      assert s[..n] == s;
    }
  }

  /** Only digits, colons and points: in particular no sign and no whitespace. */
  predicate DmsChars(s: string) {
    forall k :: 0 <= k < |s| ==> IsDigit(s[k]) || s[k] == ':' || s[k] == '.'
  }

  lemma JoinedChars(a: string, b: string, c: string)
    requires AllDigits(a) && AllDigits(b)
    requires forall k :: 0 <= k < |c| ==> IsDigit(c[k]) || c[k] == '.'
    ensures DmsChars(a + [':'] + b + [':'] + c)
  {
    var v := a + [':'] + b + [':'] + c;
    forall k | 0 <= k < |v|
      ensures IsDigit(v[k]) || v[k] == ':' || v[k] == '.'
    {
      if k < |a| {
        assert v[k] == a[k];
      } else if |a| < k < |a| + 1 + |b| {
        assert v[k] == b[k - |a| - 1];
      } else if k > |a| + 1 + |b| {
        assert v[k] == c[k - |a| - |b| - 2];
      }
    }
  }

  /** The shape of the three parts of an accepted text, as the check guarantees them. */
  predicate AcceptedParts(p: seq<string>) {
    |p| == 3 && p[0] != [] && AllDigits(p[0]) && p[1] != [] && AllDigits(p[1]) && NatValue(p[1]) < 60
    && SecondsPattern(p[2]) && ParseFloat(p[2]).Some? && ParseFloat(p[2]).value < 60.0
  }

  /** What the degrees-minutes-seconds check demands of the parts. */
  lemma AcceptedFields(v: string)
    requires ValidateDegreeFormat(v, DegMinSec)
    ensures AcceptedParts(Split(v, ':'))
  {
  }

  /** Parts of that shape joined by colons: digits, colons and points only. */
  lemma PartsChars(v: string)
    requires var p := Split(v, ':');
      |p| == 3 && p[0] != [] && AllDigits(p[0]) && AllDigits(p[1]) && SecondsPattern(p[2])
    ensures DmsChars(v) && v != [] && IsDigit(v[0]) && IsDigit(v[|v| - 1])
  {
    var p := Split(v, ':');
    ThreeParts(v);
    JoinedShape(p[0], p[1], p[2]);
  }

  /** The same for three given pieces. */
  lemma JoinedShape(a: string, b: string, c: string)
    requires a != [] && AllDigits(a) && AllDigits(b) && SecondsPattern(c)
    ensures var v := a + [':'] + b + [':'] + c; DmsChars(v) && v != [] && IsDigit(v[0]) && IsDigit(v[|v| - 1])
  {
    var v := a + [':'] + b + [':'] + c;
    SecondsShape(c);
    JoinedChars(a, b, c);
    assert v[0] == a[0] && v[|v| - 1] == c[|c| - 1];
  }

  /** A seconds piece reads as a non-negative number. */
  lemma SecondsRead(c: string)
    requires SecondsPattern(c) && ParseFloat(c).Some?
    ensures ParseFloat(c).value >= 0.0
  {
    SecondsShape(c);
    DigitLedNonNegative(c);
  }

  /** Parts of that shape joined by colons: the fields are in range and the table reader sums them. */
  lemma PartsRead(v: string, sec: real)
    requires var p := Split(v, ':');
      |p| == 3 && p[0] != [] && AllDigits(p[0]) && p[1] != [] && AllDigits(p[1]) && NatValue(p[1]) < 60
      && ParseFloat(p[2]) == Some(sec) && 0.0 <= sec < 60.0
    ensures ':' in v
    ensures var p := Split(v, ':');
      TransformPage.DmsFields(v) == Some(TransformPage.Dms(NatValue(p[0]) as real, NatValue(p[1]) as real, sec))
  {
    var p := Split(v, ':');
    ThreeParts(v);
    assert v[|p[0]|] == ':';
    ParseFloatDigits(p[0]);
    ParseFloatDigits(p[1]);
  }

  /** A colon text with non-negative degrees reads as the plain sum of its fields. */
  lemma ReadDms(v: string, d: real, m: real, sec: real)
    requires ':' in v && TransformPage.DmsFields(v) == Some(TransformPage.Dms(d, m, sec)) && d >= 0.0
    ensures GetCoordinateValue(v).Some? && GetCoordinateValue(v).value == d + m / 60.0 + sec / 3600.0
  {
    DmsNonNegative(d, m, sec);
  }

  /** An accepted text holds digits, colons and points only: no sign and no whitespace anywhere. */
  lemma AcceptedChars(v: string)
    requires ValidateDegreeFormat(v, DegMinSec)
    ensures DmsChars(v) && v != [] && IsDigit(v[0]) && IsDigit(v[|v| - 1])
  {
    AcceptedFields(v);
    PartsChars(v);
  }

  /**
   * The fields of an accepted text: the degrees and minutes are digit strings, the minutes
   * and seconds lie in [0, 60).
   */
  lemma DmsAccepted(v: string)
    requires ValidateDegreeFormat(v, DegMinSec)
    ensures ':' in v
    ensures var p := Split(v, ':');
      |p| == 3 && AllDigits(p[0]) && AllDigits(p[1]) && NatValue(p[1]) < 60
      && ParseFloat(p[2]).Some? && 0.0 <= ParseFloat(p[2]).value < 60.0
      && TransformPage.DmsFields(v)
         == Some(TransformPage.Dms(NatValue(p[0]) as real, NatValue(p[1]) as real, ParseFloat(p[2]).value))
  {
    AcceptedFields(v);
    var p := Split(v, ':');
    SecondsRead(p[2]);
    PartsRead(v, ParseFloat(p[2]).value);
  }

  /** The table reader gives an accepted text the value d + m/60 + s/3600 of its three fields. */
  lemma AcceptedValue(v: string)
    requires ValidateDegreeFormat(v, DegMinSec)
    ensures var p := Split(v, ':');
      |p| == 3 && AllDigits(p[0]) && AllDigits(p[1]) && ParseFloat(p[2]).Some? && GetCoordinateValue(v).Some?
      && GetCoordinateValue(v).value
         == NatValue(p[0]) as real + NatValue(p[1]) as real / 60.0 + ParseFloat(p[2]).value / 3600.0
  {
    DmsAccepted(v);
    var p := Split(v, ':');
    ReadDms(v, NatValue(p[0]) as real, NatValue(p[1]) as real, ParseFloat(p[2]).value);
  }

  /** A text of digits, colons and points that starts and ends with a digit is left alone by strip and degree-sign removal. */
  lemma BareText(v: string)
    requires DmsChars(v) && v != [] && IsDigit(v[0]) && IsDigit(v[|v| - 1])
    ensures Remove(Strip(v), '°') == v
  {
    assert forall k :: 0 <= k < |v| ==> v[k] != '°';
    BareUnchanged(v);
  }

  /** An accepted text has no whitespace at its ends and no degree sign. */
  lemma AcceptedBare(v: string)
    requires ValidateDegreeFormat(v, DegMinSec)
    ensures Remove(Strip(v), '°') == v
  {
    AcceptedChars(v);
    BareText(v);
  }

  /**
   * On a text the degrees-minutes-seconds check accepts, the table reader and the transform
   * page's `parse_dms_to_decimal` give the same value.
   */
  lemma ReadersAgree(v: string)
    requires ValidateDegreeFormat(v, DegMinSec)
    ensures TransformPage.ParseDmsToDecimal(v) == GetCoordinateValue(v)
  {
    DmsAccepted(v);
    AcceptedBare(v);
    var p := Split(v, ':');
    SameReading(v, TransformPage.Dms(NatValue(p[0]) as real, NatValue(p[1]) as real, ParseFloat(p[2]).value));
  }

  /** Both readers agree on a bare colon text whose minutes and seconds are below 60. */
  lemma SameReading(v: string, f: TransformPage.Dms)
    requires ':' in v && Remove(Strip(v), '°') == v
    requires TransformPage.DmsFields(v) == Some(f) && f.min < 60.0 && f.sec < 60.0
    ensures TransformPage.ParseDmsToDecimal(v) == GetCoordinateValue(v)
  {
  }

  /**
   * The table reader has no range check: a cell such as `10:75:0` (possible after an import)
   * is read, where `parse_dms_to_decimal` rejects it.
   */
  lemma ReaderAcceptsLargeMinutes(v: string, f: TransformPage.Dms)
    requires ':' in v && '°' !in v && (v == [] || (!IsSpace(v[0]) && !IsSpace(v[|v| - 1])))
    requires TransformPage.DmsFields(v) == Some(f) && f.min >= 60.0
    ensures GetCoordinateValue(v).Some?
    ensures TransformPage.ParseDmsToDecimal(v).None?
  {
    BareUnchanged(v);
    BareRejectsLargeMinutes(v, f);
  }

  /** Without whitespace at its ends and without a degree sign, a text reaches the angle reader unchanged. */
  lemma BareUnchanged(v: string)
    requires '°' !in v && (v == [] || (!IsSpace(v[0]) && !IsSpace(v[|v| - 1])))
    ensures Remove(Strip(v), '°') == v
  {
    StripUnchanged(v);
  }

  /** `parse_dms_to_decimal` rejects a bare colon text whose minutes are 60 or more. */
  lemma BareRejectsLargeMinutes(v: string, f: TransformPage.Dms)
    requires ':' in v && Remove(Strip(v), '°') == v
    requires TransformPage.DmsFields(v) == Some(f) && f.min >= 60.0
    ensures TransformPage.ParseDmsToDecimal(v).None?
  {
  }

  // ---------------------------------------------------------------------------
  // Checking the six input fields
  // ---------------------------------------------------------------------------

  /** Which message box a side's check shows. */
  datatype SideFault = BadAngles | BadHeight | BadXyz

  /** The checks of one side (B, L, H or X, Y, Z), in the order the handler makes them. */
  function CheckSide(v: seq<string>, isBlh: bool, unit: AngleUnit): (r: Option<SideFault>)
    requires |v| == 3
    ensures isBlh ==> (r.None? <==> ValidateDegreeFormat(v[0], unit) && ValidateDegreeFormat(v[1], unit)
                                     && ValidateXyzFormat(v[2]))
    ensures isBlh && r.Some? ==> (r.value == BadAngles <==>
                                  !(ValidateDegreeFormat(v[0], unit) && ValidateDegreeFormat(v[1], unit)))
    ensures !isBlh ==> (r.None? <==> ValidateXyzFormat(v[0]) && ValidateXyzFormat(v[1]) && ValidateXyzFormat(v[2]))
    ensures !isBlh ==> r != Some(BadAngles) && r != Some(BadHeight)
  {
    if isBlh then
      if !(ValidateDegreeFormat(v[0], unit) && ValidateDegreeFormat(v[1], unit)) then Some(BadAngles)
      else if !ValidateXyzFormat(v[2]) then Some(BadHeight)
      else None
    else
      if !(ValidateXyzFormat(v[0]) && ValidateXyzFormat(v[1]) && ValidateXyzFormat(v[2])) then Some(BadXyz)
      else None
  }

  /** Why `on_add_clicked` or `on_save_clicked` refuses the input. */
  datatype InputFault = EmptyField | SourceFault(side: SideFault) | TargetFault(side: SideFault)

  /** The radio buttons and unit combo boxes the checks depend on. */
  datatype Modes = Modes(sourceIsBlh: bool, sourceUnit: AngleUnit, targetIsBlh: bool, targetUnit: AngleUnit)

  /** The input checks shared by add and save: empty fields first, then the source side, then the target side. */
  function CheckInputs(values: seq<string>, m: Modes): (r: Option<InputFault>)
    requires |values| == 6
    ensures r == Some(EmptyField) <==> "" in values
    ensures r.None? <==> "" !in values
                         && CheckSide(values[..3], m.sourceIsBlh, m.sourceUnit).None?
                         && CheckSide(values[3..], m.targetIsBlh, m.targetUnit).None?
    ensures r.Some? && r.value.TargetFault? ==> CheckSide(values[..3], m.sourceIsBlh, m.sourceUnit).None?
  {
    if "" in values then Some(EmptyField)
    else
      match CheckSide(values[..3], m.sourceIsBlh, m.sourceUnit)
      case Some(f) => Some(SourceFault(f))
      case None =>
        match CheckSide(values[3..], m.targetIsBlh, m.targetUnit)
        case Some(f) => Some(TargetFault(f))
        case None => None
  }

  /** Six empty input fields, as `clear_inputs` leaves them. */
  const Cleared: seq<string> := ["", "", "", "", "", ""]

  // ---------------------------------------------------------------------------
  // Reading the selected rows for the calculation
  // ---------------------------------------------------------------------------

  /** `table.setColumnCount(8)`: the check box, six coordinate columns and the RMS column. */
  const ColumnCount: nat := 8

  /** The entries of the non-editable reference-system combo boxes. */
  const SystemItems: seq<string> := ["WGS-84坐标系", "北京54坐标系"]

  /** `"WGS84" if "WGS-84" in currentText() else "Beijing54"`. */
  function SystemOf(comboText: string): (e: TransformPage.Ellipsoid)
    ensures e == TransformPage.WGS84 <==> Contains(comboText, "WGS-84")
  {
    if Contains(comboText, "WGS-84") then TransformPage.WGS84 else TransformPage.Beijing54
  }

  /**
   * One side of a row as the calculation reads it: three `get_coordinate_value` calls, and
   * for a BLH side B and L to radians with H kept, then `*_BLH2XYZ` of the side's ellipsoid.
   */
  function SidePoint(cells: seq<string>, isBlh: bool, e: TransformPage.Ellipsoid,
                     g: TransformPage.Geodesy): (r: Option<seq<real>>)
    requires |cells| == 3
    ensures r.Some? <==> GetCoordinateValue(cells[0]).Some? && GetCoordinateValue(cells[1]).Some? && GetCoordinateValue(cells[2]).Some?
    ensures r.Some? ==> |r.value| == 3
    ensures r.Some? && !isBlh ==>
      r.value == [GetCoordinateValue(cells[0]).value, GetCoordinateValue(cells[1]).value,
                  GetCoordinateValue(cells[2]).value]
    ensures r.Some? && isBlh ==>
      var q := g.blhToXyz(e, g.radians(GetCoordinateValue(cells[0]).value),
                          g.radians(GetCoordinateValue(cells[1]).value), GetCoordinateValue(cells[2]).value);
      r.value == [q.x, q.y, q.z]
  {
    var a, b, c := GetCoordinateValue(cells[0]), GetCoordinateValue(cells[1]), GetCoordinateValue(cells[2]);
    if a.None? || b.None? || c.None? then None
    else if isBlh then
      var q := g.blhToXyz(e, g.radians(a.value), g.radians(b.value), c.value);
      Some([q.x, q.y, q.z])
    else
      Some([a.value, b.value, c.value])
  }

  /** The settings `on_calculate_clicked` reads besides the table. */
  datatype Frames = Frames(sourceIsBlh: bool, sourceSystem: TransformPage.Ellipsoid,
                           targetIsBlh: bool, targetSystem: TransformPage.Ellipsoid)

  /** One table row read as a (source, target) pair of coordinate triples; a row without six cells does not read. */
  function RowRead(cells: seq<string>, fr: Frames, g: TransformPage.Geodesy): (r: Option<(seq<real>, seq<real>)>)
    ensures r.Some? <==> |cells| == 6 && SidePoint(cells[..3], fr.sourceIsBlh, fr.sourceSystem, g).Some?
                         && SidePoint(cells[3..], fr.targetIsBlh, fr.targetSystem, g).Some?
    ensures r.Some? ==> r.value.0 == SidePoint(cells[..3], fr.sourceIsBlh, fr.sourceSystem, g).value
                        && r.value.1 == SidePoint(cells[3..], fr.targetIsBlh, fr.targetSystem, g).value
    ensures r.Some? ==> |r.value.0| == 3 && |r.value.1| == 3
  {
    if |cells| != 6 then None
    else
      var s := SidePoint(cells[..3], fr.sourceIsBlh, fr.sourceSystem, g);
      var t := SidePoint(cells[3..], fr.targetIsBlh, fr.targetSystem, g);
      if s.None? || t.None? then None else Some((s.value, t.value))
  }

  function RowReader(fr: Frames, g: TransformPage.Geodesy): (read: Reader)
    ensures forall cells :: read(cells) == RowRead(cells, fr, g)
  {
    cells => RowRead(cells, fr, g)
  }

  // ---------------------------------------------------------------------------
  // Writing the RMS column
  // ---------------------------------------------------------------------------

  /** `sqrt(sum(residuals[i]**2))`, the RMS shown for one point. */
  function PointRms(v: SevenPar.Point3, sqrt: real -> real): real {
    sqrt(v.x * v.x + v.y * v.y + v.z * v.z)
  }

  /** Column 7 of row `sel[k]` set to `texts[k]`, for each `k` in turn. */
  function PutRms(rows: seq<Row>, sel: seq<nat>, texts: seq<string>): (r: seq<Row>)
    requires |sel| == |texts| && forall k :: 0 <= k < |sel| ==> sel[k] < |rows|
    ensures |r| == |rows|
  {
    if sel == [] then rows
    else
      var n := |sel| - 1;
      var prev := PutRms(rows, sel[..n], texts[..n]);
      prev[sel[n] := prev[sel[n]].(rms := Some(texts[n]))]
  }

  /**
   * With distinct row indices, each selected row shows its own RMS text and keeps its tick
   * and coordinates; every other row is untouched.
   */
  lemma {:induction false} PutRmsAt(rows: seq<Row>, sel: seq<nat>, texts: seq<string>, j: nat)
    requires |sel| == |texts| && forall k :: 0 <= k < |sel| ==> sel[k] < |rows|
    requires forall k, l :: 0 <= k < l < |sel| ==> sel[k] < sel[l]
    requires j < |rows|
    ensures var r := PutRms(rows, sel, texts);
      r[j].checked == rows[j].checked && r[j].cells == rows[j].cells
      && (forall k :: 0 <= k < |sel| && sel[k] == j ==> r[j].rms == Some(texts[k]))
      && (j !in sel ==> r[j] == rows[j])
  {
    if sel != [] {
      var n := |sel| - 1;
      assert forall k :: 0 <= k < n ==> sel[..n][k] == sel[k] && texts[..n][k] == texts[k];
      PutRmsAt(rows, sel[..n], texts[..n], j);
      assert j !in sel[..n] ==> j !in sel || j == sel[n];
    }
  }

  /** Writing RMS texts leaves every row's coordinates as they were. */
  lemma {:induction false} PutRmsKeepsCells(rows: seq<Row>, sel: seq<nat>, texts: seq<string>)
    requires |sel| == |texts| && forall k :: 0 <= k < |sel| ==> sel[k] < |rows|
    ensures forall i :: 0 <= i < |rows| ==> PutRms(rows, sel, texts)[i].cells == rows[i].cells
  {
    if sel != [] {
      var n := |sel| - 1;
      PutRmsKeepsCells(rows, sel[..n], texts[..n]);
    }
  }

  /** The RMS texts of the points, in order. */
  function RmsTexts(residuals: seq<SevenPar.Point3>, sqrt: real -> real, fmt: real -> string): (t: seq<string>)
    ensures |t| == |residuals| && forall k :: 0 <= k < |t| ==> t[k] == fmt(PointRms(residuals[k], sqrt))
  {
    seq(|residuals|, k requires 0 <= k < |residuals| => fmt(PointRms(residuals[k], sqrt)))
  }

  /** The loop `for i, row in enumerate(selected_rows): table.setItem(row, 7, ...)`. */
  method WriteRms(rows: seq<Row>, sel: seq<nat>, residuals: seq<SevenPar.Point3>,
                  sqrt: real -> real, fmt: real -> string) returns (r: seq<Row>, texts: seq<string>)
    requires |residuals| == |sel| && forall k :: 0 <= k < |sel| ==> sel[k] < |rows|
    ensures texts == RmsTexts(residuals, sqrt, fmt)
    ensures r == PutRms(rows, sel, texts)
  {
    r, texts := rows, [];
    var i := 0;
    while i < |sel|
      invariant 0 <= i <= |sel| && |texts| == i
      invariant forall k :: 0 <= k < i ==> texts[k] == fmt(PointRms(residuals[k], sqrt))
      invariant r == PutRms(rows, sel[..i], texts)
    {
      var text := fmt(PointRms(residuals[i], sqrt));
      assert sel[..i + 1][..i] == sel[..i];
      assert (texts + [text])[..i] == texts;
      texts := texts + [text];
      r := r[sel[i] := r[sel[i]].(rms := Some(text))];
      i := i + 1;
    }
    assert sel[..|sel|] == sel;
    assert texts == RmsTexts(residuals, sqrt, fmt);
  }

  /** The seven result fields: DX, DY, DZ in metres, WX, WY, WZ in radians, K with the metre suffix as written. */
  function ResultTexts(p: SevenPar.SevenParams, fmt: real -> string): (r: seq<string>)
    ensures |r| == 7
    ensures r[0] == fmt(p.dx) + " m" && r[1] == fmt(p.dy) + " m" && r[2] == fmt(p.dz) + " m"
    ensures r[3] == fmt(p.ex) + " rad" && r[4] == fmt(p.ey) + " rad" && r[5] == fmt(p.ez) + " rad"
    ensures r[6] == fmt(p.m) + " m"
  {
    [fmt(p.dx) + " m", fmt(p.dy) + " m", fmt(p.dz) + " m",
     fmt(p.ex) + " rad", fmt(p.ey) + " rad", fmt(p.ez) + " rad", fmt(p.m) + " m"]
  }

  /** Rows that read give (n, 3)-shaped coordinate lists, so the fit's shape check passes. */
  lemma CoordinatesShaped(rows: seq<Row>, sel: seq<nat>, fr: Frames, g: TransformPage.Geodesy)
    requires forall k :: 0 <= k < |sel| ==> sel[k] < |rows|
    requires |sel| >= 3 && Coordinates(rows, sel, RowReader(fr, g)).Some?
    ensures var c := Coordinates(rows, sel, RowReader(fr, g)).value;
      SevenPar.CheckInput(c.0, c.1).None?
  {
    var c := Coordinates(rows, sel, RowReader(fr, g)).value;
    forall k | 0 <= k < |sel|
      ensures |c.0[k]| == 3 && |c.1[k]| == 3
    {
      assert RowRead(rows[sel[k]].cells, fr, g) == Some((c.0[k], c.1[k]));
    }
  }

  /**
   * What `on_calculate_clicked` ends in for a table and the current frames: too few ticked
   * rows, a row that does not read, a singular system, or the fit of the ticked rows taken
   * in row order.
   */
  function Calculation(rows: seq<Row>, fr: Frames, g: TransformPage.Geodesy,
                       solve: (Linear.Matrix, Linear.Vector) -> Option<SevenPar.SevenParams>,
                       sqrt: real -> real, std: seq<real> -> real): (o: CalcOutcome)
    ensures o == TooFewPoints <==> |Selected(rows)| < 3
    ensures o == ReadFailed <==> |Selected(rows)| >= 3 && Coordinates(rows, Selected(rows), RowReader(fr, g)).None?
    ensures o.Computed? ==> |o.fit.residuals| == |Selected(rows)|
  {
    var sel := Selected(rows);
    if |sel| < 3 then TooFewPoints
    else
      var co := Coordinates(rows, sel, RowReader(fr, g));
      if co.None? then ReadFailed
      else
        CoordinatesShaped(rows, sel, fr, g);
        FitOutcome(co.value.0, co.value.1, solve, sqrt, std)
  }

  /**
   * The work of `on_calculate_clicked` on the table: collect the ticked rows, read them,
   * fit, and write the RMS text of each fitted point into its row.
   */
  method Calculate(rows: seq<Row>, fr: Frames, g: TransformPage.Geodesy,
                   solve: (Linear.Matrix, Linear.Vector) -> Option<SevenPar.SevenParams>,
                   sqrt: real -> real, std: seq<real> -> real, fmt4: real -> string)
    returns (o: CalcOutcome, written: seq<Row>)
    ensures o == Calculation(rows, fr, g, solve, sqrt, std)
    ensures o.Computed? ==> written == PutRms(rows, Selected(rows), RmsTexts(o.fit.residuals, sqrt, fmt4))
    ensures !o.Computed? ==> written == rows
    ensures |written| == |rows| && forall i :: 0 <= i < |rows| ==> written[i].cells == rows[i].cells
  {
    written := rows;
    var sel := CollectSelected(rows);
    if |sel| < 3 {
      return TooFewPoints, written;
    }
    var coords := ReadCoordinates(rows, sel, RowReader(fr, g));
    if coords.None? {
      return ReadFailed, written;
    }
    CoordinatesShaped(rows, sel, fr, g);
    o, written := FitSelected(rows, sel, coords.value.0, coords.value.1, solve, sqrt, std, fmt4);
  }

  /** The outcome of fitting coordinate lists that passed the shape check. */
  function FitOutcome(src: seq<seq<real>>, tgt: seq<seq<real>>,
                      solve: (Linear.Matrix, Linear.Vector) -> Option<SevenPar.SevenParams>,
                      sqrt: real -> real, std: seq<real> -> real): (o: CalcOutcome)
    requires SevenPar.CheckInput(src, tgt).None?
    ensures o.Computed? || o == FitFailed(SevenPar.SingularSystem)
    ensures o.Computed? ==> |o.fit.residuals| == |src|
  {
    var sp, tp := SevenPar.ToPoints(src), SevenPar.ToPoints(tgt);
    match solve(SevenPar.Normal(sp), SevenPar.RightHandSide(sp, tp))
    case None => FitFailed(SevenPar.SingularSystem)
    case Some(p) => Computed(SevenPar.Report(sp, tp, p, sqrt, std))
  }

  /** `bursa_seven_parameters` on the ticked rows, then the RMS column. */
  method FitSelected(rows: seq<Row>, sel: seq<nat>, src: seq<seq<real>>, tgt: seq<seq<real>>,
                     solve: (Linear.Matrix, Linear.Vector) -> Option<SevenPar.SevenParams>,
                     sqrt: real -> real, std: seq<real> -> real, fmt4: real -> string)
    returns (o: CalcOutcome, written: seq<Row>)
    requires IsSelection(rows, sel) && |src| == |sel|
    requires SevenPar.CheckInput(src, tgt).None?
    ensures o == FitOutcome(src, tgt, solve, sqrt, std)
    ensures o.Computed? ==> written == PutRms(rows, sel, RmsTexts(o.fit.residuals, sqrt, fmt4))
    ensures !o.Computed? ==> written == rows
    ensures |written| == |rows| && forall i :: 0 <= i < |rows| ==> written[i].cells == rows[i].cells
  {
    var fit := SevenPar.BursaSevenParameters(src, tgt, solve, sqrt, std);
    if fit.Err? {
      return FitFailed(fit.error), rows;
    }
    var texts;
    written, texts := WriteRms(rows, sel, fit.value.residuals, sqrt, fmt4);
    PutRmsKeepsCells(rows, sel, texts);
    return Computed(fit.value), written;
  }

  // ---------------------------------------------------------------------------
  // The page
  // ---------------------------------------------------------------------------

  datatype SaveOutcome = NotEditing | SaveRejected(fault: InputFault) | Saved
  datatype DeleteOutcome = NoneSelected | Declined | Deleted(count: nat)
  datatype CalcOutcome = TooFewPoints | ReadFailed | FitFailed(error: SevenPar.FitError) | Computed(fit: SevenPar.SevenFit)

  class Page {
    /** The table rows. */
    var rows: seq<Row>
    /** `self.editing_row`. */
    var editingRow: Option<nat>
    /** The texts of `b_input`, `l_input`, `h_input`, `x_input`, `y_input`, `h2_input`. */
    var inputs: seq<string>
    /** `blh_radio1` / `blh_radio2` checked. */
    var sourceIsBlh: bool
    var targetIsBlh: bool
    /** The current texts of `unit_combo1` / `unit_combo2`. */
    var sourceUnit: AngleUnit
    var targetUnit: AngleUnit
    /** The current texts of `coord_system1` / `coord_system2`. */
    var sourceSystem: string
    var targetSystem: string
    /** The texts of the seven result fields `dx_result` .. `k_result`. */
    var resultTexts: seq<string>

    ghost predicate Valid()
      reads this
    {
      |inputs| == 6 && |resultTexts| == 7 && sourceSystem in SystemItems && targetSystem in SystemItems
      && forall i :: 0 <= i < |rows| ==> |rows[i].cells| == 6
    }

    /** The state `__init__` / `setup_ui` leave: BLH on both sides, the first combo entries. */
    constructor ()
      ensures Valid()
      ensures rows == [] && editingRow == None && inputs == Cleared
      ensures sourceIsBlh && targetIsBlh && sourceUnit == DegMinSec && targetUnit == DegMinSec
      ensures sourceSystem == "WGS-84坐标系" && targetSystem == "北京54坐标系"
      ensures resultTexts == ["", "", "", "", "", "", ""]
    {
      rows := [];
      editingRow := None;
      inputs := Cleared;
      sourceIsBlh, targetIsBlh := true, true;
      sourceUnit, targetUnit := DegMinSec, DegMinSec;
      sourceSystem, targetSystem := "WGS-84坐标系", "北京54坐标系";
      resultTexts := ["", "", "", "", "", "", ""];
    }

    /** The six input texts with `.strip()` applied. */
    function Entered(): (v: seq<string>)
      reads this
      requires Valid()
      ensures |v| == 6 && forall i :: 0 <= i < 6 ==> v[i] == Strip(inputs[i])
    {
      var texts := inputs;
      seq(6, i requires 0 <= i < 6 => Strip(texts[i]))
    }

    function CurrentModes(): Modes
      reads this
    {
      Modes(sourceIsBlh, sourceUnit, targetIsBlh, targetUnit)
    }

    /**
     * `on_add_clicked`: when every check passes, one unticked row with the stripped texts is
     * appended and the inputs are cleared; otherwise nothing changes.
     */
    method OnAddClicked() returns (fault: Option<InputFault>)
      requires Valid()
      modifies this`rows, this`inputs
      ensures Valid()
      ensures fault == CheckInputs(old(Entered()), old(CurrentModes()))
      ensures fault.None? ==> rows == old(rows) + [Row(false, old(Entered()), None)] && inputs == Cleared
      ensures fault.Some? ==> rows == old(rows) && inputs == old(inputs)
    {
      var values := Entered();
      fault := CheckInputs(values, CurrentModes());
      if fault.None? {
        AppendRow(values);
      }
    }

    /** `add_point_to_table` followed by `clear_inputs`. */
    method AppendRow(values: seq<string>)
      requires Valid() && |values| == 6
      modifies this`rows, this`inputs
      ensures Valid()
      ensures rows == old(rows) + [Row(false, values, None)] && inputs == Cleared
    {
      rows := rows + [Row(false, values, None)];
      inputs := Cleared;
    }

    /**
     * `on_edit_clicked`: with exactly one row ticked, that row becomes the editing row and its
     * texts are loaded into the inputs; otherwise nothing changes.
     */
    method OnEditClicked() returns (r: Result<nat, EditRefusal>)
      requires Valid()
      modifies this`editingRow, this`inputs
      ensures Valid()
      ensures r == EditTarget(rows)
      ensures r.Ok? ==> editingRow == Some(r.value) && inputs == rows[r.value].cells
      ensures r.Err? ==> editingRow == old(editingRow) && inputs == old(inputs)
    {
      var sel := CollectSelected(rows);
      if |sel| == 0 {
        return Err(NothingSelected);
      } else if |sel| > 1 {
        return Err(SeveralSelected);
      }
      var row := sel[0];
      editingRow := Some(row);
      inputs := rows[row].cells;
      return Ok(row);
    }

    /**
     * `on_save_clicked`: without an editing row nothing happens; when the checks pass,
     * columns 1-6 of the editing row get the stripped texts, its tick is cleared, the inputs
     * are cleared and the editing row is reset.
     */
    method OnSaveClicked() returns (o: SaveOutcome)
      requires Valid()
      modifies this`rows, this`inputs, this`editingRow
      ensures Valid()
      ensures old(editingRow).None? ==> o == NotEditing && rows == old(rows) && inputs == old(inputs) && editingRow == None
      ensures old(editingRow).Some? ==>
        match CheckInputs(old(Entered()), CurrentModes())
        case Some(f) => o == SaveRejected(f) && rows == old(rows) && inputs == old(inputs) && editingRow == old(editingRow)
        case None => o == Saved && rows == Overwrite(old(rows), old(editingRow).value, old(Entered()))
                     && inputs == Cleared && editingRow == None
    {
      if editingRow.None? {
        return NotEditing;
      }
      var current := editingRow.value;
      var values := Entered();
      var fault := CheckInputs(values, CurrentModes());
      if fault.Some? {
        return SaveRejected(fault.value);
      }
      CommitEdit(current, values);
      return Saved;
    }

    /** The writes of `on_save_clicked` once the checks pass: the row, then `clear_inputs` and the reset of `editing_row`. */
    method CommitEdit(at: nat, values: seq<string>)
      requires Valid() && |values| == 6
      modifies this`rows, this`inputs, this`editingRow
      ensures Valid()
      ensures rows == Overwrite(old(rows), at, values) && inputs == Cleared && editingRow == None
    {
      rows := Overwrite(rows, at, values);
      inputs := Cleared;
      editingRow := None;
    }

    /**
     * `on_delete_clicked` with the answer of the confirmation box: all ticked rows go, the
     * rest keep their order; the editing state is reset only when the editing row was ticked.
     */
    method OnDeleteClicked(confirmed: bool) returns (o: DeleteOutcome)
      requires Valid()
      modifies this`rows, this`inputs, this`editingRow
      ensures Valid()
      ensures var sel := Selected(old(rows));
        if sel == [] then o == NoneSelected && rows == old(rows) && inputs == old(inputs) && editingRow == old(editingRow)
        else if !confirmed then o == Declined && rows == old(rows) && inputs == old(inputs) && editingRow == old(editingRow)
        else o == Deleted(|sel|) && rows == Unchecked(old(rows))
             && (if old(editingRow).Some? && old(editingRow).value in sel
                 then inputs == Cleared && editingRow == None
                 else inputs == old(inputs) && editingRow == old(editingRow))
    {
      var sel := CollectSelected(rows);
      if sel == [] {
        return NoneSelected;
      }
      if !confirmed {
        return Declined;
      }
      var kept := RemoveSelected(rows, sel);
      forall i | 0 <= i < |kept|
        ensures |kept[i].cells| == 6
      {
        UncheckedMembers(rows, kept[i]);
      }
      rows := kept;
      if editingRow.Some? && editingRow.value in sel {
        inputs := Cleared;
        editingRow := None;
      }
      return Deleted(|sel|);
    }

    /** `on_header_clicked(logicalIndex)`. */
    method OnHeaderClicked(logicalIndex: int)
      requires Valid()
      modifies this`rows
      ensures Valid()
      ensures rows == HeaderToggle(old(rows), logicalIndex)
    {
      if logicalIndex == 0 && |rows| != 0 {
        var all := FindAllChecked(rows);
        rows := SetAllChecks(rows, !all);
      }
    }

    /** The frames the calculation reads from the radio buttons and the ellipsoid combo boxes. */
    function CurrentFrames(): Frames
      reads this
    {
      Frames(sourceIsBlh, SystemOf(sourceSystem), targetIsBlh, SystemOf(targetSystem))
    }

    /**
     * `on_calculate_clicked`: fewer than three ticked rows are refused; otherwise the ticked
     * rows are read in row order and fitted, and on success the result fields and the RMS
     * column of the ticked rows are written. A failed read or fit changes nothing.
     */
    method OnCalculateClicked(g: TransformPage.Geodesy,
                              solve: (Linear.Matrix, Linear.Vector) -> Option<SevenPar.SevenParams>,
                              sqrt: real -> real, std: seq<real> -> real,
                              fmt8: real -> string, fmt4: real -> string) returns (o: CalcOutcome)
      requires Valid()
      modifies this`rows, this`resultTexts
      ensures Valid()
      ensures o == Calculation(old(rows), old(CurrentFrames()), g, solve, sqrt, std)
      ensures o.Computed? ==> resultTexts == ResultTexts(o.fit.parameters, fmt8)
                              && rows == PutRms(old(rows), Selected(old(rows)), RmsTexts(o.fit.residuals, sqrt, fmt4))
      ensures !o.Computed? ==> rows == old(rows) && resultTexts == old(resultTexts)
    {
      var written;
      o, written := Calculate(rows, CurrentFrames(), g, solve, sqrt, std, fmt4);
      if o.Computed? {
        ShowFit(ResultTexts(o.fit.parameters, fmt8), written);
      }
    }

    /** The result fields and the RMS column written by a successful calculation. */
    method ShowFit(results: seq<string>, written: seq<Row>)
      requires Valid() && |results| == 7
      requires |written| == |rows| && forall i :: 0 <= i < |written| ==> written[i].cells == rows[i].cells
      modifies this`rows, this`resultTexts
      ensures Valid()
      ensures resultTexts == results && rows == written
    {
      rows := written;
      resultTexts := results;
    }
  }
}
