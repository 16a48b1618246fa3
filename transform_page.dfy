/**
 * The coordinate transform page of `src/gui/pages/transform_page.py`: reading the input
 * fields, the degrees-minutes-seconds parser, the central-meridian default, the coordinate
 * labels, and the routing of one point through source conversion, the seven- or
 * four-parameter transform, and target conversion. The geodetic converters and the
 * degree/radian conversions are fields of a `Geodesy` record and are not interpreted.
 */
module TransformPage {
  import opened Wrappers
  import opened Text
  import opened Angles
  import FourPar
  import SevenPar
  import GaussZone

  // ---------------------------------------------------------------------------
  // Angles as text
  // ---------------------------------------------------------------------------

  datatype Dms = Dms(deg: real, min: real, sec: real)

  /** `parts = t.split(':')`, exactly three of them, each read by `float()`. */
  function DmsFields(t: string): (r: Option<Dms>)
    ensures r.Some? <==> var parts := Split(t, ':');
      |parts| == 3 && ParseFloat(parts[0]).Some? && ParseFloat(parts[1]).Some? && ParseFloat(parts[2]).Some?
    ensures r.Some? ==> var parts := Split(t, ':');
      r.value == Dms(ParseFloat(parts[0]).value, ParseFloat(parts[1]).value, ParseFloat(parts[2]).value)
  {
    var parts := Split(t, ':');
    if |parts| != 3 then None
    else
      var d, m, s := ParseFloat(parts[0]), ParseFloat(parts[1]), ParseFloat(parts[2]);
      if d.Some? && m.Some? && s.Some? then Some(Dms(d.value, m.value, s.value)) else None
  }

  /**
   * The value of an angle text once stripped and without its degree sign: `d:m:s` with
   * minutes and seconds below 60, as sign(d) * (|d| + m/60 + s/3600); anything without a
   * colon as a plain number.
   */
  function DecimalOf(t: string): (r: Option<real>)
    ensures ':' !in t ==> r == ParseFloat(t)
    ensures ':' in t ==>
      (r.Some? <==> DmsFields(t).Some? && DmsFields(t).value.min < 60.0 && DmsFields(t).value.sec < 60.0)
    ensures ':' in t && r.Some? ==>
      r.value == DmsDegrees(DmsFields(t).value.deg, DmsFields(t).value.min, DmsFields(t).value.sec)
  {
    if ':' in t then
      match DmsFields(t)
      case None => None
      case Some(f) =>
        if f.min >= 60.0 || f.sec >= 60.0 then None else Some(DmsDegrees(f.deg, f.min, f.sec))
    else
      ParseFloat(t)
  }

  /** `parse_dms_to_decimal`: strip, drop every degree sign, then read the angle (`None` for `ValueError`). */
  function ParseDmsToDecimal(s: string): (r: Option<real>)
    ensures r == DecimalOf(Remove(Strip(s), '°'))
  {
    DecimalOf(Remove(Strip(s), '°'))
  }

  /** A colon text that does not split into exactly three parts is rejected. */
  lemma DmsNeedsThreeParts(s: string)
    requires var t := Remove(Strip(s), '°'); ':' in t && |Split(t, ':')| != 3
    ensures ParseDmsToDecimal(s) == None
  {
  }

  /** Minutes or seconds of 60 or more are rejected. */
  lemma DmsRejectsSixty(s: string)
    requires var t := Remove(Strip(s), '°');
      ':' in t && DmsFields(t).Some? && (DmsFields(t).value.min >= 60.0 || DmsFields(t).value.sec >= 60.0)
    ensures ParseDmsToDecimal(s) == None
  {
  }

  /** Three colon-free pieces joined by colons split back into those pieces. */
  lemma SplitThree(a: string, b: string, c: string)
    requires ':' !in a && ':' !in b && ':' !in c
    ensures Split(a + ":" + b + ":" + c, ':') == [a, b, c]
  {
    var s := a + ":" + b + ":" + c;
    SplitFirst(b, c, [c]);
    assert s == a + ":" + (b + ":" + c);
    SplitFirst(a, b + ":" + c, [b, c]);
  }

  /** Splitting `a:rest` at its first colon gives `a` and then the parts of `rest`. */
  lemma SplitFirst(a: string, rest: string, parts: seq<string>)
    requires ':' !in a && Split(rest, ':') == parts
    ensures Split(a + ":" + rest, ':') == [a] + parts
  {
    var s := a + ":" + rest;
    assert IndexOf(s, ':') == |a| by {
      assert s[|a|] == ':' && s[..|a|] == a;
    }
    assert s[..|a|] == a && s[|a| + 1..] == rest;
  }

  /** A literal of three digit-or-sign pieces needs no stripping and has no degree sign. */
  lemma PlainAngleText(a: string, b: string, c: string)
    requires a != [] && c != [] && !IsSpace(a[0]) && !IsSpace(c[|c| - 1])
    requires '°' !in a && '°' !in b && '°' !in c
    ensures Remove(Strip(a + ":" + b + ":" + c), '°') == a + ":" + b + ":" + c
  {
    var s := a + ":" + b + ":" + c;
    assert s[0] == a[0] && s[|s| - 1] == c[|c| - 1];
    StripUnchanged(s);
    assert '°' !in s by {
      assert forall k :: 0 <= k < |s| ==> s[k] in a || s[k] == ':' || s[k] in b || s[k] in c;
    }
  }

  /** The angle text `a:b:c` built from three plain numbers. */
  lemma DmsText(a: string, b: string, c: string, d: real, m: real, sec: real)
    requires a != [] && c != [] && !IsSpace(a[0]) && !IsSpace(c[|c| - 1])
    requires ':' !in a && ':' !in b && ':' !in c && '°' !in a && '°' !in b && '°' !in c
    requires ParseFloat(a) == Some(d) && ParseFloat(b) == Some(m) && ParseFloat(c) == Some(sec)
    ensures ParseDmsToDecimal(a + ":" + b + ":" + c)
         == if m >= 60.0 || sec >= 60.0 then None else Some(DmsDegrees(d, m, sec))
  {
    PlainAngleText(a, b, c);
    FieldsOfParts(a, b, c, d, m, sec);
  }

  /** The fields of `a:b:c` are the three numbers the pieces read as. */
  lemma FieldsOfParts(a: string, b: string, c: string, d: real, m: real, sec: real)
    requires ':' !in a && ':' !in b && ':' !in c
    requires ParseFloat(a) == Some(d) && ParseFloat(b) == Some(m) && ParseFloat(c) == Some(sec)
    ensures ':' in a + ":" + b + ":" + c && DmsFields(a + ":" + b + ":" + c) == Some(Dms(d, m, sec))
  {
    var s := a + ":" + b + ":" + c;
    SplitThree(a, b, c);
    assert s[|a|] == ':';
  }

  /** A lone digit reads as its value. */
  lemma ParseDigit(t: string, c: char)
    requires t == [c] && IsDigit(c)
    ensures IsUnsignedDecimal(t) && NoSpaces(t)
    ensures ParseUnsigned(t) == Some(DigitValue(c) as real)
    ensures ParseFloat(t) == Some(DigitValue(c) as real)
  {
    ParseFloatDigits(t);
    assert t[..0] == [];
    var v := NatValue(t);
    assert v == NatValue(t[..0]) * 10 + DigitValue(c);
    assert v == DigitValue(c);
    assert NoSpaces(t) by {
      assert t[0] == c;
    }
  }

  /**
   * The sign is taken from the degrees only, and a degrees field such as `-0` reads as zero,
   * so an angle like `-0:30:0` comes out positive.
   */
  lemma MinusZeroDegrees(t: string, b: string, c: string, z: real, m: real, sec: real)
    requires IsUnsignedDecimal(t) && NoSpaces(t) && ParseUnsigned(t) == Some(z) && z == 0.0
    requires c != [] && !IsSpace(c[|c| - 1])
    requires ':' !in t && ':' !in b && ':' !in c && '°' !in t && '°' !in b && '°' !in c
    requires ParseFloat(b) == Some(m) && ParseFloat(c) == Some(sec)
    requires 0.0 <= m < 60.0 && 0.0 <= sec < 60.0
    ensures ParseDmsToDecimal("-" + t + ":" + b + ":" + c) == Some(m / 60.0 + sec / 3600.0)
  {
    var a := "-" + t;
    DmsNonNegative(-z, m, sec);
    var r := DmsDegrees(-z, m, sec);
    assert r == m / 60.0 + sec / 3600.0;
    NegatedText(t, z);
    DmsText(a, b, c, -z, m, sec);
    assert ParseDmsToDecimal(a + ":" + b + ":" + c) == Some(r);
  }

  /** A minus sign before an unsigned literal: the negated value, and no new colon or degree sign. */
  lemma NegatedText(t: string, v: real)
    requires IsUnsignedDecimal(t) && NoSpaces(t) && ParseUnsigned(t) == Some(v)
    requires ':' !in t && '°' !in t
    ensures var a := "-" + t; a != [] && !IsSpace(a[0]) && ParseFloat(a) == Some(-v) && ':' !in a && '°' !in a
  {
    ParseFloatNegative(t);
    MinusFront(t);
  }

  /** Putting a minus sign in front adds no colon and no degree sign. */
  lemma MinusFront(t: string)
    requires ':' !in t && '°' !in t
    ensures var a := "-" + t; a != [] && a[0] == '-' && ':' !in a && '°' !in a
  {
    var a := "-" + t;
    assert forall k :: 0 <= k < |a| ==> a[k] == '-' || a[k] in t;
  }

  /** An angle written as non-negative degrees, minutes and seconds reads as the usual decimal value. */
  lemma DmsPositive(s: string, d: real, m: real, sec: real)
    requires var t := Remove(Strip(s), '°'); ':' in t && DmsFields(t) == Some(Dms(d, m, sec))
    requires d >= 0.0 && 0.0 <= m < 60.0 && 0.0 <= sec < 60.0
    ensures ParseDmsToDecimal(s) == Some(d + m / 60.0 + sec / 3600.0)
  {
    var t := Remove(Strip(s), '°');
    assert DecimalOf(t) == Some(DmsDegrees(d, m, sec));
    DmsNonNegative(d, m, sec);
  }

  /** The degree and radian conversions and the geodetic converters, per ellipsoid. */
  datatype Ellipsoid = WGS84 | Beijing54

  /** The ellipsoid combo box: "WGS84" exactly, or Beijing 1954 for any other text. */
  function EllipsoidOf(name: string): (e: Ellipsoid)
    ensures e == WGS84 <==> name == "WGS84"
  {
    if name == "WGS84" then WGS84 else Beijing54
  }

  datatype Geodesy = Geodesy(
    radians: real -> real,
    degrees: real -> real,
    /** `*_BLH2XYZ(B, L, H)` with B, L in radians. */
    blhToXyz: (Ellipsoid, real, real, real) -> SevenPar.Point3,
    /** `*_XYZ2BLH(X, Y, Z)`: (B, L, H) with B, L in radians. */
    xyzToBlh: (Ellipsoid, SevenPar.Point3) -> SevenPar.Point3,
    /** `*_BLH2xy(B, L, central_meridian)`: (easting, northing). */
    blhToXy: (Ellipsoid, real, real, real) -> GaussZone.PlanePoint,
    /** `*_xy2BLH(x, y, central_meridian)`: (B, L) in radians. */
    xyToBlh: (Ellipsoid, real, real, real) -> GaussZone.Geodetic)

  /** `get_central_meridian`: 120 degrees for a blank field, otherwise the angle read as above, in radians. */
  function GetCentralMeridian(text: string, g: Geodesy): (r: Option<real>)
    ensures Strip(text) == "" ==> r == Some(g.radians(120.0))
    ensures Strip(text) != "" ==>
      (r.Some? <==> ParseDmsToDecimal(text).Some?) &&
      (r.Some? ==> r.value == g.radians(ParseDmsToDecimal(text).value))
  {
    var t := Strip(text);
    if t == "" then Some(g.radians(120.0))
    else
      match DecimalOf(Remove(t, '°'))
      case None => None
      case Some(v) => Some(g.radians(v))
  }

  // ---------------------------------------------------------------------------
  // Coordinate kinds and labels
  // ---------------------------------------------------------------------------

  const Cartesian := "空间直角"
  const GeodeticKind := "大地坐标"
  const PlaneKind := "平面坐标"

  /** The labels of one side for a coordinate-type text, checked in the order Cartesian, geodetic, plane. */
  function LabelsFor(kind: string): (r: Option<seq<string>>)
    ensures Contains(kind, Cartesian) ==> r == Some(["X:", "Y:", "Z:"])
    ensures !Contains(kind, Cartesian) && Contains(kind, GeodeticKind) ==> r == Some(["B:", "L:", "H:"])
    ensures !Contains(kind, Cartesian) && !Contains(kind, GeodeticKind) && Contains(kind, PlaneKind) ==> r == Some(["x:", "y:", "h:"])
    ensures r == None <==> !Contains(kind, Cartesian) && !Contains(kind, GeodeticKind) && !Contains(kind, PlaneKind)
  {
    if Contains(kind, Cartesian) then Some(["X:", "Y:", "Z:"])
    else if Contains(kind, GeodeticKind) then Some(["B:", "L:", "H:"])
    else if Contains(kind, PlaneKind) then Some(["x:", "y:", "h:"])
    else None
  }

  // ---------------------------------------------------------------------------
  // Reading the inputs and the parameters
  // ---------------------------------------------------------------------------

  /** `float(text or 0)`: an empty field reads as zero. */
  function FloatOrZero(text: string): (r: Option<real>)
    ensures text == "" ==> r == Some(0.0)
    ensures text != "" ==> r == ParseFloat(text)
  {
    if text == "" then Some(0.0) else ParseFloat(text)
  }

  /** `parse_dms_to_decimal(text or "0:0:0")`. */
  function DmsOrZero(text: string): (r: Option<real>)
    ensures text != "" ==> r == ParseDmsToDecimal(text)
  {
    ParseDmsToDecimal(if text == "" then "0:0:0" else text)
  }

  /** The zero angle text reads as zero. */
  lemma ZeroDms(s: string)
    requires s == "0:0:0"
    ensures ParseDmsToDecimal(s) == Some(0.0)
  {
    var z := s[..1];
    assert z == [s[0]] && s == z + ":" + z + ":" + z;
    ParseDigit(z, s[0]);
    DmsText(z, z, z, 0.0, 0.0, 0.0);
  }

  /** The three source fields: B and L through the angle parser for a geodetic source in DMS mode. */
  function ReadInputs(xText: string, yText: string, zText: string, angleTexts: bool): (r: Option<SevenPar.Point3>)
    ensures !angleTexts ==>
      (r.Some? <==> FloatOrZero(xText).Some? && FloatOrZero(yText).Some? && FloatOrZero(zText).Some?)
    ensures angleTexts ==>
      (r.Some? <==> DmsOrZero(xText).Some? && DmsOrZero(yText).Some? && FloatOrZero(zText).Some?)
  {
    var x := if angleTexts then DmsOrZero(xText) else FloatOrZero(xText);
    var y := if angleTexts then DmsOrZero(yText) else FloatOrZero(yText);
    var z := FloatOrZero(zText);
    if x.Some? && y.Some? && z.Some? then Some(SevenPar.Point3(x.value, y.value, z.value)) else None
  }

  /** Empty fields read as the origin, in either mode. */
  lemma EmptyInputsReadZero(angleTexts: bool)
    ensures ReadInputs("", "", "", angleTexts) == Some(SevenPar.Point3(0.0, 0.0, 0.0))
  {
    assert FloatOrZero("") == Some(0.0);
    assert DmsOrZero("") == Some(0.0) by {
      ZeroDms("0:0:0");
    }
  }

  datatype Warning = ParamsIncomplete | ParamsUnreadable

  /** The result fields of a parameter page, each read as `float(text.split()[0]) if text else None`. */
  function ReadAll(texts: seq<string>): (fields: seq<FieldRead>)
    ensures |fields| == |texts| && forall i :: 0 <= i < |texts| ==> fields[i] == ReadField(texts[i], true)
  {
    seq(|texts|, i requires 0 <= i < |texts| => ReadField(texts[i], true))
  }

  /** Each result field reads as blank exactly when empty, and otherwise as its first token's number. */
  lemma ReadAllFirstTokens(texts: seq<string>, i: int)
    requires 0 <= i < |texts|
    ensures ReadAll(texts)[i].Blank? <==> texts[i] == ""
    ensures ReadAll(texts)[i].Number? <==>
      texts[i] != "" && FirstToken(texts[i]).Some? && ParseFloat(FirstToken(texts[i]).value).Some?
    ensures ReadAll(texts)[i].Number? ==>
      ReadAll(texts)[i].value == ParseFloat(FirstToken(texts[i]).value).value
  {
  }

  predicate AnyMalformed(fields: seq<FieldRead>) {
    exists i :: 0 <= i < |fields| && fields[i].Malformed?
  }

  predicate AnyBlank(fields: seq<FieldRead>) {
    exists i :: 0 <= i < |fields| && fields[i].Blank?
  }

  /**
   * The parameters of a page: a field that does not parse aborts with one warning (every field
   * is read before the check for missing ones), a missing field with the other.
   */
  function ReadParamFields(texts: seq<string>): (r: Result<seq<real>, Warning>)
    ensures r.Ok? ==> |r.value| == |texts|
    ensures r.Ok? <==> forall i :: 0 <= i < |texts| ==> ReadAll(texts)[i].Number?
    ensures r == Err(ParamsUnreadable) <==> AnyMalformed(ReadAll(texts))
    ensures r.Ok? ==> forall i :: 0 <= i < |texts| ==> r.value[i] == ReadAll(texts)[i].value
  {
    var fields := ReadAll(texts);
    if AnyMalformed(fields) then Err(ParamsUnreadable)
    else if AnyBlank(fields) then Err(ParamsIncomplete)
    else
      assert forall i :: 0 <= i < |fields| ==> fields[i].Number? by {
        forall i | 0 <= i < |fields|
          ensures fields[i].Number?
        {
          assert !fields[i].Malformed? && !fields[i].Blank?;
        }
      }
      Ok(seq(|fields|, i requires 0 <= i < |fields| => fields[i].value))
  }

  /** Any empty parameter field, with none unreadable, aborts with the incomplete-parameters warning. */
  lemma MissingParameterAborts(texts: seq<string>, i: nat)
    requires i < |texts| && texts[i] == ""
    requires !AnyMalformed(ReadAll(texts))
    ensures ReadParamFields(texts) == Err(ParamsIncomplete)
  {
    assert ReadAll(texts)[i].Blank?;
  }

  // ---------------------------------------------------------------------------
  // The transform
  // ---------------------------------------------------------------------------

  /** What one press of the transform button ends in. */
  datatype Outcome =
    | Shown(result: SevenPar.Point3)  // the three output fields are written
    | Warned(warning: Warning)        // a parameter warning; nothing is written
    | InputError                      // a `ValueError` from an input or the central meridian
    | CalcError                       // any other exception (a result left unbound)
    | Idle                            // a transform type other than the two handled

  /** The settings the page fields from its widgets. */
  datatype Settings = Settings(
    transformType: string, sourceKind: string, targetKind: string,
    sourceEllipsoid: string, targetEllipsoid: string,
    dmsChecked: bool, degreeChecked: bool, centralMeridianText: string)

  const SevenParamMode := "七参数转换"
  const FourParamMode := "四参数转换"

  /** From target-ellipsoid Cartesian coordinates to the requested target kind. */
  function ToTarget(st: Settings, xyz: SevenPar.Point3, cm: Option<real>, g: Geodesy): (r: Outcome)
    ensures Contains(st.targetKind, Cartesian) ==> r == Shown(xyz)
  {
    var e := EllipsoidOf(st.targetEllipsoid);
    if Contains(st.targetKind, Cartesian) then Shown(xyz)
    else if Contains(st.targetKind, GeodeticKind) then
      var blh := g.xyzToBlh(e, xyz);
      Shown(SevenPar.Point3(g.degrees(blh.x), g.degrees(blh.y), blh.z))
    else if Contains(st.targetKind, PlaneKind) then
      var blh := g.xyzToBlh(e, xyz);
      match cm
      case None => InputError
      case Some(c) =>
        var p := g.blhToXy(e, blh.x, blh.y, c);
        Shown(SevenPar.Point3(p.northing, p.easting, blh.z))
    else CalcError
  }

  /** The seven-parameter branch for a point read as (x, y, z). */
  function SevenParamRoute(st: Settings, pt: SevenPar.Point3, p: SevenPar.SevenParams, g: Geodesy): Outcome {
    var T := (q: SevenPar.Point3) => SevenPar.Transform(p, q);
    var se := EllipsoidOf(st.sourceEllipsoid);
    var cm := GetCentralMeridian(st.centralMeridianText, g);
    if Contains(st.sourceKind, Cartesian) then
      ToTarget(st, T(pt), cm, g)
    else if Contains(st.sourceKind, GeodeticKind) then
      var toRad := st.dmsChecked || st.degreeChecked;
      var b := if toRad then g.radians(pt.x) else pt.x;
      var l := if toRad then g.radians(pt.y) else pt.y;
      ToTarget(st, T(g.blhToXyz(se, b, l, pt.z)), cm, g)
    else if Contains(st.sourceKind, PlaneKind) then
      match cm
      case None => InputError
      case Some(c) =>
        var bl := g.xyToBlh(se, pt.x, pt.y, c);
        ToTarget(st, T(g.blhToXyz(se, bl.lat, bl.lon, pt.z)), cm, g)
    else CalcError
  }

  /** The seven parameters in the order of the result fields dx, dy, dz, wx, wy, wz, k. */
  function SevenFrom(v: seq<real>): SevenPar.SevenParams
    requires |v| == 7
  {
    SevenPar.SevenParams(v[0], v[1], v[2], v[3], v[4], v[5], v[6])
  }

  /** The dictionary `{'a', 'b', 'dx', 'dy'}` built from the four result fields. */
  function FourDict(v: seq<real>): map<string, real>
    requires |v| == 4
  {
    map["a" := v[0], "b" := v[1], "dx" := v[2], "dy" := v[3]]
  }

  /** The four-parameter branch: the plane point through `transform_point_four_par`, z unchanged. */
  function FourParamRoute(pt: SevenPar.Point3, v: seq<real>): (r: Outcome)
    requires |v| == 4
    ensures var q := FourPar.Apply(FourPar.FourParams(v[0], v[1], v[2], v[3]), FourPar.Point2(pt.x, pt.y));
      r == Shown(SevenPar.Point3(q.x, q.y, pt.z))
  {
    var d := FourDict(v);
    assert d["a"] == v[0] && d["b"] == v[1] && d["dx"] == v[2] && d["dy"] == v[3];
    match FourPar.TransformPointFourPar([pt.x, pt.y], FourPar.DictParams(d))
    case Ok(q) => Shown(SevenPar.Point3(q.x, q.y, pt.z))
    case Err(_) => CalcError
  }

  /** `transform_coordinates` of the page: read the inputs, then dispatch on the transform type. */
  function ComputeTransform(st: Settings, xText: string, yText: string, zText: string,
                            sevenTexts: seq<string>, fourTexts: seq<string>, g: Geodesy): (r: Outcome)
    requires |sevenTexts| == 7 && |fourTexts| == 4
    ensures ReadInputs(xText, yText, zText, Contains(st.sourceKind, GeodeticKind) && st.dmsChecked).None? ==> r == InputError
    ensures r.Warned? ==> st.transformType == SevenParamMode || st.transformType == FourParamMode
  {
    match ReadInputs(xText, yText, zText, Contains(st.sourceKind, GeodeticKind) && st.dmsChecked)
    case None => InputError
    case Some(pt) =>
      if st.transformType == SevenParamMode then
        match ReadParamFields(sevenTexts)
        case Err(w) => Warned(w)
        case Ok(v) => SevenParamRoute(st, pt, SevenFrom(v), g)
      else if st.transformType == FourParamMode then
        match ReadParamFields(fourTexts)
        case Err(w) => Warned(w)
        case Ok(v) => FourParamRoute(pt, v)
      else Idle
  }

  /** In four-parameter mode the plane point is transformed and the height passes through. */
  lemma FourParamModeKeepsHeight(st: Settings, xText: string, yText: string, zText: string,
                                 sevenTexts: seq<string>, fourTexts: seq<string>, g: Geodesy)
    requires |sevenTexts| == 7 && |fourTexts| == 4 && st.transformType == FourParamMode
    requires ReadInputs(xText, yText, zText, Contains(st.sourceKind, GeodeticKind) && st.dmsChecked).Some?
    requires ReadParamFields(fourTexts).Ok?
    ensures var pt := ReadInputs(xText, yText, zText, Contains(st.sourceKind, GeodeticKind) && st.dmsChecked).value;
      var v := ReadParamFields(fourTexts).value;
      var q := FourPar.Apply(FourPar.FourParams(v[0], v[1], v[2], v[3]), FourPar.Point2(pt.x, pt.y));
      ComputeTransform(st, xText, yText, zText, sevenTexts, fourTexts, g) == Shown(SevenPar.Point3(q.x, q.y, pt.z))
  {
  }

  /** Cartesian in and out: the output is the seven-parameter transform of the input. */
  lemma SevenParamCartesian(st: Settings, xText: string, yText: string, zText: string,
                            sevenTexts: seq<string>, fourTexts: seq<string>, g: Geodesy)
    requires |sevenTexts| == 7 && |fourTexts| == 4 && st.transformType == SevenParamMode
    requires Contains(st.sourceKind, Cartesian) && Contains(st.targetKind, Cartesian)
    requires ReadInputs(xText, yText, zText, Contains(st.sourceKind, GeodeticKind) && st.dmsChecked).Some?
    requires ReadParamFields(sevenTexts).Ok?
    ensures var pt := ReadInputs(xText, yText, zText, Contains(st.sourceKind, GeodeticKind) && st.dmsChecked).value;
      var p := SevenFrom(ReadParamFields(sevenTexts).value);
      ComputeTransform(st, xText, yText, zText, sevenTexts, fourTexts, g) == Shown(SevenPar.Transform(p, pt))
      && SevenPar.TransformPointSevenPar([pt.x, pt.y, pt.z], ReadParamFields(sevenTexts).value) == Ok(SevenPar.Transform(p, pt))
  {
  }

  /** A geodetic source is first taken to Cartesian coordinates on the source ellipsoid. */
  lemma SevenParamGeodeticSource(st: Settings, xText: string, yText: string, zText: string,
                                 sevenTexts: seq<string>, fourTexts: seq<string>, g: Geodesy)
    requires |sevenTexts| == 7 && |fourTexts| == 4 && st.transformType == SevenParamMode
    requires !Contains(st.sourceKind, Cartesian) && Contains(st.sourceKind, GeodeticKind)
    requires Contains(st.targetKind, Cartesian)
    requires ReadInputs(xText, yText, zText, st.dmsChecked).Some?
    requires ReadParamFields(sevenTexts).Ok?
    ensures var pt := ReadInputs(xText, yText, zText, st.dmsChecked).value;
      var p := SevenFrom(ReadParamFields(sevenTexts).value);
      var toRad := st.dmsChecked || st.degreeChecked;
      var b := if toRad then g.radians(pt.x) else pt.x;
      var l := if toRad then g.radians(pt.y) else pt.y;
      ComputeTransform(st, xText, yText, zText, sevenTexts, fourTexts, g)
        == Shown(SevenPar.Transform(p, g.blhToXyz(EllipsoidOf(st.sourceEllipsoid), b, l, pt.z)))
  {
  }

  /** A plane source goes through the inverse projection at the central meridian, keeping the input height. */
  lemma SevenParamPlaneSource(st: Settings, xText: string, yText: string, zText: string,
                              sevenTexts: seq<string>, fourTexts: seq<string>, g: Geodesy)
    requires |sevenTexts| == 7 && |fourTexts| == 4 && st.transformType == SevenParamMode
    requires !Contains(st.sourceKind, Cartesian) && !Contains(st.sourceKind, GeodeticKind)
    requires Contains(st.sourceKind, PlaneKind) && Contains(st.targetKind, Cartesian)
    requires !Contains(st.sourceKind, GeodeticKind) ==> ReadInputs(xText, yText, zText, false).Some?
    requires ReadParamFields(sevenTexts).Ok?
    requires GetCentralMeridian(st.centralMeridianText, g).Some?
    ensures var pt := ReadInputs(xText, yText, zText, false).value;
      var p := SevenFrom(ReadParamFields(sevenTexts).value);
      var se := EllipsoidOf(st.sourceEllipsoid);
      var bl := g.xyToBlh(se, pt.x, pt.y, GetCentralMeridian(st.centralMeridianText, g).value);
      ComputeTransform(st, xText, yText, zText, sevenTexts, fourTexts, g)
        == Shown(SevenPar.Transform(p, g.blhToXyz(se, bl.lat, bl.lon, pt.z)))
  {
  }

  /** A plane target with an unreadable central meridian is an input error, whatever the source. */
  lemma PlaneTargetNeedsMeridian(st: Settings, xText: string, yText: string, zText: string,
                                 sevenTexts: seq<string>, fourTexts: seq<string>, g: Geodesy)
    requires |sevenTexts| == 7 && |fourTexts| == 4 && st.transformType == SevenParamMode
    requires Contains(st.sourceKind, Cartesian)
    requires !Contains(st.targetKind, Cartesian) && !Contains(st.targetKind, GeodeticKind) && Contains(st.targetKind, PlaneKind)
    requires ReadInputs(xText, yText, zText, Contains(st.sourceKind, GeodeticKind) && st.dmsChecked).Some?
    requires ReadParamFields(sevenTexts).Ok?
    requires GetCentralMeridian(st.centralMeridianText, g).None?
    ensures ComputeTransform(st, xText, yText, zText, sevenTexts, fourTexts, g) == InputError
  {
  }

  // ---------------------------------------------------------------------------
  // The page's widget state
  // ---------------------------------------------------------------------------

  /** The labels beside the input and output fields and the three output values. */
  class TransformView {
    var sourceLabels: seq<string>
    var targetLabels: seq<string>
    var output: Option<SevenPar.Point3>

    constructor ()
      ensures sourceLabels == ["X:", "Y:", "Z:"] && targetLabels == ["X:", "Y:", "Z:"] && output == None
    {
      sourceLabels := ["X:", "Y:", "Z:"];
      targetLabels := ["X:", "Y:", "Z:"];
      output := None;
    }

    /** `update_coordinate_labels`: each side independently; an unknown kind leaves that side's labels. */
    method UpdateCoordinateLabels(sourceKind: string, targetKind: string)
      modifies this
      ensures sourceLabels == (if LabelsFor(sourceKind).Some? then LabelsFor(sourceKind).value else old(sourceLabels))
      ensures targetLabels == (if LabelsFor(targetKind).Some? then LabelsFor(targetKind).value else old(targetLabels))
      ensures output == old(output)
    {
      var s := LabelsFor(sourceKind);
      if s.Some? {
        sourceLabels := s.value;
      }
      var t := LabelsFor(targetKind);
      if t.Some? {
        targetLabels := t.value;
      }
    }

    /** The transform button: the outputs are written only when a result is shown. */
    method TransformCoordinates(st: Settings, xText: string, yText: string, zText: string,
                                sevenTexts: seq<string>, fourTexts: seq<string>, g: Geodesy)
      returns (outcome: Outcome)
      requires |sevenTexts| == 7 && |fourTexts| == 4
      modifies this
      ensures outcome == ComputeTransform(st, xText, yText, zText, sevenTexts, fourTexts, g)
      ensures output == (if outcome.Shown? then Some(outcome.result) else old(output))
      ensures sourceLabels == old(sourceLabels) && targetLabels == old(targetLabels)
    {
      outcome := ComputeTransform(st, xText, yText, zText, sevenTexts, fourTexts, g);
      if outcome.Shown? {
        output := Some(outcome.result);
      }
    }
  }
}
