/**
 * Zone selection, central meridian and false offsets of the Beijing 1954 Gauss-Krueger
 * projection in `src/function/Beijing54_BLH_XYZ_xy.py` (`Beijing54_BLH2xy`, `Beijing54_xy2BLH`).
 * Angles are in degrees here (the source carries radians and converts with pi/180).
 * The projection series themselves are parameters.
 */
module GaussZone {
  import opened Wrappers

  /** Python's `int()` of a float: truncation toward zero. */
  function Trunc(x: real): (r: int)
    ensures x >= 0.0 ==> r as real <= x < r as real + 1.0
    ensures x < 0.0 ==> r as real - 1.0 < x <= r as real
  {
    if x >= 0.0 then x.Floor else -((-x).Floor)
  }

  /** The zone a longitude falls in: `int(L / 3) + 1` for a 3-degree belt, `int(L / 6) + 1` otherwise. */
  function ZoneNumber(lonDeg: real, belt: int): int {
    if belt == 3 then Trunc(lonDeg / 3.0) + 1 else Trunc(lonDeg / 6.0) + 1
  }

  /** The central meridian of a zone: `3 * zone - 1.5` for a 3-degree belt, `6 * zone - 3` otherwise. */
  function ZoneMeridian(zone: int, belt: int): real {
    if belt == 3 then (zone * 3) as real - 1.5 else (zone * 6) as real - 3.0
  }

  /** The central meridian `Beijing54_BLH2xy` uses: the given one, or the one of the longitude's zone. */
  function CentralMeridian(lonDeg: real, given: Option<real>, belt: int): (cm: real)
    ensures given.Some? ==> cm == given.value
    ensures given.None? ==> cm == ZoneMeridian(ZoneNumber(lonDeg, belt), belt)
  {
    match given
    case Some(c) => c
    case None => ZoneMeridian(ZoneNumber(lonDeg, belt), belt)
  }

  /** On a 6-degree belt a non-negative longitude lies within 3 degrees of its zone's meridian. */
  lemma SixDegreeBelt(lonDeg: real, belt: int)
    requires lonDeg >= 0.0 && belt != 3
    ensures ZoneNumber(lonDeg, belt) >= 1
    ensures var cm := CentralMeridian(lonDeg, None, belt);
      cm - 3.0 <= lonDeg < cm + 3.0
  {
    var z0 := Trunc(lonDeg / 6.0);
    assert z0 as real <= lonDeg / 6.0 < z0 as real + 1.0;
    assert (6 * z0) as real <= lonDeg < (6 * z0) as real + 6.0;
  }

  /** On a 3-degree belt a non-negative longitude lies within 1.5 degrees of its zone's meridian. */
  lemma ThreeDegreeBelt(lonDeg: real)
    requires lonDeg >= 0.0
    ensures ZoneNumber(lonDeg, 3) >= 1
    ensures var cm := CentralMeridian(lonDeg, None, 3);
      cm - 1.5 <= lonDeg < cm + 1.5
  {
    var z0 := Trunc(lonDeg / 3.0);
    assert z0 as real <= lonDeg / 3.0 < z0 as real + 1.0;
    assert (3 * z0) as real <= lonDeg < (3 * z0) as real + 3.0;
  }

  /** A plane point: easting first, as `Beijing54_BLH2xy` returns it. */
  datatype PlanePoint = PlanePoint(easting: real, northing: real)

  /** The projection series: (B, l) to (northing, easting) before the offsets. */
  type Series = (real, real) -> PlanePoint

  /** The inverse series: reduced (northing, easting) to (B, l). */
  datatype Geodetic = Geodetic(lat: real, lon: real)
  type InverseSeries = (real, real) -> Geodetic

  /**
   * `Beijing54_BLH2xy`: the longitude difference from the central meridian goes through the
   * series; false easting is added to the easting and false northing to the northing.
   */
  function Forward(lat: real, lonDeg: real, given: Option<real>, belt: int,
                   falseEasting: real, falseNorthing: real, series: Series): (r: PlanePoint)
    ensures var raw := series(lat, lonDeg - CentralMeridian(lonDeg, given, belt));
      r.easting == raw.easting + falseEasting && r.northing == raw.northing + falseNorthing
  {
    var l := lonDeg - CentralMeridian(lonDeg, given, belt);
    var raw := series(lat, l);
    PlanePoint(raw.easting + falseEasting, raw.northing + falseNorthing)
  }

  /** The offsets the inverse removes before the series: (x - false northing, y - false easting). */
  function Reduce(x: real, y: real, falseEasting: real, falseNorthing: real): (r: PlanePoint)
    ensures r.northing == x - falseNorthing && r.easting == y - falseEasting
  {
    PlanePoint(y - falseEasting, x - falseNorthing)
  }

  /** Removing the offsets undoes adding them. */
  lemma OffsetsCancel(raw: PlanePoint, falseEasting: real, falseNorthing: real)
    ensures Reduce(raw.northing + falseNorthing, raw.easting + falseEasting, falseEasting, falseNorthing) == raw
  {
  }

  /** The zone `Beijing54_xy2BLH` estimates from the easting: `int(y / false_easting + 0.5)`, for either belt. */
  function EstimatedZone(y: real, falseEasting: real): (r: Option<int>)
    ensures falseEasting == 0.0 <==> r == None
  {
    if falseEasting == 0.0 then None else Some(Trunc(y / falseEasting + 0.5))
  }

  datatype InverseError = ZeroDivision

  /**
   * `Beijing54_xy2BLH` with x the northing and y the easting: reduce, run the inverse series,
   * and add the longitude difference to the central meridian (given, or estimated from the zone).
   */
  function Inverse(x: real, y: real, given: Option<real>, belt: int,
                   falseEasting: real, falseNorthing: real, inverse: InverseSeries): (r: Result<Geodetic, InverseError>)
    ensures given.Some? ==> r.Ok?
    ensures given.None? ==> (r.Err? <==> falseEasting == 0.0)
    ensures r.Ok? ==>
      var red := Reduce(x, y, falseEasting, falseNorthing);
      var g := inverse(red.northing, red.easting);
      var cm := if given.Some? then given.value else ZoneMeridian(EstimatedZone(y, falseEasting).value, belt);
      r.value == Geodetic(g.lat, cm + g.lon)
  {
    var red := Reduce(x, y, falseEasting, falseNorthing);
    var g := inverse(red.northing, red.easting);
    match given
    case Some(c) => Ok(Geodetic(g.lat, c + g.lon))
    case None =>
      match EstimatedZone(y, falseEasting)
      case None => Err(ZeroDivision)
      case Some(zone) => Ok(Geodetic(g.lat, ZoneMeridian(zone, belt) + g.lon))
  }

  /**
   * With the central meridian given on both sides, and an inverse series that undoes the
   * forward series at this point, the inverse recovers the latitude and longitude.
   */
  lemma RoundTripGivenMeridian(lat: real, lonDeg: real, cm: real, belt: int,
                               falseEasting: real, falseNorthing: real,
                               series: Series, inverse: InverseSeries)
    requires var raw := series(lat, lonDeg - cm); inverse(raw.northing, raw.easting) == Geodetic(lat, lonDeg - cm)
    ensures var p := Forward(lat, lonDeg, Some(cm), belt, falseEasting, falseNorthing, series);
      Inverse(p.northing, p.easting, Some(cm), belt, falseEasting, falseNorthing, inverse) == Ok(Geodetic(lat, lonDeg))
  {
    var raw := series(lat, lonDeg - cm);
    OffsetsCancel(raw, falseEasting, falseNorthing);
  }

  /**
   * The estimate ignores the true zone: any easting within half a false easting of the false
   * easting lands in zone 1, whose meridian is 3 (6-degree belt) or 1.5 (3-degree belt).
   */
  lemma EstimateNearFalseEasting(y: real, falseEasting: real, belt: int)
    requires falseEasting > 0.0
    requires falseEasting / 2.0 <= y < falseEasting * 1.5
    ensures EstimatedZone(y, falseEasting) == Some(1)
    ensures ZoneMeridian(1, belt) == if belt == 3 then 1.5 else 3.0
  {
    var q := y / falseEasting;
    assert q * falseEasting == y;
    assert 0.5 <= q < 1.5;
  }
}
