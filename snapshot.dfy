/** Single-epoch geometry (main.py, `GeoSpec`, `SolarZenithAngles` and
    `PointingAngles`): straight-line conversions of query results into
    degrees, plus the same Doppler estimate the profiler uses. */
module Snapshot {
  import opened Results
  import opened Spice
  import opened Profiling

  /** What `GeoSpec` reports: the longitude and latitude in degrees of the
      nearest surface point to the line of sight, the spacecraft separation,
      that surface point itself (not lifted by its altitude) and the Doppler
      estimate. */
  datatype GeoPoint = GeoPoint(lon: real, lat: real, displacement: real, nearestpoint: Vec3, veldopp: real)

  /** `GeoSpec`: the nearest point on the body to the line of sight at `et`
      and its planetocentric coordinates, with the longitude turned into
      [0, 360] and the latitude's sign flipped (the frame inversion the
      original applies). A zero separation leaves no line of sight. */
  function GeoSpec(p: Provider, sv: SpiceVariables, et: real): (r: Result<GeoPoint>)
    ensures r.Ok? <==> p.norm(p.spkezr(sv.target, et, sv.fframe, NoCorrection, sv.obs).position) != 0.0
    ensures r.Err? ==> r.error == DegenerateGeometry(et)
    ensures r.Ok? ==> 0.0 <= r.value.lon <= 360.0 && -90.0 <= r.value.lat <= 90.0
    ensures r.Ok? ==> r.value.lon == 180.0 + Degrees(p.reclat(r.value.nearestpoint).lon)
    ensures r.Ok? ==> r.value.lat == -Degrees(p.reclat(r.value.nearestpoint).lat)
    ensures r.Ok? ==> var states := p.spkezr(sv.target, et, sv.fframe, NoCorrection, sv.obs);
      r.value.displacement == p.norm(states.position) &&
      r.value.veldopp == Doppler(p.norm(states.velocity))
    ensures r.Ok? ==> var states := p.spkezr(sv.target, et, sv.fframe, NoCorrection, sv.obs);
      var marsrad := p.bodvrd(sv.front);
      var tgopos := p.spkpos(sv.front, et, sv.fframe, NoCorrection, sv.target);
      r.value.nearestpoint ==
        p.npedln(marsrad.x, marsrad.y, marsrad.z, tgopos, Scale(states.position, 1.0 / p.norm(states.position))).point
  {
    var tgopos := p.spkpos(sv.front, et, sv.fframe, NoCorrection, sv.target);
    var states := p.spkezr(sv.target, et, sv.fframe, NoCorrection, sv.obs);
    var relativespeed := p.norm(states.velocity);
    var veldopp := Doppler(relativespeed);
    var displacement := p.norm(states.position);
    if displacement == 0.0 then Err(DegenerateGeometry(et))
    else
      var unitvector := Scale(states.position, 1.0 / displacement);
      var marsrad := p.bodvrd(sv.front);
      var near := p.npedln(marsrad.x, marsrad.y, marsrad.z, tgopos, unitvector);
      var ll := p.reclat(near.point);
      LongitudeDegrees(ll.lon);
      LatitudeDegrees(ll.lat);
      Ok(GeoPoint(180.0 - ll.lon * (-180.0 / Pi), ll.lat * (-180.0 / Pi), displacement, near.point, veldopp))
  }

  /** The longitude mapping `180 - lon * (-180 / pi)` is `180 + deg(lon)`
      and lands in [0, 360]. */
  lemma LongitudeDegrees(lon: Longitude)
    ensures 180.0 - lon * (-180.0 / Pi) == 180.0 + Degrees(lon)
    ensures 0.0 <= 180.0 + Degrees(lon) <= 360.0
  {
    assert -Pi <= lon <= Pi;
    calc {
      Degrees(lon) * Pi;
      lon * (180.0 / Pi) * Pi;
      lon * 180.0;
    }
    assert -180.0 * Pi <= Degrees(lon) * Pi <= 180.0 * Pi;
  }

  /** The latitude mapping `lat * (-180 / pi)` is `-deg(lat)` and lands in
      [-90, 90]. */
  lemma LatitudeDegrees(lat: Latitude)
    ensures lat * (-180.0 / Pi) == -Degrees(lat)
    ensures -90.0 <= -Degrees(lat) <= 90.0
  {
    assert -Pi / 2.0 <= lat <= Pi / 2.0;
    calc {
      Degrees(lat) * Pi;
      lat * (180.0 / Pi) * Pi;
      lat * 180.0;
    }
    assert -90.0 * Pi <= Degrees(lat) * Pi <= 90.0 * Pi;
  }

  /** The reported coordinates determine reclat's radians: longitude
      `(lon - 180) * pi / 180`, latitude `-lat * pi / 180`. */
  lemma GeoSpecInverse(p: Provider, sv: SpiceVariables, et: real)
    requires GeoSpec(p, sv, et).Ok?
    ensures var g := GeoSpec(p, sv, et).value;
      var ll := p.reclat(g.nearestpoint);
      ll.lon == (g.lon - 180.0) * Pi / 180.0 && ll.lat == -g.lat * Pi / 180.0
  {
    var g := GeoSpec(p, sv, et).value;
    var ll := p.reclat(g.nearestpoint);
    assert g.lon - 180.0 == Degrees(ll.lon);
    assert -g.lat == Degrees(ll.lat);
  }

  /** `GeoSpec` at an epoch reports the same separation and Doppler
      estimate as the profiler's step at that epoch, and it is defined
      whenever that step is. */
  lemma GeoSpecAgreesWithProfile(p: Provider, sv: SpiceVariables, t: real)
    requires ProfileStep(p, sv, t).Ok?
    ensures GeoSpec(p, sv, t).Ok?
    ensures GeoSpec(p, sv, t).value.displacement == ProfileStep(p, sv, t).value.displacement
    ensures GeoSpec(p, sv, t).value.veldopp == ProfileStep(p, sv, t).value.doppler
  {
    StepFacts(p, sv, t);
  }

  /** The sun's angle from `point` at epoch `t`: the separation between the
      point and the direction opposite the sub-solar point. */
  function SunAngle(p: Provider, sv: SpiceVariables, t: real, point: Vec3): Angle {
    p.vsep(Neg(p.subslr(sv.front, t, sv.fframe, NoCorrection, sv.target)), point)
  }

  /** Offset (s) of the later sample that decides the sign. */
  const LaterOffset: real := 30.0

  /** `SolarZenithAngles`: the solar zenith angle at `nearestpoint` in
      degrees, positive (afternoon) when the angle grows over the next
      30 seconds and negative (morning) otherwise, ties included. */
  function SolarZenithAngles(p: Provider, sv: SpiceVariables, et: real, nearestpoint: Vec3): (sza: real)
    ensures Abs(sza) == Degrees(SunAngle(p, sv, et, nearestpoint)) <= 180.0
    ensures sza > 0.0 ==> SunAngle(p, sv, et, nearestpoint) < SunAngle(p, sv, et + LaterOffset, nearestpoint)
    ensures sza < 0.0 ==> SunAngle(p, sv, et, nearestpoint) >= SunAngle(p, sv, et + LaterOffset, nearestpoint)
  {
    var angle := SunAngle(p, sv, et, nearestpoint);
    var later := SunAngle(p, sv, et + LaterOffset, nearestpoint);
    DegreesOfAngle(angle);
    NegatedDegrees(angle);
    if angle < later then angle * (180.0 / Pi)
    else angle * (-180.0 / Pi)
  }

  /** `angle * (-180 / pi)` is the negated degree value. */
  lemma NegatedDegrees(angle: real)
    ensures angle * (-180.0 / Pi) == -Degrees(angle)
  {
  }

  /** The sign rule in full: a non-zero angle is reported positive exactly
      when it grows over the next 30 seconds, and the radians are recovered
      from the magnitude. */
  lemma SolarZenithSign(p: Provider, sv: SpiceVariables, et: real, nearestpoint: Vec3)
    ensures var angle := SunAngle(p, sv, et, nearestpoint);
      var later := SunAngle(p, sv, et + LaterOffset, nearestpoint);
      var sza := SolarZenithAngles(p, sv, et, nearestpoint);
      (angle != 0.0 ==> (sza > 0.0 <==> angle < later)) &&
      (angle == later ==> sza <= 0.0) &&
      angle == Abs(sza) * Pi / 180.0
  {
    var angle := SunAngle(p, sv, et, nearestpoint);
    var later := SunAngle(p, sv, et + LaterOffset, nearestpoint);
    var sza := SolarZenithAngles(p, sv, et, nearestpoint);
    DegreesOfAngle(angle);
    if angle != 0.0 {
      assert Degrees(angle) > 0.0 by {
        assert angle == Degrees(angle) * Pi / 180.0;
      }
    }
  }

  /** The spacecraft boresight references: TGO points along -Y of its
      body frame, MEX along +Z of its own. */
  function TgoBoresight(): Vec3 { Vec3(0.0, -1.0, 0.0) }
  function MexBoresight(): Vec3 { Vec3(0.0, 0.0, 1.0) }

  /** One pointing angle: 180 degrees minus the separation between the
      boresight and the direction of `v`; a zero `v` has no direction. */
  function PointingAngle(p: Provider, boresight: Vec3, v: Vec3, t: real): (r: Result<real>)
    ensures r.Ok? <==> p.norm(v) != 0.0
    ensures r.Err? ==> r.error == DegenerateGeometry(t)
    ensures r.Ok? ==> 0.0 <= r.value <= 180.0
    ensures r.Ok? ==> p.vsep(boresight, Scale(v, 1.0 / p.norm(v))) == (180.0 - r.value) * Pi / 180.0
  {
    var n := p.norm(v);
    if n == 0.0 then Err(DegenerateGeometry(t))
    else
      var angleRad := p.vsep(boresight, Scale(v, 1.0 / n));
      DegreesOfAngle(angleRad);
      Ok(180.0 - Degrees(angleRad))
  }

  /** The six values `PointingAngles` returns, in its order. */
  datatype Pointing = Pointing(tgoStart: real, tgoEnd: real, mexStart: real, mexEnd: real,
                               startDistance: real, endDistance: real)

  /** The observer as seen from the target in the target's body frame. */
  function TgoView(p: Provider, sv: SpiceVariables, t: real): Vec3 {
    p.spkpos(sv.target, t, "TGO_SPACECRAFT", LightTime, sv.obs)
  }

  /** The target as seen from the observer in the observer's body frame. */
  function MexView(p: Provider, sv: SpiceVariables, t: real): Vec3 {
    p.spkpos(sv.obs, t, "MEX_SPACECRAFT", LightTime, sv.target)
  }

  /** `PointingAngles`: the pointing angles of both spacecraft at the start
      and at the end of the window, and the separations there; the queries
      run in the order TGO start, MEX start, TGO end, MEX end, and the
      first degenerate direction ends the computation. */
  function PointingAngles(p: Provider, sv: SpiceVariables, start: real, duration: real): (r: Result<Pointing>)
    ensures r.Ok? ==>
      0.0 <= r.value.tgoStart <= 180.0 && 0.0 <= r.value.tgoEnd <= 180.0 &&
      0.0 <= r.value.mexStart <= 180.0 && 0.0 <= r.value.mexEnd <= 180.0
    ensures r.Ok? ==>
      r.value.startDistance == p.norm(TgoView(p, sv, start)) != 0.0 &&
      r.value.endDistance == p.norm(TgoView(p, sv, start + duration)) != 0.0
    ensures r.Ok? ==>
      PointingAngle(p, TgoBoresight(), TgoView(p, sv, start), start) == Ok(r.value.tgoStart) &&
      PointingAngle(p, TgoBoresight(), TgoView(p, sv, start + duration), start + duration) == Ok(r.value.tgoEnd) &&
      PointingAngle(p, MexBoresight(), MexView(p, sv, start), start) == Ok(r.value.mexStart) &&
      PointingAngle(p, MexBoresight(), MexView(p, sv, start + duration), start + duration) == Ok(r.value.mexEnd)
  {
    var end := start + duration;
    match PointingAngle(p, TgoBoresight(), TgoView(p, sv, start), start)
    case Err(e) => Err(e)
    case Ok(tgoStart) =>
      match PointingAngle(p, MexBoresight(), MexView(p, sv, start), start)
      case Err(e) => Err(e)
      case Ok(mexStart) =>
        match PointingAngle(p, TgoBoresight(), TgoView(p, sv, end), end)
        case Err(e) => Err(e)
        case Ok(tgoEnd) =>
          match PointingAngle(p, MexBoresight(), MexView(p, sv, end), end)
          case Err(e) => Err(e)
          case Ok(mexEnd) =>
            Ok(Pointing(tgoStart, tgoEnd, mexStart, mexEnd,
                        p.norm(TgoView(p, sv, start)), p.norm(TgoView(p, sv, end))))
  }

  /** The pointing angles are defined exactly when all four lines of sight
      have a non-zero length; otherwise the error names the first epoch
      whose line of sight had none. */
  lemma PointingByNorms(p: Provider, sv: SpiceVariables, start: real, duration: real)
    ensures var end := start + duration;
      var startOk := p.norm(TgoView(p, sv, start)) != 0.0 && p.norm(MexView(p, sv, start)) != 0.0;
      var endOk := p.norm(TgoView(p, sv, end)) != 0.0 && p.norm(MexView(p, sv, end)) != 0.0;
      var r := PointingAngles(p, sv, start, duration);
      (r.Ok? <==> startOk && endOk) &&
      (!startOk ==> r == Err(DegenerateGeometry(start))) &&
      (startOk && !endOk ==> r == Err(DegenerateGeometry(end)))
  {
  }

  /** With a definite norm (every valid one is, `ValidDefinite`), the
      pointing angles are defined exactly when neither spacecraft coincides
      with the other at either end of the window; otherwise the error names
      the first epoch that failed. */
  lemma PointingDefined(p: Provider, sv: SpiceVariables, start: real, duration: real)
    requires p.Definite()
    ensures var startOk := TgoView(p, sv, start) != Zero() && MexView(p, sv, start) != Zero();
      var endOk := TgoView(p, sv, start + duration) != Zero() && MexView(p, sv, start + duration) != Zero();
      var r := PointingAngles(p, sv, start, duration);
      (r.Ok? <==> startOk && endOk) &&
      (!startOk ==> r == Err(DegenerateGeometry(start))) &&
      (startOk && !endOk ==> r == Err(DegenerateGeometry(start + duration)))
  {
    PointingByNorms(p, sv, start, duration);
  }

  /** Each reported angle recovers the radians vsep measured between the
      boresight and the unit line of sight. */
  lemma PointingInverse(p: Provider, sv: SpiceVariables, start: real, duration: real)
    requires PointingAngles(p, sv, start, duration).Ok?
    ensures var a := PointingAngles(p, sv, start, duration).value;
      var tgo := TgoView(p, sv, start);
      p.vsep(TgoBoresight(), Scale(tgo, 1.0 / p.norm(tgo))) == (180.0 - a.tgoStart) * Pi / 180.0
    ensures var a := PointingAngles(p, sv, start, duration).value;
      var tgo := TgoView(p, sv, start + duration);
      p.vsep(TgoBoresight(), Scale(tgo, 1.0 / p.norm(tgo))) == (180.0 - a.tgoEnd) * Pi / 180.0
    ensures var a := PointingAngles(p, sv, start, duration).value;
      var mex := MexView(p, sv, start);
      p.vsep(MexBoresight(), Scale(mex, 1.0 / p.norm(mex))) == (180.0 - a.mexStart) * Pi / 180.0
    ensures var a := PointingAngles(p, sv, start, duration).value;
      var mex := MexView(p, sv, start + duration);
      p.vsep(MexBoresight(), Scale(mex, 1.0 / p.norm(mex))) == (180.0 - a.mexEnd) * Pi / 180.0
  {
  }
}
