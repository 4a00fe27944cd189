/** The tangent-point profiler (main.py, `Profiler`): one pass over the
    occultation window in one-second steps, in the direction the scheme
    dictates, followed by threshold lookups, maxima and the grazing angle. */
module Profiling {
  import opened Results
  import opened Spice

  /** Altitude (km) taken as the ionospheric-peak intercept. */
  const PeakThreshold: real := 120.0
  /** Altitude (km) above which a sample counts as above the surface. */
  const LowestThreshold: real := 1.0
  /** Smallest rise per one-second step (km) that is not a plateau. */
  const PlateauRise: real := 0.5
  /** Margin (km) by which the line of sight may approach the observer
      before the nearest point is taken to lie beyond it. */
  const OverrunMargin: real := 50.0

  /** Whether the tangent point descends (ingress) or rises (egress) over
      the window. */
  datatype Scheme = Ingress | Egress

  /** The signed offset processed at loop step `k`: the loop runs over
      `range(0, modifier * duration, modifier)`. */
  function Offset(scheme: Scheme, k: int): int {
    if scheme == Ingress then -k else k
  }

  /** The epoch the offsets count from: the window's end for ingress. */
  function StartEpoch(et: real, duration: int, scheme: Scheme): real {
    if scheme == Ingress then et + duration as real else et
  }

  /** The epoch queried at loop step `k`. Egress walks forward from `et`;
      ingress walks backward from `et + duration`. */
  function SampleEpoch(et: real, duration: int, scheme: Scheme, k: int): (t: real)
    ensures scheme == Egress ==> t == et + k as real
    ensures scheme == Ingress ==> t == et + (duration - k) as real
  {
    StartEpoch(et, duration, scheme) + Offset(scheme, k) as real
  }

  /** Number of steps `range` yields: `duration` when positive, else none. */
  function StepCount(duration: int): nat {
    if duration > 0 then duration else 0
  }

  /** Python's `int()` on a float: truncation toward zero. */
  function Trunc(r: real): (n: int)
    ensures r >= 0.0 ==> 0.0 <= n as real <= r && r < n as real + 1.0
    ensures r < 0.0 ==> r <= n as real <= 0.0 && n as real - 1.0 < r
  {
    if r >= 0.0 then r.Floor else -((-r).Floor)
  }

  /** Python indexing: a negative index counts from the end. */
  function PyIndex(s: seq<real>, i: int): real
    requires -|s| <= i < |s|
  {
    if i >= 0 then s[i] else s[|s| + i]
  }

  /** A profile coordinate: a point with each component passed through
      Python's `int()`. */
  datatype Coord = Coord(x: int, y: int, z: int)

  function Truncated(v: Vec3): Coord {
    Coord(Trunc(v.x), Trunc(v.y), Trunc(v.z))
  }

  /** What one loop step derives from its queries. `point` is the tangent
      point and `coord` its truncation, appended to the profile; `clamped` records that the line of
      sight overran the observer and the point was replaced by the target
      position. */
  datatype Sample = Sample(alt: real, doppler: real, displacement: real, point: Vec3, coord: Coord, clamped: bool)

  /** One step of the profiling loop at absolute epoch `t`. It fails when
      the spacecraft separation is zero (the unit vector cannot be formed),
      or when the nearest surface point is the origin and is kept (its unit
      vector, hence the truncated coordinate, is undefined). */
  function ProfileStep(p: Provider, sv: SpiceVariables, t: real): Result<Sample>
  {
    var targetpos := p.spkpos(sv.front, t, sv.fframe, LightTimeStellar, sv.target);
    var states := p.spkezr(sv.target, t, sv.fframe, NoCorrection, sv.obs);
    var obspos := p.spkpos(sv.front, t, sv.fframe, LightTimeStellar, sv.obs);
    var vd := Doppler(p.norm(states.velocity));
    var displacement := p.norm(states.position);
    if displacement == 0.0 then Err(DegenerateGeometry(t))
    else
      var unitvector := Scale(states.position, 1.0 / displacement);
      var marsrad := p.bodvrd(sv.front);
      var near := p.npedln(marsrad.x, marsrad.y, marsrad.z, targetpos, unitvector);
      var tangent2mexdist := p.norm(Sub(obspos, near.point));
      var surfaceNorm := p.norm(near.point);
      var clamped := tangent2mexdist > displacement - OverrunMargin;
      if !clamped && surfaceNorm == 0.0 then Err(DegenerateGeometry(t))
      else
        var tangentpoint :=
          if clamped then targetpos
          else Add(Scale(Scale(near.point, 1.0 / surfaceNorm), near.alt), near.point);
        Ok(Sample(near.alt, vd, displacement, tangentpoint, Truncated(tangentpoint), clamped))
  }

  /** The profiler's step at each epoch, as a function of the epoch. */
  function StepAt(p: Provider, sv: SpiceVariables): real -> Result<Sample> {
    t => ProfileStep(p, sv, t)
  }

  /** The first `n` steps of the window, each taken by `step` at its epoch,
      or the first step's failure. */
  function Steps(step: real -> Result<Sample>, et: real, duration: int, scheme: Scheme, n: nat): (r: Result<seq<Sample>>)
    ensures r.Ok? ==> |r.value| == n
  {
    if n == 0 then Ok([])
    else
      match Steps(step, et, duration, scheme, n - 1)
      case Err(e) => Err(e)
      case Ok(s) =>
        match step(SampleEpoch(et, duration, scheme, n - 1))
        case Err(e) => Err(e)
        case Ok(x) => Ok(s + [x])
  }

  /** A complete run holds, at position k, the step taken at the k-th
      epoch of the window. */
  lemma {:induction false} StepsAt(step: real -> Result<Sample>, et: real, duration: int, scheme: Scheme, n: nat)
    requires Steps(step, et, duration, scheme, n).Ok?
    ensures forall k :: 0 <= k < n ==>
      step(SampleEpoch(et, duration, scheme, k)) == Ok(Steps(step, et, duration, scheme, n).value[k])
    decreases n
  {
    if n > 0 {
      StepsAt(step, et, duration, scheme, n - 1);
    }
  }

  /** What one step reports: the separation and the Doppler estimate of
      the spacecraft-to-spacecraft state; a zero separation always fails.
      Along a non-degenerate line of sight, the altitude is that of the
      nearest point npedln finds on the ellipsoid, and the step is marked
      clamped exactly when that surface point lies more than 50 km beyond
      the spacecraft separation from the observer. A clamped step reports
      the target position; an unclamped one lifts the surface point by its
      altitude along its own direction, and fails only when that direction
      is undefined. */
  lemma StepFacts(p: Provider, sv: SpiceVariables, t: real)
    ensures var r := ProfileStep(p, sv, t);
      var states := p.spkezr(sv.target, t, sv.fframe, NoCorrection, sv.obs);
      (r.Ok? ==> r.value.displacement == p.norm(states.position) != 0.0) &&
      (r.Ok? ==> r.value.doppler == Doppler(p.norm(states.velocity))) &&
      (r.Ok? && r.value.clamped ==> r.value.point == p.spkpos(sv.front, t, sv.fframe, LightTimeStellar, sv.target)) &&
      (r.Ok? ==> r.value.coord == Truncated(r.value.point)) &&
      (p.norm(states.position) == 0.0 ==> r == Err(DegenerateGeometry(t)))
    ensures var r := ProfileStep(p, sv, t);
      var states := p.spkezr(sv.target, t, sv.fframe, NoCorrection, sv.obs);
      var displacement := p.norm(states.position);
      displacement != 0.0 ==>
        var marsrad := p.bodvrd(sv.front);
        var targetpos := p.spkpos(sv.front, t, sv.fframe, LightTimeStellar, sv.target);
        var near := p.npedln(marsrad.x, marsrad.y, marsrad.z, targetpos, Scale(states.position, 1.0 / displacement));
        var obspos := p.spkpos(sv.front, t, sv.fframe, LightTimeStellar, sv.obs);
        var clamped := p.norm(Sub(obspos, near.point)) > displacement - OverrunMargin;
        (r.Ok? <==> clamped || p.norm(near.point) != 0.0) &&
        (r.Err? ==> r.error == DegenerateGeometry(t)) &&
        (r.Ok? ==> r.value.alt == near.alt && r.value.clamped == clamped) &&
        (r.Ok? && !clamped ==>
          r.value.point == Add(Scale(Scale(near.point, 1.0 / p.norm(near.point)), near.alt), near.point))
  {
  }

  /** Once a step fails, every longer run fails with the same error. */
  lemma {:induction false} StepsFailurePersists(step: real -> Result<Sample>, et: real, duration: int, scheme: Scheme, n: nat, m: nat)
    requires n <= m && Steps(step, et, duration, scheme, n).Err?
    ensures Steps(step, et, duration, scheme, m) == Steps(step, et, duration, scheme, n)
    decreases m
  {
    if n < m {
      StepsFailurePersists(step, et, duration, scheme, n, m - 1);
    }
  }

  function Alts(s: seq<Sample>): (r: seq<real>)
    ensures |r| == |s| && forall k :: 0 <= k < |s| ==> r[k] == s[k].alt
  {
    seq(|s|, k requires 0 <= k < |s| => s[k].alt)
  }

  function Dopplers(s: seq<Sample>): (r: seq<real>)
    ensures |r| == |s| && forall k :: 0 <= k < |s| ==> r[k] == s[k].doppler
  {
    seq(|s|, k requires 0 <= k < |s| => s[k].doppler)
  }

  /** The truncated profile coordinates along one axis (0, 1 or 2). */
  function Coords(s: seq<Sample>, axis: nat): (r: seq<int>)
    requires axis < 3
    ensures |r| == |s|
    ensures forall k :: 0 <= k < |s| ==>
      r[k] == (if axis == 0 then s[k].coord.x else if axis == 1 then s[k].coord.y else s[k].coord.z)
  {
    seq(|s|, k requires 0 <= k < |s| =>
      if axis == 0 then s[k].coord.x else if axis == 1 then s[k].coord.y else s[k].coord.z)
  }

  /** `np.where(s > threshold)[0]`, first element: the smallest index whose
      value exceeds the threshold, if any. */
  function FirstAbove(s: seq<real>, threshold: real): (r: Option<nat>)
    ensures r.Some? ==> r.value < |s| && s[r.value] > threshold
    ensures r.Some? ==> forall j :: 0 <= j < r.value ==> s[j] <= threshold
    ensures r.None? ==> forall j :: 0 <= j < |s| ==> s[j] <= threshold
  {
    if |s| == 0 then None
    else if s[0] > threshold then Some(0)
    else
      match FirstAbove(s[1..], threshold)
      case None => None
      case Some(k) => Some(k + 1)
  }

  /** `np.max`: the largest element of a non-empty sequence. */
  function MaxOf(s: seq<real>): real
    requires |s| >= 1
  {
    if |s| == 1 then s[0]
    else
      var rest := MaxOf(s[..|s| - 1]);
      if s[|s| - 1] > rest then s[|s| - 1] else rest
  }

  /** `MaxOf` is the largest element of the list, and one of its elements. */
  lemma {:induction false} MaxOfIsMax(s: seq<real>)
    requires |s| >= 1
    ensures MaxOf(s) in s
    ensures forall k :: 0 <= k < |s| ==> s[k] <= MaxOf(s)
  {
    if |s| > 1 {
      var init := s[..|s| - 1];
      MaxOfIsMax(init);
      assert forall k :: 0 <= k < |init| ==> init[k] == s[k];
    }
  }

  /** The plateau marker after the altitudes `alts` have been appended: the
      last offset `i` at which `altlist[i-1] + 0.5 > altlist[i]` held, with
      Python's negative indexing into the list as it stood at that step. */
  function PlateauMarker(scheme: Scheme, alts: seq<real>): int
    requires |alts| >= 1
    decreases |alts|
  {
    var k := |alts| - 1;
    var i := Offset(scheme, k);
    if PyIndex(alts, i - 1) + PlateauRise > PyIndex(alts, i) then i
    else PlateauMarker(scheme, alts[..k])
  }

  /** Egress: the plateau marker is the last index whose altitude rose by
      less than the plateau rise over its predecessor, or 0 (where the test
      compares a sample with itself and always holds). */
  lemma {:induction false} PlateauEgress(alts: seq<real>)
    requires |alts| >= 1
    ensures 0 <= PlateauMarker(Egress, alts) < |alts|
    ensures var m := PlateauMarker(Egress, alts);
      m == 0 || alts[m - 1] + PlateauRise > alts[m]
    ensures forall k :: PlateauMarker(Egress, alts) < k < |alts| ==> alts[k - 1] + PlateauRise <= alts[k]
    decreases |alts|
  {
    var k := |alts| - 1;
    if PyIndex(alts, k - 1) + PlateauRise > PyIndex(alts, k) {
    } else {
      var prefix := alts[..k];
      PlateauEgress(prefix);
      assert forall j :: 0 <= j < k ==> prefix[j] == alts[j];
    }
  }

  /** Ingress: every test after the first compares `altlist[0]` with
      `altlist[1]`, so the marker is either 0 or the last offset
      `-(n - 1)`. */
  lemma {:induction false} PlateauIngress(alts: seq<real>)
    requires |alts| >= 1
    ensures PlateauMarker(Ingress, alts) ==
      if |alts| >= 2 && alts[0] + PlateauRise > alts[1] then -(|alts| - 1) else 0
    decreases |alts|
  {
    var k := |alts| - 1;
    if k >= 1 {
      assert PyIndex(alts, -k - 1) == alts[0];
      assert PyIndex(alts, -k) == alts[1];
      if !(alts[0] + PlateauRise > alts[1]) {
        var prefix := alts[..k];
        PlateauIngress(prefix);
        if k >= 2 {
          assert prefix[0] == alts[0] && prefix[1] == alts[1];
        }
      }
    }
  }

  /** The offset of the last step whose line of sight overran the
      observer (`highesttime`), if any. */
  function LastClamped(scheme: Scheme, s: seq<Sample>): Option<int>
    decreases |s|
  {
    if |s| == 0 then None
    else if s[|s| - 1].clamped then Some(Offset(scheme, |s| - 1))
    else LastClamped(scheme, s[..|s| - 1])
  }

  /** A profile point as numpy rebuilds it from the integer coordinate
      lists: the k-th entry of each. */
  function ProfilePoint(x: seq<int>, y: seq<int>, z: seq<int>, k: nat): Vec3
    requires |y| == |x| && |z| == |x| && k < |x|
  {
    Vec3(x[k] as real, y[k] as real, z[k] as real)
  }

  /** Profile points coincide exactly when their integer coordinates do, and
      a profile point is the origin exactly when its coordinates are 0. */
  lemma ProfilePointsEqual(x: seq<int>, y: seq<int>, z: seq<int>, j: nat, k: nat)
    requires |y| == |x| && |z| == |x| && j < |x| && k < |x|
    ensures ProfilePoint(x, y, z, j) == ProfilePoint(x, y, z, k) <==> x[j] == x[k] && y[j] == y[k] && z[j] == z[k]
    ensures ProfilePoint(x, y, z, j) == Zero() <==> x[j] == 0 && y[j] == 0 && z[j] == 0
  {
  }

  /** The grazing angle in degrees between the direction from the body's
      centre to the first profile point and the direction from the first
      point to the peak point. `None` stands for the degenerate input the
      source hands to vsep when either direction has zero length. */
  function GrazingAngle(p: Provider, lowestpoint: Vec3, highestpoint: Vec3): (r: Option<real>)
    ensures r.Some? <==> p.norm(lowestpoint) != 0.0 && p.norm(Sub(highestpoint, lowestpoint)) != 0.0
    ensures r.Some? ==> 0.0 <= r.value <= 180.0
    ensures r.Some? ==>
      p.vsep(Scale(lowestpoint, 1.0 / p.norm(lowestpoint)),
             Scale(Sub(highestpoint, lowestpoint), 1.0 / p.norm(Sub(highestpoint, lowestpoint))))
      == r.value * Pi / 180.0
  {
    var maxsc2scvector := Sub(highestpoint, lowestpoint);
    var endNorm := p.norm(maxsc2scvector);
    var startNorm := p.norm(lowestpoint);
    if endNorm == 0.0 || startNorm == 0.0 then None
    else
      var angle := p.vsep(Scale(lowestpoint, 1.0 / startNorm), Scale(maxsc2scvector, 1.0 / endNorm));
      DegreesOfAngle(angle);
      Some(Degrees(angle))
  }

  /** The grazing angle is undefined exactly when the first profile point is
      the origin or coincides with the peak point; in particular it is
      always undefined when the peak is the first sample. */
  lemma GrazingUndefined(p: Provider, lowestpoint: Vec3, highestpoint: Vec3)
    requires p.Definite()
    ensures GrazingAngle(p, lowestpoint, highestpoint).None? <==>
      lowestpoint == Zero() || highestpoint == lowestpoint
  {
    var chord := Sub(highestpoint, lowestpoint);
    assert GrazingAngle(p, lowestpoint, highestpoint).None? <==> p.norm(chord) == 0.0 || p.norm(lowestpoint) == 0.0;
    assert p.norm(lowestpoint) == 0.0 <==> lowestpoint == Zero();
    assert p.norm(chord) == 0.0 <==> chord == Zero();
    ChordZero(highestpoint, lowestpoint);
  }

  /** The difference of two points vanishes exactly when they coincide. */
  lemma ChordZero(a: Vec3, b: Vec3)
    ensures Sub(a, b) == Zero() <==> a == b
  {
  }

  /** One more successful step extends the run by its sample. */
  lemma StepsSnoc(step: real -> Result<Sample>, et: real, duration: int, scheme: Scheme, s: seq<Sample>, x: Sample)
    requires Steps(step, et, duration, scheme, |s|) == Ok(s)
    requires step(SampleEpoch(et, duration, scheme, |s|)) == Ok(x)
    ensures Steps(step, et, duration, scheme, |s| + 1) == Ok(s + [x])
  {
  }

  /** One more failed step ends the run with its error. */
  lemma StepsFail(step: real -> Result<Sample>, et: real, duration: int, scheme: Scheme, s: seq<Sample>, t: real)
    requires Steps(step, et, duration, scheme, |s|) == Ok(s)
    requires t == SampleEpoch(et, duration, scheme, |s|)
    requires step(t).Err?
    requires |s| < StepCount(duration)
    ensures Steps(step, et, duration, scheme, StepCount(duration)) == Err(step(t).error)
  {
    StepsFailurePersists(step, et, duration, scheme, |s| + 1, StepCount(duration));
  }

  /** The per-sample projections grow by the appended sample's fields. */
  lemma ProjectionsSnoc(s: seq<Sample>, x: Sample)
    ensures Alts(s + [x]) == Alts(s) + [x.alt]
    ensures Dopplers(s + [x]) == Dopplers(s) + [x.doppler]
    ensures Coords(s + [x], 0) == Coords(s, 0) + [x.coord.x]
    ensures Coords(s + [x], 1) == Coords(s, 1) + [x.coord.y]
    ensures Coords(s + [x], 2) == Coords(s, 2) + [x.coord.z]
  {
  }

  /** The plateau test at a new step either records its offset or keeps
      the previous marker. */
  lemma PlateauSnoc(scheme: Scheme, alts: seq<real>, a: real)
    requires |alts| >= 1
    ensures var s := alts + [a];
      var i := Offset(scheme, |alts|);
      PlateauMarker(scheme, s) ==
        if PyIndex(s, i - 1) + PlateauRise > PyIndex(s, i) then i else PlateauMarker(scheme, alts)
  {
    assert (alts + [a])[..|alts|] == alts;
  }

  /** After the first step the plateau marker is 0: the test compares the
      only sample with itself. */
  lemma PlateauFirst(scheme: Scheme, a: real)
    ensures PlateauMarker(scheme, [a]) == 0
  {
  }

  /** The overrun marker at a new step either records its offset or keeps
      the previous one. */
  lemma LastClampedSnoc(scheme: Scheme, s: seq<Sample>, x: Sample)
    ensures LastClamped(scheme, s + [x]) == if x.clamped then Some(Offset(scheme, |s|)) else LastClamped(scheme, s)
  {
    assert (s + [x])[..|s|] == s;
  }

  /** The profiling loop's lists and markers: main.py's `altlist`,
      `veldopp`, `x`, `y`, `z`, `maxVelDop`, `startDistance`,
      `endDistance`, `plateauTime` and `highesttime`. `None` is a marker the
      loop has not yet bound. */
  datatype PassState = PassState(
    altlist: seq<real>, veldopp: seq<real>, x: seq<int>, y: seq<int>, z: seq<int>,
    maxVelDop: Option<real>, startDistance: Option<real>, endDistance: Option<real>,
    plateauTime: Option<int>, highestTime: Option<int>)

  /** What the lists and markers mean once the samples `s` have been taken:
      the projections of the samples, the largest Doppler estimate, the
      first separation, the last separation (bound only by the final step
      of a window of two or more steps), the plateau marker and the overrun
      marker. */
  function Tracked(scheme: Scheme, duration: int, s: seq<Sample>): PassState
  {
    PassState(
      Alts(s), Dopplers(s), Coords(s, 0), Coords(s, 1), Coords(s, 2),
      if |s| == 0 then None else Some(MaxOf(Dopplers(s))),
      if |s| == 0 then None else Some(s[0].displacement),
      if |s| == duration && |s| >= 2 then Some(s[|s| - 1].displacement) else None,
      if |s| == 0 then None else Some(PlateauMarker(scheme, Alts(s))),
      LastClamped(scheme, s))
  }

  /** The bookkeeping of one loop step (main.py lines 45-95 around the
      queries): the step at offset `i`, the `|s|`-th of the window, records
      `sample` in the lists and markers, and they go on holding what they
      are meant to hold. */
  method Record(scheme: Scheme, duration: int, ghost s: seq<Sample>, i: int, elapsed: int, modifier: int,
                sample: Sample, st: PassState)
    returns (st': PassState)
    requires |s| < duration
    requires i == Offset(scheme, |s|) && elapsed == Offset(scheme, duration) && modifier == Offset(scheme, 1)
    requires st == Tracked(scheme, duration, s)
    ensures st' == Tracked(scheme, duration, s + [sample])
  {
    ProjectionsSnoc(s, sample);
    LastClampedSnoc(scheme, s, sample);
    if |s| > 0 {
      PlateauSnoc(scheme, st.altlist, sample.alt);
    } else {
      PlateauFirst(scheme, sample.alt);
    }
    assert (i == 0) == (|s| == 0) && (i == elapsed - modifier) == (|s| + 1 == duration);

    var veldopp := st.veldopp + [sample.doppler];
    var maxVelDop := Some(MaxOf(veldopp));

    var startDistance, endDistance := st.startDistance, st.endDistance;
    if i == 0 {
      startDistance := Some(sample.displacement);
    } else if i == elapsed - modifier {
      endDistance := Some(sample.displacement);
    }

    var altlist := st.altlist + [sample.alt];

    var highestTime := st.highestTime;
    if sample.clamped {
      highestTime := Some(i);
    }

    var plateauTime := st.plateauTime;
    if PyIndex(altlist, i - 1) + PlateauRise > PyIndex(altlist, i) {
      plateauTime := Some(i);
    }

    var c := sample.coord;
    var x, y, z;
    if i == 0 {
      x, y, z := [c.x], [c.y], [c.z];
    } else {
      x, y, z := st.x + [c.x], st.y + [c.y], st.z + [c.z];
    }
    st' := PassState(altlist, veldopp, x, y, z, maxVelDop, startDistance, endDistance, plateauTime, highestTime);
  }

  /** What Profiler returns: the truncated profile coordinates, the
      threshold-crossing indices, the plateau offset, the grazing angle,
      the maximum Doppler, the first and last spacecraft separations and the
      maximum altitude. */
  datatype Profile = Profile(
    x: seq<int>, y: seq<int>, z: seq<int>,
    lowestHeightTime: nat, peakHeightTime: nat, plateauTime: int,
    grazingAngle: Option<real>, maxVelDop: real,
    startDistance: real, endDistance: real, maxAlt: real)

  /** The post-pass derivations over the samples of a complete pass. */
  function Summarize(p: Provider, scheme: Scheme, samples: seq<Sample>): Result<Profile>
  {
    if |samples| == 0 then Err(NoSamples)
    else if |samples| == 1 then Err(SingleSample)
    else
      var alts := Alts(samples);
      match FirstAbove(alts, PeakThreshold)
      case None => Err(NoQualifyingSample)
      case Some(peak) =>
        var lowest := FirstAbove(alts, LowestThreshold).value;
        var x, y, z := Coords(samples, 0), Coords(samples, 1), Coords(samples, 2);
        Ok(Profile(x, y, z, lowest, peak, PlateauMarker(scheme, alts),
                   GrazingAngle(p, ProfilePoint(x, y, z, 0), ProfilePoint(x, y, z, peak)), MaxOf(Dopplers(samples)),
                   samples[0].displacement, samples[|samples| - 1].displacement, MaxOf(alts)))
  }

  /** The specification of Profiler: the whole pass, then the summary. */
  function ProfileSpec(p: Provider, sv: SpiceVariables, et: real, duration: int, scheme: Scheme): Result<Profile>
  {
    match Steps(StepAt(p, sv), et, duration, scheme, StepCount(duration))
    case Err(e) => Err(e)
    case Ok(samples) => Summarize(p, scheme, samples)
  }

  /** A summary exists exactly when the pass has at least two samples and
      some altitude exceeds the ionospheric-peak threshold. */
  lemma SummarizeOkIff(p: Provider, scheme: Scheme, samples: seq<Sample>)
    ensures Summarize(p, scheme, samples).Ok? <==>
      |samples| >= 2 && exists k :: 0 <= k < |samples| && samples[k].alt > PeakThreshold
  {
    if |samples| >= 2 && exists k :: 0 <= k < |samples| && samples[k].alt > PeakThreshold {
      var k :| 0 <= k < |samples| && samples[k].alt > PeakThreshold;
      assert Alts(samples)[k] > PeakThreshold;
    }
  }

  /** The threshold indices: `peakHeightTime` is the first sample above
      120 km, `lowestHeightTime` the first above 1 km, so the latter never
      comes after the former. */
  lemma SummaryCrossings(p: Provider, scheme: Scheme, samples: seq<Sample>)
    requires Summarize(p, scheme, samples).Ok?
    ensures var pr := Summarize(p, scheme, samples).value;
      pr.lowestHeightTime <= pr.peakHeightTime < |samples| &&
      samples[pr.peakHeightTime].alt > PeakThreshold &&
      (forall j :: 0 <= j < pr.peakHeightTime ==> samples[j].alt <= PeakThreshold) &&
      samples[pr.lowestHeightTime].alt > LowestThreshold &&
      (forall j :: 0 <= j < pr.lowestHeightTime ==> samples[j].alt <= LowestThreshold)
  {
    var alts := Alts(samples);
    var pr := Summarize(p, scheme, samples).value;
    assert pr.peakHeightTime == FirstAbove(alts, PeakThreshold).value;
    assert pr.lowestHeightTime == FirstAbove(alts, LowestThreshold).value;
  }

  /** The maxima and distances: `maxAlt` is the largest altitude (hence above
      120 km), `maxVelDop` the largest Doppler estimate, and the distances
      are the separations at the first and last steps. */
  lemma SummaryExtremes(p: Provider, scheme: Scheme, samples: seq<Sample>)
    requires Summarize(p, scheme, samples).Ok?
    ensures var pr := Summarize(p, scheme, samples).value;
      (exists k :: 0 <= k < |samples| && samples[k].alt == pr.maxAlt) &&
      (forall k :: 0 <= k < |samples| ==> samples[k].alt <= pr.maxAlt) &&
      pr.maxAlt > PeakThreshold &&
      (exists k :: 0 <= k < |samples| && samples[k].doppler == pr.maxVelDop) &&
      (forall k :: 0 <= k < |samples| ==> samples[k].doppler <= pr.maxVelDop) &&
      pr.startDistance == samples[0].displacement &&
      pr.endDistance == samples[|samples| - 1].displacement
  {
    var alts, dops := Alts(samples), Dopplers(samples);
    var pr := Summarize(p, scheme, samples).value;
    var peak := FirstAbove(alts, PeakThreshold).value;
    MaxOfIsMax(alts);
    MaxOfIsMax(dops);
    assert alts[peak] <= pr.maxAlt;
    var ka :| 0 <= ka < |alts| && alts[ka] == pr.maxAlt;
    var kd :| 0 <= kd < |dops| && dops[kd] == pr.maxVelDop;
    assert samples[ka].alt == pr.maxAlt && samples[kd].doppler == pr.maxVelDop;
  }

  /** The profile has one coordinate triple per second of the window, and
      the pass queried exactly the epochs `SampleEpoch(.., k)`, k < duration. */
  lemma ProfileShape(p: Provider, sv: SpiceVariables, et: real, duration: int, scheme: Scheme)
    requires ProfileSpec(p, sv, et, duration, scheme).Ok?
    ensures duration >= 2
    ensures var pr := ProfileSpec(p, sv, et, duration, scheme).value;
      |pr.x| == duration && |pr.y| == duration && |pr.z| == duration
    ensures var samples := Steps(StepAt(p, sv), et, duration, scheme, duration);
      samples.Ok? && forall k :: 0 <= k < duration ==>
        ProfileStep(p, sv, SampleEpoch(et, duration, scheme, k)) == Ok(samples.value[k])
  {
    StepsAt(StepAt(p, sv), et, duration, scheme, duration);
  }

  /** The grazing angle of a summary is undefined exactly when the first
      profile coordinates are all 0 or the coordinates at the peak index
      equal the first ones; so it is always undefined when the first sample
      is already above the ionospheric-peak threshold. */
  lemma SummaryGrazing(p: Provider, scheme: Scheme, samples: seq<Sample>)
    requires p.Definite() && Summarize(p, scheme, samples).Ok?
    ensures var pr := Summarize(p, scheme, samples).value;
      var k := pr.peakHeightTime;
      k < |pr.x| == |pr.y| == |pr.z| &&
      (pr.grazingAngle.None? <==>
        (pr.x[0] == 0 && pr.y[0] == 0 && pr.z[0] == 0) ||
        (pr.x[k] == pr.x[0] && pr.y[k] == pr.y[0] && pr.z[k] == pr.z[0]))
    ensures Summarize(p, scheme, samples).value.peakHeightTime == 0 ==>
      Summarize(p, scheme, samples).value.grazingAngle.None?
  {
    var pr := Summarize(p, scheme, samples).value;
    var k := pr.peakHeightTime;
    SummaryCrossings(p, scheme, samples);
    GrazingUndefined(p, ProfilePoint(pr.x, pr.y, pr.z, 0), ProfilePoint(pr.x, pr.y, pr.z, k));
    ProfilePointsEqual(pr.x, pr.y, pr.z, k, 0);
  }

  /** The plateau offset of a summary: for egress the last index whose
      rise fell below the plateau rise (or 0); for ingress 0 or
      `-(n - 1)` over a pass of n samples, decided by the first two
      altitudes alone. */
  lemma SummaryPlateau(p: Provider, scheme: Scheme, samples: seq<Sample>)
    requires Summarize(p, scheme, samples).Ok?
    ensures var pr := Summarize(p, scheme, samples).value;
      var alts, n := Alts(samples), |samples|;
      (scheme == Egress ==>
        0 <= pr.plateauTime < n &&
        (pr.plateauTime == 0 || alts[pr.plateauTime - 1] + PlateauRise > alts[pr.plateauTime]) &&
        forall k :: pr.plateauTime < k < n ==> alts[k - 1] + PlateauRise <= alts[k]) &&
      (scheme == Ingress ==>
        pr.plateauTime == if alts[0] + PlateauRise > alts[1] then -(n - 1) else 0)
  {
    var alts := Alts(samples);
    if scheme == Egress {
      PlateauEgress(alts);
    } else {
      PlateauIngress(alts);
    }
  }

  /** With a valid norm the maximum Doppler is never negative, and it is
      zero exactly when every relative velocity over the window is zero. */
  lemma ProfileDoppler(p: Provider, sv: SpiceVariables, et: real, duration: int, scheme: Scheme)
    requires p.Valid()
    requires ProfileSpec(p, sv, et, duration, scheme).Ok?
    ensures ProfileSpec(p, sv, et, duration, scheme).value.maxVelDop >= 0.0
    ensures ProfileSpec(p, sv, et, duration, scheme).value.maxVelDop == 0.0 <==>
      forall k :: 0 <= k < duration ==> RelativeVelocity(p, sv, SampleEpoch(et, duration, scheme, k)) == Zero()
  {
    var samples := Steps(StepAt(p, sv), et, duration, scheme, StepCount(duration)).value;
    assert ProfileSpec(p, sv, et, duration, scheme) == Summarize(p, scheme, samples);
    StepsAt(StepAt(p, sv), et, duration, scheme, StepCount(duration));
    forall k | 0 <= k < |samples|
      ensures samples[k].doppler >= 0.0
      ensures samples[k].doppler == 0.0 <==> RelativeVelocity(p, sv, SampleEpoch(et, duration, scheme, k)) == Zero()
    {
      StepDoppler(p, sv, SampleEpoch(et, duration, scheme, k));
    }
    SummaryDoppler(p, scheme, samples);
  }

  /** A successful step's Doppler estimate is non-negative, and zero
      exactly when the relative velocity is zero. */
  lemma StepDoppler(p: Provider, sv: SpiceVariables, t: real)
    requires p.Valid()
    requires ProfileStep(p, sv, t).Ok?
    ensures ProfileStep(p, sv, t).value.doppler >= 0.0
    ensures ProfileStep(p, sv, t).value.doppler == 0.0 <==> RelativeVelocity(p, sv, t) == Zero()
  {
    StepFacts(p, sv, t);
    NormZero(p, RelativeVelocity(p, sv, t));
  }

  /** Over non-negative estimates, the summary's maximum Doppler is
      non-negative, and zero exactly when every estimate is zero. */
  lemma SummaryDoppler(p: Provider, scheme: Scheme, samples: seq<Sample>)
    requires Summarize(p, scheme, samples).Ok?
    requires forall k :: 0 <= k < |samples| ==> samples[k].doppler >= 0.0
    ensures Summarize(p, scheme, samples).value.maxVelDop >= 0.0
    ensures Summarize(p, scheme, samples).value.maxVelDop == 0.0 <==>
      forall k :: 0 <= k < |samples| ==> samples[k].doppler == 0.0
  {
    SummaryExtremes(p, scheme, samples);
  }

  /** The relative velocity of the spacecraft at epoch `t`. */
  function RelativeVelocity(p: Provider, sv: SpiceVariables, t: real): Vec3 {
    p.spkezr(sv.target, t, sv.fframe, NoCorrection, sv.obs).velocity
  }

  /** The loop of main.py `Profiler`: walks the window in the scheme's
      direction, one query batch per second, appending to the altitude,
      Doppler and coordinate lists and overwriting the markers. `failure`
      is the error of the first step that cannot be completed. */
  method Pass(et: real, duration: int, scheme: Scheme, step: real -> Result<Sample>)
    returns (failure: Option<Error>, st: PassState)
    ensures var run := Steps(step, et, duration, scheme, StepCount(duration));
      match run
      case Err(e) => failure == Some(e)
      case Ok(samples) => failure == None && st == Tracked(scheme, duration, samples)
  {
    var modifier := if scheme == Ingress then -1 else 1;
    var start := if scheme == Ingress then et + duration as real else et;
    var elapsed := if scheme == Ingress then -duration else duration;

    st := PassState([], [], [], [], [], None, None, None, None, None);
    ghost var samples: seq<Sample> := [];

    var i := 0;
    while if modifier == 1 then i < elapsed else i > elapsed
      invariant |samples| <= StepCount(duration)
      invariant i == Offset(scheme, |samples|)
      invariant modifier == Offset(scheme, 1) && elapsed == Offset(scheme, duration)
      invariant start == StartEpoch(et, duration, scheme)
      invariant Steps(step, et, duration, scheme, |samples|) == Ok(samples)
      invariant st == Tracked(scheme, duration, samples)
      decreases StepCount(duration) - |samples|
    {
      ghost var n := |samples|;
      var t := start + i as real;
      assert t == SampleEpoch(et, duration, scheme, n);

      // the queries, Doppler estimate, nearest point and overrun clamp
      var taken := step(t);
      if taken.Err? {
        StepsFail(step, et, duration, scheme, samples, t);
        return Some(taken.error), st;
      }
      var sample := taken.value;
      st := Record(scheme, duration, samples, i, elapsed, modifier, sample, st);
      StepsSnoc(step, et, duration, scheme, samples, sample);
      samples := samples + [sample];
      i := i + modifier;
    }
    assert |samples| == StepCount(duration);
    failure := None;
  }

  /** main.py `Profiler`: the pass over the window, then the summary. The
      overrun marker (`highesttime`) is computed by the pass but, as in the
      original, not returned. */
  method Profiler(et: real, duration: int, scheme: Scheme, sv: SpiceVariables, p: Provider) returns (r: Result<Profile>)
    ensures r == ProfileSpec(p, sv, et, duration, scheme)
    ensures r.Ok? ==> duration >= 2 && |r.value.x| == duration
  {
    var failure, st := Pass(et, duration, scheme, StepAt(p, sv));
    if failure.Some? {
      return Err(failure.value);
    }
    var altlist, x, y, z := st.altlist, st.x, st.y, st.z;
    ghost var samples := Steps(StepAt(p, sv), et, duration, scheme, StepCount(duration)).value;
    assert ProfileSpec(p, sv, et, duration, scheme) == Summarize(p, scheme, samples);

    if |x| == 0 {
      // the loop never ran: the profile coordinates were never bound
      return Err(NoSamples);
    }
    if |x| == 1 {
      // a single sample leaves `x` a plain integer, which has no transpose
      return Err(SingleSample);
    }

    var peak := FirstAbove(altlist, PeakThreshold);
    if peak.None? {
      return Err(NoQualifyingSample);
    }
    var peakHeightTime := peak.value;
    var lowestHeightTime := FirstAbove(altlist, LowestThreshold).value;

    var lowestpoint := ProfilePoint(x, y, z, 0);
    var highestpoint := ProfilePoint(x, y, z, peakHeightTime);
    var grazingAngle := GrazingAngle(p, lowestpoint, highestpoint);
    var maxAlt := MaxOf(altlist);

    r := Ok(Profile(x, y, z, lowestHeightTime, peakHeightTime, st.plateauTime.value, grazingAngle,
                    st.maxVelDop.value, st.startDistance.value, st.endDistance.value, maxAlt));
  }
}
