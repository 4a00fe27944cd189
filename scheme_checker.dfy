/** The occultation classifier (main.py, `SchemeChecker`): the tangent
    point's altitude at the start of the window is compared with its
    altitude at the end; a descending tangent point is an ingress. */
module Schemes {
  import opened Results
  import opened Spice
  import opened Profiling

  /** The altitude of the line of sight between the spacecraft above the
      body's ellipsoid at epoch `t`, as one iteration of the classifier
      computes it. A zero separation leaves no direction to search along. */
  function TangentAltitude(p: Provider, sv: SpiceVariables, t: real): Result<real>
  {
    var marsrad := p.bodvrd(sv.front);
    var targetpos := p.spkpos(sv.front, t, sv.fframe, NoCorrection, sv.target);
    var sc2scvector := p.spkpos(sv.target, t, sv.fframe, NoCorrection, sv.obs);
    var displacement := p.norm(sc2scvector);
    if displacement == 0.0 then Err(DegenerateGeometry(t))
    else
      var unitvector := Scale(sc2scvector, 1.0 / displacement);
      Ok(p.npedln(marsrad.x, marsrad.y, marsrad.z, targetpos, unitvector).alt)
  }

  /** With a valid norm, the altitude is defined exactly when the
      spacecraft do not coincide. */
  lemma TangentAltitudeDefined(p: Provider, sv: SpiceVariables, t: real)
    requires p.Valid()
    ensures TangentAltitude(p, sv, t).Ok? <==>
      p.spkpos(sv.target, t, sv.fframe, NoCorrection, sv.obs) != Zero()
    ensures TangentAltitude(p, sv, t).Err? ==> TangentAltitude(p, sv, t).error == DegenerateGeometry(t)
  {
    NormZero(p, p.spkpos(sv.target, t, sv.fframe, NoCorrection, sv.obs));
  }

  /** The classification rule: a higher start than end is an ingress;
      everything else, ties included, is an egress. */
  function Classify(first: real, last: real): (s: Scheme)
    ensures s == Ingress <==> first > last
    ensures s == Egress <==> first <= last
  {
    if first > last then Ingress else Egress
  }

  /** Distinct altitudes classify oppositely when the window is read
      backwards; equal altitudes are an egress either way. */
  lemma ClassifyReversed(first: real, last: real)
    ensures first != last ==> Classify(first, last) != Classify(last, first)
    ensures first == last ==> Classify(first, last) == Classify(last, first) == Egress
  {
  }

  /** `SchemeChecker`: the altitudes at `et` and at `et + duration`, in
      that order, stored through a running counter into a two-slot list;
      the first failing query ends the classification. */
  method SchemeChecker(et: real, duration: int, sv: SpiceVariables, p: Provider) returns (r: Result<Scheme>)
    ensures var first := TangentAltitude(p, sv, et);
      var last := TangentAltitude(p, sv, et + duration as real);
      (first.Err? ==> r == Err(first.error)) &&
      (first.Ok? && last.Err? ==> r == Err(last.error)) &&
      (first.Ok? && last.Ok? ==> r.Ok? && (r.value == Ingress <==> first.value > last.value))
  {
    var alt := [0.0, 0.0];
    var i := 0;
    var times := [et, et + duration as real];
    for k := 0 to |times|
      invariant i == k
      invariant |alt| == 2
      invariant k >= 1 ==> TangentAltitude(p, sv, et) == Ok(alt[0])
      invariant k >= 2 ==> TangentAltitude(p, sv, et + duration as real) == Ok(alt[1])
    {
      var time := times[k];
      var altitude := TangentAltitude(p, sv, time);
      if altitude.Err? {
        return Err(altitude.error);
      }
      alt := alt[i := altitude.value];
      i := i + 1;
    }
    r := Ok(Classify(alt[0], alt[1]));
  }
}
