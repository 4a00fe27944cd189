/** The ephemeris and numerics layer the occultation core consumes: SPICE
    queries and numpy's vector norm, abstracted as function-valued fields of
    a `Provider`. Only their documented range facts are kept: `vsep` lies in
    [0, pi], `reclat` longitudes in [-pi, pi] and latitudes in [-pi/2, pi/2],
    and `norm` is the non-negative square root of the sum of squares. */
module Spice {

  /** math.pi */
  const Pi: real := 3.141592653589793
  /** scipy.constants.c, in metres per second */
  const SpeedOfLight: real := 299792458.0
  /** The scale in the Doppler formula: the 437.1 MHz carrier times 1000,
      compensating for speeds given in km/s against a light speed in m/s. */
  const DopplerScale: real := 437100000000.0

  datatype Vec3 = Vec3(x: real, y: real, z: real)

  function Zero(): Vec3 { Vec3(0.0, 0.0, 0.0) }

  function Add(a: Vec3, b: Vec3): Vec3 { Vec3(a.x + b.x, a.y + b.y, a.z + b.z) }

  function Sub(a: Vec3, b: Vec3): Vec3 { Vec3(a.x - b.x, a.y - b.y, a.z - b.z) }

  function Neg(a: Vec3): Vec3 { Vec3(-a.x, -a.y, -a.z) }

  function Scale(a: Vec3, k: real): Vec3 { Vec3(k * a.x, k * a.y, k * a.z) }

  function Sq(r: real): real { r * r }

  /** Squared Euclidean length. */
  function LengthSq(v: Vec3): real { Sq(v.x) + Sq(v.y) + Sq(v.z) }

  function Abs(r: real): real { if r < 0.0 then -r else r }

  /** NAIF body names and codes ('MARS', '-41', '-143') and frame names
      ('IAU_MARS', 'TGO_SPACECRAFT') are passed through as text. */
  type Body = string
  type Frame = string

  /** Aberration corrections used by the core: 'NONE' (also spelt 'None'),
      'LT' and 'LT+S'. */
  datatype Abcorr = NoCorrection | LightTime | LightTimeStellar

  /** A state vector as returned by spkezr: position (km) then velocity (km/s). */
  datatype State = State(position: Vec3, velocity: Vec3)

  /** Range of spicelib's vsep. */
  type Angle = a: real | 0.0 <= a <= Pi witness 0.0
  /** Ranges of reclat's longitude and latitude. */
  type Longitude = a: real | -Pi <= a <= Pi witness 0.0
  type Latitude = a: real | -Pi / 2.0 <= a <= Pi / 2.0 witness 0.0

  datatype Latitudinal = Latitudinal(radius: real, lon: Longitude, lat: Latitude)

  /** What npedln returns: the nearest point on the ellipsoid to a line, and
      the line's distance (altitude) from it. */
  datatype NearPoint = NearPoint(point: Vec3, alt: real)

  /** The identifiers the core passes to every query (the original's
      configuration record): the occulting body, its body-fixed frame, the
      target spacecraft and the observing spacecraft. */
  datatype SpiceVariables = SpiceVariables(front: Body, fframe: Frame, target: Body, obs: Body)

  /** The foreign calls, one field each. Time arguments are ephemeris seconds.
      - bodvrd(body): the body's triaxial radii ('RADII', 3 values);
      - spkpos(target, et, frame, abcorr, observer): position only;
      - spkezr(target, et, frame, abcorr, observer): position and velocity;
      - npedln(a, b, c, linept, linedr);
      - subslr(target, et, frame, abcorr, observer) with method
        'INTERCEPT/ELLIPSOID';
      - reclat(v), vsep(u, v);
      - norm(v): numpy.linalg.norm. */
  datatype Provider = Provider(
    bodvrd: Body -> Vec3,
    spkpos: (Body, real, Frame, Abcorr, Body) -> Vec3,
    spkezr: (Body, real, Frame, Abcorr, Body) -> State,
    npedln: (real, real, real, Vec3, Vec3) -> NearPoint,
    subslr: (Body, real, Frame, Abcorr, Body) -> Vec3,
    reclat: Vec3 -> Latitudinal,
    vsep: (Vec3, Vec3) -> Angle,
    norm: Vec3 -> real)
  {
    /** `norm` is the Euclidean length: non-negative, and its square is the
        sum of the squares of the vector's components. */
    ghost predicate Valid() {
      forall v: Vec3 :: 0.0 <= norm(v) && Sq(norm(v)) == LengthSq(v)
    }

    /** `norm` vanishes on the zero vector and nowhere else, the one fact
        about it that decides whether a direction can be normalised. */
    ghost predicate Definite() {
      forall v: Vec3 :: norm(v) == 0.0 <==> v == Zero()
    }
  }

  /** Radians to degrees, as `angle * (180 / math.pi)`. */
  function Degrees(rad: real): (deg: real)
    ensures rad == deg * Pi / 180.0
  {
    rad * (180.0 / Pi)
  }

  /** Degrees of an angle returned by vsep stay within [0, 180]. */
  lemma DegreesOfAngle(a: Angle)
    ensures 0.0 <= Degrees(a) <= 180.0
  {
  }

  /** The geometric Doppler estimate for a relative speed in km/s:
      `(speed / c) * 437.1e9`. */
  function Doppler(speed: real): (hz: real)
    ensures speed >= 0.0 ==> hz >= 0.0
    ensures hz == 0.0 <==> speed == 0.0
  {
    (speed / SpeedOfLight) * DopplerScale
  }

  /** Squares are non-negative, and positive away from zero. */
  lemma SqSign(r: real)
    ensures Sq(r) >= 0.0
    ensures r != 0.0 ==> Sq(r) > 0.0
  {
    if r < 0.0 {
      calc { Sq(r); == (-r) * (-r); > 0.0; }
    } else if r > 0.0 {
      calc { Sq(r); == r * r; > 0.0; }
    }
  }

  /** Squaring distributes over a product. */
  lemma SqProduct(k: real, r: real)
    ensures Sq(k * r) == Sq(k) * Sq(r)
  {
  }

  /** Two non-negative reals with equal squares are equal. */
  lemma SquareRootUnique(a: real, b: real)
    requires 0.0 <= a && 0.0 <= b && Sq(a) == Sq(b)
    ensures a == b
  {
    assert (a - b) * (a + b) == Sq(a) - Sq(b) == 0.0;
    if a + b != 0.0 {
      assert a - b == ((a - b) * (a + b)) / (a + b);
    }
  }

  /** A valid norm is zero on the zero vector, and only there. */
  lemma NormZero(p: Provider, v: Vec3)
    requires p.Valid()
    ensures p.norm(v) == 0.0 <==> v == Zero()
  {
    var n := p.norm(v);
    SqSign(n);
    SqSign(v.x);
    SqSign(v.y);
    SqSign(v.z);
    if v == Zero() {
      assert LengthSq(v) == 0.0;
    } else {
      assert Sq(v.x) > 0.0 || Sq(v.y) > 0.0 || Sq(v.z) > 0.0;
      assert Sq(n) > 0.0;
    }
  }

  /** Every valid norm is definite. */
  lemma ValidDefinite(p: Provider)
    requires p.Valid()
    ensures p.Definite()
  {
    forall v: Vec3 ensures p.norm(v) == 0.0 <==> v == Zero() {
      NormZero(p, v);
    }
  }

  /** A valid norm is absolutely homogeneous: |k v| = |k| |v|. */
  lemma NormScale(p: Provider, v: Vec3, k: real)
    requires p.Valid()
    ensures p.norm(Scale(v, k)) == Abs(k) * p.norm(v)
  {
    var a, n := p.norm(Scale(v, k)), p.norm(v);
    SqProduct(k, v.x);
    SqProduct(k, v.y);
    SqProduct(k, v.z);
    assert Sq(a) == LengthSq(Scale(v, k)) == Sq(k) * LengthSq(v);
    assert Sq(Abs(k)) == Sq(k);
    SqProduct(Abs(k), n);
    assert 0.0 <= Abs(k) * n;
    SquareRootUnique(a, Abs(k) * n);
  }

  /** The Doppler estimate scales linearly with the relative speed for a
      fixed direction of the relative velocity. */
  lemma DopplerScalesWithSpeed(p: Provider, v: Vec3, k: real)
    requires p.Valid() && 0.0 <= k
    ensures Doppler(p.norm(Scale(v, k))) == k * Doppler(p.norm(v))
  {
    NormScale(p, v, k);
  }
}
