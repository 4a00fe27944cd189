# Occultation geometry core, modelled in Dafny

This project models the geometry core of a Mars radio-occultation planning
tool. Two spacecraft are involved: the Trace Gas Orbiter (TGO, the target)
and Mars Express (MEX, the observer). Over an occultation window, the core
follows the tangent point, the point where the line of sight between the
spacecraft passes closest to Mars. It models five functions of `main.py`:

- `Profiler` walks the window in one-second steps. Per step it records the
  tangent point's altitude, a geometric Doppler estimate and the truncated
  tangent-point coordinates. Along the way it keeps last-write-wins markers:
  the plateau offset, the overrun offset, and the start and end separations.
  After the walk it derives the first crossings of 120 km and 1 km, the
  maximum altitude, the maximum Doppler estimate and the grazing angle.
- `SchemeChecker` classifies the occultation as ingress or egress. It
  compares the tangent altitude at the two ends of the window.
- `GeoSpec` reports the tangent point's longitude and latitude in degrees,
  the separation and the Doppler estimate, all at one epoch.
- `SolarZenithAngles` signs the solar zenith angle. The sign is positive
  (afternoon) when the angle grows over the next 30 seconds.
- `PointingAngles` reports each spacecraft's boresight angle to the other
  at both ends of the window, along with the separations there.

The SPICE toolkit calls (`spkpos`, `spkezr`, `npedln`, `subslr`, `reclat`,
`vsep`, `bodvrd`) and numpy's `norm` are fields of a `Provider` value
(`spice.dfy`). The model keeps only their documented ranges:

- `vsep` lies in [0, pi];
- `reclat` returns longitudes in [-pi, pi] and latitudes in [-pi/2, pi/2];
- under `Provider.Valid()`, `norm` is the non-negative square root of the
  sum of squares.

Arithmetic uses Dafny's `real`. Python's `int()` is modelled as truncation
toward zero (`Trunc`). Python's negative list indexing is modelled by
`PyIndex`. The model returns an error value (`Results.Error`) in these
cases:

- `DegenerateGeometry(epoch)`: a zero spacecraft separation or line of
  sight has to be normalised, or a profiler step is unclamped and its
  npedln surface point has zero length, so `int()` meets NaN and raises;
- `NoSamples`, `SingleSample` and `NoQualifyingSample`: the profile
  coordinates are unbound or scalar, or no altitude exceeds 120 km.

A clamped step whose surface point has zero length succeeds, as in the
source: the NaN point is overwritten by the target position. A degenerate
grazing angle is `None`, not an error.

Files:

- `results.dfy`: `Option`, `Result` and the error kinds.
- `spice.dfy`: vectors, the provider and its range facts, degrees and the
  Doppler formula.
- `profiler.dfy`: `Profiler`, as the loop method `Pass`, its per-step
  bookkeeping `Record`, and the summary.
- `scheme_checker.dfy`: `SchemeChecker`.
- `snapshot.dfy`: `GeoSpec`, `SolarZenithAngles` and `PointingAngles`.

`Profiler` is imperative in the source, so it is modelled by methods.
`Pass` is the loop: one iteration per second of the window, with the
scheme's direction (`range(0, elapsed, modifier)`). `Record` is one
iteration's updates of the lists and markers. Both are proved against
specification functions:

- `Steps`: the samples the window's steps produce, or the first failure;
- `Tracked`: what the lists and markers hold after given samples;
- `Summarize` and `ProfileSpec`: what `Profiler` returns.

The lemmas prove the source's promises about those functions.

Several behaviours of the code are reproduced as written:

- At offset 0 the plateau test reads `altlist[-1]`, which is the same
  element, so the test holds and `plateauTime` is always bound.
- For ingress the offsets are negative, so every later plateau test
  compares `altlist[0]` with `altlist[1]`.
- The overrun test measures from the surface point returned by `npedln`.
  It does not use the altitude-corrected tangent point.
- `endDistance` is bound only at the last step of a window of two or more
  steps.

## Model

| member | source | states |
|---|---|---|
| Spice.Degrees | main.py:118 | radians-to-degrees conversion; the result times pi / 180 gives back the radians |
| Spice.DegreesOfAngle | main.py:117-118 | any angle vsep returns is between 0 and 180 degrees |
| Spice.Doppler | main.py:43-44 | the Doppler estimate `speed / c * 437.1e9` is non-negative for a non-negative speed, and zero exactly when the speed is zero |
| Spice.NormZero | main.py:50-51 | a valid norm is zero exactly at the zero vector, so a normalisation fails exactly when the vector is zero |
| Spice.ValidDefinite | main.py:50-51 | a valid norm vanishes on the zero vector and nowhere else, for every vector at once |
| Spice.NormScale | main.py:43 | a valid norm is absolutely homogeneous: norm(k v) = abs(k) norm(v) |
| Spice.DopplerScalesWithSpeed | main.py:42-44 | scaling the relative velocity by k >= 0 scales the Doppler estimate by k |
| Profiling.SampleEpoch | main.py:31-37 | egress queries `et + k` at step k; ingress queries `et + duration - k` at step k |
| Profiling.Trunc | main.py:89-95 | `int()` truncates toward zero: the result lies between 0 and the value, less than 1 away from it |
| Profiling.Steps | main.py:35-39 | a successful run of the first n steps has exactly n samples |
| Profiling.StepsAt | main.py:35-39 | sample k of a successful run is exactly what the step returns at the k-th epoch of the window |
| Profiling.StepsFailurePersists | main.py:35-51 | once a step fails, every longer run fails with that same error |
| Profiling.StepsSnoc | main.py:35-39 | one more successful step extends the run by its sample |
| Profiling.StepsFail | main.py:35-51 | a step that fails ends the whole window's run with its error |
| Profiling.StepFacts | main.py:37-79 | a successful step reports the spacecraft separation and the Doppler estimate of its relative velocity, and a zero separation always fails; otherwise the altitude is the one npedln returns for the line of sight through the target position, the step is clamped exactly when the npedln surface point is more than `displacement - 50` km from the observer, a clamped step reports the target position, an unclamped one the surface point lifted by the altitude along its own direction, and the step fails exactly when it is unclamped with a zero-length surface point; the coordinates are the point's truncation |
| Profiling.FirstAbove | main.py:100-104 | the result is the smallest index whose value exceeds the threshold, every earlier value is at most the threshold, and None means no value exceeds it |
| Profiling.MaxOfIsMax | main.py:46 | `np.max` is an element of the list and no element exceeds it |
| Profiling.PlateauEgress | main.py:84-85 | for egress, the marker is 0 or an index whose rise is below 0.5 km, and every later step rose by at least 0.5 km |
| Profiling.PlateauIngress | main.py:84-85 | for ingress, the marker is -(n-1) if the second altitude is below the first plus 0.5 km, and 0 otherwise |
| Profiling.PlateauSnoc | main.py:84-85 | the plateau test at a new step records that step's offset or keeps the earlier marker |
| Profiling.PlateauFirst | main.py:84-85 | after the first step the marker is 0, because the test compares the sample with itself |
| Profiling.LastClampedSnoc | main.py:77-79 | a step whose line of sight overran the observer records its offset as the overrun marker, and any other step keeps the earlier one |
| Profiling.ProjectionsSnoc | main.py:45-95 | appending a sample appends its altitude, Doppler estimate and coordinates to the lists |
| Profiling.GrazingAngle | main.py:107-118 | the angle is defined exactly when the first point and the chord from it to the peak point have non-zero norm; it lies in [0, 180] degrees, and times pi / 180 it is the radians vsep measures between the first point's direction and the chord's direction |
| Profiling.GrazingUndefined | main.py:107-118 | with a norm that vanishes only at the zero vector (every valid one does), the grazing angle is undefined (`None`; the source divides by a zero norm there) exactly when the first point is the origin or equals the peak point, so a peak at index 0 always makes it undefined |
| Profiling.ProfilePointsEqual | main.py:107-108 | two points rebuilt from the integer coordinate lists coincide exactly when their coordinates are equal, and such a point is the origin exactly when its coordinates are all 0 |
| Profiling.Record | main.py:45-95 | after one step, the lists and markers equal `Tracked` of the samples with the new one appended |
| Profiling.Pass | main.py:28-95 | the loop runs once per second of the window; it returns the first step's error or, when every step succeeds, lists and markers equal to `Tracked` of the full run |
| Profiling.Profiler | main.py:25-122 | the result equals `ProfileSpec`; a successful profile has at least two steps and one coordinate per second |
| Profiling.SummarizeOkIff | main.py:98-104 | a summary exists exactly when there are at least two samples and some altitude exceeds 120 km |
| Profiling.SummaryCrossings | main.py:100-104 | `peakHeightTime` is the first sample above 120 km and `lowestHeightTime` the first above 1 km, so `lowestHeightTime <= peakHeightTime` |
| Profiling.SummaryExtremes | main.py:45-122 | `maxAlt` is attained and is the largest altitude, so it is above 120 km; `maxVelDop` is attained and is the largest Doppler estimate; the distances are the first and last separations |
| Profiling.SummaryGrazing | main.py:107-118 | in a successful profile, the grazing angle is undefined exactly when the first coordinates are all 0 or the coordinates at `peakHeightTime` equal the first ones, so it is always undefined when `peakHeightTime` is 0 |
| Profiling.SummaryPlateau | main.py:84-85 | the returned plateau offset for egress is the last index whose rise fell below 0.5 km, or 0; for ingress it is 0 or -(n-1), decided by the first two altitudes |
| Profiling.ProfileShape | main.py:31-98 | a successful profile has `duration >= 2` and `duration` coordinates per axis, and the pass queried exactly the window's `duration` epochs in scheme order |
| Profiling.StepDoppler | main.py:41-44 | with a valid norm, a step's Doppler estimate is non-negative, and zero exactly when the relative velocity is zero |
| Profiling.SummaryDoppler | main.py:46 | if every estimate is non-negative, the maximum is non-negative, and zero exactly when every estimate is zero |
| Profiling.ProfileDoppler | main.py:41-46 | the maximum Doppler estimate is non-negative, and zero exactly when every relative velocity over the window is zero |
| Schemes.TangentAltitudeDefined | main.py:136-145 | the tangent altitude at an epoch is defined exactly when the spacecraft do not coincide |
| Schemes.ClassifyReversed | main.py:148 | distinct altitudes classify oppositely when read in reverse order; equal altitudes give egress either way |
| Schemes.SchemeChecker | main.py:132-150 | the method queries `et` and then `et + duration`, returns the first query's error, and otherwise returns ingress exactly when the first altitude is greater than the second |
| Snapshot.GeoSpec | main.py:195-215 | the result is defined exactly when the separation is non-zero; the separation is the norm of the spkezr position and the Doppler estimate that of the norm of its velocity; the nearest point is npedln's point for the line of sight from the target position along the unit separation; the longitude is `180 + deg(lon)` in [0, 360] and the latitude `-deg(lat)` in [-90, 90] of that point |
| Snapshot.LongitudeDegrees | main.py:212 | `180 - lon * (-180 / pi)` equals `180 + deg(lon)` and lies in [0, 360] |
| Snapshot.LatitudeDegrees | main.py:213 | `lat * (-180 / pi)` equals `-deg(lat)` and lies in [-90, 90] |
| Snapshot.GeoSpecInverse | main.py:211-213 | the reported longitude and latitude recover reclat's radians |
| Snapshot.GeoSpecAgreesWithProfile | main.py:198-205 | `GeoSpec` is defined wherever a profiler step is, and reports the same separation and Doppler estimate as that step |
| Snapshot.SolarZenithAngles | main.py:229-242 | the magnitude of the result is the solar zenith angle in degrees, at most 180; a positive result means the angle grows over the next 30 s, and a negative one means it does not |
| Snapshot.NegatedDegrees | main.py:240 | `angle * (-180 / pi)` is the negated degree value |
| Snapshot.SolarZenithSign | main.py:236-240 | a non-zero angle is positive exactly when it grows over the next 30 s, a tie is never positive, and the magnitude recovers the radians |
| Snapshot.PointingAngle | main.py:158-161 | an angle is defined exactly when the line of sight has non-zero length; it lies in [0, 180] and recovers vsep's radians as `(180 - angle) * pi / 180` |
| Snapshot.PointingAngles | main.py:156-183 | `tgoStart` and `tgoEnd` are the TGO boresight angles at the start and at `start + duration`, `mexStart` and `mexEnd` the MEX ones, each in [0, 180]; the distances are the non-zero TGO-to-MEX separations at start and at `start + duration` |
| Snapshot.PointingByNorms | main.py:156-183 | the angles are defined exactly when the four lines of sight have non-zero length; otherwise the error names the start epoch if a start query failed, and the end epoch if not |
| Snapshot.PointingDefined | main.py:156-183 | with a norm that vanishes only at the zero vector, the angles are defined exactly when neither spacecraft coincides with the other at either end of the window, and the error names the first failing epoch |
| Snapshot.PointingInverse | main.py:156-183 | each of the four reported angles recovers, as `(180 - angle) * pi / 180`, the radians vsep measured between its spacecraft's boresight and its unit line of sight at its epoch |

## Left out

- The script around the core (`setup.py`) is not part of this model. It
  loads kernels, reads the input file, runs the occultation search, formats
  times and writes the spreadsheet. All of that is I/O.
- Errors SPICE itself raises (for instance an epoch the loaded kernels do
  not cover) are not modelled: every query is a total function of its
  arguments, so no query fails on its own.
- SPICE and numpy internals are not modelled. Each query is an
  uninterpreted function with only its documented range. The model does not
  capture the ellipsoid geometry of `npedln`, the sub-solar point's
  `'INTERCEPT/ELLIPSOID'` method, or the light-time outputs of `spkpos`.
- Floating-point rounding is not modelled: arithmetic is over exact reals.
  π and the speed of light are the literals of `math.pi` and
  `scipy.constants.c`.
- NaN is not modelled as a value. Normalising a zero-length vector makes
  numpy produce NaN components, which then feed a SPICE query. The model
  stands for that degenerate input with `DegenerateGeometry(epoch)` in the
  profiler step, `SchemeChecker`, `GeoSpec` and `PointingAngles`, and with
  `None` for the grazing angle. Whatever SPICE itself computes or signals
  from NaN input (`vsep` may well return a finite angle) is not modelled.
- Profiling.Profiler: the `duration <= 0` case returns `NoSamples`. In the
  source that case raises because `x` is unbound.
- Profiling.Profiler: the `duration == 1` case returns `SingleSample`. In the
  source that case raises because `x` is a plain integer without `.T`.
- Profiling.Profiler: `highesttime` is tracked by `Pass` and specified by
  `Tracked`. As in the source, it is not returned.
- Profiling.Profiler: the geometry of one iteration (main.py:37-79) is the
  function `ProfileStep`. `Pass` receives it as its step function.
  Consequently the model does not capture the order of the queries inside
  one iteration, nor a failure partway through an iteration.
- Profiling.Profiler: `int()` is applied when a sample is formed
  (`Sample.coord`), not when the coordinate lists are appended. The value
  appended is the same.
- Snapshot.PointingAngles: `duration` is a real here. The source adds it to
  an epoch without constraining its type.

The behaviour of the source follows its code where its comments differ:

- Profiling.StepFacts: the overrun test (its clamped clause) measures from the surface point
  returned by `npedln`, as the code does. The comment says the tangent
  point.
- Profiling.SummaryPlateau: the plateau test uses a 0.5 km rise, as the
  code does. The comment describes 50 m/s.
