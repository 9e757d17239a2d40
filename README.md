# xcsoar-tasks: GeoJSON task rendering and literal conversions

This project models two parts of the `xcsoar-tasks` crate, a reader and
writer for XCSoar `.tsk` task files.

- **The task visualiser's GeoJSON builder** (`examples/visualize/geojson.rs`).
  It turns a task into an ordered feature collection. The collection holds
  the course line through all turnpoints, when the task has two or more
  points. Then, for every point in task
  order, it holds two features:
  - the outline of the point's observation zone (a circle, a gate line, a
    pie or annular sector, or a keyhole), oriented by the bisector of the
    legs in and out of the point;
  - a waypoint marker. Turn and Area points are labelled "`n`. name", with
    a running turnpoint number `n`.
- **The task data model and its literal conversions** (`src/lib.rs`). These
  are the entity types and the attribute-text conversions:
  - optional booleans read from "1"/"true"/"0"/"false" and written as "1"/"0";
  - the altitude reference, where anything other than "MSL" reads as AGL.

Modules, one file each:

| module | file | content |
|---|---|---|
| `Wrappers` | `wrappers.dfy` | `Option`, `Result` |
| `XcsoarTasks` | `xcsoar.dfy` | task, point, waypoint, location, observation zone types; bool and altitude-reference conversions |
| `Angles` | `angles.dfy` | degree/radian conversion, `normalize_angle`, `normalize_sweep` (with its loops) |
| `Geodesy` | `geodesy.dfy` | leg bearing, destination point, bisector |
| `ZoneGeometry` | `zones.dfy` | circle, sector, keyhole and line outlines; the zone dispatch table |
| `ZoneProperties` | `zone_properties.dfy` | layout lemmas for the outlines |
| `Decimal` | `decimal.dfy` | decimal rendering of a turnpoint number |
| `GeoJson` | `geojson.dfy` | leg bearings, features, the task loop |
| `GeoJsonProperties` | `geojson_properties.dfy` | feature count, order and numbering lemmas |

The source's loops become methods that change nothing. Each method's
`ensures` equates its result with a declarative specification function:
- a sequence comprehension for a sampled arc;
- a closed form for the sweep normalisation;
- a recursive definition of the feature list in emission order, proved equal to the interleaving of per-point zone features and markers.

Lemmas state what those functions promise.

The spherical geometry of the `geo` crate is passed in as a parameter `g`.
It is a `Sphere` value holding the Haversine bearing, the Haversine
destination, and `cos`/`sin`/`atan2`. The model says exactly which bearings
and distances are projected, and in what order. It says nothing about where
the projections land on the Earth.

## Model

| member | source | states |
|---|---|---|
| XcsoarTasks.DeOptBool | src/lib.rs:357-367 | absent reads as `None`; "1" or "true" reads as true and "0" or "false" as false (each an if-and-only-if); any other text fails with "invalid bool: " followed by that text |
| XcsoarTasks.SerOptBool | src/lib.rs:380-386 | true writes "1", false writes "0", and `None` writes nothing (each an if-and-only-if) |
| XcsoarTasks.BoolRoundTrip | src/lib.rs:357-386 | every optional bool reads back as itself after being written |
| XcsoarTasks.BoolCanonical | src/lib.rs:357-386 | an accepted attribute, written back, reads as the same value; the written text equals the original exactly when that was "1", "0" or absent |
| XcsoarTasks.DeserializeAltitudeReference | src/lib.rs:135-145 | reading never fails; the result is MSL exactly when the text is "MSL", and AGL for every other text |
| XcsoarTasks.SerializeAltitudeReference | src/lib.rs:129-133 | the written form is the variant name, "MSL" or "AGL" |
| XcsoarTasks.AltitudeReferenceRoundTrip | src/lib.rs:129-145 | each altitude reference reads back as itself after being written |
| Angles.DegreesRadians | examples/visualize/geojson.rs:270-278 | converting degrees to radians and back is the identity, and so is the reverse direction |
| Angles.Rem360 | examples/visualize/geojson.rs:417 | the truncating remainder by 360 lies strictly between -360 and 360, has the sign of its operand, and is congruent to it modulo 360 |
| Angles.NormalizeAngle | examples/visualize/geojson.rs:416-422 | the result is in [0, 360) and congruent to the input modulo 360 |
| Angles.NormalizeAngleAsWritten | examples/visualize/geojson.rs:416-422 | the source's two steps, the truncating remainder by 360 and then 360 added to a negative remainder, give exactly the normalised angle |
| Angles.NormalizeAngleUnique | examples/visualize/geojson.rs:416-422 | any value in [0, 360) congruent to the input is the normalised angle |
| Angles.NormalizeAngleInRange | examples/visualize/geojson.rs:416-422 | an angle already in [0, 360) is left unchanged |
| Angles.NormalizeAngleTurns | examples/visualize/geojson.rs:416-422 | adding whole turns does not change the normalised angle |
| Angles.Wrap | examples/visualize/geojson.rs:424-433 | a difference moved by whole periods into [0, period]: congruent to it, unchanged when already inside, below the period when it was negative, above 0 when it exceeded a period |
| Angles.WrapInDegrees | examples/visualize/geojson.rs:270-272 | wrapping a radian value by a full turn and reading it in degrees is wrapping its degree value by 360 |
| Angles.NormalizedSweep | examples/visualize/geojson.rs:424-433 | the sweep lies in [0, 2π], is congruent to end − start modulo 2π, equals end − start when that is already in [0, 2π], and is below 2π when end − start is negative |
| Angles.NormalizeSweep | examples/visualize/geojson.rs:424-433 | the two loops of the source compute exactly `NormalizedSweep` |
| Angles.LoopsReachWrap | examples/visualize/geojson.rs:424-433 | wherever the two loops stop (in [0, 2π], a whole number of turns from the difference, below 2π after adding turns, above 0 after removing them) is the wrapped difference |
| Geodesy.CalculateBearing | examples/visualize/geojson.rs:396-402 | the bearing is in [0, 360) and congruent modulo 360 to the Haversine bearing between the two locations |
| Geodesy.DestinationPoint | examples/visualize/geojson.rs:404-414 | the projection is asked for with the longitude as `x` and the latitude as `y`, and its `x` and `y` are read back as longitude and latitude |
| Geodesy.BisectAngles | examples/visualize/geojson.rs:435-444 | the vector-average direction of two bearings is normalised into [0, 360) |
| Geodesy.CalculateBisector | examples/visualize/geojson.rs:384-394 | only an incoming leg: that bearing; only an outgoing leg: the reverse bearing, in [0, 360) and congruent to out + 180; both legs: the vector average of the incoming bearing and the reversed outgoing one; the result is in [0, 360) whenever the incoming bearing is; no leg at all is excluded, because the source panics |
| Geodesy.BisectorOfFirstPoint | examples/visualize/geojson.rs:391 | a start point's zone faces back along the first leg: out + 180 for out < 180, out − 180 otherwise |
| ZoneGeometry.GenerateCircleCoords | examples/visualize/geojson.rs:197-206 | the loop yields 65 positions, position `i` projected at bearing 360·i/64 and the circle's radius |
| ZoneGeometry.GenerateCircleGeometry | examples/visualize/geojson.rs:189-195 | a circle zone is a one-ring polygon of those 65 positions |
| ZoneGeometry.SweepDegrees | examples/visualize/geojson.rs:270-272 | in degrees, the sweep lies in [0, 360], is congruent to end − start modulo 360, equals end − start when that is in [0, 360], and is below 360 when end − start is negative |
| ZoneGeometry.SweepAgrees | examples/visualize/geojson.rs:270-272 | the sweep the renderer computes from radians, read in degrees, is `SweepDegrees` of the two radials |
| ZoneGeometry.GenerateSectorCoords | examples/visualize/geojson.rs:259-300 | the outer-arc loop, then either the reverse inner-arc loop or the centre, then the copy of the first position, build exactly `SectorRing` |
| ZoneGeometry.GenerateSectorGeometry | examples/visualize/geojson.rs:225-242 | a sector centred on the bisector spans from normalize(bisector − angle/2) to normalize(bisector + angle/2) |
| ZoneGeometry.GenerateSectorFromRadials | examples/visualize/geojson.rs:244-257 | a Sector zone's ring runs from its start radial to its end radial, with its optional inner radius |
| ZoneGeometry.GenerateKeyholeGeometry | examples/visualize/geojson.rs:302-347 | a keyhole is the outer arc (33 samples), then the inner circle from the end radial around the remaining 360 − sweep degrees (65 samples), then the copy of the first position |
| ZoneGeometry.GenerateZoneGeometry | examples/visualize/geojson.rs:113-187 | every zone yields a geometry; it is the one its row of the zone table gives, with the defaults of the source filled in (1609.34 m MatCylinder, 20 km 90° FAI sector, 10 km/90° quadrant, 10 km/500 m/90° keyhole, 5 km 180° BGA start sector, 20 km and 10 km/180° BGA keyholes) |
| ZoneGeometry.LineGeometry | examples/visualize/geojson.rs:208-223 | a gate is a two-position line string: the projections at half the gate length along normalize(bisector + 90) and then normalize(bisector − 90) |
| ZoneProperties.CircleRingLayout | examples/visualize/geojson.rs:197-206 | the circle ring has 65 positions, starting at bearing 0 and ending at bearing 360, with sample `i` at 360·i/64 |
| ZoneProperties.ArcEndsOnEndRadial | examples/visualize/geojson.rs:263-275 | the last outer-arc sample lies on the end radial, modulo 360 |
| ZoneProperties.SectorRingLayout | examples/visualize/geojson.rs:259-300 | a pie sector has 35 positions (33 arc samples, the centre, the closing copy); an annular sector has 67, its inner samples at the outer bearings in reverse order; either ring starts on the start radial and is closed |
| ZoneProperties.KeyholeRingLayout | examples/visualize/geojson.rs:302-347 | a keyhole ring has 99 positions and is closed; its inner circle starts on the end radial and comes back to the start radial modulo 360 |
| ZoneProperties.InnerCircleReturns | examples/visualize/geojson.rs:329-338 | the keyhole's inner circle, started on the end radial and run for 360 minus the sweep, ends on the start radial modulo 360 |
| ZoneProperties.CentredArcSpansAngle | examples/visualize/geojson.rs:225-242 | for 0 ≤ angle < 360, a centred sector's radials are bisector ∓ angle/2 modulo 360, and its arc sweeps exactly `angle` |
| ZoneProperties.SweepOfCongruent | examples/visualize/geojson.rs:225-242 | for radials in [0, 360) whose difference is congruent to an angle in [0, 360), the sweep is exactly that angle |
| ZoneProperties.GateIsPerpendicular | examples/visualize/geojson.rs:208-223 | a gate's two ends are projected at bisector ± 90 modulo 360, exactly half a turn apart |
| ZoneProperties.GateAcrossEastboundLeg | examples/visualize/geojson.rs:208-223 | with bisector 90, the gate's ends are at bearings 180 and 0, each at half the gate length |
| ZoneProperties.ZoneGeometryLayout | examples/visualize/geojson.rs:113-187 | by zone variant: circles have 65 positions; a Line has 2; FAI, quadrant and BGA start sectors are closed 35-position rings; a Sector is 35 or 67 positions depending on its inner radius; the four keyhole variants are closed 99-position rings |
| Decimal.NatToDecimal | examples/visualize/geojson.rs:75 | a turnpoint number is written as a non-empty string of decimal digits, with a leading zero only for 0 |
| Decimal.DecimalRoundTrip | examples/visualize/geojson.rs:75 | reading the digits back gives the number, so distinct numbers give distinct labels |
| GeoJson.PointTypeToString | examples/visualize/geojson.rs:446-454 | each role is spelled as its variant name, and each name is produced by exactly that role (if and only if, for all five) |
| GeoJson.PointTypeNamesDistinct | examples/visualize/geojson.rs:446-454 | distinct point roles get distinct names |
| GeoJson.GenerateCourseLine | examples/visualize/geojson.rs:49-70 | a course line exists exactly for tasks of two or more points; it is a line string whose position `i` is point `i`'s longitude and latitude |
| GeoJson.WaypointLabel | examples/visualize/geojson.rs:74-77 | a numbered point is labelled with its decimal number, then ". ", then its name; any other point is labelled with its bare name |
| GeoJson.GenerateWaypointFeature | examples/visualize/geojson.rs:72-90 | a marker is a point geometry at the waypoint's location, carrying the label and the role's name |
| GeoJson.ZoneFeature | examples/visualize/geojson.rs:92-111 | a point with at least one leg always has a zone feature, named after its waypoint and carrying its role's name |
| GeoJson.GenerateObservationZoneFeature | examples/visualize/geojson.rs:92-111 | a point's zone feature is always produced; it is named after the waypoint and is the outline of the zone, oriented by the bisector of the two legs |
| GeoJson.CalculateLegBearings | examples/visualize/geojson.rs:349-382 | the loop computes the bearings of the legs into and out of every point |
| GeoJson.LegsAtLayout | examples/visualize/geojson.rs:349-382 | point `i` has an incoming bearing exactly when i > 0 and an outgoing one exactly when it is not the last point; each is the bearing of that leg, in [0, 360) |
| GeoJson.LegBearingsLayout | examples/visualize/geojson.rs:349-382 | there is one entry per point, and entry `i` is the legs of point `i` |
| GeoJson.LegBearingsOriented | examples/visualize/geojson.rs:349-394 | every point has at least one leg exactly when the task does not have a single point, which is the case where `calculate_bisector` panics |
| GeoJson.NumberingStep | examples/visualize/geojson.rs:26-32 | counting one more point adds one exactly for a Turn or Area point, so the running counter, incremented before use, is the point's number |
| GeoJson.TaskToGeoJson | examples/visualize/geojson.rs:9-47 | the collection is the course line, if any, followed by every point's zone feature and marker |
| GeoJson.GeneratePointFeatures | examples/visualize/geojson.rs:21-41 | the loop over the points, with its running turnpoint counter, emits for each point its zone feature and then its marker numbered by `LabelNumber` |
| GeoJson.PointFeaturesInterleaved | examples/visualize/geojson.rs:21-41 | what the loop emits is the interleaving of the per-point zone features with the per-point markers |
| GeoJson.InterleavePrefixes | examples/visualize/geojson.rs:21-41 | a sequence of prefixes that grows by one point's features at a time is the interleaving at every step |
| GeoJson.InterleaveLength | examples/visualize/geojson.rs:21-41 | when every point has a zone feature, each point contributes exactly two features |
| GeoJson.InterleaveAt | examples/visualize/geojson.rs:21-41 | in that case point `j`'s zone feature is at position 2j and its marker at 2j + 1 |
| GeoJsonProperties.NumberedBetween | examples/visualize/geojson.rs:21-32 | the turnpoint count never decreases along the task, and stays the same over a stretch exactly when that stretch has no Turn or Area point |
| GeoJsonProperties.NumberedAtMost | examples/visualize/geojson.rs:21-32 | the count over `k` points is at most `k` |
| GeoJsonProperties.LabelNumberPresence | examples/visualize/geojson.rs:26-32 | exactly Turn and Area points get a number |
| GeoJsonProperties.NumberedLabel | examples/visualize/geojson.rs:26-32 | a numbered point's marker reads "n. name" |
| GeoJsonProperties.FirstNumberIsOne | examples/visualize/geojson.rs:21-32 | the first Turn or Area point is numbered 1 |
| GeoJsonProperties.NumbersIncrease | examples/visualize/geojson.rs:21-32 | later numbered points get strictly larger numbers; a later numbered point gets exactly the next number if and only if no Turn or Area point lies between the two |
| GeoJsonProperties.NumberBounds | examples/visualize/geojson.rs:21-32 | every number is at least 1 and at most the task's count of Turn and Area points, which is at most the number of points |
| GeoJsonProperties.TaskZonesPresent | examples/visualize/geojson.rs:9-47 | in a task that is not a single point, every point has a leg and therefore a zone feature |
| GeoJsonProperties.TaskFeatureCount | examples/visualize/geojson.rs:9-47 | a task of N points yields 2N features, plus one course line when N ≥ 2 |
| GeoJsonProperties.EmptyTask | examples/visualize/geojson.rs:9-47 | a task without points yields an empty collection |
| GeoJsonProperties.TaskFeaturesSplit | examples/visualize/geojson.rs:9-47 | with two or more points, the collection is the course line followed by the interleaved point features |
| GeoJsonProperties.InterleaveAfterHead | examples/visualize/geojson.rs:9-47 | behind a leading feature, point `j`'s zone feature is at 1 + 2j and its marker at 2 + 2j |
| GeoJsonProperties.ZoneFeatureOfLegs | examples/visualize/geojson.rs:9-47 | point `i`'s zone feature is the one oriented by its own incoming and outgoing legs |
| GeoJsonProperties.TaskFeatureOrder | examples/visualize/geojson.rs:9-47 | with two or more points: the course line comes first; point `i`'s zone feature (its waypoint's name and role) is at 1 + 2i; its marker is at 2 + 2i |

## Left out

- The Haversine bearing and destination of the `geo` crate, and `cos`, `sin` and `atan2`, are not modelled. They are parameters (the `Sphere` value), so no numeric property of the projected positions is claimed.
- Floating point is modelled as exact reals. π is the rational 3.141592653589793, so degree/radian conversions are exact here. The source's rounding is not modelled. Neither is f32 storage of locations and radii in `src/lib.rs` against f64 arithmetic in the visualiser.
- Angles.NormalizeSweep: its loops end only because reals are exact. In the source's `f64` loops, an infinite difference, or one so large that subtracting 2π leaves it unchanged, never ends the loop, so `normalize_sweep` hangs. A Sector zone can supply such radials, since they are used without normalisation and attribute parsing accepts `inf` and `1e30`. The model does not capture that hang.
- Geodesy.BisectAngles: only the range of the result is stated; that the average of two unit vectors points between the bearings depends on the trigonometric functions left out above.
- ZoneProperties.CircleRingLayout: it does not claim that the closing sample (bearing 360) equals the first one (bearing 0). That holds only if the parameter destination function is periodic in the bearing.
- GeoJson.TaskToGeoJson: a one-point task is excluded by its precondition. The source panics inside `calculate_bisector` for it, so there is no result to model.
- JSON values are datatypes (`Feature`, `FeatureCollection`, `Geometry`). Key names, the `"type"` tags and the textual JSON encoding are not modelled.
- XML reading and writing (`from_str`, `from_reader`, `to_writer`, `to_string` and their error types) is not modelled, nor the serde attribute plumbing. They are calls into `quick-xml` and `serde`, which are not part of this model.
- The numeric attribute conversions `de_f32`, `de_opt_f32`, `ser_f32` and `ser_opt_f32` are not modelled. They rely on Rust's float parsing and shortest-round-trip float printing.
- The visualiser's command line, HTML template, file I/O, benches and snapshot tests are not modelled.
- The 32-bit integer fields of the task (`u32`) are bounded by a newtype. Turnpoint numbers (`usize`) are unbounded naturals, since a task never holds 2^64 points.
- A centred sector whose angle is a multiple of 360 has a sweep of 0. Its radials then coincide and the arc degenerates to one bearing, as in the source. `CentredArcSpansAngle` therefore assumes 0 ≤ angle < 360.
