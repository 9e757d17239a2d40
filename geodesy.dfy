/**
 * The spherical-geometry leaves of the zone renderer
 * (examples/visualize/geojson.rs): leg bearings, forward projection and the
 * bisector that orients asymmetric zones.
 *
 * The Haversine bearing and destination routines of the `geo` crate, and the
 * cos/sin/atan2 of the standard library, are not part of this model: they are
 * the fields of a `Sphere` value that every operation takes as a parameter, so
 * everything proved here holds for whatever those routines return.
 */
module Geodesy {
  import opened Wrappers
  import opened XcsoarTasks
  import opened Angles

  /** A `geo` crate point: `x` is the longitude, `y` the latitude. */
  datatype GeoPoint = GeoPoint(x: real, y: real)

  /** The numeric routines the renderer calls into. `atan2(y, x)` is in radians. */
  datatype Sphere = Sphere(
    haversineBearing: (GeoPoint, GeoPoint) -> real,
    haversineDestination: (GeoPoint, real, real) -> GeoPoint,
    cos: real -> real,
    sin: real -> real,
    atan2: (real, real) -> real)

  function ToGeoPoint(l: Location): GeoPoint
  {
    GeoPoint(l.longitude, l.latitude)
  }

  /**
   * `calculate_bearing`: the Haversine initial bearing from `from` to `to`,
   * brought into [0, 360).
   */
  function CalculateBearing(g: Sphere, from: Location, to: Location): (b: real)
    ensures 0.0 <= b < 360.0
    ensures Congruent(b, g.haversineBearing(ToGeoPoint(from), ToGeoPoint(to)), 360.0)
  {
    NormalizeAngle(g.haversineBearing(ToGeoPoint(from), ToGeoPoint(to)))
  }

  /** `destination_point`: the Haversine projection, read back as a Location. */
  function DestinationPoint(g: Sphere, from: Location, bearing: real, distance: real): (to: Location)
    ensures var p := g.haversineDestination(GeoPoint(from.longitude, from.latitude), bearing, distance);
            to.longitude == p.x && to.latitude == p.y
  {
    var p := g.haversineDestination(ToGeoPoint(from), bearing, distance);
    Location(longitude := p.x, latitude := p.y)
  }

  /**
   * `bisect_angles`: the direction of the sum of the two unit vectors, in
   * degrees within [0, 360).
   */
  function BisectAngles(g: Sphere, a: real, b: real): (r: real)
    ensures 0.0 <= r < 360.0
  {
    var aRad := ToRadians(a);
    var bRad := ToRadians(b);
    var x := g.cos(aRad) + g.cos(bRad);
    var y := g.sin(aRad) + g.sin(bRad);
    NormalizeAngle(ToDegrees(g.atan2(y, x)))
  }

  /** The reverse of a bearing, in [0, 360). */
  function Reversed(bearing: real): real
  {
    NormalizeAngle(bearing + 180.0)
  }

  /**
   * `calculate_bisector`. With only an incoming leg the bisector is that leg's
   * bearing; with only an outgoing leg it is the reverse of that leg; with both
   * it bisects the incoming bearing and the reversed outgoing one. The source
   * panics when neither leg exists, so that case is excluded here.
   */
  function CalculateBisector(g: Sphere, bearingIn: Option<real>, bearingOut: Option<real>): (r: real)
    requires bearingIn.Some? || bearingOut.Some?
    ensures bearingOut.None? ==> r == bearingIn.value
    ensures bearingIn.None? ==> 0.0 <= r < 360.0 && Congruent(r, bearingOut.value + 180.0, 360.0)
    ensures bearingIn.Some? && bearingOut.Some? ==>
              r == BisectAngles(g, bearingIn.value, Reversed(bearingOut.value))
    ensures (bearingIn.Some? ==> 0.0 <= bearingIn.value < 360.0) ==> 0.0 <= r < 360.0
  {
    match (bearingIn, bearingOut)
    case (Some(inc), Some(out)) => BisectAngles(g, inc, Reversed(out))
    case (Some(inc), None) => inc
    case (None, Some(out)) => Reversed(out)
  }

  /**
   * The first point of a task, seen along its outgoing leg: the bisector is the
   * outgoing bearing turned half a turn (90 gives 270, 270 gives 90).
   */
  lemma {:induction false} BisectorOfFirstPoint(g: Sphere, out: real)
    requires 0.0 <= out < 360.0
    ensures CalculateBisector(g, None, Some(out)) == if out < 180.0 then out + 180.0 else out - 180.0
  {
    var expected := if out < 180.0 then out + 180.0 else out - 180.0;
    CongruentByTurns(expected, out + 180.0, 360.0, if out < 180.0 then 0 else -1);
    NormalizeAngleUnique(out + 180.0, expected);
  }
}
