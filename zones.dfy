/**
 * Observation-zone geometry (examples/visualize/geojson.rs): the coordinate
 * rings of circles, sectors, annular sectors and keyholes, the gate line, and
 * the dispatch from a zone shape to its geometry.
 *
 * Each ring is first described by a specification function stated in
 * degrees (which sample lies at which bearing and distance); the methods that
 * follow the source's loops, which work in radians, are proved to build
 * exactly those rings.
 */
module ZoneGeometry {
  import opened Wrappers
  import opened XcsoarTasks
  import opened Angles
  import opened Geodesy

  /** A GeoJSON position, written `[longitude, latitude]`. */
  datatype Position = Position(longitude: real, latitude: real)

  datatype Geometry =
    | PointGeometry(position: Position)
    | LineString(positions: seq<Position>)
    | Polygon(rings: seq<seq<Position>>)

  const CirclePoints: nat := 64
  const ArcPoints: nat := 32

  function PositionOf(l: Location): Position
  {
    Position(l.longitude, l.latitude)
  }

  /** The position reached from `center` along `bearing` (degrees) after `distance` metres. */
  function Project(g: Sphere, center: Location, bearing: real, distance: real): Position
  {
    PositionOf(DestinationPoint(g, center, bearing, distance))
  }

  /** A ring is closed when its last position repeats its first. */
  predicate Closed(ring: seq<Position>)
  {
    |ring| > 0 && ring[|ring| - 1] == ring[0]
  }

  // ---------------------------------------------------------------- circle

  /** Sample `i` of a circle lies at bearing i·360/64; there are 64 + 1 samples. */
  function CircleRing(g: Sphere, center: Location, radius: real): seq<Position>
  {
    seq(CirclePoints + 1, i => Project(g, center, 360.0 * i as real / CirclePoints as real, radius))
  }

  /** `generate_circle_coords`. */
  method GenerateCircleCoords(g: Sphere, center: Location, radius: real) returns (coords: seq<Position>)
    ensures |coords| == 65
    ensures coords == CircleRing(g, center, radius)
  {
    coords := [];
    for i := 0 to CirclePoints + 1
      invariant |coords| == i
      invariant forall j :: 0 <= j < i ==> coords[j] == CircleRing(g, center, radius)[j]
    {
      var angle := (i as real / CirclePoints as real) * 2.0 * PI;
      var bearing := ToDegrees(angle);
      assert bearing == 360.0 * i as real / CirclePoints as real;
      var point := DestinationPoint(g, center, bearing, radius);
      coords := coords + [Position(point.longitude, point.latitude)];
    }
  }

  /** `generate_circle_geometry`. */
  method GenerateCircleGeometry(g: Sphere, center: Location, radius: real) returns (geometry: Geometry)
    ensures geometry == Polygon([CircleRing(g, center, radius)])
  {
    var coords := GenerateCircleCoords(g, center, radius);
    geometry := Polygon([coords]);
  }

  // ---------------------------------------------------------------- sector

  /**
   * The sweep of an arc from `startDeg` to `endDeg`, in degrees, as the
   * renderer obtains it through radians: in [0, 360] and equal to
   * `endDeg - startDeg` modulo 360.
   */
  function SweepDegrees(startDeg: real, endDeg: real): (s: real)
    ensures 0.0 <= s <= 360.0
    ensures Congruent(s, endDeg - startDeg, 360.0)
    ensures 0.0 <= endDeg - startDeg <= 360.0 ==> s == endDeg - startDeg
    ensures endDeg - startDeg < 0.0 ==> s < 360.0
  {
    Wrap(endDeg - startDeg, 360.0)
  }

  /** Sample `i` of `steps` along an arc starting at `startDeg` and sweeping `sweepDeg`. */
  function ArcBearing(startDeg: real, sweepDeg: real, i: nat, steps: nat): real
    requires steps > 0
  {
    startDeg + (i as real / steps as real) * sweepDeg
  }

  /** The `steps` + 1 samples of an arc of the given radius, from `startDeg` through `sweepDeg`. */
  function Samples(g: Sphere, center: Location, radius: real, startDeg: real, sweepDeg: real,
                   steps: nat): seq<Position>
    requires steps > 0
  {
    seq(steps + 1, i requires 0 <= i => Project(g, center, ArcBearing(startDeg, sweepDeg, i, steps), radius))
  }

  /** The 32 + 1 samples of a sector arc traced from the far end back to the start. */
  function ReverseArc(g: Sphere, center: Location, radius: real, startDeg: real, sweepDeg: real): seq<Position>
  {
    seq(ArcPoints + 1, k requires 0 <= k <= ArcPoints =>
      Project(g, center, ArcBearing(startDeg, sweepDeg, ArcPoints - k, ArcPoints), radius))
  }

  /**
   * A sector ring: the outer arc; then either the inner arc in reverse (an
   * annular sector) or the centre; then a copy of the first position.
   */
  function SectorRing(g: Sphere, center: Location, radius: real, startDeg: real, endDeg: real,
                      innerRadius: Option<real>): seq<Position>
  {
    var sweep := SweepDegrees(startDeg, endDeg);
    var body := Samples(g, center, radius, startDeg, sweep, ArcPoints) +
      match innerRadius
      case Some(r) => ReverseArc(g, center, r, startDeg, sweep)
      case None => [PositionOf(center)];
    body + [body[0]]
  }

  /**
   * The source's radian sample `start + t·sweep`, with `start` the start
   * radial in radians and t = i/steps, is in degrees the arc bearing of sample `i`.
   */
  lemma {:induction false} ArcSampleInDegrees(startDeg: real, sweep: real, i: nat, steps: nat,
                                              start: real, t: real, angle: real)
    requires steps > 0
    requires start == ToRadians(startDeg) && t == i as real / steps as real && angle == start + t * sweep
    ensures ToDegrees(angle) == ArcBearing(startDeg, ToDegrees(sweep), i, steps)
  {
    assert ToDegrees(start + t * sweep) == ToDegrees(start) + t * ToDegrees(sweep);
    DegreesRadians(startDeg);
  }

  lemma SampleAt(g: Sphere, center: Location, radius: real, startDeg: real, sweep: real, i: nat, steps: nat,
                 start: real, t: real, angle: real)
    requires 0 < steps && i <= steps
    requires start == ToRadians(startDeg) && t == i as real / steps as real && angle == start + t * sweep
    ensures Project(g, center, ToDegrees(angle), radius) == Samples(g, center, radius, startDeg, ToDegrees(sweep), steps)[i]
  {
    ArcSampleInDegrees(startDeg, sweep, i, steps, start, t, angle);
  }

  lemma ReverseSampleAt(g: Sphere, center: Location, radius: real, startDeg: real, sweep: real, i: nat,
                        start: real, t: real, angle: real)
    requires i <= ArcPoints
    requires start == ToRadians(startDeg) && t == i as real / ArcPoints as real && angle == start + t * sweep
    ensures Project(g, center, ToDegrees(angle), radius)
            == ReverseArc(g, center, radius, startDeg, ToDegrees(sweep))[ArcPoints - i]
  {
    ArcSampleInDegrees(startDeg, sweep, i, ArcPoints, start, t, angle);
  }

  /** `generate_sector_coords`. */
  method GenerateSectorCoords(g: Sphere, center: Location, radius: real, startAngle: real, endAngle: real,
                              innerRadius: Option<real>) returns (coords: seq<Position>)
    ensures coords == SectorRing(g, center, radius, startAngle, endAngle, innerRadius)
  {
    var start := ToRadians(startAngle);
    var end := ToRadians(endAngle);
    var sweep := NormalizeSweep(start, end);
    ghost var arc := Samples(g, center, radius, startAngle, ToDegrees(sweep), ArcPoints);
    coords := [];
    for i := 0 to ArcPoints + 1
      invariant |coords| == i
      invariant forall j :: 0 <= j < i ==> coords[j] == arc[j]
    {
      var t := i as real / ArcPoints as real;
      var angle := start + t * sweep;
      var bearing := ToDegrees(angle);
      var point := DestinationPoint(g, center, bearing, radius);
      SampleAt(g, center, radius, startAngle, sweep, i, ArcPoints, start, t, angle);
      coords := coords + [Position(point.longitude, point.latitude)];
    }
    assert coords == arc;
    match innerRadius {
      case Some(innerR) =>
        ghost var back := ReverseArc(g, center, innerR, startAngle, ToDegrees(sweep));
        for i := ArcPoints + 1 downto 0
          invariant |coords| == |arc| + ArcPoints + 1 - i
          invariant coords[..|arc|] == arc
          invariant forall k :: 0 <= k < ArcPoints + 1 - i ==> coords[|arc| + k] == back[k]
        {
          var t := i as real / ArcPoints as real;
          var angle := start + t * sweep;
          var bearing := ToDegrees(angle);
          var point := DestinationPoint(g, center, bearing, innerR);
          ReverseSampleAt(g, center, innerR, startAngle, sweep, i, start, t, angle);
          coords := coords + [Position(point.longitude, point.latitude)];
        }
        assert coords == arc + back;
      case None =>
        coords := coords + [Position(center.longitude, center.latitude)];
    }
    coords := coords + [coords[0]];
    SweepAgrees(startAngle, endAngle);
    SectorRingUnfold(g, center, radius, startAngle, endAngle, innerRadius);
  }

  /** The sweep the renderer computes in radians, read in degrees, is `SweepDegrees`. */
  lemma SweepAgrees(startDeg: real, endDeg: real)
    ensures ToDegrees(NormalizedSweep(ToRadians(startDeg), ToRadians(endDeg))) == SweepDegrees(startDeg, endDeg)
  {
    var x := ToRadians(endDeg) - ToRadians(startDeg);
    WrapInDegrees(x);
    assert ToDegrees(x) == endDeg - startDeg;
  }

  lemma SectorRingUnfold(g: Sphere, center: Location, radius: real, startDeg: real, endDeg: real,
                         innerRadius: Option<real>)
    ensures var sweep := SweepDegrees(startDeg, endDeg);
            var body := Samples(g, center, radius, startDeg, sweep, ArcPoints) +
              (if innerRadius.Some? then ReverseArc(g, center, innerRadius.value, startDeg, sweep)
               else [PositionOf(center)]);
            SectorRing(g, center, radius, startDeg, endDeg, innerRadius) == body + [body[0]]
  {
  }

  /** A sector centred on `bisector`, spanning `angle`, from `normalize_angle(bisector ∓ angle/2)`. */
  function CentredSectorRing(g: Sphere, center: Location, radius: real, bisector: real, angle: real,
                             innerRadius: Option<real>): seq<Position>
  {
    SectorRing(g, center, radius, NormalizeAngle(bisector - angle / 2.0),
               NormalizeAngle(bisector + angle / 2.0), innerRadius)
  }

  /** `generate_sector_geometry`. */
  method GenerateSectorGeometry(g: Sphere, center: Location, radius: real, bisector: real, angle: real,
                                innerRadius: Option<real>) returns (geometry: Geometry)
    ensures geometry == Polygon([CentredSectorRing(g, center, radius, bisector, angle, innerRadius)])
  {
    var halfAngle := angle / 2.0;
    var startAngle := NormalizeAngle(bisector - halfAngle);
    var endAngle := NormalizeAngle(bisector + halfAngle);
    var coords := GenerateSectorCoords(g, center, radius, startAngle, endAngle, innerRadius);
    geometry := Polygon([coords]);
  }

  /** `generate_sector_from_radials`: the radials are used as given, with no bisector. */
  method GenerateSectorFromRadials(g: Sphere, center: Location, radius: real, startRadial: real,
                                   endRadial: real, innerRadius: Option<real>) returns (geometry: Geometry)
    ensures geometry == Polygon([SectorRing(g, center, radius, startRadial, endRadial, innerRadius)])
  {
    var coords := GenerateSectorCoords(g, center, radius, startRadial, endRadial, innerRadius);
    geometry := Polygon([coords]);
  }

  // ---------------------------------------------------------------- keyhole

  /**
   * A keyhole ring: the 32 + 1 samples of the outer sector arc, then 64 + 1
   * samples of the inner circle going on from the end radial through the
   * rest of the turn, then a copy of the first position.
   */
  function KeyholeRing(g: Sphere, center: Location, outerRadius: real, innerRadius: real, angle: real,
                       bisector: real): seq<Position>
  {
    var startDeg := NormalizeAngle(bisector - angle / 2.0);
    var endDeg := NormalizeAngle(bisector + angle / 2.0);
    var sweep := SweepDegrees(startDeg, endDeg);
    var body := Samples(g, center, outerRadius, startDeg, sweep, ArcPoints) +
                Samples(g, center, innerRadius, endDeg, 360.0 - sweep, CirclePoints);
    body + [body[0]]
  }

  /** `generate_keyhole_geometry`. */
  method GenerateKeyholeGeometry(g: Sphere, center: Location, outerRadius: real, innerRadius: real,
                                 angle: real, bisector: real) returns (geometry: Geometry)
    ensures geometry == Polygon([KeyholeRing(g, center, outerRadius, innerRadius, angle, bisector)])
  {
    var halfAngle := angle / 2.0;
    var startAngle := NormalizeAngle(bisector - halfAngle);
    var endAngle := NormalizeAngle(bisector + halfAngle);
    var startRad := ToRadians(startAngle);
    var endRad := ToRadians(endAngle);
    var sweep := NormalizeSweep(startRad, endRad);
    ghost var arc := Samples(g, center, outerRadius, startAngle, ToDegrees(sweep), ArcPoints);
    var coords := [];
    for i := 0 to ArcPoints + 1
      invariant |coords| == i
      invariant forall j :: 0 <= j < i ==> coords[j] == arc[j]
    {
      var t := i as real / ArcPoints as real;
      var a := startRad + t * sweep;
      var bearing := ToDegrees(a);
      var point := DestinationPoint(g, center, bearing, outerRadius);
      SampleAt(g, center, outerRadius, startAngle, sweep, i, ArcPoints, startRad, t, a);
      coords := coords + [Position(point.longitude, point.latitude)];
    }
    var innerSweep := 2.0 * PI - sweep;
    ghost var bulb := Samples(g, center, innerRadius, endAngle, ToDegrees(innerSweep), CirclePoints);
    for i := 0 to CirclePoints + 1
      invariant |coords| == |arc| + i
      invariant coords[..|arc|] == arc
      invariant forall k :: 0 <= k < i ==> coords[|arc| + k] == bulb[k]
    {
      var t := i as real / CirclePoints as real;
      var a := endRad + t * innerSweep;
      var bearing := ToDegrees(a);
      var point := DestinationPoint(g, center, bearing, innerRadius);
      SampleAt(g, center, innerRadius, endAngle, innerSweep, i, CirclePoints, endRad, t, a);
      coords := coords + [Position(point.longitude, point.latitude)];
    }
    assert coords == arc + bulb;
    coords := coords + [coords[0]];
    geometry := Polygon([coords]);
    SweepAgrees(startAngle, endAngle);
    assert ToDegrees(innerSweep) == 360.0 - ToDegrees(sweep);
    KeyholeRingUnfold(g, center, outerRadius, innerRadius, angle, bisector);
  }

  lemma KeyholeRingUnfold(g: Sphere, center: Location, outerRadius: real, innerRadius: real, angle: real,
                          bisector: real)
    ensures var startDeg := NormalizeAngle(bisector - angle / 2.0);
            var endDeg := NormalizeAngle(bisector + angle / 2.0);
            var sweep := SweepDegrees(startDeg, endDeg);
            var body := Samples(g, center, outerRadius, startDeg, sweep, ArcPoints) +
                        Samples(g, center, innerRadius, endDeg, 360.0 - sweep, CirclePoints);
            KeyholeRing(g, center, outerRadius, innerRadius, angle, bisector) == body + [body[0]]
  {
  }

  // ---------------------------------------------------------------- line

  /** `generate_line_geometry`: a gate across the bisector, `length / 2` to either side of the centre. */
  function LineGeometry(g: Sphere, center: Location, length: real, bisector: real): (line: Geometry)
    ensures line == LineString([Project(g, center, NormalizeAngle(bisector + 90.0), length / 2.0),
                                Project(g, center, NormalizeAngle(bisector - 90.0), length / 2.0)])
  {
    var halfLength := length / 2.0;
    var perpendicularLeft := NormalizeAngle(bisector + 90.0);
    var perpendicularRight := NormalizeAngle(bisector - 90.0);
    LineString([Project(g, center, perpendicularLeft, halfLength),
                Project(g, center, perpendicularRight, halfLength)])
  }

  // ---------------------------------------------------------------- dispatch

  const MatCylinderRadius: real := 1609.34
  const FAISectorRadius: real := 20000.0

  /** The five ways a zone is drawn, with every parameter filled in. */
  datatype Shape =
    | Circle(radius: real)
    | Gate(length: real)
    | CentredSector(radius: real, angle: real)
    | RadialSector(radius: real, startRadial: real, endRadial: real, innerRadius: Option<real>)
    | CentredKeyhole(radius: real, cylinderRadius: real, angle: real)

  /**
   * The zone table: how each of the eleven observation zones is drawn and
   * which defaults fill its missing parameters.
   */
  function ZoneShape(zone: ObservationZone): Shape
  {
    match zone
    case Cylinder(radius) => Circle(radius)
    case MatCylinder => Circle(MatCylinderRadius)
    case Line(length) => Gate(length)
    case FAISector => CentredSector(FAISectorRadius, 90.0)
    case Sector(radius, startRadial, endRadial, innerRadius) => RadialSector(radius, startRadial, endRadial, innerRadius)
    case SymmetricQuadrant(radius, angle) => CentredSector(radius.UnwrapOr(10000.0), angle.UnwrapOr(90.0))
    case Keyhole => CentredKeyhole(10000.0, 500.0, 90.0)
    case CustomKeyhole(radius, angle, innerRadius) =>
      CentredKeyhole(radius.UnwrapOr(10000.0), innerRadius.UnwrapOr(500.0), angle.UnwrapOr(90.0))
    case BGAStartSector => CentredSector(5000.0, 180.0)
    case BGAFixedCourse => CentredKeyhole(20000.0, 500.0, 90.0)
    case BGAEnhancedOption => CentredKeyhole(10000.0, 500.0, 180.0)
  }

  /** The geometry of a shape around `center`, oriented by `bisector`. */
  function RenderShape(g: Sphere, shape: Shape, center: Location, bisector: real): Geometry
  {
    match shape
    case Circle(radius) => Polygon([CircleRing(g, center, radius)])
    case Gate(length) => LineGeometry(g, center, length, bisector)
    case CentredSector(radius, angle) => Polygon([CentredSectorRing(g, center, radius, bisector, angle, None)])
    case RadialSector(radius, startRadial, endRadial, innerRadius) =>
      Polygon([SectorRing(g, center, radius, startRadial, endRadial, innerRadius)])
    case CentredKeyhole(radius, cylinderRadius, angle) =>
      Polygon([KeyholeRing(g, center, radius, cylinderRadius, angle, bisector)])
  }

  /**
   * `generate_zone_geometry`: every zone yields a geometry, the one its row of
   * the zone table describes.
   */
  method GenerateZoneGeometry(g: Sphere, zone: ObservationZone, center: Location, bisector: real)
    returns (geometry: Option<Geometry>)
    ensures geometry.Some?
    ensures geometry == Some(RenderShape(g, ZoneShape(zone), center, bisector))
  {
    match zone {
      case Cylinder(radius) =>
        var circle := GenerateCircleGeometry(g, center, radius);
        geometry := Some(circle);
      case MatCylinder =>
        var circle := GenerateCircleGeometry(g, center, 1609.34);
        geometry := Some(circle);
      case Line(length) =>
        geometry := Some(LineGeometry(g, center, length, bisector));
      case FAISector =>
        var sector := GenerateSectorGeometry(g, center, FAISectorRadius, bisector, 90.0, None);
        geometry := Some(sector);
      case Sector(radius, startRadial, endRadial, innerRadius) =>
        var sector := GenerateSectorFromRadials(g, center, radius, startRadial, endRadial, innerRadius);
        geometry := Some(sector);
      case SymmetricQuadrant(maybeRadius, maybeAngle) =>
        var radius := maybeRadius.UnwrapOr(10000.0);
        var angle := maybeAngle.UnwrapOr(90.0);
        var sector := GenerateSectorGeometry(g, center, radius, bisector, angle, None);
        geometry := Some(sector);
      case Keyhole =>
        var keyhole := GenerateKeyholeGeometry(g, center, 10000.0, 500.0, 90.0, bisector);
        geometry := Some(keyhole);
      case CustomKeyhole(maybeRadius, maybeAngle, maybeInnerRadius) =>
        var radius := maybeRadius.UnwrapOr(10000.0);
        var angle := maybeAngle.UnwrapOr(90.0);
        var innerRadius := maybeInnerRadius.UnwrapOr(500.0);
        var keyhole := GenerateKeyholeGeometry(g, center, radius, innerRadius, angle, bisector);
        geometry := Some(keyhole);
      case BGAStartSector =>
        var sector := GenerateSectorGeometry(g, center, 5000.0, bisector, 180.0, None);
        geometry := Some(sector);
      case BGAFixedCourse =>
        var keyhole := GenerateKeyholeGeometry(g, center, 20000.0, 500.0, 90.0, bisector);
        geometry := Some(keyhole);
      case BGAEnhancedOption =>
        var keyhole := GenerateKeyholeGeometry(g, center, 10000.0, 500.0, 180.0, bisector);
        geometry := Some(keyhole);
    }
  }
}
