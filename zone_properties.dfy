/**
 * What the zone renderer promises about the geometry it draws: how many
 * positions each ring has, that sector and keyhole rings are closed, where
 * their arcs begin and end, and that a gate lies across the bisector.
 */
module ZoneProperties {
  import opened Wrappers
  import opened XcsoarTasks
  import opened Angles
  import opened Geodesy
  import opened ZoneGeometry

  /** A circle has 64 + 1 samples, sample `i` at bearing i·360/64, from 0 round to 360. */
  lemma CircleRingLayout(g: Sphere, center: Location, radius: real)
    ensures var ring := CircleRing(g, center, radius);
            && |ring| == 65
            && ring[0] == Project(g, center, 0.0, radius)
            && ring[64] == Project(g, center, 360.0, radius)
            && forall i :: 0 <= i < 65 ==> ring[i] == Project(g, center, 360.0 * i as real / 64.0, radius)
  {
  }

  /** An arc's last sample lies on the end radial: its bearing equals `endDeg` modulo 360. */
  lemma {:induction false} ArcEndsOnEndRadial(startDeg: real, endDeg: real)
    ensures Congruent(ArcBearing(startDeg, SweepDegrees(startDeg, endDeg), ArcPoints, ArcPoints), endDeg, 360.0)
  {
    var sweep := SweepDegrees(startDeg, endDeg);
    assert ArcBearing(startDeg, sweep, ArcPoints, ArcPoints) == startDeg + sweep;
    var k := ((sweep - (endDeg - startDeg)) / 360.0).Floor;
    CongruentByTurns(startDeg + sweep, endDeg, 360.0, k);
  }

  /**
   * A sector ring without an inner radius has 33 arc samples, the centre and
   * the closing copy (35 positions); an annular one has 33 outer samples, the
   * same bearings in reverse at the inner radius and the closing copy (67).
   * The ring starts on the start radial and is closed.
   */
  lemma {:induction false} SectorRingLayout(g: Sphere, center: Location, radius: real, startDeg: real,
                                            endDeg: real, innerRadius: Option<real>)
    ensures var ring := SectorRing(g, center, radius, startDeg, endDeg, innerRadius);
            var sweep := SweepDegrees(startDeg, endDeg);
            && |ring| == (if innerRadius.Some? then 67 else 35)
            && Closed(ring)
            && ring[0] == Project(g, center, startDeg, radius)
            && ring[32] == Project(g, center, startDeg + sweep, radius)
            && (innerRadius.None? ==> ring[33] == PositionOf(center))
            && (innerRadius.Some? ==>
                  && ring[33] == Project(g, center, startDeg + sweep, innerRadius.value)
                  && ring[65] == Project(g, center, startDeg, innerRadius.value)
                  && forall k :: 33 <= k <= 65 ==>
                       ring[k] == Project(g, center, ArcBearing(startDeg, sweep, 65 - k, 32), innerRadius.value))
  {
    SectorRingUnfold(g, center, radius, startDeg, endDeg, innerRadius);
  }

  /**
   * A keyhole ring has 33 outer arc samples, 65 samples of the inner circle
   * and the closing copy (99 positions). The inner circle starts on the end
   * radial and, after sweeping the rest of the turn, comes back to the start
   * radial (modulo 360).
   */
  lemma {:induction false} KeyholeRingLayout(g: Sphere, center: Location, outerRadius: real, innerRadius: real,
                                             angle: real, bisector: real)
    ensures var ring := KeyholeRing(g, center, outerRadius, innerRadius, angle, bisector);
            var startDeg := NormalizeAngle(bisector - angle / 2.0);
            var endDeg := NormalizeAngle(bisector + angle / 2.0);
            var sweep := SweepDegrees(startDeg, endDeg);
            && |ring| == 99
            && Closed(ring)
            && ring[0] == Project(g, center, startDeg, outerRadius)
            && ring[33] == Project(g, center, endDeg, innerRadius)
            && ring[97] == Project(g, center, endDeg + 360.0 - sweep, innerRadius)
            && Congruent(endDeg + 360.0 - sweep, startDeg, 360.0)
  {
    KeyholeRingUnfold(g, center, outerRadius, innerRadius, angle, bisector);
    InnerCircleReturns(NormalizeAngle(bisector - angle / 2.0), NormalizeAngle(bisector + angle / 2.0));
  }

  /** Sweeping the rest of the turn from the end radial comes back to the start radial. */
  lemma {:induction false} InnerCircleReturns(startDeg: real, endDeg: real)
    ensures Congruent(endDeg + 360.0 - SweepDegrees(startDeg, endDeg), startDeg, 360.0)
  {
    var sweep := SweepDegrees(startDeg, endDeg);
    var k := ((sweep - (endDeg - startDeg)) / 360.0).Floor;
    assert sweep == (endDeg - startDeg) + 360.0 * k as real;
    CongruentByTurns(endDeg + 360.0 - sweep, startDeg, 360.0, 1 - k);
  }

  lemma {:induction false} CongruentDifference(a: real, b: real, c: real, d: real, period: real)
    requires period > 0.0
    requires Congruent(a, b, period) && Congruent(c, d, period)
    ensures Congruent(a - c, b - d, period)
  {
    var i := ((a - b) / period).Floor;
    var j := ((c - d) / period).Floor;
    assert ((a - c) - (b - d)) / period == (a - b) / period - (c - d) / period;
    CongruentByTurns(a - c, b - d, period, i - j);
  }

  /**
   * A sector or keyhole centred on the bisector starts on
   * `normalize_angle(bisector - angle/2)`, ends on
   * `normalize_angle(bisector + angle/2)`, and its arc spans exactly `angle`
   * whenever 0 <= angle < 360.
   */
  lemma {:induction false} CentredArcSpansAngle(bisector: real, angle: real)
    requires 0.0 <= angle < 360.0
    ensures var startDeg := NormalizeAngle(bisector - angle / 2.0);
            var endDeg := NormalizeAngle(bisector + angle / 2.0);
            && Congruent(startDeg, bisector - angle / 2.0, 360.0)
            && Congruent(endDeg, bisector + angle / 2.0, 360.0)
            && SweepDegrees(startDeg, endDeg) == angle
  {
    var startDeg := NormalizeAngle(bisector - angle / 2.0);
    var endDeg := NormalizeAngle(bisector + angle / 2.0);
    CongruentDifference(endDeg, bisector + angle / 2.0, startDeg, bisector - angle / 2.0, 360.0);
    assert (bisector + angle / 2.0) - (bisector - angle / 2.0) == angle;
    SweepOfCongruent(startDeg, endDeg, angle);
  }

  /** Two normalised radials whose difference is `angle` modulo 360 are swept by exactly `angle`. */
  lemma {:induction false} SweepOfCongruent(startDeg: real, endDeg: real, angle: real)
    requires 0.0 <= angle < 360.0
    requires 0.0 <= startDeg < 360.0 && 0.0 <= endDeg < 360.0
    requires Congruent(endDeg - startDeg, angle, 360.0)
    ensures SweepDegrees(startDeg, endDeg) == angle
  {
    var sweep := SweepDegrees(startDeg, endDeg);
    if endDeg - startDeg >= 0.0 {
      CongruentWithinPeriod(endDeg - startDeg, angle, 360.0);
    } else {
      CongruentTransitive(sweep, endDeg - startDeg, angle, 360.0);
      CongruentWithinPeriod(sweep, angle, 360.0);
    }
  }

  /**
   * The two ends of a gate are projected on bearings that lie a quarter turn
   * either side of the bisector, and so exactly half a turn apart.
   */
  lemma {:induction false} GateIsPerpendicular(bisector: real)
    ensures var left := NormalizeAngle(bisector + 90.0);
            var right := NormalizeAngle(bisector - 90.0);
            && Congruent(left, bisector + 90.0, 360.0)
            && Congruent(right, bisector - 90.0, 360.0)
            && (left - right == 180.0 || left - right == -180.0)
  {
    var left := NormalizeAngle(bisector + 90.0);
    var right := NormalizeAngle(bisector - 90.0);
    CongruentDifference(left, bisector + 90.0, right, bisector - 90.0, 360.0);
    assert (bisector + 90.0) - (bisector - 90.0) == 180.0;
    if left - right > 0.0 {
      CongruentWithinPeriod(left - right, 180.0, 360.0);
    } else {
      CongruentByTurns(180.0, -180.0, 360.0, 1);
      CongruentTransitive(left - right, 180.0, -180.0, 360.0);
      CongruentWithinPeriod(left - right, -180.0, 360.0);
    }
  }

  /**
   * A gate on a point reached heading due east (bisector 90) runs north-south:
   * its ends lie `length / 2` away on bearings 180 and 0.
   */
  lemma GateAcrossEastboundLeg(g: Sphere, center: Location, length: real)
    ensures LineGeometry(g, center, length, 90.0)
            == LineString([Project(g, center, 180.0, length / 2.0), Project(g, center, 0.0, length / 2.0)])
  {
    NormalizeAngleInRange(180.0);
    NormalizeAngleInRange(0.0);
  }

  /**
   * Every zone is drawn, and by its variant: Cylinder and MatCylinder as a
   * 65-position circle, Line as a 2-position gate, FAISector,
   * SymmetricQuadrant and BGAStartSector as a closed 35-position sector, Sector
   * as a closed 35- or 67-position sector depending on its inner radius, and
   * the four keyhole variants as a closed 99-position keyhole.
   */
  lemma {:induction false} ZoneGeometryLayout(g: Sphere, zone: ObservationZone, center: Location, bisector: real)
    ensures var geometry := RenderShape(g, ZoneShape(zone), center, bisector);
            match zone
            case Cylinder(_) =>
              geometry.Polygon? && |geometry.rings| == 1 && |geometry.rings[0]| == 65
            case MatCylinder =>
              geometry.Polygon? && |geometry.rings| == 1 && |geometry.rings[0]| == 65
            case Line(_) =>
              geometry.LineString? && |geometry.positions| == 2
            case Sector(_, _, _, innerRadius) =>
              geometry.Polygon? && |geometry.rings| == 1 && Closed(geometry.rings[0])
              && |geometry.rings[0]| == (if innerRadius.Some? then 67 else 35)
            case FAISector =>
              geometry.Polygon? && |geometry.rings| == 1 && Closed(geometry.rings[0]) && |geometry.rings[0]| == 35
            case SymmetricQuadrant(_, _) =>
              geometry.Polygon? && |geometry.rings| == 1 && Closed(geometry.rings[0]) && |geometry.rings[0]| == 35
            case BGAStartSector =>
              geometry.Polygon? && |geometry.rings| == 1 && Closed(geometry.rings[0]) && |geometry.rings[0]| == 35
            case _ =>
              geometry.Polygon? && |geometry.rings| == 1 && Closed(geometry.rings[0]) && |geometry.rings[0]| == 99
  {
    var shape := ZoneShape(zone);
    match shape {
      case Circle(radius) =>
        CircleRingLayout(g, center, radius);
      case Gate(_) =>
      case CentredSector(radius, angle) =>
        SectorRingLayout(g, center, radius, NormalizeAngle(bisector - angle / 2.0),
                         NormalizeAngle(bisector + angle / 2.0), None);
      case RadialSector(radius, startRadial, endRadial, innerRadius) =>
        SectorRingLayout(g, center, radius, startRadial, endRadial, innerRadius);
      case CentredKeyhole(radius, cylinderRadius, angle) =>
        KeyholeRingLayout(g, center, radius, cylinderRadius, angle, bisector);
    }
  }
}
