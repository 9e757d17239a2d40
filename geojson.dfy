/**
 * The feature assembler of the task visualiser
 * (examples/visualize/geojson.rs): from a task's points to an ordered
 * collection of map features — an optional course line, then for each point
 * its observation-zone outline followed by its waypoint marker.
 *
 * GeoJSON values are datatypes here; their JSON encoding is not modelled.
 */
module GeoJson {
  import opened Wrappers
  import opened XcsoarTasks
  import opened Angles
  import opened Geodesy
  import opened ZoneGeometry
  import opened Decimal

  /** A map feature: its `feature_type`, its other properties, and its geometry. */
  datatype Feature =
    | CourseLineFeature(geometry: Geometry)
    | ObservationZoneFeature(name: string, pointType: string, geometry: Geometry)
    | WaypointFeature(name: string, pointType: string, geometry: Geometry)

  datatype FeatureCollection = FeatureCollection(features: seq<Feature>)

  /** The incoming and outgoing leg bearings at one point. */
  datatype Legs = Legs(bearingIn: Option<real>, bearingOut: Option<real>)

  function OptionToSeq<T>(o: Option<T>): seq<T>
  {
    match o
    case Some(v) => [v]
    case None => []
  }

  /** `point_type_to_string`: the role's name as the task file spells it. */
  function PointTypeToString(pt: PointType): (name: string)
    ensures name == "Start" <==> pt == Start
    ensures name == "Turn" <==> pt == Turn
    ensures name == "Area" <==> pt == Area
    ensures name == "Finish" <==> pt == Finish
    ensures name == "OptionalStart" <==> pt == OptionalStart
  {
    match pt
    case Start => "Start"
    case Turn => "Turn"
    case Area => "Area"
    case Finish => "Finish"
    case OptionalStart => "OptionalStart"
  }

  /** Different roles have different names. */
  lemma PointTypeNamesDistinct(a: PointType, b: PointType)
    ensures PointTypeToString(a) == PointTypeToString(b) ==> a == b
  {
  }

  /**
   * `generate_course_line`: present exactly for tasks of two or more points,
   * a line through every point's `[longitude, latitude]` in task order.
   */
  function GenerateCourseLine(task: Task): (line: Option<Feature>)
    ensures line.Some? <==> |task.points| >= 2
    ensures line.Some? ==>
              && line.value.CourseLineFeature?
              && line.value.geometry.LineString?
              && |line.value.geometry.positions| == |task.points|
              && forall i :: 0 <= i < |task.points| ==>
                   line.value.geometry.positions[i] == PositionOf(task.points[i].waypoint.location)
  {
    if |task.points| < 2 then None
    else
      var coordinates := seq(|task.points|, i requires 0 <= i < |task.points| =>
                               PositionOf(task.points[i].waypoint.location));
      Some(CourseLineFeature(LineString(coordinates)))
  }

  /** A marker's label: "<n>. <name>" for a numbered point, the bare name otherwise. */
  function WaypointLabel(name: string, number: Option<nat>): (text: string)
    ensures number.None? ==> text == name
    ensures number.Some? ==> text == NatToDecimal(number.value) + ". " + name
  {
    match number
    case Some(n) => NatToDecimal(n) + ". " + name
    case None => name
  }

  /** `generate_waypoint_feature`: a marker at the point's location. */
  function GenerateWaypointFeature(point: Point, number: Option<nat>): (f: Feature)
    ensures f.WaypointFeature?
    ensures f.geometry == PointGeometry(PositionOf(point.waypoint.location))
    ensures f.name == WaypointLabel(point.waypoint.name, number)
    ensures f.pointType == PointTypeToString(point.pointType)
  {
    WaypointFeature(WaypointLabel(point.waypoint.name, number), PointTypeToString(point.pointType),
                    PointGeometry(PositionOf(point.waypoint.location)))
  }

  /**
   * The observation-zone feature of a point: the outline its zone-table row
   * describes, around its location, oriented by the bisector of its legs.
   */
  function ZoneFeature(g: Sphere, point: Point, legs: Legs): (f: Option<Feature>)
    requires legs.bearingIn.Some? || legs.bearingOut.Some?
    ensures f.Some? && f.value.ObservationZoneFeature?
    ensures f.value.name == point.waypoint.name
    ensures f.value.pointType == PointTypeToString(point.pointType)
  {
    var bisector := CalculateBisector(g, legs.bearingIn, legs.bearingOut);
    var geometry := RenderShape(g, ZoneShape(point.observationZone), point.waypoint.location, bisector);
    Some(ObservationZoneFeature(point.waypoint.name, PointTypeToString(point.pointType), geometry))
  }

  /** `generate_observation_zone_feature`. */
  method GenerateObservationZoneFeature(g: Sphere, point: Point, bearingIn: Option<real>,
                                        bearingOut: Option<real>) returns (feature: Option<Feature>)
    requires bearingIn.Some? || bearingOut.Some?
    ensures feature == ZoneFeature(g, point, Legs(bearingIn, bearingOut))
    ensures feature.Some? && feature.value.ObservationZoneFeature?
    ensures feature.value.name == point.waypoint.name
  {
    var loc := point.waypoint.location;
    var bisector := CalculateBisector(g, bearingIn, bearingOut);
    var geometry := GenerateZoneGeometry(g, point.observationZone, loc, bisector);
    if geometry.None? {
      return None;
    }
    feature := Some(ObservationZoneFeature(point.waypoint.name, PointTypeToString(point.pointType),
                                           geometry.value));
  }

  // ---------------------------------------------------------------- legs

  /** The legs of point `i`: from the previous point, and to the next one. */
  function LegsAt(g: Sphere, points: seq<Point>, i: nat): Legs
    requires i < |points|
  {
    Legs(if i > 0 then Some(CalculateBearing(g, points[i - 1].waypoint.location, points[i].waypoint.location))
         else None,
         if i < |points| - 1 then Some(CalculateBearing(g, points[i].waypoint.location, points[i + 1].waypoint.location))
         else None)
  }

  function LegBearings(g: Sphere, points: seq<Point>): seq<Legs>
  {
    seq(|points|, i requires 0 <= i < |points| => LegsAt(g, points, i))
  }

  /** `calculate_leg_bearings`. */
  method CalculateLegBearings(g: Sphere, task: Task) returns (bearings: seq<Legs>)
    ensures bearings == LegBearings(g, task.points)
  {
    var points := task.points;
    var n := |points|;
    if n == 0 {
      return [];
    }
    bearings := [];
    for i := 0 to n
      invariant |bearings| == i
      invariant forall j :: 0 <= j < i ==> bearings[j] == LegsAt(g, points, j)
    {
      var bearingIn := if i > 0 then Some(CalculateBearing(g, points[i - 1].waypoint.location,
                                                           points[i].waypoint.location))
                       else None;
      var bearingOut := if i < n - 1 then Some(CalculateBearing(g, points[i].waypoint.location,
                                                                points[i + 1].waypoint.location))
                        else None;
      bearings := bearings + [Legs(bearingIn, bearingOut)];
    }
  }

  /**
   * Point `i` has an incoming bearing exactly when it is not the first point,
   * and an outgoing one exactly when it is not the last; each is the bearing
   * of that leg, in [0, 360).
   */
  lemma LegsAtLayout(g: Sphere, points: seq<Point>, i: nat)
    requires i < |points|
    ensures var legs := LegsAt(g, points, i);
            && (legs.bearingIn.Some? <==> i > 0)
            && (legs.bearingOut.Some? <==> i < |points| - 1)
            && (i > 0 ==>
                  legs.bearingIn.value == CalculateBearing(g, points[i - 1].waypoint.location, points[i].waypoint.location)
                  && 0.0 <= legs.bearingIn.value < 360.0)
            && (i < |points| - 1 ==>
                  legs.bearingOut.value == CalculateBearing(g, points[i].waypoint.location, points[i + 1].waypoint.location)
                  && 0.0 <= legs.bearingOut.value < 360.0)
  {
  }

  /** One pair of legs per point, the legs of that point. */
  lemma LegBearingsLayout(g: Sphere, points: seq<Point>)
    ensures |LegBearings(g, points)| == |points|
    ensures forall i :: 0 <= i < |points| ==> LegBearings(g, points)[i] == LegsAt(g, points, i)
  {
  }

  /** Every point has a leg to orient its zone by. */
  predicate Oriented(bearings: seq<Legs>)
  {
    forall i :: 0 <= i < |bearings| ==> bearings[i].bearingIn.Some? || bearings[i].bearingOut.Some?
  }

  /** Only a one-point task leaves a point with no leg at all. */
  lemma LegBearingsOriented(g: Sphere, points: seq<Point>)
    ensures Oriented(LegBearings(g, points)) <==> |points| != 1
  {
    if |points| == 1 {
      assert !(LegBearings(g, points)[0].bearingIn.Some? || LegBearings(g, points)[0].bearingOut.Some?);
    } else {
      forall i | 0 <= i < |points|
        ensures LegBearings(g, points)[i].bearingIn.Some? || LegBearings(g, points)[i].bearingOut.Some?
      {
        LegsAtLayout(g, points, i);
      }
    }
  }

  // ---------------------------------------------------------------- numbering

  /** Only Turn and Area points carry a number. */
  predicate IsNumbered(pt: PointType)
  {
    pt == Turn || pt == Area
  }

  /** How many of the first `k` points are Turn or Area points. */
  function NumberedCount(points: seq<Point>, k: nat): nat
    requires k <= |points|
  {
    if k == 0 then 0
    else NumberedCount(points, k - 1) + (if IsNumbered(points[k - 1].pointType) then 1 else 0)
  }

  /** The number on the marker of point `i`: its rank among the Turn and Area points. */
  function LabelNumber(points: seq<Point>, i: nat): Option<nat>
    requires i < |points|
  {
    if IsNumbered(points[i].pointType) then Some(NumberedCount(points, i + 1)) else None
  }

  /** Counting one more point adds one exactly when it is a Turn or Area point. */
  lemma NumberingStep(points: seq<Point>, i: nat)
    requires i < |points|
    ensures NumberedCount(points, i + 1)
            == NumberedCount(points, i) + (if IsNumbered(points[i].pointType) then 1 else 0)
    ensures LabelNumber(points, i)
            == if IsNumbered(points[i].pointType) then Some(NumberedCount(points, i) + 1) else None
  {
  }

  // ---------------------------------------------------------------- assembly

  /** The zone feature of every point, in task order. */
  function ZoneFeatures(g: Sphere, points: seq<Point>, bearings: seq<Legs>): seq<Option<Feature>>
    requires |points| == |bearings| && Oriented(bearings)
  {
    seq(|points|, i requires 0 <= i < |points| => ZoneFeature(g, points[i], bearings[i]))
  }

  /** The marker of every point, numbered, in task order. */
  function Markers(points: seq<Point>): seq<Feature>
  {
    seq(|points|, i requires 0 <= i < |points| => GenerateWaypointFeature(points[i], LabelNumber(points, i)))
  }

  /** The first `k` points' features: each point's zone feature, if any, then its marker. */
  function Interleave<T>(zones: seq<Option<T>>, markers: seq<T>, k: nat): seq<T>
    requires k <= |zones| == |markers|
  {
    if k == 0 then []
    else Interleave(zones, markers, k - 1) + OptionToSeq(zones[k - 1]) + [markers[k - 1]]
  }

  /** The features of a task: the course line if there is one, then each point's features. */
  function TaskFeatures(g: Sphere, task: Task): seq<Feature>
    requires |task.points| != 1
  {
    LegBearingsOriented(g, task.points);
    var bearings := LegBearings(g, task.points);
    OptionToSeq(GenerateCourseLine(task))
      + Interleave(ZoneFeatures(g, task.points, bearings), Markers(task.points), |task.points|)
  }

  /**
   * `task_to_geojson`. The source panics on a one-point task (its only point
   * has no leg to orient a zone by), so such a task is excluded.
   */
  method TaskToGeoJson(g: Sphere, task: Task) returns (collection: FeatureCollection)
    requires |task.points| != 1
    ensures collection == FeatureCollection(TaskFeatures(g, task))
  {
    var features: seq<Feature> := [];
    var line := GenerateCourseLine(task);
    if line.Some? {
      features := features + [line.value];
    }
    assert features == OptionToSeq(line);
    var bearings := CalculateLegBearings(g, task);
    LegBearingsOriented(g, task.points);
    var pointFeatures := GeneratePointFeatures(g, task.points, bearings);
    PointFeaturesInterleaved(g, task.points, bearings);
    features := features + pointFeatures;
    collection := FeatureCollection(features);
  }

  /**
   * The features of the first `k` points in the order the assembler emits
   * them: each point's zone feature, if any, then its numbered marker.
   */
  function PointFeatures(g: Sphere, points: seq<Point>, bearings: seq<Legs>, k: nat): seq<Feature>
    requires k <= |points| == |bearings| && Oriented(bearings)
  {
    if k == 0 then []
    else PointFeatures(g, points, bearings, k - 1) + OptionToSeq(ZoneFeature(g, points[k - 1], bearings[k - 1]))
         + [GenerateWaypointFeature(points[k - 1], LabelNumber(points, k - 1))]
  }

  /**
   * The loop of `task_to_geojson` over the points: for each, its running
   * turnpoint number, its zone feature, then its marker.
   */
  method GeneratePointFeatures(g: Sphere, points: seq<Point>, bearings: seq<Legs>)
    returns (features: seq<Feature>)
    requires |points| == |bearings| && Oriented(bearings)
    ensures features == PointFeatures(g, points, bearings, |points|)
  {
    features := [];
    var turnpointNumber: nat := 0;
    for i := 0 to |points|
      invariant features == PointFeatures(g, points, bearings, i)
      invariant turnpointNumber == NumberedCount(points, i)
    {
      var legs := bearings[i];
      var labelNumber: Option<nat>;
      NumberingStep(points, i);
      if IsNumbered(points[i].pointType) {
        turnpointNumber := turnpointNumber + 1;
        labelNumber := Some(turnpointNumber);
      } else {
        labelNumber := None;
      }
      var zone := GenerateObservationZoneFeature(g, points[i], legs.bearingIn, legs.bearingOut);
      var marker := GenerateWaypointFeature(points[i], labelNumber);
      // the zone feature, when there is one, then the marker
      features := features + OptionToSeq(zone) + [marker];
    }
  }

  /** The emitted order is the interleaving of the per-point zone features and markers. */
  lemma PointFeaturesInterleaved(g: Sphere, points: seq<Point>, bearings: seq<Legs>)
    requires |points| == |bearings| && Oriented(bearings)
    ensures PointFeatures(g, points, bearings, |points|)
            == Interleave(ZoneFeatures(g, points, bearings), Markers(points), |points|)
  {
    var prefixes := seq(|points| + 1, k requires 0 <= k <= |points| => PointFeatures(g, points, bearings, k));
    forall j | 0 <= j < |points|
      ensures prefixes[j + 1] == prefixes[j] + OptionToSeq(ZoneFeatures(g, points, bearings)[j]) + [Markers(points)[j]]
    {
      assert ZoneFeatures(g, points, bearings)[j] == ZoneFeature(g, points[j], bearings[j]);
    }
    InterleavePrefixes(ZoneFeatures(g, points, bearings), Markers(points), prefixes, |points|);
  }

  /** Prefixes that grow by one point's features at a time are the interleavings. */
  lemma {:induction false} InterleavePrefixes<T>(zones: seq<Option<T>>, markers: seq<T>, prefixes: seq<seq<T>>, k: nat)
    requires |prefixes| == |zones| + 1 && |zones| == |markers| && k <= |zones|
    requires prefixes[0] == []
    requires forall j :: 0 <= j < |zones| ==> prefixes[j + 1] == prefixes[j] + OptionToSeq(zones[j]) + [markers[j]]
    ensures prefixes[k] == Interleave(zones, markers, k)
  {
    if k > 0 {
      InterleavePrefixes(zones, markers, prefixes, k - 1);
    }
  }

  predicate AllPresent<T>(zones: seq<Option<T>>)
  {
    forall i :: 0 <= i < |zones| ==> zones[i].Some?
  }

  /** When every point has a zone feature, each point contributes exactly two features. */
  lemma {:induction false} InterleaveLength<T>(zones: seq<Option<T>>, markers: seq<T>, k: nat)
    requires k <= |zones| == |markers| && AllPresent(zones)
    ensures |Interleave(zones, markers, k)| == 2 * k
  {
    if k > 0 {
      InterleaveLength(zones, markers, k - 1);
    }
  }

  /**
   * When every point has a zone feature, point `j`'s zone feature sits at
   * position 2j and its marker right after it, at 2j + 1.
   */
  lemma {:induction false} InterleaveAt<T>(zones: seq<Option<T>>, markers: seq<T>, k: nat, j: nat)
    requires k <= |zones| == |markers| && AllPresent(zones)
    requires j < k
    ensures |Interleave(zones, markers, k)| == 2 * k
    ensures Interleave(zones, markers, k)[2 * j] == zones[j].value
    ensures Interleave(zones, markers, k)[2 * j + 1] == markers[j]
  {
    InterleaveLength(zones, markers, k);
    InterleaveLength(zones, markers, k - 1);
    if j < k - 1 {
      InterleaveAt(zones, markers, k - 1, j);
    }
  }
}
