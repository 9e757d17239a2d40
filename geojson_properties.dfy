/**
 * What the assembled feature collection looks like: how many features a task
 * yields, where each point's features sit, and how the markers are numbered.
 */
module GeoJsonProperties {
  import opened Wrappers
  import opened XcsoarTasks
  import opened Geodesy
  import opened ZoneGeometry
  import opened GeoJson

  // ---------------------------------------------------------------- numbering

  /**
   * The count never decreases, and it stays the same from `i` to `j` exactly
   * when no point in between is a Turn or Area point.
   */
  lemma {:induction false} NumberedBetween(points: seq<Point>, i: nat, j: nat)
    requires i <= j <= |points|
    ensures NumberedCount(points, i) <= NumberedCount(points, j)
    ensures NumberedCount(points, j) == NumberedCount(points, i) <==>
              forall k :: i <= k < j ==> !IsNumbered(points[k].pointType)
    decreases j
  {
    if i < j {
      NumberedBetween(points, i, j - 1);
    }
  }

  /** The count over `k` points is at most `k`. */
  lemma {:induction false} NumberedAtMost(points: seq<Point>, k: nat)
    requires k <= |points|
    ensures NumberedCount(points, k) <= k
  {
    if k > 0 {
      NumberedAtMost(points, k - 1);
    }
  }

  /** Turn and Area points get a number, every other point gets none. */
  lemma LabelNumberPresence(points: seq<Point>, i: nat)
    requires i < |points|
    ensures LabelNumber(points, i).Some? <==> IsNumbered(points[i].pointType)
  {
  }

  /** A numbered point's marker reads "<n>. <name>" for its number n. */
  lemma NumberedLabel(points: seq<Point>, i: nat)
    requires i < |points| && IsNumbered(points[i].pointType)
    ensures GenerateWaypointFeature(points[i], LabelNumber(points, i)).name
            == Decimal.NatToDecimal(LabelNumber(points, i).value) + ". " + points[i].waypoint.name
  {
  }

  /** The first Turn or Area point of a task is numbered 1. */
  lemma FirstNumberIsOne(points: seq<Point>, i: nat)
    requires i < |points| && IsNumbered(points[i].pointType)
    requires forall k :: 0 <= k < i ==> !IsNumbered(points[k].pointType)
    ensures LabelNumber(points, i) == Some(1)
  {
    NumberedBetween(points, 0, i);
  }

  /**
   * Later numbered points carry larger numbers, and the next numbered point
   * after `i` (no Turn or Area point in between) carries the next number.
   */
  lemma NumbersIncrease(points: seq<Point>, i: nat, j: nat)
    requires i < j < |points|
    requires IsNumbered(points[i].pointType) && IsNumbered(points[j].pointType)
    ensures LabelNumber(points, i).value < LabelNumber(points, j).value
    ensures (forall k :: i < k < j ==> !IsNumbered(points[k].pointType)) <==>
              LabelNumber(points, j).value == LabelNumber(points, i).value + 1
  {
    NumberedBetween(points, i + 1, j);
  }

  /** Numbers run from 1 up to the number of Turn and Area points in the task. */
  lemma NumberBounds(points: seq<Point>, i: nat)
    requires i < |points| && IsNumbered(points[i].pointType)
    ensures 1 <= LabelNumber(points, i).value <= NumberedCount(points, |points|) <= |points|
  {
    NumberedBetween(points, i + 1, |points|);
    NumberedAtMost(points, |points|);
  }

  // ---------------------------------------------------------------- layout

  /** Every point of a task with legs has its zone feature. */
  lemma TaskZonesPresent(g: Sphere, task: Task)
    requires |task.points| != 1
    ensures Oriented(LegBearings(g, task.points))
    ensures AllPresent(ZoneFeatures(g, task.points, LegBearings(g, task.points)))
  {
    LegBearingsOriented(g, task.points);
  }

  /** A task of N points yields 2N features, plus its course line when N >= 2. */
  lemma TaskFeatureCount(g: Sphere, task: Task)
    requires |task.points| != 1
    ensures |TaskFeatures(g, task)| == 2 * |task.points| + (if |task.points| >= 2 then 1 else 0)
  {
    TaskZonesPresent(g, task);
    var bearings := LegBearings(g, task.points);
    InterleaveLength(ZoneFeatures(g, task.points, bearings), Markers(task.points), |task.points|);
  }

  /** A task with no points gives an empty collection. */
  lemma EmptyTask(g: Sphere, task: Task)
    requires task.points == []
    ensures TaskFeatures(g, task) == []
  {
  }

  /** With two or more points, the collection is the course line followed by the point features. */
  lemma TaskFeaturesSplit(g: Sphere, task: Task)
    requires |task.points| >= 2
    ensures Oriented(LegBearings(g, task.points))
    ensures TaskFeatures(g, task)
            == [GenerateCourseLine(task).value]
               + Interleave(ZoneFeatures(g, task.points, LegBearings(g, task.points)), Markers(task.points),
                            |task.points|)
  {
    LegBearingsOriented(g, task.points);
  }

  /** Behind one leading element, point `j`'s features sit at 1 + 2j and 2 + 2j. */
  lemma {:induction false} InterleaveAfterHead<T>(x: T, zones: seq<Option<T>>, markers: seq<T>, j: nat)
    requires |zones| == |markers| && AllPresent(zones) && j < |zones|
    ensures var f := [x] + Interleave(zones, markers, |zones|);
            && |f| == 2 * |zones| + 1
            && f[0] == x
            && f[1 + 2 * j] == zones[j].value
            && f[2 + 2 * j] == markers[j]
  {
    InterleaveAt(zones, markers, |zones|, j);
  }

  /** Point `i`'s entry in the zone features is the zone feature for its own legs. */
  lemma ZoneFeatureOfLegs(g: Sphere, points: seq<Point>, i: nat)
    requires i < |points| && Oriented(LegBearings(g, points))
    ensures ZoneFeatures(g, points, LegBearings(g, points))[i] == ZoneFeature(g, points[i], LegsAt(g, points, i))
  {
  }

  /**
   * The collection's order: the course line first, then for each point in
   * task order its zone outline (named after its waypoint, with its role)
   * and its marker.
   */
  lemma TaskFeatureOrder(g: Sphere, task: Task, i: nat)
    requires |task.points| >= 2 && i < |task.points|
    ensures var f := TaskFeatures(g, task);
            && |f| == 2 * |task.points| + 1
            && f[0] == GenerateCourseLine(task).value
            && f[1 + 2 * i] == ZoneFeature(g, task.points[i], LegsAt(g, task.points, i)).value
            && f[1 + 2 * i].ObservationZoneFeature?
            && f[1 + 2 * i].name == task.points[i].waypoint.name
            && f[1 + 2 * i].pointType == PointTypeToString(task.points[i].pointType)
            && f[2 + 2 * i] == GenerateWaypointFeature(task.points[i], LabelNumber(task.points, i))
  {
    TaskFeaturesSplit(g, task);
    TaskZonesPresent(g, task);
    var zones := ZoneFeatures(g, task.points, LegBearings(g, task.points));
    InterleaveAfterHead(GenerateCourseLine(task).value, zones, Markers(task.points), i);
    ZoneFeatureOfLegs(g, task.points, i);
  }

}
