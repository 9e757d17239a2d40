/**
 * The task entity model of the xcsoar-tasks library (src/lib.rs): a task file's
 * typed contents, and the small literal-conversion rules the library applies to
 * individual attributes (boolean attributes and altitude references).
 *
 * Numeric attributes are f32 in the library; here they are `real`. Attributes
 * typed u32 keep their width through the `u32` newtype.
 */
module XcsoarTasks {
  import opened Wrappers

  newtype u32 = x: int | 0 <= x < 0x1_0000_0000

  datatype TaskType = AAT | RT | FAIGeneral | FAITriangle | FAIOR | FAIGoal | MAT | Mixed | Touring

  datatype AltitudeReference = AGL | MSL

  /** A task: its scoring/timing attributes and its points, in flight order. */
  datatype Task = Task(
    taskType: TaskType,
    aatMinTime: Option<u32>,
    startRequiresArm: Option<bool>,
    startScoreExit: Option<bool>,
    startMaxSpeed: Option<real>,
    startMaxHeight: Option<u32>,
    startMaxHeightRef: Option<AltitudeReference>,
    startOpenTime: Option<u32>,
    startCloseTime: Option<u32>,
    finishMinHeight: Option<u32>,
    finishMinHeightRef: Option<AltitudeReference>,
    faiFinish: Option<bool>,
    pevStartWaitTime: Option<u32>,
    pevStartWindow: Option<u32>,
    points: seq<Point>)

  datatype Point = Point(
    pointType: PointType,
    scoreExit: Option<bool>,
    waypoint: Waypoint,
    observationZone: ObservationZone)

  datatype PointType = Start | Turn | Area | Finish | OptionalStart

  datatype Waypoint = Waypoint(
    name: string,
    altitude: Option<real>,
    id: Option<string>,
    comment: Option<string>,
    location: Location)

  /** Longitude and latitude in degrees. */
  datatype Location = Location(longitude: real, latitude: real)

  /**
   * The eleven observation-zone shapes. Distances are metres, angles degrees.
   * The optional parameters of SymmetricQuadrant and CustomKeyhole are named
   * `maybeRadius` because `radius` is a plain number in Cylinder and Sector.
   */
  datatype ObservationZone =
    | Cylinder(radius: real)
    | Line(length: real)
    | Keyhole
    | FAISector
    | Sector(radius: real, startRadial: real, endRadial: real, innerRadius: Option<real>)
    | SymmetricQuadrant(maybeRadius: Option<real>, angle: Option<real>)
    | CustomKeyhole(maybeRadius: Option<real>, angle: Option<real>, innerRadius: Option<real>)
    | MatCylinder
    | BGAStartSector
    | BGAFixedCourse
    | BGAEnhancedOption

  /**
   * Reading an optional boolean attribute: `None` is an absent attribute.
   * "1" and "true" read as true, "0" and "false" as false; anything else is an
   * error naming the offending text.
   */
  function DeOptBool(s: Option<string>): (r: Result<Option<bool>, string>)
    ensures r == Success(None) <==> s.None?
    ensures r == Success(Some(true)) <==> s == Some("1") || s == Some("true")
    ensures r == Success(Some(false)) <==> s == Some("0") || s == Some("false")
    ensures r.Failure? <==> s.Some? && s.value !in {"1", "true", "0", "false"}
    ensures r.Failure? ==> r.error == "invalid bool: " + s.value
  {
    match s
    case Some(text) =>
      if text == "1" || text == "true" then Success(Some(true))
      else if text == "0" || text == "false" then Success(Some(false))
      else Failure("invalid bool: " + text)
    case None => Success(None)
  }

  /**
   * Writing an optional boolean attribute: true as "1", false as "0"; `None`
   * writes nothing (the attribute is skipped).
   */
  function SerOptBool(v: Option<bool>): (s: Option<string>)
    ensures s.None? <==> v.None?
    ensures v == Some(true) <==> s == Some("1")
    ensures v == Some(false) <==> s == Some("0")
  {
    match v
    case Some(true) => Some("1")
    case Some(false) => Some("0")
    case None => None
  }

  /** Every optional boolean survives being written and read back. */
  lemma BoolRoundTrip(v: Option<bool>)
    ensures DeOptBool(SerOptBool(v)) == Success(v)
  {
  }

  /**
   * Reading then writing an accepted attribute gives its canonical spelling:
   * the text is kept exactly when it is already canonical ("1", "0" or absent),
   * and reading the canonical spelling again gives the same value.
   */
  lemma BoolCanonical(s: Option<string>)
    requires DeOptBool(s).Success?
    ensures DeOptBool(SerOptBool(DeOptBool(s).value)) == DeOptBool(s)
    ensures SerOptBool(DeOptBool(s).value) == s <==> s in {None, Some("1"), Some("0")}
  {
  }

  /**
   * Reading an altitude reference from its attribute text: exactly "MSL" is
   * MSL, every other string is AGL, and a string never fails to read.
   */
  function DeserializeAltitudeReference(s: string): (r: Result<AltitudeReference, string>)
    ensures r.Success?
    ensures r.value == MSL <==> s == "MSL"
    ensures r.value == AGL <==> s != "MSL"
  {
    if s == "MSL" then Success(MSL) else Success(AGL)
  }

  /** Writing an altitude reference: the variant name. */
  function SerializeAltitudeReference(a: AltitudeReference): (s: string)
    ensures s == "MSL" || s == "AGL"
  {
    match a
    case AGL => "AGL"
    case MSL => "MSL"
  }

  /** Every altitude reference survives being written and read back. */
  lemma AltitudeReferenceRoundTrip(a: AltitudeReference)
    ensures DeserializeAltitudeReference(SerializeAltitudeReference(a)) == Success(a)
  {
  }
}
