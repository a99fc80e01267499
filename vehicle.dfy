/** Vehicle profiles and the simulation snapshot (ui/react-headunit/src/simulation/Vehicle.ts). */
module Vehicle {
  import opened Wrappers
  import opened Geo

  /** The closed set of vehicle categories. */
  datatype VehicleType = Car | Truck | Motorcycle

  /** The string tag a category carries at run time. */
  function TypeTag(t: VehicleType): string
  {
    match t
    case Car => "car"
    case Truck => "truck"
    case Motorcycle => "motorcycle"
  }

  /** Reads a tag back; any other string is not a category. */
  function ParseTypeTag(s: string): (r: Option<VehicleType>)
    ensures r.Some? ==> TypeTag(r.value) == s
  {
    if s == "car" then Some(Car)
    else if s == "truck" then Some(Truck)
    else if s == "motorcycle" then Some(Motorcycle)
    else None
  }

  /** Every category's tag parses back to it, so the tags are distinct. */
  lemma TypeTagRoundTrip(t: VehicleType)
    ensures ParseTypeTag(TypeTag(t)) == Some(t)
  {
  }

  /** A vehicle profile; speeds in km/h, acceleration in km/h per second,
      breakDuration in minutes. */
  datatype Vehicle = Vehicle(
    vtype: VehicleType,
    name: string,
    maxSpeed: real,
    avgSpeed: real,
    acceleration: real,
    breakProbability: real,
    breakDuration: real,
    icon: string,
    color: string)

  /** The ranges every shipped profile keeps: a positive cruising speed not
      above the top speed, a probability, and a positive break length. */
  predicate PlausibleProfile(v: Vehicle)
  {
    && 0.0 < v.avgSpeed <= v.maxSpeed
    && 0.0 <= v.breakProbability <= 1.0
    && v.breakDuration > 0.0
  }

  /** A recorded rest stop: where, how long (minutes) and the wall-clock time. */
  datatype BreakPoint = BreakPoint(position: Coord, duration: real, timestamp: real)

  /**
   * The snapshot published to the UI. `breakPoints` is not declared in the
   * TypeScript interface: the engine writes it at run time and
   * defaultSimulationState does not carry it, so it is None there.
   */
  datatype SimulationState = SimulationState(
    isRunning: bool,
    isPaused: bool,
    currentPosition: Option<Coord>,
    progress: real,          // 0-100 %
    currentSpeed: real,      // km/h
    eta: real,               // minutes remaining
    distanceRemaining: real, // km
    elapsedTime: real,       // minutes
    breaks: int,             // count of breaks taken
    breakPoints: Option<seq<BreakPoint>>)

  const DefaultSimulationState: SimulationState :=
    SimulationState(false, false, None, 0.0, 0.0, 0.0, 0.0, 0.0, 0, None)

  /** The idle snapshot: not running, not paused, no position, every number zero. */
  predicate IsIdle(s: SimulationState)
  {
    && !s.isRunning && !s.isPaused && s.currentPosition.None?
    && s.progress == 0.0 && s.currentSpeed == 0.0 && s.eta == 0.0
    && s.distanceRemaining == 0.0 && s.elapsedTime == 0.0 && s.breaks == 0
  }

  /** The documented ranges: progress is a percentage and breaks a count. */
  predicate InDocumentedRange(s: SimulationState)
  {
    0.0 <= s.progress <= 100.0 && s.breaks >= 0
  }

  lemma DefaultSimulationStateIsIdle()
    ensures IsIdle(DefaultSimulationState) && InDocumentedRange(DefaultSimulationState)
    ensures DefaultSimulationState.breakPoints.None?
  {
  }

  /** The idle snapshot is the only one of its kind, up to the undeclared field. */
  lemma IdleIsDefault(s: SimulationState)
    requires IsIdle(s) && s.breakPoints.None?
    ensures s == DefaultSimulationState
  {
  }
}
