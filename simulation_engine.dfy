/**
 * The route-following simulation engine
 * (ui/react-headunit/src/simulation/SimulationEngine.ts).
 *
 * The host supplies what the browser would: the clock reading `now`
 * (performance.now, ms), the wall-clock `epoch` (Date.now, ms) and the random
 * draw `r` (Math.random). A pending animation frame and a pending
 * break-resumption timer are flags; the callbacks are recorded in an event log.
 *
 * Each operation is first a function over EngineData (the engine's fields as
 * one value); the class Engine keeps those fields and its methods are proved
 * to produce exactly what the functions say.
 */
module SimulationEngine {
  import opened Wrappers
  import opened Geo
  import opened Vehicle
  import opened SimulationRoute

  /** What `start` is given; `speedMultiplier` may be left undefined. */
  datatype Config = Config(route: seq<Coord>, vehicle: Vehicle, speedMultiplier: Option<real>)

  /** A callback invocation: onUpdate(snapshot), onBreak(minutes) or onComplete(). */
  datatype Event = Update(snapshot: SimulationState) | BreakStarted(minutes: real) | Completed

  /** The engine's fields. `breakTimer` holds the delay (ms) of a pending
      break-resumption timer. */
  datatype EngineData = EngineData(
    config: Option<Config>,
    state: SimulationState,
    lastTimestamp: real,
    totalDistance: real,
    coveredDistance: real,
    isOnBreak: bool,
    frameRequested: bool,
    breakTimer: Option<real>,
    events: seq<Event>)

  /** A freshly constructed engine. */
  const Initial: EngineData :=
    EngineData(None, DefaultSimulationState, 0.0, 0.0, 0.0, false, false, None, [])

  /** `speedMultiplier || 1`: an undefined or zero multiplier counts as 1. */
  function Multiplier(c: Config): real
  {
    if c.speedMultiplier.Some? && c.speedMultiplier.value != 0.0 then c.speedMultiplier.value else 1.0
  }

  /** km moved in deltaMs at avgSpeed km/h scaled by the multiplier. */
  function FrameDistance(avgSpeed: real, multiplier: real, deltaMs: real): real
  {
    avgSpeed * multiplier / 3600000.0 * deltaMs
  }

  function Progress(covered: real, total: real): real
    requires total != 0.0
  {
    Min(100.0, covered / total * 100.0)
  }

  function Remaining(covered: real, total: real): real
  {
    Max(0.0, total - covered)
  }

  function EtaMinutes(remaining: real, avgSpeed: real): real
    requires avgSpeed != 0.0
  {
    remaining / avgSpeed * 60.0
  }

  /** Real milliseconds until a break ends: the break's scaled length, capped at 3 s. */
  function BreakWaitMs(breakMinutes: real, multiplier: real): real
    requires multiplier != 0.0
  {
    Min(breakMinutes * 60000.0 / multiplier, 3000.0)
  }

  /** What `start` needs and the source does not check: at least two points,
      no zero-length segment (else 0/0 in the tick), and a non-zero average
      speed (else a division by zero in the ETA). */
  ghost predicate ConfigOk(dist: DistanceFn, c: Config)
  {
    |c.route| >= 2 && SegmentsPositive(dist, c.route) && c.vehicle.avgSpeed != 0.0
  }

  /** progress, distanceRemaining and eta agree with the covered distance. */
  predicate SnapshotAgrees(s: SimulationState, covered: real, total: real, avgSpeed: real)
    requires total != 0.0 && avgSpeed != 0.0
  {
    && s.progress == Progress(covered, total)
    && s.distanceRemaining == Remaining(covered, total)
    && s.eta == EtaMinutes(s.distanceRemaining, avgSpeed)
  }

  /** `start` cancels neither a pending frame nor a pending break timer of a
      previous run, so it is only called when neither is pending. */
  ghost predicate StartAllowed(dist: DistanceFn, e: EngineData, c: Config)
  {
    ConfigOk(dist, c) && !e.frameRequested && e.breakTimer.None?
  }

  /** The engine invariant. */
  ghost predicate DataValid(dist: DistanceFn, e: EngineData)
  {
    && IsDistance(dist)
    && (e.config.Some? ==>
          && ConfigOk(dist, e.config.value)
          && e.totalDistance == RouteLength(dist, e.config.value.route)
          && e.totalDistance > 0.0)
    && (e.breakTimer.Some? ==> e.isOnBreak)
    && (e.state.breakPoints.Some? ==> e.state.breaks == |e.state.breakPoints.value|)
    && (e.state.isRunning ==> RunningConsistent(dist, e))
  }

  /** While running: a configuration, break records, a distance still short of
      the total, the position on the route at that distance, and a snapshot
      that agrees with it. */
  ghost predicate RunningConsistent(dist: DistanceFn, e: EngineData)
  {
    && e.config.Some? && ConfigOk(dist, e.config.value)
    && e.totalDistance == RouteLength(dist, e.config.value.route)
    && e.state.breakPoints.Some?
    && e.coveredDistance < e.totalDistance
    && e.state.currentPosition == PositionAfter(dist, e.config.value.route, e.coveredDistance, None)
    && e.state.currentPosition.Some?
    && e.totalDistance > 0.0
    && SnapshotAgrees(e.state, e.coveredDistance, e.totalDistance, e.config.value.vehicle.avgSpeed)
  }

  /** The guard at the head of `animate`. */
  predicate Active(e: EngineData)
  {
    e.config.Some? && e.state.isRunning && !e.state.isPaused && !e.isOnBreak
  }

  /** `triggerBreak`: no-op without a position; otherwise counts the break,
      records it, notifies, and schedules the resumption. */
  function BreakStep(e: EngineData, epoch: real): EngineData
    requires e.config.Some? && e.state.currentPosition.Some? ==> e.state.breakPoints.Some?
  {
    if e.config.None? || e.state.currentPosition.None? then e
    else
      var c := e.config.value;
      var minutes := c.vehicle.breakDuration;
      var s := e.state.(breaks := e.state.breaks + 1,
                        breakPoints := Some(e.state.breakPoints.value +
                                            [BreakPoint(e.state.currentPosition.value, minutes, epoch)]));
      e.(isOnBreak := true, state := s,
         breakTimer := Some(BreakWaitMs(minutes, Multiplier(c))),
         events := e.events + [BreakStarted(minutes), Update(s)])
  }

  /** `complete`: stops the run with the final snapshot and notifies twice. */
  function CompleteStep(e: EngineData): EngineData
  {
    var s := e.state.(isRunning := false, progress := 100.0, distanceRemaining := 0.0,
                      currentSpeed := 0.0, eta := 0.0);
    e.(state := s, events := e.events + if e.config.Some? then [Update(s), Completed] else [])
  }

  /** km covered by a tick at clock reading `now`. */
  function Moved(e: EngineData, now: real): real
    requires e.config.Some?
  {
    FrameDistance(e.config.value.vehicle.avgSpeed, Multiplier(e.config.value), now - e.lastTimestamp)
  }

  /** The break chance of a tick: the per-10-km probability scaled to the distance moved. */
  function BreakChance(e: EngineData, now: real): real
    requires e.config.Some?
  {
    e.config.value.vehicle.breakProbability * (Moved(e, now) / 10.0)
  }

  /** The first part of a tick: distance, elapsed time, position and the derived figures. */
  function Advanced(dist: DistanceFn, e: EngineData, now: real): EngineData
    requires DataValid(dist, e) && Active(e)
  {
    var c := e.config.value;
    var v := c.vehicle;
    var m := Multiplier(c);
    var deltaMs := now - e.lastTimestamp;
    var covered := e.coveredDistance + Moved(e, now);
    var remaining := Remaining(covered, e.totalDistance);
    var s := e.state.(
      elapsedTime := e.state.elapsedTime + deltaMs / 60000.0 * m,
      currentPosition := PositionAfter(dist, c.route, covered, e.state.currentPosition),
      progress := Progress(covered, e.totalDistance),
      distanceRemaining := remaining,
      currentSpeed := v.avgSpeed * m,
      eta := EtaMinutes(remaining, v.avgSpeed));
    e.(lastTimestamp := now, coveredDistance := covered, state := s)
  }

  /** A snapshot with the figures of the first part of a tick is the one `Advanced` computes. */
  lemma AdvancedFrom(dist: DistanceFn, e: EngineData, now: real, s: SimulationState)
    requires DataValid(dist, e) && Active(e)
    requires
      var c := e.config.value;
      var m := Multiplier(c);
      var covered := e.coveredDistance + Moved(e, now);
      && s.isRunning == e.state.isRunning && s.isPaused == e.state.isPaused
      && s.breaks == e.state.breaks && s.breakPoints == e.state.breakPoints
      && s.elapsedTime == e.state.elapsedTime + (now - e.lastTimestamp) / 60000.0 * m
      && s.currentPosition == PositionAfter(dist, c.route, covered, e.state.currentPosition)
      && s.progress == Progress(covered, e.totalDistance)
      && s.distanceRemaining == Remaining(covered, e.totalDistance)
      && s.currentSpeed == c.vehicle.avgSpeed * m
      && s.eta == EtaMinutes(s.distanceRemaining, c.vehicle.avgSpeed)
    ensures Advanced(dist, e, now) == e.(lastTimestamp := now, coveredDistance := e.coveredDistance + Moved(e, now), state := s)
  {
  }

  /** The end of a tick: publish, then either complete or request the next frame. */
  function Settled(e: EngineData): EngineData
  {
    var e1 := e.(events := e.events + [Update(e.state)]);
    if e.coveredDistance >= e.totalDistance then CompleteStep(e1) else e1.(frameRequested := true)
  }

  /** `animate`: one frame of the simulation. */
  function TickStep(dist: DistanceFn, e: EngineData, now: real, epoch: real, r: real): EngineData
    requires DataValid(dist, e)
  {
    if !Active(e) then e
    else
      var e1 := Advanced(dist, e, now);
      Settled(if r < BreakChance(e, now) then BreakStep(e1, epoch) else e1)
  }

  /** The snapshot `start` publishes before its first tick. */
  function InitialSnapshot(dist: DistanceFn, c: Config): SimulationState
    requires ConfigOk(dist, c)
  {
    var total := RouteLength(dist, c.route);
    SimulationState(
      isRunning := true, isPaused := false, currentPosition := Some(c.route[0]),
      progress := 0.0, currentSpeed := 0.0, eta := total / c.vehicle.avgSpeed * 60.0,
      distanceRemaining := total, elapsedTime := 0.0, breaks := 0, breakPoints := Some([]))
  }

  /** The fields `start` sets before its first tick. */
  function Installed(dist: DistanceFn, e: EngineData, c: Config, now: real): EngineData
    requires ConfigOk(dist, c)
  {
    var s := InitialSnapshot(dist, c);
    e.(config := Some(c), coveredDistance := 0.0, totalDistance := RouteLength(dist, c.route),
       lastTimestamp := now, isOnBreak := false, state := s, events := e.events + [Update(s)])
  }

  /** `start`: install the configuration with the clock read at `now`,
      publish the initial snapshot, then tick once; the tick reads the clock
      again (`tickNow`), so it moves the vehicle by the time between the two readings. */
  function StartStep(dist: DistanceFn, e: EngineData, c: Config, now: real, tickNow: real, epoch: real, r: real): EngineData
    requires DataValid(dist, e) && StartAllowed(dist, e, c)
  {
    InstalledIsValid(dist, e, c, now);
    TickStep(dist, Installed(dist, e, c, now), tickNow, epoch, r)
  }

  lemma InstalledIsValid(dist: DistanceFn, e: EngineData, c: Config, now: real)
    requires DataValid(dist, e) && StartAllowed(dist, e, c)
    ensures DataValid(dist, Installed(dist, e, c, now))
  {
    RouteLengthSign(dist, c.route);
    PositionAtStart(dist, c.route, None);
    assert Progress(0.0, RouteLength(dist, c.route)) == 0.0;
  }

  /** `pause`. */
  function PauseStep(e: EngineData): EngineData
  {
    var s := e.state.(isPaused := true);
    e.(state := s, frameRequested := false, events := e.events + if e.config.Some? then [Update(s)] else [])
  }

  /** `resume`: only from paused; re-anchors the clock at `now` and ticks,
      the tick reading the clock again (`tickNow`). */
  function ResumeStep(dist: DistanceFn, e: EngineData, now: real, tickNow: real, epoch: real, r: real): EngineData
    requires DataValid(dist, e)
  {
    if !e.state.isPaused then e
    else
      var e1 := TickStep(dist, e.(state := e.state.(isPaused := false), lastTimestamp := now), tickNow, epoch, r);
      e1.(events := e1.events + if e1.config.Some? then [Update(e1.state)] else [])
  }

  /** `stop`: back to the idle snapshot, both pending callbacks cancelled. */
  function StopStep(e: EngineData): EngineData
  {
    e.(state := DefaultSimulationState, frameRequested := false, breakTimer := None,
       events := e.events + if e.config.Some? then [Update(DefaultSimulationState)] else [])
  }

  /** `setSpeedMultiplier`: stored unchecked when there is a configuration. */
  function SpeedStep(e: EngineData, multiplier: real): EngineData
  {
    if e.config.None? then e
    else e.(config := Some(e.config.value.(speedMultiplier := Some(multiplier))))
  }

  /** The host delivers the requested animation frame. */
  function FrameStep(dist: DistanceFn, e: EngineData, now: real, epoch: real, r: real): EngineData
    requires DataValid(dist, e)
  {
    TickStep(dist, e.(frameRequested := false), now, epoch, r)
  }

  /** The break-resumption timer fires: the break ends, the clock is
      re-anchored at `now`, and a tick runs with its own reading `tickNow`. */
  function TimerStep(dist: DistanceFn, e: EngineData, now: real, tickNow: real, epoch: real, r: real): EngineData
    requires DataValid(dist, e)
  {
    TickStep(dist, e.(isOnBreak := false, breakTimer := None, lastTimestamp := now), tickNow, epoch, r)
  }

  // ---------------------------------------------------------------------
  // The invariant is kept by every operation

  /** The invariant in the middle of a tick, where the covered distance may
      already have reached the total. */
  ghost predicate MidTick(dist: DistanceFn, e: EngineData)
  {
    && IsDistance(dist)
    && e.config.Some? && ConfigOk(dist, e.config.value)
    && e.totalDistance == RouteLength(dist, e.config.value.route)
    && e.totalDistance > 0.0
    && (e.breakTimer.Some? ==> e.isOnBreak)
    && e.state.isRunning
    && e.state.breakPoints.Some?
    && e.state.breaks == |e.state.breakPoints.value|
    && e.state.currentPosition.Some?
    && SnapshotAgrees(e.state, e.coveredDistance, e.totalDistance, e.config.value.vehicle.avgSpeed)
    && (e.coveredDistance < e.totalDistance ==>
          e.state.currentPosition == PositionAfter(dist, e.config.value.route, e.coveredDistance, None))
  }

  lemma AdvancedIsMidTick(dist: DistanceFn, e: EngineData, now: real)
    requires DataValid(dist, e) && Active(e)
    ensures MidTick(dist, Advanced(dist, e, now))
  {
    var c := e.config.value;
    var covered := e.coveredDistance + Moved(e, now);
    if covered < e.totalDistance {
      PositionAfterWithinRoute(dist, c.route, covered, e.state.currentPosition, None);
    }
    assert Locate(dist, c.route, covered, 1).None? ==>
      PositionAfter(dist, c.route, covered, e.state.currentPosition) == e.state.currentPosition;
  }

  lemma BreakStepKeepsMidTick(dist: DistanceFn, e: EngineData, epoch: real)
    requires MidTick(dist, e)
    ensures MidTick(dist, BreakStep(e, epoch))
  {
  }

  lemma SettledIsValid(dist: DistanceFn, e: EngineData)
    requires MidTick(dist, e)
    ensures DataValid(dist, Settled(e))
  {
    if e.coveredDistance >= e.totalDistance {
      var total := e.totalDistance;
      var covered := e.coveredDistance;
      assert covered / total >= 1.0;
    }
  }

  lemma TickStepKeepsValid(dist: DistanceFn, e: EngineData, now: real, epoch: real, r: real)
    requires DataValid(dist, e)
    ensures DataValid(dist, TickStep(dist, e, now, epoch, r))
  {
    if Active(e) {
      var e1 := Advanced(dist, e, now);
      AdvancedIsMidTick(dist, e, now);
      if r < BreakChance(e, now) {
        BreakStepKeepsMidTick(dist, e1, epoch);
        SettledIsValid(dist, BreakStep(e1, epoch));
      } else {
        SettledIsValid(dist, e1);
      }
    }
  }

  lemma StartStepKeepsValid(dist: DistanceFn, e: EngineData, c: Config, now: real, tickNow: real, epoch: real, r: real)
    requires DataValid(dist, e) && StartAllowed(dist, e, c)
    ensures DataValid(dist, StartStep(dist, e, c, now, tickNow, epoch, r))
  {
    InstalledIsValid(dist, e, c, now);
    TickStepKeepsValid(dist, Installed(dist, e, c, now), tickNow, epoch, r);
  }

  lemma ResumeStepKeepsValid(dist: DistanceFn, e: EngineData, now: real, tickNow: real, epoch: real, r: real)
    requires DataValid(dist, e)
    ensures DataValid(dist, ResumeStep(dist, e, now, tickNow, epoch, r))
  {
    if e.state.isPaused {
      TickStepKeepsValid(dist, e.(state := e.state.(isPaused := false), lastTimestamp := now), tickNow, epoch, r);
    }
  }

  lemma FrameStepKeepsValid(dist: DistanceFn, e: EngineData, now: real, epoch: real, r: real)
    requires DataValid(dist, e)
    ensures DataValid(dist, FrameStep(dist, e, now, epoch, r))
  {
    TickStepKeepsValid(dist, e.(frameRequested := false), now, epoch, r);
  }

  lemma TimerStepKeepsValid(dist: DistanceFn, e: EngineData, now: real, tickNow: real, epoch: real, r: real)
    requires DataValid(dist, e)
    ensures DataValid(dist, TimerStep(dist, e, now, tickNow, epoch, r))
  {
    TickStepKeepsValid(dist, e.(isOnBreak := false, breakTimer := None, lastTimestamp := now), tickNow, epoch, r);
  }

  lemma OtherStepsKeepValid(dist: DistanceFn, e: EngineData, multiplier: real)
    requires DataValid(dist, e)
    ensures DataValid(dist, PauseStep(e))
    ensures DataValid(dist, StopStep(e))
    ensures DataValid(dist, SpeedStep(e, multiplier))
  {
  }

  // ---------------------------------------------------------------------
  // What the operations promise

  /**
   * `start` publishes the initial snapshot: distance 0 of the route's total,
   * standing on the first point, progress 0, speed 0, the whole distance
   * remaining, eta = total / avgSpeed * 60, no breaks, running and not
   * paused. Its tick then reads the clock again (`tickNow`), so the vehicle
   * has covered exactly avgSpeed * multiplier * (tickNow - now) / 3600000 km,
   * the time between the two readings. When no time passes between them, the
   * ticked snapshot still stands on the first point with nothing covered, the
   * next frame is requested, and exactly the two updates are published.
   */
  lemma StartSnapshot(dist: DistanceFn, e: EngineData, c: Config, now: real, tickNow: real, epoch: real, r: real)
    requires DataValid(dist, e) && StartAllowed(dist, e, c)
    ensures
      var s := InitialSnapshot(dist, c);
      var total := RouteLength(dist, c.route);
      && total > 0.0
      && s.isRunning && !s.isPaused && s.currentPosition == Some(c.route[0])
      && s.progress == 0.0 && s.currentSpeed == 0.0 && s.distanceRemaining == total
      && s.eta == total / c.vehicle.avgSpeed * 60.0
      && s.breaks == 0 && s.breakPoints == Some([]) && s.elapsedTime == 0.0
    ensures
      var s := InitialSnapshot(dist, c);
      var total := RouteLength(dist, c.route);
      var e' := StartStep(dist, e, c, now, tickNow, epoch, r);
      && |e'.events| > |e.events| && e'.events[..|e.events| + 1] == e.events + [Update(s)]
      && e'.config == Some(c) && e'.totalDistance == total
      && e'.coveredDistance == FrameDistance(c.vehicle.avgSpeed, Multiplier(c), tickNow - now)
      && e'.lastTimestamp == tickNow
    ensures
      var s := InitialSnapshot(dist, c);
      var total := RouteLength(dist, c.route);
      var e' := StartStep(dist, e, c, now, tickNow, epoch, r);
      tickNow == now && r >= 0.0 ==>
        && e'.coveredDistance == 0.0 && e'.state.isRunning && !e'.state.isPaused
        && e'.state.currentPosition == Some(c.route[0])
        && e'.state.progress == 0.0 && e'.state.distanceRemaining == total
        && e'.state.eta == total / c.vehicle.avgSpeed * 60.0
        && e'.state.breaks == 0 && e'.state.breakPoints == Some([])
        && !e'.isOnBreak && e'.frameRequested
        && e'.events == e.events + [Update(s), Update(e'.state)]
  {
    var e0 := Installed(dist, e, c, now);
    InstalledIsValid(dist, e, c, now);
    RouteLengthSign(dist, c.route);
    TickStepAppends(dist, e0, tickNow, epoch, r);
    assert e0.events == e.events + [Update(InitialSnapshot(dist, c))];
    if tickNow == now {
      assert Moved(e0, now) == 0.0;
      PositionAtStart(dist, c.route, Some(c.route[0]));
    }
  }

  /** A tick that runs ends where its first part left the distance, position and clock. */
  lemma TickKeepsAdvanced(dist: DistanceFn, e: EngineData, now: real, epoch: real, r: real)
    requires DataValid(dist, e) && Active(e)
    ensures
      var e' := TickStep(dist, e, now, epoch, r);
      var e1 := Advanced(dist, e, now);
      && e'.coveredDistance == e1.coveredDistance && e'.lastTimestamp == e1.lastTimestamp
      && e'.state.currentPosition == e1.state.currentPosition && e'.state.elapsedTime == e1.state.elapsedTime
      && e'.totalDistance == e.totalDistance && e'.config == e.config
  {
  }

  /**
   * A tick that runs moves the vehicle by exactly avgSpeed * multiplier *
   * deltaMs / 3600000 km, where the multiplier is the configured one or 1 when
   * it is undefined or 0; with a non-negative speed and multiplier and a clock
   * that does not run backwards, the covered distance never decreases.
   */
  lemma TickAdvancesDistance(dist: DistanceFn, e: EngineData, now: real, epoch: real, r: real)
    requires DataValid(dist, e) && Active(e)
    ensures
      var e' := TickStep(dist, e, now, epoch, r);
      var c := e.config.value;
      var m := Multiplier(c);
      && (c.speedMultiplier.None? || c.speedMultiplier == Some(0.0) ==> m == 1.0)
      && e'.coveredDistance == e.coveredDistance + c.vehicle.avgSpeed * m * (now - e.lastTimestamp) / 3600000.0
      && e'.state.elapsedTime == e.state.elapsedTime + (now - e.lastTimestamp) / 60000.0 * m
      && e'.lastTimestamp == now
      && (c.vehicle.avgSpeed >= 0.0 && m >= 0.0 && now >= e.lastTimestamp ==>
            e'.coveredDistance >= e.coveredDistance)
  {
    TickKeepsAdvanced(dist, e, now, epoch, r);
    var c := e.config.value;
    FrameDistanceSign(c.vehicle.avgSpeed, Multiplier(c), now - e.lastTimestamp);
  }

  /** The distance of a frame, regrouped; never negative for a non-negative
      speed, multiplier and elapsed time. */
  lemma FrameDistanceSign(avgSpeed: real, multiplier: real, deltaMs: real)
    ensures FrameDistance(avgSpeed, multiplier, deltaMs) == avgSpeed * multiplier * deltaMs / 3600000.0
    ensures avgSpeed >= 0.0 && multiplier >= 0.0 && deltaMs >= 0.0 ==> FrameDistance(avgSpeed, multiplier, deltaMs) >= 0.0
  {
    if avgSpeed >= 0.0 && multiplier >= 0.0 && deltaMs >= 0.0 {
      assert avgSpeed * multiplier >= 0.0;
      assert avgSpeed * multiplier * deltaMs >= 0.0;
    }
  }

  /** Settling (publishing, then completing or requesting the next frame)
      keeps the snapshot in agreement with the three formulas: at completion
      100, 0 and 0 are exactly their values for a covered distance past the total. */
  lemma SettledAgrees(dist: DistanceFn, e: EngineData)
    requires MidTick(dist, e)
    ensures Settled(e).config == e.config && Settled(e).totalDistance == e.totalDistance
    ensures Settled(e).coveredDistance == e.coveredDistance
    ensures SnapshotAgrees(Settled(e).state, e.coveredDistance, e.totalDistance, e.config.value.vehicle.avgSpeed)
  {
    if e.coveredDistance >= e.totalDistance {
      assert e.coveredDistance / e.totalDistance >= 1.0;
    }
  }

  /**
   * After every tick that runs, progress = min(100, 100 * covered / total),
   * distanceRemaining = max(0, total - covered) and eta = distanceRemaining /
   * avgSpeed * 60; the same holds after completion, where these are 100, 0 and 0.
   */
  lemma TickSnapshotFormulas(dist: DistanceFn, e: EngineData, now: real, epoch: real, r: real)
    requires DataValid(dist, e) && Active(e)
    ensures
      var e' := TickStep(dist, e, now, epoch, r);
      var total := e.totalDistance;
      var covered := e'.coveredDistance;
      var avgSpeed := e.config.value.vehicle.avgSpeed;
      && total > 0.0 && e'.totalDistance == total
      && e'.state.progress == Min(100.0, covered / total * 100.0)
      && e'.state.distanceRemaining == Max(0.0, total - covered)
      && e'.state.eta == e'.state.distanceRemaining / avgSpeed * 60.0
  {
    var e1 := Advanced(dist, e, now);
    AdvancedIsMidTick(dist, e, now);
    if r < BreakChance(e, now) {
      BreakStepKeepsMidTick(dist, e1, epoch);
      SettledAgrees(dist, BreakStep(e1, epoch));
    } else {
      SettledAgrees(dist, e1);
    }
  }

  /**
   * The position after a tick: inside the first segment whose cumulative end
   * reaches the new covered distance, at a fraction in [0, 1] when that
   * distance is non-negative; unchanged when the distance is past every
   * cumulative end.
   */
  lemma TickPosition(dist: DistanceFn, e: EngineData, now: real, epoch: real, r: real)
    requires DataValid(dist, e) && Active(e)
    ensures
      var e' := TickStep(dist, e, now, epoch, r);
      var route := e.config.value.route;
      var covered := e'.coveredDistance;
      && (Locate(dist, route, covered, 1).None? ==> e'.state.currentPosition == e.state.currentPosition)
      && (Locate(dist, route, covered, 1).Some? && covered >= 0.0 ==>
            var k := Locate(dist, route, covered, 1).value;
            && 0.0 <= SegmentFraction(dist, route, covered, k) <= 1.0
            && e'.state.currentPosition ==
                 Some(Interpolate(route[k - 1], route[k], SegmentFraction(dist, route, covered, k))))
  {
    TickKeepsAdvanced(dist, e, now, epoch, r);
    var covered := e.coveredDistance + Moved(e, now);
    if covered >= 0.0 {
      PositionAfterOnSegment(dist, e.config.value.route, covered, e.state.currentPosition);
    }
  }

  /**
   * A tick whose random draw falls under the break chance counts exactly one
   * more break, records exactly one break point (the new position, the
   * profile's break duration, the wall-clock time), notifies onBreak, goes on
   * break and schedules the resumption min(duration * 60000 / multiplier, 3000)
   * ms later; any other tick leaves the breaks as they were.
   */
  lemma TickBreak(dist: DistanceFn, e: EngineData, now: real, epoch: real, r: real)
    requires DataValid(dist, e) && Active(e)
    ensures
      var e' := TickStep(dist, e, now, epoch, r);
      var c := e.config.value;
      var bps := e.state.breakPoints.value;
      && e.state.breakPoints.Some? && e'.state.breakPoints.Some?
      && (r < BreakChance(e, now) ==>
            && e'.state.breaks == e.state.breaks + 1
            && e'.state.breakPoints.value ==
                 bps + [BreakPoint(Advanced(dist, e, now).state.currentPosition.value, c.vehicle.breakDuration, epoch)]
            && e'.isOnBreak
            && e'.breakTimer == Some(Min(c.vehicle.breakDuration * 60000.0 / Multiplier(c), 3000.0))
            && |e'.events| >= |e.events| + 2
            && e'.events[|e.events|] == BreakStarted(c.vehicle.breakDuration)
            && e'.events[|e.events| + 1].Update?
            && e'.events[|e.events| + 1].snapshot.breaks == e.state.breaks + 1)
      && (r >= BreakChance(e, now) ==>
            && e'.state.breaks == e.state.breaks && e'.state.breakPoints == e.state.breakPoints
            && !e'.isOnBreak && e'.breakTimer == e.breakTimer
            && |e'.events| >= |e.events|
            && forall i :: |e.events| <= i < |e'.events| ==> !e'.events[i].BreakStarted?)
  {
    AdvancedIsMidTick(dist, e, now);
    var e1 := Advanced(dist, e, now);
    var e' := TickStep(dist, e, now, epoch, r);
    assert e1.events == e.events;
    if r < BreakChance(e, now) {
      var e2 := BreakStep(e1, epoch);
      var c := e.config.value;
      assert e2.events == e.events + [BreakStarted(c.vehicle.breakDuration), Update(e2.state)];
      assert e2.events <= e'.events;
      assert e'.events[|e.events|] == e2.events[|e.events|];
      assert e'.events[|e.events| + 1] == e2.events[|e.events| + 1];
    } else {
      assert e'.events == Settled(e1).events;
      assert forall i :: |e.events| <= i < |e'.events| ==> e'.events[i].Update? || e'.events[i].Completed?;
    }
  }

  /** `triggerBreak` does nothing when there is no current position. */
  lemma BreakNeedsPosition(e: EngineData, epoch: real)
    requires e.state.currentPosition.None?
    ensures BreakStep(e, epoch) == e
  {
  }

  /**
   * Completion: a tick that brings the covered distance to the total stops
   * the run with progress 100, nothing remaining, speed 0 and eta 0, requests
   * no further frame and ends with onUpdate then onComplete; a tick short of
   * the total keeps running and requests the next frame.
   */
  lemma TickCompletion(dist: DistanceFn, e: EngineData, now: real, epoch: real, r: real)
    requires DataValid(dist, e) && Active(e)
    ensures
      var e' := TickStep(dist, e, now, epoch, r);
      && (e'.coveredDistance >= e.totalDistance ==>
            && !e'.state.isRunning && e'.state.progress == 100.0 && e'.state.distanceRemaining == 0.0
            && e'.state.currentSpeed == 0.0 && e'.state.eta == 0.0
            && e'.frameRequested == e.frameRequested
            && |e'.events| >= 2 && e'.events[|e'.events| - 2].Update? && e'.events[|e'.events| - 1] == Completed)
      && (e'.coveredDistance < e.totalDistance ==>
            e'.state.isRunning && e'.frameRequested && Completed !in e'.events[|e.events|..])
  {
    var e1 := Advanced(dist, e, now);
    var e2 := if r < BreakChance(e, now) then BreakStep(e1, epoch) else e1;
    var e' := TickStep(dist, e, now, epoch, r);
    if e2.coveredDistance < e2.totalDistance {
      assert e'.events[|e.events|..] == e2.events[|e.events|..] + [Update(e2.state)];
    }
  }

  /** The tick that reaches the total notifies onComplete once and ends the
      run, so every later tick leaves the engine as it is. */
  lemma CompletionEndsRun(dist: DistanceFn, e: EngineData, now: real, epoch: real, r: real,
                          later: real, laterEpoch: real, laterR: real)
    requires DataValid(dist, e) && Active(e)
    requires TickStep(dist, e, now, epoch, r).coveredDistance >= e.totalDistance
    ensures
      var e' := TickStep(dist, e, now, epoch, r);
      && DataValid(dist, e') && !e'.state.isRunning
      && e'.events[|e'.events| - 1] == Completed
      && TickStep(dist, e', later, laterEpoch, laterR) == e'
  {
    TickCompletion(dist, e, now, epoch, r);
    TickStepKeepsValid(dist, e, now, epoch, r);
  }

  /** While paused, not running, or on break, a tick changes nothing. */
  lemma InactiveTickChangesNothing(dist: DistanceFn, e: EngineData, now: real, epoch: real, r: real)
    requires DataValid(dist, e)
    requires e.state.isPaused || !e.state.isRunning || e.isOnBreak
    ensures TickStep(dist, e, now, epoch, r) == e
  {
  }

  /** `pause` sets the paused flag, cancels the pending frame and leaves the
      covered distance, position and progress alone. */
  lemma PauseKeepsProgress(e: EngineData)
    ensures
      var e' := PauseStep(e);
      && e'.state.isPaused && !e'.frameRequested
      && e'.coveredDistance == e.coveredDistance && e'.lastTimestamp == e.lastTimestamp
      && e'.state.currentPosition == e.state.currentPosition && e'.state.progress == e.state.progress
  {
  }

  /** `resume` is a no-op unless paused; otherwise it clears the flag and
      re-anchors the clock at `now`, so the tick that follows measures from
      `now` and not from the moment of the pause. */
  lemma ResumeOnlyFromPause(dist: DistanceFn, e: EngineData, now: real, tickNow: real, epoch: real, r: real)
    requires DataValid(dist, e)
    ensures !e.state.isPaused ==> ResumeStep(dist, e, now, tickNow, epoch, r) == e
    ensures e.state.isPaused ==>
      var u := e.(state := e.state.(isPaused := false), lastTimestamp := now);
      var e' := ResumeStep(dist, e, now, tickNow, epoch, r);
      && !e'.state.isPaused
      && (Active(u) ==> e'.lastTimestamp == tickNow)
      && (!Active(u) ==> e'.lastTimestamp == now)
  {
  }

  /** Pausing and then resuming, however much later, does not count the
      paused time: the tick that resumes moves the vehicle only by the time
      between resume's own clock reading `now` and the tick's reading
      `tickNow`, whatever the timestamp of the last frame before the pause.
      When the two readings coincide, the covered distance, position and
      progress are exactly where they were. */
  lemma PauseThenResumeNoDrift(dist: DistanceFn, e: EngineData, now: real, tickNow: real, epoch: real, r: real)
    requires DataValid(dist, e)
    ensures
      var e' := ResumeStep(dist, PauseStep(e), now, tickNow, epoch, r);
      && (e.config.Some? && e.state.isRunning && !e.isOnBreak ==>
            var c := e.config.value;
            e'.coveredDistance == e.coveredDistance + FrameDistance(c.vehicle.avgSpeed, Multiplier(c), tickNow - now))
      && (e.config.None? || !e.state.isRunning || e.isOnBreak ==>
            e'.coveredDistance == e.coveredDistance && e'.state.currentPosition == e.state.currentPosition &&
            e'.state.progress == e.state.progress)
    ensures
      var e' := ResumeStep(dist, PauseStep(e), now, tickNow, epoch, r);
      tickNow == now ==>
        && e'.coveredDistance == e.coveredDistance
        && e'.state.currentPosition == e.state.currentPosition
        && e'.state.progress == e.state.progress
  {
    var p := PauseStep(e);
    var u := p.(state := p.state.(isPaused := false), lastTimestamp := now);
    if Active(u) && tickNow == now {
      var c := u.config.value;
      assert Moved(u, now) == 0.0;
      PositionAfterWithinRoute(dist, c.route, e.coveredDistance, e.state.currentPosition, None);
    }
  }

  /** `stop` returns to the idle snapshot, cancels both pending callbacks
      and publishes the idle snapshot; it never calls onComplete. */
  lemma StopResets(e: EngineData)
    ensures
      var e' := StopStep(e);
      && e'.state == DefaultSimulationState && IsIdle(e'.state)
      && !e'.frameRequested && e'.breakTimer.None?
      && e'.events[..|e.events|] == e.events
      && Completed !in e'.events[|e.events|..]
  {
    DefaultSimulationStateIsIdle();
  }

  /** `setSpeedMultiplier` stores the value as given (negative values too)
      and changes nothing else; without a configuration it does nothing. */
  lemma SpeedStepStores(e: EngineData, multiplier: real)
    ensures e.config.Some? ==>
      var e' := SpeedStep(e, multiplier);
      e'.config.Some? && Multiplier(e'.config.value) == (if multiplier == 0.0 then 1.0 else multiplier) &&
      e'.config.value.route == e.config.value.route && e'.state == e.state &&
      e'.coveredDistance == e.coveredDistance
    ensures e.config.None? ==> SpeedStep(e, multiplier) == e
  {
  }

  /** Callbacks, once made, stay made: every step only appends to the log. */
  lemma TickStepAppends(dist: DistanceFn, e: EngineData, now: real, epoch: real, r: real)
    requires DataValid(dist, e)
    ensures e.events <= TickStep(dist, e, now, epoch, r).events
  {
    if Active(e) {
      AdvancedIsMidTick(dist, e, now);
    }
  }

  lemma StartStepAppends(dist: DistanceFn, e: EngineData, c: Config, now: real, tickNow: real, epoch: real, r: real)
    requires DataValid(dist, e) && StartAllowed(dist, e, c)
    ensures e.events <= StartStep(dist, e, c, now, tickNow, epoch, r).events
  {
    InstalledIsValid(dist, e, c, now);
    TickStepAppends(dist, Installed(dist, e, c, now), tickNow, epoch, r);
  }

  lemma ResumeStepAppends(dist: DistanceFn, e: EngineData, now: real, tickNow: real, epoch: real, r: real)
    requires DataValid(dist, e)
    ensures e.events <= ResumeStep(dist, e, now, tickNow, epoch, r).events
  {
    if e.state.isPaused {
      TickStepAppends(dist, e.(state := e.state.(isPaused := false), lastTimestamp := now), tickNow, epoch, r);
    }
  }

  // ---------------------------------------------------------------------
  // The engine object

  /** `SimulationEngine`: the fields above, updated in place. `dist` is the
      distance function the engine measures the route with. */
  class Engine {
    const dist: DistanceFn
    var config: Option<Config>
    var state: SimulationState
    var lastTimestamp: real
    var totalDistance: real
    var coveredDistance: real
    var isOnBreak: bool
    var frameRequested: bool
    var breakTimer: Option<real>
    var events: seq<Event>

    function Data(): EngineData
      reads this
    {
      EngineData(config, state, lastTimestamp, totalDistance, coveredDistance,
                 isOnBreak, frameRequested, breakTimer, events)
    }

    ghost predicate Valid()
      reads this
    {
      DataValid(dist, Data())
    }

    constructor(dist: DistanceFn)
      requires IsDistance(dist)
      ensures this.dist == dist && Valid() && Data() == Initial
    {
      this.dist := dist;
      config := None;
      state := DefaultSimulationState;
      lastTimestamp := 0.0;
      totalDistance := 0.0;
      coveredDistance := 0.0;
      isOnBreak := false;
      frameRequested := false;
      breakTimer := None;
      events := [];
    }

    /** `start`: install the configuration and the initial snapshot, publish
        it, then run the first tick. */
    method Start(c: Config, now: real, tickNow: real, epoch: real, r: real)
      requires Valid() && StartAllowed(dist, Data(), c)
      modifies this
      ensures Valid() && Data() == StartStep(dist, old(Data()), c, now, tickNow, epoch, r)
    {
      ghost var e0 := Data();
      InstalledIsValid(dist, e0, c, now);
      config := Some(c);
      coveredDistance := 0.0;
      totalDistance := CalculateTotalDistance(dist, c.route);
      lastTimestamp := now;
      isOnBreak := false;
      state := SimulationState(
        isRunning := true, isPaused := false, currentPosition := Some(c.route[0]),
        progress := 0.0, currentSpeed := 0.0, eta := totalDistance / c.vehicle.avgSpeed * 60.0,
        distanceRemaining := totalDistance, elapsedTime := 0.0, breaks := 0, breakPoints := Some([]));
      events := events + [Update(state)];
      assert Data() == Installed(dist, e0, c, now);
      Animate(tickNow, epoch, r);
    }

    /** `animate`: one frame of the loop. */
    method Animate(now: real, epoch: real, r: real)
      requires Valid()
      modifies this
      ensures Valid() && Data() == TickStep(dist, old(Data()), now, epoch, r)
    {
      if config.None? || !state.isRunning || state.isPaused || isOnBreak {
        return;
      }
      ghost var e0 := Data();
      var chance := BreakChance(Data(), now);
      Advance(now);
      AdvancedIsMidTick(dist, e0, now);
      ghost var e1 := Data();
      if r < chance {
        TriggerBreak(epoch);
        BreakStepKeepsMidTick(dist, e1, epoch);
      }
      ghost var e2 := Data();
      Settle();
      SettledIsValid(dist, e2);
    }

    /** The first half of a frame: move by the elapsed time, find the segment
        and interpolate, then recompute progress, distance remaining, speed and eta. */
    method Advance(now: real)
      requires Valid() && Active(Data())
      modifies this
      ensures Data() == Advanced(dist, old(Data()), now)
    {
      ghost var e0 := Data();
      var c := config.value;
      var deltaMs := now - lastTimestamp;
      var speedMultiplier := Multiplier(c);
      var distanceThisFrame := c.vehicle.avgSpeed * speedMultiplier / 3600000.0 * deltaMs;
      var covered := coveredDistance + distanceThisFrame;
      assert covered == e0.coveredDistance + Moved(e0, now);
      var pos := PositionOnRoute(dist, c.route, covered, state.currentPosition);
      var remaining := Max(0.0, totalDistance - covered);
      var s := state.(
        elapsedTime := state.elapsedTime + deltaMs / 60000.0 * speedMultiplier,
        currentPosition := pos,
        progress := Min(100.0, covered / totalDistance * 100.0),
        distanceRemaining := remaining,
        currentSpeed := c.vehicle.avgSpeed * speedMultiplier,
        eta := remaining / c.vehicle.avgSpeed * 60.0);
      AdvancedFrom(dist, e0, now, s);
      lastTimestamp, coveredDistance, state := now, covered, s;
    }

    /** The second half of a frame: publish, then complete or request the next frame. */
    method Settle()
      modifies this
      ensures Data() == Settled(old(Data()))
    {
      events := events + [Update(state)];
      if coveredDistance >= totalDistance {
        Complete();
        return;
      }
      frameRequested := true;
    }

    /** `triggerBreak`: count and record a break, notify, go on break and
        schedule the resumption. */
    method TriggerBreak(epoch: real)
      requires config.Some? && state.currentPosition.Some? ==> state.breakPoints.Some?
      modifies this
      ensures Data() == BreakStep(old(Data()), epoch)
    {
      if config.None? || state.currentPosition.None? {
        return;
      }
      isOnBreak := true;
      state := state.(breaks := state.breaks + 1);
      var breakDuration := config.value.vehicle.breakDuration;
      var breakDurationMs := breakDuration * 60000.0 / Multiplier(config.value);
      state := state.(breakPoints := Some(state.breakPoints.value +
                                          [BreakPoint(state.currentPosition.value, breakDuration, epoch)]));
      events := events + [BreakStarted(breakDuration), Update(state)];
      breakTimer := Some(Min(breakDurationMs, 3000.0));
    }

    /** `complete`: the final snapshot, then onUpdate and onComplete. */
    method Complete()
      modifies this
      ensures Data() == CompleteStep(old(Data()))
    {
      state := state.(isRunning := false);
      state := state.(progress := 100.0);
      state := state.(distanceRemaining := 0.0);
      state := state.(currentSpeed := 0.0);
      state := state.(eta := 0.0);
      if config.Some? {
        events := events + [Update(state), Completed];
      }
    }

    method Pause()
      requires Valid()
      modifies this
      ensures Valid() && Data() == PauseStep(old(Data()))
    {
      OtherStepsKeepValid(dist, Data(), 0.0);
      state := state.(isPaused := true);
      frameRequested := false;
      if config.Some? {
        events := events + [Update(state)];
      }
    }

    method Resume(now: real, tickNow: real, epoch: real, r: real)
      requires Valid()
      modifies this
      ensures Valid() && Data() == ResumeStep(dist, old(Data()), now, tickNow, epoch, r)
    {
      if !state.isPaused {
        return;
      }
      state := state.(isPaused := false);
      lastTimestamp := now;
      Animate(tickNow, epoch, r);
      if config.Some? {
        events := events + [Update(state)];
      }
    }

    method Stop()
      requires Valid()
      modifies this
      ensures Valid() && Data() == StopStep(old(Data()))
    {
      OtherStepsKeepValid(dist, Data(), 0.0);
      state := DefaultSimulationState;
      frameRequested := false;
      breakTimer := None;
      if config.Some? {
        events := events + [Update(state)];
      }
    }

    method SetSpeedMultiplier(multiplier: real)
      requires Valid()
      modifies this
      ensures Valid() && Data() == SpeedStep(old(Data()), multiplier)
    {
      OtherStepsKeepValid(dist, Data(), multiplier);
      if config.Some? {
        config := Some(config.value.(speedMultiplier := Some(multiplier)));
      }
    }

    /** `getState`: a copy of the snapshot. While running, the vehicle has
        not arrived: progress is below 100 and some distance remains. */
    method GetState() returns (s: SimulationState)
      requires Valid()
      ensures s == state
      ensures s.isRunning ==> s.progress < 100.0 && s.distanceRemaining > 0.0
      ensures s.breakPoints.Some? ==> s.breaks == |s.breakPoints.value|
    {
      s := state;
      if s.isRunning {
        assert coveredDistance / totalDistance < 1.0;
      }
    }

    /** The animation frame requested by the last tick fires. */
    method Frame(now: real, epoch: real, r: real)
      requires Valid()
      modifies this
      ensures Valid() && Data() == FrameStep(dist, old(Data()), now, epoch, r)
    {
      frameRequested := false;
      Animate(now, epoch, r);
    }

    /** The break-resumption timer fires: off break, clock re-anchored, tick. */
    method BreakTimerFires(now: real, tickNow: real, epoch: real, r: real)
      requires Valid()
      modifies this
      ensures Valid() && Data() == TimerStep(dist, old(Data()), now, tickNow, epoch, r)
    {
      isOnBreak := false;
      breakTimer := None;
      lastTimestamp := now;
      Animate(tickNow, epoch, r);
    }
  }
}
