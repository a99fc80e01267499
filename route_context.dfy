/**
 * The route context of the head unit
 * (ui/react-headunit/src/context/RouteContext.tsx): the navigation state the
 * screens share, its `setState(prev => next)` updaters, the projection that is
 * persisted across reloads, and the provider that drives the simulation engine.
 *
 * React's state queue is modelled as applying each updater in turn; the
 * engine's callbacks are the event log of `SimulationEngine.Engine`, which the
 * provider folds into its state.
 */
module RouteContext {
  import opened Wrappers
  import opened Geo
  import opened Vehicle
  import VehicleFactory
  import opened SimulationEngine

  datatype RouteNode = RouteNode(id: string, name: string, lat: real, lon: real)

  /** An alternative route: its geometry, length (km) and duration (minutes). */
  datatype AlternativeRoute = AlternativeRoute(geometry: seq<Coord>, distance: real, duration: real)

  datatype RouteState = RouteState(
    startId: string,
    endId: string,
    routeNodes: seq<RouteNode>,
    roadGeometry: Option<seq<Coord>>,
    alternativeRoutes: seq<AlternativeRoute>,
    selectedRouteIndex: int,
    isNavigating: bool,
    vehicle: Vehicle,
    simulation: SimulationState)

  /** `VehicleFactory.create('car')`. */
  const DefaultVehicle: Vehicle := VehicleFactory.Template(Car)

  lemma DefaultVehicleIsCreatedCar()
    ensures VehicleFactory.Create("car") == Success(DefaultVehicle)
    ensures DefaultVehicle.vtype == Car && PlausibleProfile(DefaultVehicle)
  {
    assert TypeTag(Car) == "car";
  }

  const DefaultState: RouteState :=
    RouteState("", "", [], None, [], 0, false, DefaultVehicle, DefaultSimulationState)

  // ---------------------------------------------------------------------
  // Updaters

  /** The selected index names the main route (0) or one of the alternatives. */
  predicate SelectionValid(s: RouteState)
  {
    s.selectedRouteIndex == 0 || 1 <= s.selectedRouteIndex <= |s.alternativeRoutes|
  }

  /** `selectRoute(index)`: 0 selects the main route and keeps the geometry; an
      index i > 0 with an alternative at i - 1 selects it and shows its
      geometry; any other index leaves the state as it was. */
  function SelectRouteUpdate(prev: RouteState, index: int): (next: RouteState)
    ensures next.alternativeRoutes == prev.alternativeRoutes
    ensures next == prev.(selectedRouteIndex := next.selectedRouteIndex, roadGeometry := next.roadGeometry)
    ensures index == 0 ==> next.selectedRouteIndex == 0 && next.roadGeometry == prev.roadGeometry
    ensures 1 <= index <= |prev.alternativeRoutes| ==>
      next.selectedRouteIndex == index && next.roadGeometry == Some(prev.alternativeRoutes[index - 1].geometry)
    ensures index != 0 && !(1 <= index <= |prev.alternativeRoutes|) ==> next == prev
  {
    if index == 0 then prev.(selectedRouteIndex := 0)
    else if 1 <= index <= |prev.alternativeRoutes| then
      prev.(selectedRouteIndex := index, roadGeometry := Some(prev.alternativeRoutes[index - 1].geometry))
    else prev
  }

  /** Selecting never makes the selected index point past the alternatives,
      and selecting the same route twice is the same as selecting it once. */
  lemma SelectRouteKeepsSelectionValid(s: RouteState, index: int)
    requires SelectionValid(s)
    ensures SelectionValid(SelectRouteUpdate(s, index))
    ensures SelectRouteUpdate(SelectRouteUpdate(s, index), index) == SelectRouteUpdate(s, index)
  {
  }

  /** After selecting alternative i, the index and the geometry on display
      agree with that alternative. */
  lemma SelectedGeometryMatches(s: RouteState, index: int)
    requires 1 <= index
    ensures var next := SelectRouteUpdate(s, index);
      next.selectedRouteIndex == index <==>
        (index <= |s.alternativeRoutes| || s.selectedRouteIndex == index)
    ensures var next := SelectRouteUpdate(s, index);
      index <= |s.alternativeRoutes| ==>
        next.roadGeometry.Some? && next.roadGeometry.value == next.alternativeRoutes[next.selectedRouteIndex - 1].geometry
  {
  }

  /** `clearNavigation`'s updater: the route, its alternatives, the selection,
      the navigation flag and the simulation are reset; the endpoints and the
      vehicle are kept. */
  function ClearNavigationUpdate(prev: RouteState): (next: RouteState)
    ensures next.startId == prev.startId && next.endId == prev.endId && next.vehicle == prev.vehicle
    ensures next == DefaultState.(startId := prev.startId, endId := prev.endId, vehicle := prev.vehicle)
  {
    prev.(routeNodes := [], roadGeometry := None, alternativeRoutes := [], selectedRouteIndex := 0,
          isNavigating := false, simulation := DefaultSimulationState)
  }

  /** Clearing is idempotent and leaves a valid, idle selection. */
  lemma ClearNavigationIdempotent(s: RouteState)
    ensures ClearNavigationUpdate(ClearNavigationUpdate(s)) == ClearNavigationUpdate(s)
    ensures SelectionValid(ClearNavigationUpdate(s)) && IsIdle(ClearNavigationUpdate(s).simulation)
  {
    DefaultSimulationStateIsIdle();
  }

  /** `stopSimulation`'s updater: only the snapshot changes, back to the idle one. */
  function StopSimulationUpdate(prev: RouteState): (next: RouteState)
    ensures IsIdle(next.simulation)
    ensures next.(simulation := prev.simulation) == prev
  {
    DefaultSimulationStateIsIdle();
    prev.(simulation := DefaultSimulationState)
  }

  /** The `onUpdate` callback's updater: the snapshot the engine published. */
  function OnUpdate(prev: RouteState, snapshot: SimulationState): (next: RouteState)
    ensures next.simulation == snapshot && next.(simulation := prev.simulation) == prev
  {
    prev.(simulation := snapshot)
  }

  /** The `onComplete` callback's updater: only `simulation.isRunning` changes, to false. */
  function OnComplete(prev: RouteState): (next: RouteState)
    ensures !next.simulation.isRunning
    ensures next.simulation.(isRunning := prev.simulation.isRunning) == prev.simulation
    ensures next.(simulation := prev.simulation) == prev
  {
    prev.(simulation := prev.simulation.(isRunning := false))
  }

  /** One engine callback reaching the context (onBreak only logs). */
  function ApplyEvent(s: RouteState, event: Event): RouteState
  {
    match event
    case Update(snapshot) => OnUpdate(s, snapshot)
    case BreakStarted(_) => s
    case Completed => OnComplete(s)
  }

  /** The engine's callbacks applied in order. */
  function ApplyEvents(s: RouteState, events: seq<Event>): RouteState
    decreases |events|
  {
    if |events| == 0 then s else ApplyEvents(ApplyEvent(s, events[0]), events[1..])
  }

  /** Delivering two batches of callbacks is delivering them as one. */
  lemma {:induction false} ApplyEventsAppend(s: RouteState, a: seq<Event>, b: seq<Event>)
    ensures ApplyEvents(s, a + b) == ApplyEvents(ApplyEvents(s, a), b)
    decreases |a|
  {
    if |a| == 0 {
      assert a + b == b;
    } else {
      assert (a + b)[0] == a[0];
      assert (a + b)[1..] == a[1..] + b;
      ApplyEventsAppend(ApplyEvent(s, a[0]), a[1..], b);
    }
  }

  /** The callbacks only ever touch the snapshot. */
  lemma {:induction false} ApplyEventsOnlySimulation(s: RouteState, events: seq<Event>)
    ensures ApplyEvents(s, events).(simulation := s.simulation) == s
    decreases |events|
  {
    if |events| > 0 {
      ApplyEventsOnlySimulation(ApplyEvent(s, events[0]), events[1..]);
    }
  }

  /** A run that completes publishes its final, already stopped snapshot and
      then onComplete; the context then shows exactly that snapshot. */
  lemma CompletionShowsFinalSnapshot(s: RouteState, final: SimulationState)
    requires !final.isRunning
    ensures ApplyEvents(s, [Update(final), Completed]) == s.(simulation := final)
  {
    var events := [Update(final), Completed];
    assert events[1..] == [Completed];
    assert [Completed][1..] == [];
    calc {
      ApplyEvents(s, events);
      ApplyEvents(OnUpdate(s, final), [Completed]);
      ApplyEvents(OnComplete(OnUpdate(s, final)), []);
    }
  }

  // ---------------------------------------------------------------------
  // Persistence

  /** The record `saveState` stores. */
  datatype SavedState = SavedState(startId: string, endId: string, vehicle: Vehicle, isNavigating: bool)

  /** What `loadState` finds under the storage key: nothing (no entry or an
      empty string), something that does not parse as an object, or an object
      whose four fields may each be missing. */
  datatype Stored =
    | NothingSaved
    | Unparseable
    | Parsed(startId: Option<string>, endId: Option<string>, vehicle: Option<Vehicle>, isNavigating: Option<bool>)

  /** `saveState`: exactly the endpoints, the vehicle and the navigation flag. */
  function SaveState(s: RouteState): (saved: SavedState)
    ensures saved.startId == s.startId && saved.endId == s.endId
    ensures saved.vehicle == s.vehicle && saved.isNavigating == s.isNavigating
  {
    SavedState(s.startId, s.endId, s.vehicle, s.isNavigating)
  }

  /** The stored entry after `saveState` (the JSON text is not modelled). */
  function Persist(saved: SavedState): Stored
  {
    Parsed(Some(saved.startId), Some(saved.endId), Some(saved.vehicle), Some(saved.isNavigating))
  }

  /** `x || ''` on a string field. */
  function OrEmpty(o: Option<string>): string
  {
    if o.Some? then o.value else ""
  }

  /** `loadState`: the default state with the four persisted fields restored,
      each falling back to its default when missing; the default state when
      nothing is saved or the entry does not parse. */
  function LoadState(stored: Stored): (s: RouteState)
    ensures !stored.Parsed? ==> s == DefaultState
    ensures s.roadGeometry.None? && s.alternativeRoutes == [] && s.routeNodes == []
    ensures s.selectedRouteIndex == 0 && s.simulation == DefaultSimulationState
    ensures stored.Parsed? ==>
      && s.startId == (if stored.startId.Some? then stored.startId.value else "")
      && s.endId == (if stored.endId.Some? then stored.endId.value else "")
      && s.vehicle == (if stored.vehicle.Some? then stored.vehicle.value else DefaultVehicle)
      && s.isNavigating == (stored.isNavigating == Some(true))
  {
    match stored
    case Parsed(startId, endId, vehicle, isNavigating) =>
      DefaultState.(startId := OrEmpty(startId), endId := OrEmpty(endId),
                    vehicle := if vehicle.Some? then vehicle.value else DefaultVehicle,
                    isNavigating := isNavigating.Some? && isNavigating.value,
                    roadGeometry := None, alternativeRoutes := [], simulation := DefaultSimulationState)
    case _ => DefaultState
  }

  /** Save then load restores the four persisted fields and resets the rest
      to the defaults; saving what was loaded gives back what was saved. */
  lemma SaveLoadRoundTrip(s: RouteState)
    ensures LoadState(Persist(SaveState(s))) ==
      DefaultState.(startId := s.startId, endId := s.endId, vehicle := s.vehicle, isNavigating := s.isNavigating)
    ensures SaveState(LoadState(Persist(SaveState(s)))) == SaveState(s)
  {
  }

  /** Nothing the screens change besides the four persisted fields survives a
      reload: two states that agree on them load back the same. */
  lemma LoadDependsOnlyOnSaved(s: RouteState, t: RouteState)
    requires SaveState(s) == SaveState(t)
    ensures LoadState(Persist(SaveState(s))) == LoadState(Persist(SaveState(t)))
  {
  }

  // ---------------------------------------------------------------------
  // Starting the simulation

  /** `startSimulation`'s guard and configuration: nothing without a geometry
      of at least two points; otherwise that geometry, the chosen vehicle and
      a 50x speed-up. */
  function SimulationConfig(s: RouteState): (c: Option<Config>)
    ensures c.None? <==> s.roadGeometry.None? || |s.roadGeometry.value| < 2
    ensures c.Some? ==>
      c.value.route == s.roadGeometry.value && c.value.vehicle == s.vehicle &&
      Multiplier(c.value) == 50.0 && |c.value.route| >= 2
  {
    match s.roadGeometry
    case None => None
    case Some(route) =>
      if |route| < 2 then None else Some(Config(route, s.vehicle, Some(50.0)))
  }

  /** The provider: the context state and the engine it owns. */
  class Provider {
    var state: RouteState
    const engine: Engine

    ghost predicate Valid()
      reads this, engine
    {
      engine.Valid()
    }

    constructor(dist: DistanceFn, stored: Stored)
      requires IsDistance(dist)
      ensures Valid() && fresh(engine) && engine.Data() == Initial && engine.dist == dist
      ensures state == LoadState(stored)
    {
      state := LoadState(stored);
      engine := new Engine(dist);
    }

    /** The engine's callbacks since `mark` reach the context state. */
    method Deliver(mark: nat)
      requires mark <= |engine.events|
      modifies this
      ensures state == ApplyEvents(old(state), engine.events[mark..])
    {
      state := ApplyEvents(state, engine.events[mark..]);
    }

    /** `startSimulation`. The engine must be able to take the route: its
        segments have positive length and the vehicle a non-zero speed, and no
        earlier run still has a frame or a break timer pending. */
    method StartSimulation(now: real, tickNow: real, epoch: real, r: real)
      requires Valid()
      requires SimulationConfig(state).Some? ==> StartAllowed(engine.dist, engine.Data(), SimulationConfig(state).value)
      modifies this, engine
      ensures Valid()
      ensures SimulationConfig(old(state)).None? ==> state == old(state) && engine.Data() == old(engine.Data())
      ensures SimulationConfig(old(state)).Some? ==>
        && engine.Data() == StartStep(engine.dist, old(engine.Data()), SimulationConfig(old(state)).value, now, tickNow, epoch, r)
        && |old(engine.events)| <= |engine.events|
        && state == ApplyEvents(old(state), engine.events[|old(engine.events)|..])
    {
      var config := SimulationConfig(state);
      if config.None? {
        return;
      }
      var mark := |engine.events|;
      engine.Start(config.value, now, tickNow, epoch, r);
      StartStepAppends(engine.dist, old(engine.Data()), config.value, now, tickNow, epoch, r);
      Deliver(mark);
    }

    method PauseSimulation()
      requires Valid()
      modifies this, engine
      ensures Valid() && engine.Data() == PauseStep(old(engine.Data()))
      ensures |old(engine.events)| <= |engine.events|
      ensures state == ApplyEvents(old(state), engine.events[|old(engine.events)|..])
    {
      var mark := |engine.events|;
      engine.Pause();
      Deliver(mark);
    }

    method ResumeSimulation(now: real, tickNow: real, epoch: real, r: real)
      requires Valid()
      modifies this, engine
      ensures Valid() && engine.Data() == ResumeStep(engine.dist, old(engine.Data()), now, tickNow, epoch, r)
      ensures |old(engine.events)| <= |engine.events|
      ensures state == ApplyEvents(old(state), engine.events[|old(engine.events)|..])
    {
      var mark := |engine.events|;
      engine.Resume(now, tickNow, epoch, r);
      ResumeStepAppends(engine.dist, old(engine.Data()), now, tickNow, epoch, r);
      Deliver(mark);
    }

    /** `stopSimulation`: stop the engine (its idle snapshot reaches the
        context through onUpdate), then reset the snapshot. */
    method StopSimulation()
      requires Valid()
      modifies this, engine
      ensures Valid() && engine.Data() == StopStep(old(engine.Data()))
      ensures state == StopSimulationUpdate(old(state))
    {
      var mark := |engine.events|;
      engine.Stop();
      Deliver(mark);
      ApplyEventsOnlySimulation(old(state), engine.events[mark..]);
      state := StopSimulationUpdate(state);
    }

    method SetSpeedMultiplier(speed: real)
      requires Valid()
      modifies engine
      ensures Valid() && engine.Data() == SpeedStep(old(engine.Data()), speed)
    {
      engine.SetSpeedMultiplier(speed);
    }

    method SelectRoute(index: int)
      modifies this
      ensures state == SelectRouteUpdate(old(state), index)
    {
      state := SelectRouteUpdate(state, index);
    }

    /** `clearNavigation`: stop the engine, then reset the navigation state. */
    method ClearNavigation()
      requires Valid()
      modifies this, engine
      ensures Valid() && engine.Data() == StopStep(old(engine.Data()))
      ensures state == ClearNavigationUpdate(old(state))
    {
      var mark := |engine.events|;
      engine.Stop();
      Deliver(mark);
      ApplyEventsOnlySimulation(old(state), engine.events[mark..]);
      state := ClearNavigationUpdate(state);
    }
  }
}
