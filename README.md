# NaviFly core, modelled in Dafny

NaviFly is a navigation demo with two parts:

- **A head-unit web client.** It animates a vehicle along a route with a
  simulation engine. Vehicle profiles come from a small factory. A React
  context holds the navigation state, persists part of it and drives the
  engine.
- **A Go routing service.** It builds a seed graph of Arizona cities, runs
  A* over it, and answers route requests. One answer also carries an
  interpolated road geometry, 20 points per leg.

This project models both parts and proves what they promise.

| module | file | models |
|---|---|---|
| `Wrappers` | wrappers.dfy | `Option` and `Result` |
| `Geo` | geo.dfy | coordinates, the distance function, `interpolate` |
| `Vehicle` | vehicle.dfy | `VehicleType`, `Vehicle`, `SimulationState`, `defaultSimulationState` |
| `CarProfile`, `TruckProfile`, `MotorcycleProfile` | car.dfy, truck.dfy, motorcycle.dfy | the three profile constants |
| `VehicleFactory` | vehicle_factory.dfy | `create`, `getAvailableTypes`, `getAllVehicles`, `calculateETA` |
| `SimulationRoute` | simulation_route.dfy | route length, the segment search and the interpolation of the tick |
| `SimulationEngine` | simulation_engine.dfy | the engine as step functions, plus the class `Engine` proved against them |
| `RouteContext` | route_context.dfy | the `setState` updaters, save/load, and the class `Provider` that drives an `Engine` |
| `RoutingGraph` | routing_graph.dfy | `Graph` with `NewGraph`, `AddNode`, `AddEdge`, `Distance` |
| `RoutingSearch` | routing_search.dfy | the `PriorityQueue` adapter, `AStar`, `reconstructPath`, `GenerateInstructions` |
| `RoutingService` | routing_service.dfy | `init` (the seed graph), `GetRouteQuery`, `GetRoute` |

**The haversine formula.** Both parts use it. It is a parameter
`dist: (Coord, Coord) -> real`, and the model relies only on two facts
(`Geo.IsDistance`): the distance is never negative, and it is zero between a
point and itself.

**Arithmetic.** All arithmetic is over `real`. JavaScript's `Math.round` is
`(x + 0.5).Floor`.

**The simulation engine.** Each engine operation is first a function over
`EngineData`, the engine's fields taken as one value. The class `Engine`
holds those fields, and each of its methods ensures
`Data() == XStep(old(Data()), ...)`. The properties are lemmas about the step
functions, and the invariant `DataValid` is preserved by every step.
The browser's inputs are method parameters:

- the clock reading `now` (`performance.now`);
- the wall-clock `epoch` (`Date.now`);
- the random draw `r` (`Math.random`).

The animation frame and the break timer are flags. The `onUpdate`,
`onBreak` and `onComplete` callbacks are appended to an event log. The
`Provider` folds that log into its state with the context's own updaters.

## Model

| member | source | states |
|---|---|---|
| Vehicle.ParseTypeTag | ui/react-headunit/src/simulation/Vehicle.ts:3 | a string parses to a category only if it is that category's tag |
| Vehicle.TypeTagRoundTrip | ui/react-headunit/src/simulation/Vehicle.ts:3 | each of the three categories parses back from its tag, so the set is closed and the tags are distinct |
| Vehicle.DefaultSimulationStateIsIdle | ui/react-headunit/src/simulation/Vehicle.ts:30-40 | the default snapshot is not running and not paused, has no position, has every number zero, has progress within 0-100 and a non-negative break count, and carries no breakPoints |
| Vehicle.IdleIsDefault | ui/react-headunit/src/simulation/Vehicle.ts:18-40 | any idle snapshot without breakPoints is exactly the default one |
| CarProfile.CarIsPlausible | ui/react-headunit/src/simulation/vehicles/Car.ts:3-13 | the tag is 'car', 0 < avgSpeed 95 <= maxSpeed 120, breakProbability 0.05 lies in [0,1], and breakDuration 5 is positive |
| TruckProfile.TruckIsPlausible | ui/react-headunit/src/simulation/vehicles/Truck.ts:3-13 | the tag is 'truck', 0 < 70 <= 90, 0.15 lies in [0,1], and 15 is positive |
| MotorcycleProfile.MotorcycleIsPlausible | ui/react-headunit/src/simulation/vehicles/Motorcycle.ts:3-13 | the tag is 'motorcycle', 0 < 110 <= 140, 0.03 lies in [0,1], and 3 is positive |
| VehicleFactory.Template | ui/react-headunit/src/simulation/VehicleFactory.ts:13-17 | the table entry for a category carries that category and a plausible profile |
| VehicleFactory.Create | ui/react-headunit/src/simulation/VehicleFactory.ts:22-28 | over the table's own keys (not names inherited from Object.prototype): succeeds exactly for the three keys and returns the template whose tag is the key; any other key fails with UnknownVehicleType(key) |
| VehicleFactory.GetAvailableTypes | ui/react-headunit/src/simulation/VehicleFactory.ts:33-35 | three distinct keys, which are exactly the strings that parse as a category |
| VehicleFactory.GetAllVehicles | ui/react-headunit/src/simulation/VehicleFactory.ts:40-42 | one profile per key, in key order, each equal to what create returns for that key |
| VehicleFactory.CalculateETA | ui/react-headunit/src/simulation/VehicleFactory.ts:47-57 | the whole number of minutes nearest to the travel time distance / avgSpeed * 60 plus the expected break minutes, halves rounded up |
| VehicleFactory.Round | ui/react-headunit/src/simulation/VehicleFactory.ts:56 | Math.round: x - 0.5 < result <= x + 0.5 |
| VehicleFactory.ShortTripHasNoBreakTime | ui/react-headunit/src/simulation/VehicleFactory.ts:47-57 | below 100 km the break term is 0 and the ETA is the rounded travel time; calculateETA(0, v) = 0 |
| VehicleFactory.CalculateETAMonotone | ui/react-headunit/src/simulation/VehicleFactory.ts:47-57 | with a positive average speed and non-negative break fields, a longer trip never gets a smaller ETA |
| VehicleFactory.BreakTimeMonotone | ui/react-headunit/src/simulation/VehicleFactory.ts:52-54 | floor(d / 100) * probability * duration is non-decreasing in d |
| Geo.Interpolate | ui/react-headunit/src/simulation/SimulationEngine.ts:61-70 | t = 0 gives the start, t = 1 gives the end, and t in [0,1] gives a point between them in each coordinate |
| SimulationRoute.CalculateTotalDistance | ui/react-headunit/src/simulation/SimulationEngine.ts:50-56 | the accumulator loop returns RouteLength, the sum of the distances between consecutive points |
| SimulationRoute.RouteLengthSign | ui/react-headunit/src/simulation/SimulationEngine.ts:50-56 | the total is non-negative, and positive for two or more points without a zero-length segment |
| SimulationRoute.CumMonotone | ui/react-headunit/src/simulation/SimulationEngine.ts:50-56 | cumulative distances are non-negative and non-decreasing along the route |
| SimulationRoute.Locate | ui/react-headunit/src/simulation/SimulationEngine.ts:123-133 | a segment found is a valid segment index at or after the starting one |
| SimulationRoute.LocateIsFirst | ui/react-headunit/src/simulation/SimulationEngine.ts:123-133 | the scan finds segment k if and only if k's cumulative end reaches the covered distance and no earlier one does |
| SimulationRoute.LocateNone | ui/react-headunit/src/simulation/SimulationEngine.ts:123-133 | the scan finds nothing if and only if the covered distance exceeds every cumulative end |
| SimulationRoute.LocateWithinRoute | ui/react-headunit/src/simulation/SimulationEngine.ts:123-133 | a covered distance up to the route length always falls in some segment |
| SimulationRoute.PositionAfterOnSegment | ui/react-headunit/src/simulation/SimulationEngine.ts:122-133 | for covered >= 0 the chosen segment is entered at a fraction in [0,1], so Math.min(1, ...) does not clip it; past every end the position is unchanged |
| SimulationRoute.PositionAfterWithinRoute | ui/react-headunit/src/simulation/SimulationEngine.ts:122-133 | within the route the new position exists and does not depend on the previous one |
| SimulationRoute.PositionAtStart | ui/react-headunit/src/simulation/SimulationEngine.ts:122-133 | at covered distance 0 the position is the first route point |
| SimulationRoute.PositionOnRoute | ui/react-headunit/src/simulation/SimulationEngine.ts:122-133 | the segment-search loop with its early break computes PositionAfter |
| SimulationEngine.TickStepKeepsValid | ui/react-headunit/src/simulation/SimulationEngine.ts:102-155 | an animate tick preserves the engine invariant (breaks count the break points; while running, the snapshot agrees with the covered distance and the position lies on the route) |
| SimulationEngine.StartStepKeepsValid | ui/react-headunit/src/simulation/SimulationEngine.ts:75-97 | start preserves the engine invariant |
| SimulationEngine.ResumeStepKeepsValid | ui/react-headunit/src/simulation/SimulationEngine.ts:202-208 | resume preserves the engine invariant |
| SimulationEngine.FrameStepKeepsValid | ui/react-headunit/src/simulation/SimulationEngine.ts:154 | delivering the requested animation frame preserves the invariant |
| SimulationEngine.TimerStepKeepsValid | ui/react-headunit/src/simulation/SimulationEngine.ts:181-185 | the break timer firing preserves the invariant |
| SimulationEngine.OtherStepsKeepValid | ui/react-headunit/src/simulation/SimulationEngine.ts:191-244 | pause, stop and setSpeedMultiplier preserve the invariant |
| SimulationEngine.StartSnapshot | ui/react-headunit/src/simulation/SimulationEngine.ts:75-97 | start publishes the initial snapshot (running, not paused, on route[0], progress 0, speed 0, the whole distance remaining, eta = total / avgSpeed * 60, no breaks, an empty break list); the clock is anchored at the first reading and the first tick, at the second reading, covers exactly the frame distance between the two; when both readings coincide the engine stands on route[0] with covered 0, progress 0, the whole distance remaining, no breaks and the next frame requested, and the tick's snapshot is published after the initial one |
| SimulationEngine.TickAdvancesDistance | ui/react-headunit/src/simulation/SimulationEngine.ts:107-120 | a running tick adds exactly avgSpeed * m * deltaMs / 3600000, with m = 1 when the multiplier is undefined or 0; elapsed time grows by deltaMs / 60000 * m; the covered distance never decreases for non-negative speed, multiplier and deltaMs |
| SimulationEngine.TickSnapshotFormulas | ui/react-headunit/src/simulation/SimulationEngine.ts:136-139 | after a running tick: progress = min(100, 100 * covered / total), distanceRemaining = max(0, total - covered), eta = distanceRemaining / avgSpeed * 60 |
| SimulationEngine.SettledAgrees | ui/react-headunit/src/simulation/SimulationEngine.ts:146-154 | publishing and then completing or requesting the next frame keeps the snapshot agreeing with the three formulas; completion's 100, 0 and 0 are their values at covered >= total |
| SimulationEngine.TickPosition | ui/react-headunit/src/simulation/SimulationEngine.ts:122-133 | the tick's position lies in the first segment reaching the covered distance, at a fraction in [0,1]; past every end the position is unchanged |
| SimulationEngine.TickBreak | ui/react-headunit/src/simulation/SimulationEngine.ts:141-186 | a draw under the break chance adds exactly one break and one break point (the new position, breakDuration and the wall-clock time), goes on break and schedules the resumption after min(duration * 60000 / m, 3000) ms; this tick's first two callbacks are onBreak(duration) and then onUpdate with the new break count; any other draw leaves the breaks alone and makes no onBreak call |
| SimulationEngine.BreakNeedsPosition | ui/react-headunit/src/simulation/SimulationEngine.ts:161 | triggerBreak without a current position changes nothing |
| SimulationEngine.TickCompletion | ui/react-headunit/src/simulation/SimulationEngine.ts:146-154 | reaching the total stops the run with progress 100, remaining 0, speed 0 and eta 0, requests no frame, and ends with onUpdate then onComplete; short of the total, the run continues with the next frame requested |
| SimulationEngine.CompletionEndsRun | ui/react-headunit/src/simulation/SimulationEngine.ts:149-152 | after the completing tick the invariant holds, the last callback is onComplete, and every later tick is a no-op |
| SimulationEngine.InactiveTickChangesNothing | ui/react-headunit/src/simulation/SimulationEngine.ts:103-105 | while paused, not running or on break, animate leaves the engine unchanged |
| SimulationEngine.PauseKeepsProgress | ui/react-headunit/src/simulation/SimulationEngine.ts:191-197 | pause sets isPaused, cancels the frame, and keeps the covered distance, clock, position and progress |
| SimulationEngine.ResumeOnlyFromPause | ui/react-headunit/src/simulation/SimulationEngine.ts:202-208 | resume is a no-op unless paused; otherwise it clears the flag and re-anchors the clock at the first reading, and the animate call it makes leaves lastTimestamp at its own, second reading (or at the first when the tick is inactive) |
| SimulationEngine.PauseThenResumeNoDrift | ui/react-headunit/src/simulation/SimulationEngine.ts:191-208 | the paused interval is not counted: after pause and resume, a running engine not on a break has moved exactly the frame distance between resume's two clock readings, and not at all when they coincide; otherwise covered distance, position and progress are unchanged |
| SimulationEngine.StopResets | ui/react-headunit/src/simulation/SimulationEngine.ts:213-222 | stop restores the idle default snapshot, cancels the frame and the break timer, only appends to the callbacks, and never calls onComplete |
| SimulationEngine.SpeedStepStores | ui/react-headunit/src/simulation/SimulationEngine.ts:240-244 | setSpeedMultiplier stores the value as given (negative values included; 0 then counts as 1) and changes nothing else; without a configuration it does nothing |
| SimulationEngine.TickStepAppends | ui/react-headunit/src/simulation/SimulationEngine.ts:102-155 | a tick only adds callbacks, after those already made |
| SimulationEngine.StartStepAppends | ui/react-headunit/src/simulation/SimulationEngine.ts:75-97 | start only adds callbacks |
| SimulationEngine.ResumeStepAppends | ui/react-headunit/src/simulation/SimulationEngine.ts:202-208 | resume only adds callbacks |
| SimulationEngine.Engine.constructor | ui/react-headunit/src/simulation/SimulationEngine.ts:21-29 | a new engine has no configuration, the default snapshot, zero distances and nothing pending |
| SimulationEngine.Engine.Start | ui/react-headunit/src/simulation/SimulationEngine.ts:75-97 | updating the fields in place, with the clock read once for the anchor and once more for the animate call, yields StartStep and keeps the invariant |
| SimulationEngine.Engine.Animate | ui/react-headunit/src/simulation/SimulationEngine.ts:102-155 | one frame yields TickStep and keeps the invariant |
| SimulationEngine.Engine.Advance | ui/react-headunit/src/simulation/SimulationEngine.ts:107-139 | the distance, segment-search and snapshot part of the frame yields Advanced |
| SimulationEngine.Engine.Settle | ui/react-headunit/src/simulation/SimulationEngine.ts:146-154 | publishing and then completing or requesting a frame yields Settled |
| SimulationEngine.Engine.TriggerBreak | ui/react-headunit/src/simulation/SimulationEngine.ts:160-186 | yields BreakStep |
| SimulationEngine.Engine.Complete | ui/react-headunit/src/simulation/SimulationEngine.ts:227-235 | yields CompleteStep |
| SimulationEngine.Engine.Pause | ui/react-headunit/src/simulation/SimulationEngine.ts:191-197 | yields PauseStep and keeps the invariant |
| SimulationEngine.Engine.Resume | ui/react-headunit/src/simulation/SimulationEngine.ts:202-208 | re-anchors at the first clock reading and animates at the second: yields ResumeStep and keeps the invariant |
| SimulationEngine.Engine.Stop | ui/react-headunit/src/simulation/SimulationEngine.ts:213-222 | yields StopStep and keeps the invariant |
| SimulationEngine.Engine.SetSpeedMultiplier | ui/react-headunit/src/simulation/SimulationEngine.ts:240-244 | yields SpeedStep and keeps the invariant |
| SimulationEngine.Engine.GetState | ui/react-headunit/src/simulation/SimulationEngine.ts:249-251 | returns the snapshot; while running, progress is below 100 and some distance remains; the break count equals the number of break points |
| SimulationEngine.Engine.Frame | ui/react-headunit/src/simulation/SimulationEngine.ts:154 | the requested animation frame fires: yields FrameStep and keeps the invariant |
| SimulationEngine.Engine.BreakTimerFires | ui/react-headunit/src/simulation/SimulationEngine.ts:181-185 | the break ends, the clock is re-anchored at the first reading and animate runs at the second: yields TimerStep and keeps the invariant |
| RouteContext.DefaultVehicleIsCreatedCar | ui/react-headunit/src/context/RouteContext.tsx:53 | the default vehicle is what create('car') returns, a plausible car |
| RouteContext.SelectRouteUpdate | ui/react-headunit/src/context/RouteContext.tsx:141-156 | index 0 selects the main route and keeps the geometry; index i with an alternative at i-1 selects it and shows its geometry; any other index returns the previous state; nothing but the index and the geometry ever changes |
| RouteContext.SelectRouteKeepsSelectionValid | ui/react-headunit/src/context/RouteContext.tsx:141-156 | the selected index stays 0 or names an alternative, and selecting twice is selecting once |
| RouteContext.SelectedGeometryMatches | ui/react-headunit/src/context/RouteContext.tsx:146-153 | after selecting alternative i, the index is i and the displayed geometry is that alternative's, in both directions |
| RouteContext.ClearNavigationUpdate | ui/react-headunit/src/context/RouteContext.tsx:196-207 | resets the nodes, geometry, alternatives, index, navigation flag and simulation to their defaults, and keeps startId, endId and the vehicle |
| RouteContext.ClearNavigationIdempotent | ui/react-headunit/src/context/RouteContext.tsx:196-207 | clearing twice is clearing once, and the result has a valid selection and an idle simulation |
| RouteContext.StopSimulationUpdate | ui/react-headunit/src/context/RouteContext.tsx:187-190 | only the snapshot changes, to the idle one |
| RouteContext.OnUpdate | ui/react-headunit/src/context/RouteContext.tsx:170-172 | only the snapshot changes, to the one published |
| RouteContext.OnComplete | ui/react-headunit/src/context/RouteContext.tsx:173-178 | only simulation.isRunning changes, to false |
| RouteContext.ApplyEventsAppend | ui/react-headunit/src/context/RouteContext.tsx:170-181 | delivering two batches of callbacks one after the other is delivering them as one batch |
| RouteContext.ApplyEventsOnlySimulation | ui/react-headunit/src/context/RouteContext.tsx:170-181 | the engine's callbacks change nothing but the snapshot |
| RouteContext.CompletionShowsFinalSnapshot | ui/react-headunit/src/context/RouteContext.tsx:170-178 | the final onUpdate followed by onComplete leaves exactly the final, stopped snapshot |
| RouteContext.SaveState | ui/react-headunit/src/context/RouteContext.tsx:93-106 | keeps exactly startId, endId, vehicle and isNavigating |
| RouteContext.LoadState | ui/react-headunit/src/context/RouteContext.tsx:69-91 | nothing saved or an unparseable entry gives the default state; otherwise the four fields are restored with `x or default` fallbacks, and geometry, alternatives, index and simulation are reset |
| RouteContext.SaveLoadRoundTrip | ui/react-headunit/src/context/RouteContext.tsx:69-106 | load after save restores the four fields over the defaults, and saving again gives back the same record |
| RouteContext.LoadDependsOnlyOnSaved | ui/react-headunit/src/context/RouteContext.tsx:69-106 | two states that agree on the four persisted fields reload identically |
| RouteContext.SimulationConfig | ui/react-headunit/src/context/RouteContext.tsx:162-169 | there is no configuration if and only if the geometry is missing or has fewer than 2 points; otherwise it is that geometry, the chosen vehicle and multiplier 50 |
| RouteContext.Provider.constructor | ui/react-headunit/src/context/RouteContext.tsx:108-131 | the state is loadState of what was stored, and the engine is new |
| RouteContext.Provider.Deliver | ui/react-headunit/src/context/RouteContext.tsx:170-181 | the engine's new callbacks are applied to the state in order |
| RouteContext.Provider.StartSimulation | ui/react-headunit/src/context/RouteContext.tsx:162-183 | without a configuration nothing changes; otherwise the engine takes StartStep with that configuration and both clock readings, and the state receives its callbacks |
| RouteContext.Provider.PauseSimulation | ui/react-headunit/src/context/RouteContext.tsx:185 | the engine takes PauseStep and the state receives its callbacks |
| RouteContext.Provider.ResumeSimulation | ui/react-headunit/src/context/RouteContext.tsx:186 | the engine takes ResumeStep with both clock readings and the state receives its callbacks |
| RouteContext.Provider.StopSimulation | ui/react-headunit/src/context/RouteContext.tsx:187-190 | the engine takes StopStep and the state is StopSimulationUpdate of the old one |
| RouteContext.Provider.SetSpeedMultiplier | ui/react-headunit/src/context/RouteContext.tsx:192-194 | the engine takes SpeedStep |
| RouteContext.Provider.SelectRoute | ui/react-headunit/src/context/RouteContext.tsx:141-156 | the state becomes SelectRouteUpdate of the old one |
| RouteContext.Provider.ClearNavigation | ui/react-headunit/src/context/RouteContext.tsx:196-207 | the engine takes StopStep and the state is ClearNavigationUpdate of the old one |
| RoutingGraph.WithEdgeLists | services/routing-go/internal/routing/graph.go:36-40 | AddEdge appends from->to to the list of from and to->from to the list of to (a self-loop gets both), and every other list is unchanged |
| RoutingGraph.WithEdgeIncident | services/routing-go/internal/routing/graph.go:36-40 | every list grows by exactly its incident new edges, in order |
| RoutingGraph.WithEdgeTwice | services/routing-go/internal/routing/graph.go:37-39 | no deduplication: adding the same road twice adds two copies in each direction |
| RoutingGraph.WithEdgeKeepsClosed | services/routing-go/internal/routing/graph.go:36-40 | a road between known nodes keeps every edge between known nodes, and a positive weight keeps all weights positive |
| RoutingGraph.Distance | services/routing-go/internal/routing/graph.go:43-52 | non-negative, and 0 between two nodes with equal coordinates |
| RoutingGraph.Graph.constructor | services/routing-go/internal/routing/graph.go:25-30 | NewGraph has no nodes and no edges |
| RoutingGraph.Graph.AddNode | services/routing-go/internal/routing/graph.go:32-34 | stores or replaces the node under its id, and leaves the edges unchanged |
| RoutingGraph.Graph.AddEdge | services/routing-go/internal/routing/graph.go:36-40 | the nodes are unchanged and the edges become WithEdge; closedness and positive weights are kept |
| RoutingSearch.Item.constructor | services/routing-go/internal/routing/astar.go:8-12 | an item with the given node and priority |
| RoutingSearch.PriorityQueue.constructor | services/routing-go/internal/routing/astar.go:41-42 | an empty, correctly indexed queue |
| RoutingSearch.PriorityQueue.Len | services/routing-go/internal/routing/astar.go:16 | the number of items, zero exactly when the queue is empty |
| RoutingSearch.PriorityQueue.Swap | services/routing-go/internal/routing/astar.go:18 | exchanges two positions, renumbers both items so that items[i].index == i still holds, and keeps every node and priority |
| RoutingSearch.PriorityQueue.Push | services/routing-go/internal/routing/astar.go:19-24 | appends the item at index n and keeps the indexing |
| RoutingSearch.PriorityQueue.Pop | services/routing-go/internal/routing/astar.go:25-33 | removes the last item, sets its index to -1, shrinks the queue by one and keeps the indexing |
| RoutingSearch.IndexedItemsDistinct | services/routing-go/internal/routing/astar.go:16-33 | an indexed queue holds every item at most once |
| RoutingSearch.MinIndex | services/routing-go/internal/routing/astar.go:58 | the entry popped has the least priority, and every earlier entry has a strictly greater one |
| RoutingSearch.RelaxKeepsInv | services/routing-go/internal/routing/astar.go:64-71 | relaxing an edge keeps the search invariant: the start has no predecessor, and each predecessor link follows a stored edge with gScore[u] + w <= gScore[v] |
| RoutingSearch.RelaxEdges | services/routing-go/internal/routing/astar.go:64-72 | the inner loop over the current node's edges keeps the search invariant and never drops a predecessor |
| RoutingSearch.PopKeepsInv | services/routing-go/internal/routing/astar.go:57-58 | popping keeps the invariant, and the node popped is the start or has a predecessor |
| RoutingSearch.InitialFrontier | services/routing-go/internal/routing/astar.go:41-55 | the initial open set, scores and empty predecessor map satisfy the search invariant and the frontier invariant |
| RoutingSearch.PopKeepsFrontier | services/routing-go/internal/routing/astar.go:57-58 | popping a node other than the goal keeps the frontier invariant for every node but the one popped |
| RoutingSearch.RelaxKeepsFrontier | services/routing-go/internal/routing/astar.go:65-70 | an improving relaxation sets the target's score to gScore[current] + w, lowers no score to above its old value, and keeps the frontier invariant |
| RoutingSearch.CloseFrontier | services/routing-go/internal/routing/astar.go:64-72 | once every edge of the expanded node is tight, the frontier invariant holds without exception |
| RoutingSearch.TightWalk | services/routing-go/internal/routing/astar.go:64-72 | along any walk through nodes whose edges are all tight, the end's score is at most the start's score plus the walk's weight |
| RoutingSearch.EmptyFrontierUnreachable | services/routing-go/internal/routing/astar.go:57-75 | when the open set runs empty, no walk from start to goal weighs less than the 1e18 sentinel, so returning (nil, 0) is justified |
| RoutingSearch.GoalReached | services/routing-go/internal/routing/astar.go:60-61 | the goal popped yields a path from start to goal along stored edges, weighing at most gScore[goal], which is the non-negative cost returned; [start] with cost 0 when the goal is the start |
| RoutingSearch.LinksDescend | services/routing-go/internal/routing/astar.go:64-69 | with positive weights every predecessor has a strictly smaller gScore, so the predecessor chain is acyclic |
| RoutingSearch.ChainWeight | services/routing-go/internal/routing/astar.go:64-69 | along a chain where each step fits between the scores, the total weight is at most the difference of the end scores |
| RoutingSearch.ReconstructPath | services/routing-go/internal/routing/astar.go:78-87 | terminates on a descending chain; the result ends at current, starts at a node without predecessor, and each entry is the predecessor of the next |
| RoutingSearch.FoundPath | services/routing-go/internal/routing/astar.go:78-87 | the reconstructed chain starts at the start, follows stored edges, weighs at most the goal's gScore, and is [start] when the goal is the start |
| RoutingSearch.AStar | services/routing-go/internal/routing/astar.go:35-76 | a missing start or goal gives (nil, 0); a path found runs from start to goal through known nodes along stored edges, and its weight is at most the non-negative distance returned; AStar(s, s) = ([s], 0); an open set that runs empty without the goal means no walk from start to goal weighs less than the 1e18 sentinel |
| RoutingSearch.KindsAlongPath | services/routing-go/internal/routing/astar.go:103-108 | leg 0 is "Start journey"; the last leg is "Turn towards destination" exactly when there are 3 or more nodes; every other leg is "Continue" |
| RoutingSearch.GenerateInstructions | services/routing-go/internal/routing/astar.go:94-116 | [] for fewer than 2 nodes, otherwise len(path) - 1 instructions, each with its sentence kind and the leg's non-negative distance |
| RoutingService.CityNodesSeeded | services/routing-go/main.go:22-44 | the sixteen cities alone form a seeded graph: each stored under its own id, no roads yet |
| RoutingService.SeededStep | services/routing-go/main.go:46-78 | a positive road between two of the cities keeps the graph seeded |
| RoutingService.CityEdgesSeeded | services/routing-go/main.go:46-78 | every road of init joins two of the sixteen cities and has a positive length |
| RoutingService.CityEdgesLists | services/routing-go/main.go:47-67 | Phoenix's list is its seven roads in insertion order, with Glendale twice; Glendale's list holds Phoenix twice, then Yuma |
| RoutingService.AddMetroRoads | services/routing-go/main.go:46-55 | the Phoenix Metro roads, as MetroRoads |
| RoutingService.AddWestRoads | services/routing-go/main.go:57-59 | I-10 West, as WestRoads |
| RoutingService.AddSouthRoads | services/routing-go/main.go:61-64 | I-10 East/South, as SouthRoads |
| RoutingService.AddNorthRoads | services/routing-go/main.go:66-69 | I-17 North, as NorthRoads |
| RoutingService.AddCanyonRoads | services/routing-go/main.go:71-74 | US-89 North, as CanyonRoads |
| RoutingService.AddEastRoads | services/routing-go/main.go:76-78 | US-60 East, as EastRoads |
| RoutingService.InitCityGraph | services/routing-go/main.go:18-79 | the global graph holds exactly the sixteen cities and the roads of init; it is seeded, and the Phoenix and Glendale lists are as stated above |
| RoutingService.Waypoints | services/routing-go/main.go:148-155 | one [Lat, Lon] position per path entry, in order |
| RoutingService.Leg | services/routing-go/main.go:157-162 | 20 points at fractions j/20 for j = 1..20, the last exactly on the next node |
| RoutingService.LegPoints | services/routing-go/main.go:157-162 | the inner interpolation loop emits exactly Leg of the two waypoints |
| RoutingService.RoadGeometryLength | services/routing-go/main.go:148-164 | 1 + 20 * (len(path) - 1) points |
| RoutingService.RoadGeometryWaypoints | services/routing-go/main.go:152-161 | point 20k is waypoint k, because t = 20/20 = 1 |
| RoutingService.RoadGeometryBetween | services/routing-go/main.go:157-161 | every point of a leg lies between the leg's two waypoints in each coordinate |
| RoutingService.BuildRoadGeometry | services/routing-go/main.go:148-164 | the nested loop emits one node per path entry and exactly RoadGeometry of the waypoints: length 1 + 20(n-1), with a waypoint every 20 points |
| RoutingService.GetRouteQuery | services/routing-go/main.go:117-168 | 400 exactly when start or end is empty; 404 for unknown nodes; any failure is 400 or 404; a success runs from start to end with a non-negative distance, one node per path entry and the interpolated geometry starting at the first node; start = end gives the one-node response; a success follows stored roads whose total weight is at most the distance reported; a 404 between two known cities means no walk lighter than the 1e18 sentinel joins them, unless the search budget ran out |
| RoutingService.GetRoute | services/routing-go/main.go:93-114 | fails exactly when the body does not decode, with 400 and the decoder's message; otherwise it returns the A* path (empty with distance 0 for unknown nodes), one node per path entry, and one instruction per leg; the path follows stored roads whose total weight is at most the distance; an empty path between two known cities means no walk lighter than the 1e18 sentinel joins them, unless the search budget ran out |

## Left out

- The haversine formula (sin, cos, atan2 and sqrt on floating point) in both
  parts is not modelled. The distance is a parameter that is non-negative
  and zero between a point and itself. Floating-point rounding is not
  modelled either: all arithmetic is over reals.
- `requestAnimationFrame`, `cancelAnimationFrame`, `setTimeout` and
  `clearTimeout` are not modelled as browser calls. The pending frame and the
  pending break timer are a flag and an optional delay. Their firing is a
  method call, `Engine.Frame` or `Engine.BreakTimerFires`.
- `performance.now`, `Date.now` and `Math.random` are parameters.
- `onBreak` only logs to the console in the context. It is recorded in the
  event log and otherwise ignored. No `console.log` or `console.error` output
  is modelled.
- Snapshots are values. The engine hands `onUpdate` its own mutable `state`
  object, which React then holds. The model does not capture later in-place
  writes becoming visible through that shared object.
- SimulationEngine.Engine.Start: requires a route of at least 2 points, no
  zero-length segment, a non-zero average speed, and no pending frame or
  break timer from an earlier run. The source checks none of these. Without
  them a tick divides 0 by 0, or an old timer races the new run.
- RouteContext.Provider.StartSimulation: carries the same precondition as
  `Engine.Start` when a configuration exists.
- VehicleFactory.CalculateETA: requires a non-zero average speed. There
  JavaScript yields Infinity or NaN, which the real-valued model does not
  represent.
- VehicleFactory.Create: only the table's own keys are modelled. Names
  inherited from `Object.prototype` ("constructor", "toString",
  "hasOwnProperty", "__proto__") make the source return a copy of the
  inherited value rather than throw. The type `VehicleType` rules them out,
  and the only call site passes 'car' (RouteContext.tsx:53).
- The effect that calls `updateRoute` on the engine when the geometry
  changes (RouteContext.tsx:118-123) is not modelled. `SimulationEngine`
  defines no `updateRoute`, so once the engine exists, every change of
  `roadGeometry` to a non-empty array (a route loaded, `selectRoute` picking
  an alternative) makes that effect throw a `TypeError`
  ("simulationRef.current.updateRoute is not a function"). The model's
  operations do not include this effect or its throw, and so do not show
  the render failure that follows.
- The saving effect (`useEffect` on every state change) is not modelled as
  React code. Its effect is `SaveState` followed by `Persist`.
- `localStorage`, JSON text and its parse errors are not modelled. The stored
  entry is the `Stored` datatype.
- The trivial field setters (`setStartId`, `setEndId`, `setRouteNodes`,
  `setRoadGeometry`, `setAlternativeRoutes`, `setIsNavigating`, `setVehicle`,
  `setIsStartingNavigation`) are not modelled. They are one-field record
  updates.
- React rendering and `useRoute` are not modelled.
- RoutingSearch.AStar: runs for at most `fuel` pops. When the budget runs
  out first it reports `exhausted` with an empty path, which the Go code
  never does. The search keeps no closed set, so its termination is not
  proved.
- RoutingSearch.AStar: requires positive edge weights, which every seed road
  has (`CityEdgesSeeded`).
- RoutingSearch.AStar: does not claim the path is a shortest one. The
  heuristic is not shown to be admissible.
- RoutingSearch.AStar: its open set is a sequence from which the first entry
  of least priority is popped. `container/heap`'s sift-up and sift-down are
  not modelled, and which of several equal-priority entries the real heap
  pops first may differ. The `PriorityQueue` adapter's own methods are
  modelled on their own.
- RoutingSearch.AStar: keeps the 1e18 initial scores as a finite
  sentinel, as the Go code does. Its completeness claim is therefore only
  about walks lighter than 1e18; a heavier walk counts as unreachable.
- RoutingService.GetRouteQuery: is given the graph and the two query
  parameters as values. The HTTP request and response writers are not
  modelled.
- RoutingService.GetRoute: is given the decoded body as a `Result`. The JSON
  decoder is not modelled.
- RoutingService.GetRouteQuery and RoutingService.GetRoute: pass A*'s `fuel`
  budget through. A search that runs out of it answers like "no route"
  (404, or an empty path), so "no route" implies unreachability only when
  the ghost `exhausted` output is false.
- RoutingService.InitCityGraph: the `AddEdge` calls of `init` are grouped
  into one method per highway section, in source order. `Graph.AddNode`
  stores node values, where Go stores pointers.
- Go's nil dereference for a path entry that is not a node cannot occur,
  because every path A* returns consists of known nodes.
- `GetLocations` and `ProxyOSRM` are not modelled: map iteration order and
  an outgoing HTTP call.
- The `main` functions, routing and CORS set-up are not modelled.
- The telemetry and map-matching services and the Python simulator are not
  modelled: they are I/O.
- The routing service emits `[lat, lon]` while the engine reads
  `[lng, lat]`. Both are the same opaque `Coord` pair here, so the mismatch
  is not modelled.
- Instruction texts (`%.1f` formatting) are not modelled: each instruction
  carries only its sentence kind and the leg's distance.
