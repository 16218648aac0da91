# RapidoDriverSimulation: the driver simulation core in Dafny

The app shows a map with a fixed three-point route. A marker moves along the
route one point per second once the user taps a button. All of the non-UI
logic lives in `MapViewModel`. That class holds four things: the route, a
cursor into it (`currentRouteIndex`), the driver's published location, and a
repeating timer. Each timer tick moves the cursor one point forward. At the
last point a tick invalidates the timer.

The project has four modules:

- `Wrappers` defines `Option`, which stands for Swift's optional `T?`.
- `Route` defines `Coord`, a latitude/longitude pair of reals compared only
  for equality, and `RoutePoint`, a wrapper around one coordinate.
- `Simulation` describes the view model as a state machine on values.
  `SimState` is the state. Each operation of the view model is a function on
  that state. `Ticks` applies `k` timer ticks and `Run` applies any sequence of
  operations. The lemmas prove what the operations do, alone and in sequence.
- `ViewModel` holds the class `MapViewModel`. Its fields are updated in place
  by methods named after the Swift ones. Each method states its whole new state
  and is proved to agree with the matching `Simulation` function, so the
  lemmas there also hold of the object. Three client methods replay the
  repository's tests and the restart case on a fresh object.

The timer is reduced to two fields:

- `timerValid` is true when the timer held in `timer` is scheduled and not
  invalidated. A `nil` handle and an invalidated one both read as false.
- `orphanedTimers` counts repeating timers that `startDriverMovement`
  replaced while they were still valid. The source never invalidates such a
  timer, so the count never goes down.

Two behaviours of the code are worth knowing, and the model keeps both:

- `setupRoute` does not reset `currentRouteIndex`
  (RapidoDriverSimulation/ViewModel/MapViewModel.swift:21-28).
  `SetupAfterMoveKeepsCursor` shows the effect. After moving to the end and
  setting up again, the driver is shown at the first point while the cursor
  stays on the last one, so the next tick does not move the driver.
- `startDriverMovement` overwrites `timer` without invalidating the old one
  (RapidoDriverSimulation/ViewModel/MapViewModel.swift:37). A restart while
  moving therefore leaves a second repeating timer scheduled.
  `RestartWhileMovingOrphansTimer` and `RestartTest` show two live timers after
  such a restart. The model claims no bound on the number of live timers.

## Model

| member | source | states |
|---|---|---|
| ViewModel.MapViewModel.constructor | RapidoDriverSimulation/ViewModel/MapViewModel.swift:13-18 | a fresh view model has an empty route, cursor 0, no driver location, no valid timer and no orphaned timer, and satisfies the object invariant |
| ViewModel.MapViewModel.SetupRoute | RapidoDriverSimulation/ViewModel/MapViewModel.swift:21-28 | the route becomes the three fixed points in order; the location becomes the first point's coordinate; the cursor and both timer fields are unchanged; the invariant is preserved |
| ViewModel.MapViewModel.StartDriverMovement | RapidoDriverSimulation/ViewModel/MapViewModel.swift:31-40 | on an empty route nothing changes; otherwise the cursor is 0, the location is the first point, the held timer is valid, a timer that was still valid becomes an orphan, and the route is unchanged |
| ViewModel.MapViewModel.Tick | RapidoDriverSimulation/ViewModel/MapViewModel.swift:37-51 | if a next point exists, the cursor moves by exactly one and the location becomes that point, with the timer unchanged; otherwise only the held timer is invalidated; the route and the orphans never change, and no precondition is needed for bounds safety |
| ViewModel.MapViewModel.StopDriverMovement | RapidoDriverSimulation/ViewModel/MapViewModel.swift:54-56 | the held timer is invalid afterwards; the route, cursor, location and orphans are unchanged |
| Simulation.InitialIsIdle | RapidoDriverSimulation/ViewModel/MapViewModel.swift:13-18 | the initial state has an empty route, index 0, no location and no live timer |
| Simulation.SetupRouteLoadsFixedRoute | RapidoDriverSimulation/ViewModel/MapViewModel.swift:21-28 | after setup, from any state, the route has exactly the points (37.7749,-122.4194), (37.7849,-122.4094), (37.7949,-122.3994) in that order; the driver is at the first point; the index and timers are as before |
| Simulation.StartDriverMovementRewinds | RapidoDriverSimulation/ViewModel/MapViewModel.swift:31-39 | start on an empty route is the identity; on a non-empty route it keeps the route, sets index 0, shows the driver at the cursor and makes the held timer valid |
| Simulation.TicksAtEndOnlyStopTimer | RapidoDriverSimulation/ViewModel/MapViewModel.swift:43-47 | from a cursor at or past the last point, even on an empty route, any positive number of ticks only invalidates the held timer, so repeated ticks are idempotent |
| Simulation.StopIsIdempotent | RapidoDriverSimulation/ViewModel/MapViewModel.swift:54-56 | stop invalidates the held timer, changes nothing else, and stopping again changes nothing |
| Simulation.TicksAdvanceAlongRoute | RapidoDriverSimulation/ViewModel/MapViewModel.swift:43-51 | from any state whose cursor is on the route, k ticks put the cursor at min(index + k, last); once a tick has advanced, the driver is shown at the cursor's point, otherwise the location is unchanged; the held timer is still valid exactly when index + k is within the route; route and orphans are unchanged |
| Simulation.StartThenTicks | RapidoDriverSimulation/ViewModel/MapViewModel.swift:31-51 | after start on a non-empty route, k ticks show the driver at point min(k, length - 1); the timer is valid exactly when k < length |
| Simulation.DemoScenario | RapidoDriverSimulationTests/RapidoDriverSimulationTests.swift:42-66 | after setup and start the driver is at the first point; after one tick at (37.7849,-122.4094); after two at (37.7949,-122.3994) with the timer valid; after any three or more ticks still at the third point with the timer invalid |
| Simulation.StepKeepsReachable | RapidoDriverSimulation/ViewModel/MapViewModel.swift:21-56 | every operation maps a reachable-shaped state to a reachable-shaped state |
| Simulation.RunKeepsReachable | RapidoDriverSimulation/ViewModel/MapViewModel.swift:21-56 | any sequence of operations preserves the reachable-state invariant |
| Simulation.ReachableShowsRoutePoint | RapidoDriverSimulation/ViewModel/MapViewModel.swift:21-51 | a state satisfying the reachable-state invariant has no location and no live timer when it has no route; otherwise it holds the fixed route, the cursor is below 3 and the driver is shown at one of its points |
| Simulation.ReachableFromInitial | RapidoDriverSimulation/ViewModel/MapViewModel.swift:13-56 | after any sequence of operations from a fresh view model: with no route there is no location and no live timer; with a route, it is the fixed one, the cursor is below 3 and the driver is shown at one of its three points |
| Simulation.OrphanedTimersNeverDecrease | RapidoDriverSimulation/ViewModel/MapViewModel.swift:37 | no sequence of operations lowers the number of orphaned timers |
| Simulation.RestartWhileMovingOrphansTimer | RapidoDriverSimulation/ViewModel/MapViewModel.swift:37 | setup, start, start leaves two live timers; a stop after that leaves one |
| Simulation.SetupAfterMoveKeepsCursor | RapidoDriverSimulation/ViewModel/MapViewModel.swift:21-28 | setting up again after moving to the end keeps the cursor at 2 but shows the driver at the first point, and the next tick does not move the driver |
| ViewModel.ValidShowsRoutePoint | RapidoDriverSimulation/ViewModel/MapViewModel.swift:13-56 | a view model satisfying the object invariant has no location and no timer when it has no route; otherwise it holds the fixed route, the cursor is below 3 and the driver is shown at one of its three points |
| ViewModel.SetupRouteTest | RapidoDriverSimulationTests/RapidoDriverSimulationTests.swift:28-39 | a fresh object has an empty route; after setup it has 3 points and the driver at (37.7749,-122.4194) |
| ViewModel.DriverMovementTest | RapidoDriverSimulationTests/RapidoDriverSimulationTests.swift:42-66 | on an object, setup and start put the driver at the first point; the ticks give the second point, then the third; a third tick leaves it there and releases the timer |
| ViewModel.RestartTest | RapidoDriverSimulation/ViewModel/MapViewModel.swift:31-40 | start, tick, start on an object rewinds the cursor to 0 and leaves two live timers; a stop then leaves one |

## Left out

- The timer's 1.0 second interval, run-loop scheduling and wall-clock timing are left out. Ticks are explicit calls to `Tick`. The test's 1.5 s asynchronous wait becomes "one tick".
- The `[weak self]` capture in the timer closure is left out. The model assumes the view model is alive whenever a tick arrives.
- `Run` applies a tick even when no timer is live. That covers more behaviour than the app can produce, so the invariants proved for `Run` also hold for the app.
- Two or more live timers tick the same view model more often. The model counts those timers but has no notion of time, so it does not capture the doubled rate.
- `@Published` observer and notification semantics are left out. `driverLocation` and `route` are plain fields.
- Client code can reassign the `route` property. No operation models that. Instead, `Tick` and `StartDriverMovement` have no preconditions, so their bounds safety is proved for any field values.
- CLLocationCoordinate2D is a plain pair of reals. The source never computes on coordinates, only stores and compares them.
- `currentRouteIndex` is a `nat`, without Swift's `Int` overflow. It only increases while it is below `route.count - 1`, so it cannot overflow.
- RapidoDriverSimulation/View/MapViewController.swift is not part of this model. It holds UIKit layout, Combine subscriptions, MapKit rendering, CoreLocation delegates and image resizing.
