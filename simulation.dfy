/**
  The driver simulation as a state machine on values.  A `SimState` is the
  abstract state of one map view model; each operation of the view model is a
  function from the state before to the state after.  The class `MapViewModel`
  (module ViewModel) is proved to follow these functions, and the lemmas below
  state what several operations in a row do.

  The timer is abstracted to two numbers.  `timerValid` says whether the timer
  currently held by the view model is scheduled and not invalidated (a `nil`
  handle and an invalidated one both read as false).  `orphanedTimers` counts
  repeating timers that were started earlier, are no longer held, and were never
  invalidated: starting movement replaces the held timer without invalidating
  it, and nothing can reach such a timer afterwards.
 */
module Simulation {
  import opened Wrappers
  import opened Route

  datatype SimState = SimState(
    route: seq<RoutePoint>,
    index: nat,
    driverLocation: Option<Coord>,
    timerValid: bool,
    orphanedTimers: nat)

  /** The operations a client (or a timer) can invoke on the view model. */
  datatype Event = Setup | Start | Tick | Stop

  /** The hard-coded three-point route loaded by `setupRoute`. */
  function FixedRoute(): seq<RoutePoint>
  {
    [ RoutePoint(Coord(37.7749, -122.4194)),
      RoutePoint(Coord(37.7849, -122.4094)),
      RoutePoint(Coord(37.7949, -122.3994)) ]
  }

  /** Swift's `route.first?.coordinate`. */
  function FirstCoordinate(route: seq<RoutePoint>): Option<Coord>
  {
    if route == [] then None else Some(route[0].coordinate)
  }

  /** A freshly constructed view model. */
  function Initial(): SimState
  {
    SimState([], 0, None, false, 0)
  }

  /** `setupRoute`: load the fixed route and put the driver on its first point. */
  function SetupRoute(s: SimState): SimState
  {
    s.(route := FixedRoute(), driverLocation := FirstCoordinate(FixedRoute()))
  }

  /**
    `startDriverMovement`: ignored on an empty route; otherwise rewind to the
    first point and schedule a fresh repeating timer, orphaning the held one if
    it was still valid.
   */
  function StartDriverMovement(s: SimState): SimState
  {
    if s.route == [] then s
    else s.(index := 0,
            driverLocation := Some(s.route[0].coordinate),
            timerValid := true,
            orphanedTimers := if s.timerValid then s.orphanedTimers + 1 else s.orphanedTimers)
  }

  /**
    `updateDriverPosition`, the body of every timer tick: advance one point, or
    invalidate the held timer when no next point exists.
   */
  function UpdateDriverPosition(s: SimState): SimState
  {
    if s.index + 1 < |s.route| then
      s.(index := s.index + 1, driverLocation := Some(s.route[s.index + 1].coordinate))
    else
      s.(timerValid := false)
  }

  /** `stopDriverMovement`: invalidate the held timer. */
  function StopDriverMovement(s: SimState): SimState
  {
    s.(timerValid := false)
  }

  /** The number of repeating timers still scheduled to call back. */
  function LiveTimers(s: SimState): nat
  {
    (if s.timerValid then 1 else 0) + s.orphanedTimers
  }

  /** `k` timer ticks in a row. */
  function Ticks(s: SimState, k: nat): SimState
    decreases k
  {
    if k == 0 then s else Ticks(UpdateDriverPosition(s), k - 1)
  }

  function Step(s: SimState, e: Event): SimState
  {
    match e
    case Setup => SetupRoute(s)
    case Start => StartDriverMovement(s)
    case Tick => UpdateDriverPosition(s)
    case Stop => StopDriverMovement(s)
  }

  /** The state after the events `es`, applied in order from `s`. */
  function Run(s: SimState, es: seq<Event>): SimState
    decreases |es|
  {
    if es == [] then s else Run(Step(s, es[0]), es[1..])
  }

  /** The cursor is on the route and the driver is shown at the cursor's point. */
  ghost predicate OnRoute(s: SimState)
  {
    s.index < |s.route| && s.driverLocation == Some(s.route[s.index].coordinate)
  }

  /**
    What holds of every state reachable from a fresh view model: either nothing
    is loaded and no timer was ever started, or the fixed route is loaded, the
    cursor is in range and the driver is shown at the first point or at the
    cursor's point (the first point when `setupRoute` ran again after a move).
   */
  ghost predicate Reachable(s: SimState)
  {
    (s.route == [] && s.index == 0 && s.driverLocation == None &&
     !s.timerValid && s.orphanedTimers == 0)
    ||
    (s.route == FixedRoute() && s.index < |s.route| &&
     (s.driverLocation == Some(s.route[0].coordinate) ||
      s.driverLocation == Some(s.route[s.index].coordinate)))
  }

  // ---------------------------------------------------------------------
  // Single operations
  // ---------------------------------------------------------------------

  /** A fresh view model has an empty route, index 0, no location and no timer. */
  lemma InitialIsIdle()
    ensures Initial().route == [] && Initial().index == 0
    ensures Initial().driverLocation == None && LiveTimers(Initial()) == 0
  {
  }

  /**
    `setupRoute` loads exactly the three fixed points in order and shows the
    driver at the first; the cursor and the timers are left as they were.
   */
  lemma SetupRouteLoadsFixedRoute(s: SimState)
    ensures var t := SetupRoute(s);
      |t.route| == 3 &&
      t.route[0].coordinate == Coord(37.7749, -122.4194) &&
      t.route[1].coordinate == Coord(37.7849, -122.4094) &&
      t.route[2].coordinate == Coord(37.7949, -122.3994) &&
      t.driverLocation == Some(Coord(37.7749, -122.4194)) &&
      t.index == s.index && t.timerValid == s.timerValid &&
      t.orphanedTimers == s.orphanedTimers
  {
  }

  /**
    Starting movement on a non-empty route puts the cursor on the first point
    with a valid timer; on an empty route it changes nothing.
   */
  lemma StartDriverMovementRewinds(s: SimState)
    ensures s.route == [] ==> StartDriverMovement(s) == s
    ensures s.route != [] ==>
      var t := StartDriverMovement(s);
      t.route == s.route && t.index == 0 && OnRoute(t) && t.timerValid
  {
  }

  /**
    A tick at the last point (or beyond it, or on an empty route) invalidates
    the held timer and changes nothing else, any number of times over.
   */
  lemma {:induction false} TicksAtEndOnlyStopTimer(s: SimState, k: nat)
    requires |s.route| <= s.index + 1
    ensures Ticks(s, k) == if k == 0 then s else s.(timerValid := false)
    decreases k
  {
    if k > 0 {
      var t := UpdateDriverPosition(s);
      assert t == s.(timerValid := false);
      TicksAtEndOnlyStopTimer(t, k - 1);
    }
  }

  /** Stopping invalidates the held timer only, and stopping twice is stopping once. */
  lemma StopIsIdempotent(s: SimState)
    ensures var t := StopDriverMovement(s);
      !t.timerValid && t.route == s.route && t.index == s.index &&
      t.driverLocation == s.driverLocation && t.orphanedTimers == s.orphanedTimers &&
      StopDriverMovement(t) == t
  {
  }

  // ---------------------------------------------------------------------
  // Movement along the route
  // ---------------------------------------------------------------------

  /**
    From a state whose cursor is on the route, `k` ticks move the cursor `k`
    points forward, stopping at the last point.  Once a tick has advanced, the
    driver is shown at the cursor; if none did, the location is as before (so a
    driver shown at the cursor stays shown at it).  The held timer stays valid
    exactly until a tick finds no next point.
   */
  lemma {:induction false} TicksAdvanceAlongRoute(s: SimState, k: nat)
    requires s.index < |s.route|
    ensures var t := Ticks(s, k);
      t.route == s.route && t.orphanedTimers == s.orphanedTimers &&
      t.index == (if s.index + k < |s.route| then s.index + k else |s.route| - 1) &&
      t.driverLocation ==
        (if 1 <= k && s.index + 1 < |s.route| then Some(s.route[t.index].coordinate)
         else s.driverLocation) &&
      (OnRoute(s) || (1 <= k && s.index + 1 < |s.route|) ==> OnRoute(t)) &&
      t.timerValid == (s.timerValid && s.index + k < |s.route|)
    decreases k
  {
    if k > 0 {
      var t := UpdateDriverPosition(s);
      if s.index + 1 < |s.route| {
        assert OnRoute(t) && t.index == s.index + 1 && t.timerValid == s.timerValid;
        TicksAdvanceAlongRoute(t, k - 1);
      } else {
        TicksAtEndOnlyStopTimer(s, k);
      }
    }
  }

  /**
    After starting on a non-empty route, `k` ticks show the driver at point
    `min(k, |route| - 1)`, and the timer started is still valid for the first
    `|route| - 1` ticks and invalid from the next one on.
   */
  lemma {:induction false} StartThenTicks(s: SimState, k: nat)
    requires s.route != []
    ensures var n := |s.route|;
      var j := if k < n then k else n - 1;
      var t := Ticks(StartDriverMovement(s), k);
      t.route == s.route && t.index == j &&
      t.driverLocation == Some(s.route[j].coordinate) &&
      t.timerValid == (k < n)
  {
    StartDriverMovementRewinds(s);
    TicksAdvanceAlongRoute(StartDriverMovement(s), k);
  }

  /**
    The demonstration scenario: after setup and start the driver is at the first
    point, one tick later at the second, and from two ticks on at the third, with
    the timer released from the third tick on.
   */
  lemma {:induction false} DemoScenario()
    ensures var s := StartDriverMovement(SetupRoute(Initial()));
      s.driverLocation == Some(Coord(37.7749, -122.4194)) &&
      Ticks(s, 1).driverLocation == Some(Coord(37.7849, -122.4094)) &&
      Ticks(s, 2).driverLocation == Some(Coord(37.7949, -122.3994)) &&
      Ticks(s, 2).timerValid
    ensures var s := StartDriverMovement(SetupRoute(Initial()));
      forall k: nat :: 3 <= k ==>
        Ticks(s, k).driverLocation == Some(Coord(37.7949, -122.3994)) &&
        !Ticks(s, k).timerValid
  {
    var r := SetupRoute(Initial());
    var s := StartDriverMovement(r);
    StartThenTicks(r, 0);
    StartThenTicks(r, 1);
    StartThenTicks(r, 2);
    forall k: nat | 3 <= k
      ensures Ticks(s, k).driverLocation == Some(Coord(37.7949, -122.3994)) &&
              !Ticks(s, k).timerValid
    {
      StartThenTicks(r, k);
    }
  }

  // ---------------------------------------------------------------------
  // Any sequence of operations
  // ---------------------------------------------------------------------

  lemma StepKeepsReachable(s: SimState, e: Event)
    requires Reachable(s)
    ensures Reachable(Step(s, e))
  {
  }

  /** Every state reachable from a fresh view model satisfies `Reachable`. */
  lemma {:induction false} RunKeepsReachable(s: SimState, es: seq<Event>)
    requires Reachable(s)
    ensures Reachable(Run(s, es))
    decreases |es|
  {
    if es != [] {
      StepKeepsReachable(s, es[0]);
      RunKeepsReachable(Step(s, es[0]), es[1..]);
    }
  }

  /**
    What a reachable state means for the client: with no route there is no
    location and no live timer; with a route it is the fixed one, the cursor is
    on it and the driver is shown at one of its points.
   */
  lemma ReachableShowsRoutePoint(t: SimState)
    requires Reachable(t)
    ensures t.route == [] ==> t.driverLocation == None && LiveTimers(t) == 0
    ensures t.route != [] ==>
      t.route == FixedRoute() && t.index < 3 &&
      exists j :: 0 <= j < 3 && t.driverLocation == Some(FixedRoute()[j].coordinate)
  {
    if t.route != [] {
      if t.driverLocation == Some(t.route[0].coordinate) {
        assert t.driverLocation == Some(FixedRoute()[0].coordinate);
      } else {
        assert t.driverLocation == Some(FixedRoute()[t.index].coordinate);
      }
    }
  }

  /**
    Whatever the client does, the cursor never leaves the route and the driver
    is only ever shown at a point of the fixed route.
   */
  lemma {:induction false} ReachableFromInitial(es: seq<Event>)
    ensures var t := Run(Initial(), es);
      (t.route == [] ==> t.driverLocation == None && LiveTimers(t) == 0) &&
      (t.route != [] ==>
        t.route == FixedRoute() && t.index < 3 &&
        exists j :: 0 <= j < 3 && t.driverLocation == Some(FixedRoute()[j].coordinate))
  {
    RunKeepsReachable(Initial(), es);
    ReachableShowsRoutePoint(Run(Initial(), es));
  }

  /** No operation ever releases an orphaned timer. */
  lemma {:induction false} OrphanedTimersNeverDecrease(s: SimState, es: seq<Event>)
    ensures Run(s, es).orphanedTimers >= s.orphanedTimers
    decreases |es|
  {
    if es != [] {
      OrphanedTimersNeverDecrease(Step(s, es[0]), es[1..]);
    }
  }

  /**
    Starting again while moving leaves two repeating timers scheduled: the held
    one and the orphaned one, and stopping releases only the held one.
   */
  lemma RestartWhileMovingOrphansTimer()
    ensures LiveTimers(Run(Initial(), [Setup, Start, Start])) == 2
    ensures LiveTimers(Run(Initial(), [Setup, Start, Start, Stop])) == 1
  {
  }

  /**
    `setupRoute` does not rewind the cursor: after moving to the end, setting up
    again shows the driver at the first point while the cursor stays at the last,
    so the next tick does not move the driver.
   */
  lemma SetupAfterMoveKeepsCursor()
    ensures var t := Run(Initial(), [Setup, Start, Tick, Tick, Setup]);
      t.index == 2 && t.driverLocation == Some(Coord(37.7749, -122.4194)) &&
      UpdateDriverPosition(t).driverLocation == t.driverLocation
  {
  }
}
