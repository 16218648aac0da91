/**
  The map view model: the object that owns the route, the cursor into it, the
  driver's published location and the repeating timer that moves the driver.
  Each method updates the fields in place and is proved to follow the matching
  transition function of module Simulation, so every lemma proved there holds
  of the object.
 */
module ViewModel {
  import opened Wrappers
  import opened Route
  import Simulation

  class MapViewModel {
    /** The driver's current location, `nil` until a route is set up. */
    var driverLocation: Option<Coord>
    /** The route the driver follows. */
    var route: seq<RoutePoint>
    /** Whether the timer held in the `timer` field is scheduled and not invalidated. */
    var timerValid: bool
    /** Repeating timers replaced in `timer` while still valid; nothing invalidates them. */
    var orphanedTimers: nat
    /** The index of the route point the driver is at. */
    var currentRouteIndex: nat

    /** The abstract state of this object. */
    ghost function State(): Simulation.SimState
      reads this
    {
      Simulation.SimState(route, currentRouteIndex, driverLocation, timerValid, orphanedTimers)
    }

    /** The object invariant: the state is one a fresh view model can reach. */
    ghost predicate Valid()
      reads this
    {
      Simulation.Reachable(State())
    }

    constructor ()
      ensures route == [] && currentRouteIndex == 0 && driverLocation == None
      ensures !timerValid && orphanedTimers == 0
      ensures State() == Simulation.Initial() && Valid()
    {
      driverLocation := None;
      route := [];
      timerValid := false;
      orphanedTimers := 0;
      currentRouteIndex := 0;
    }

    /** Load the fixed three-point route and show the driver at its first point. */
    method SetupRoute()
      modifies this
      ensures route == Simulation.FixedRoute()
      ensures driverLocation == Some(route[0].coordinate)
      ensures currentRouteIndex == old(currentRouteIndex)
      ensures timerValid == old(timerValid) && orphanedTimers == old(orphanedTimers)
      ensures State() == Simulation.SetupRoute(old(State()))
      ensures old(Valid()) ==> Valid()
    {
      route := Simulation.FixedRoute();
      driverLocation := Simulation.FirstCoordinate(route);
    }

    /**
      Rewind to the first point and schedule a new repeating timer; ignored on
      an empty route.  The timer held before is replaced without being
      invalidated, so if it was still valid it becomes an orphan.
     */
    method StartDriverMovement()
      modifies this
      ensures route == old(route)
      ensures old(route) == [] ==>
        currentRouteIndex == old(currentRouteIndex) && driverLocation == old(driverLocation) &&
        timerValid == old(timerValid) && orphanedTimers == old(orphanedTimers)
      ensures old(route) != [] ==>
        currentRouteIndex == 0 && driverLocation == Some(route[0].coordinate) && timerValid &&
        orphanedTimers == if old(timerValid) then old(orphanedTimers) + 1 else old(orphanedTimers)
      ensures State() == Simulation.StartDriverMovement(old(State()))
      ensures old(Valid()) ==> Valid()
    {
      if route == [] {
        return;
      }
      currentRouteIndex := 0;
      driverLocation := Some(route[currentRouteIndex].coordinate);
      if timerValid {
        orphanedTimers := orphanedTimers + 1;
      }
      timerValid := true;
    }

    /**
      One timer callback, running `updateDriverPosition`: move to the next
      point, or invalidate the held timer when there is none.  Any field values
      are accepted, so no route access can be out of bounds.
     */
    method Tick()
      modifies this
      ensures route == old(route) && orphanedTimers == old(orphanedTimers)
      ensures old(currentRouteIndex) + 1 < |route| ==>
        currentRouteIndex == old(currentRouteIndex) + 1 &&
        driverLocation == Some(route[currentRouteIndex].coordinate) &&
        timerValid == old(timerValid)
      ensures |route| <= old(currentRouteIndex) + 1 ==>
        currentRouteIndex == old(currentRouteIndex) && driverLocation == old(driverLocation) &&
        !timerValid
      ensures State() == Simulation.UpdateDriverPosition(old(State()))
      ensures old(Valid()) ==> Valid()
    {
      if !(currentRouteIndex < |route| - 1) {
        timerValid := false;
        return;
      }
      currentRouteIndex := currentRouteIndex + 1;
      driverLocation := Some(route[currentRouteIndex].coordinate);
    }

    /** Invalidate the held timer; the route, the cursor and the location stay. */
    method StopDriverMovement()
      modifies this
      ensures !timerValid
      ensures route == old(route) && currentRouteIndex == old(currentRouteIndex)
      ensures driverLocation == old(driverLocation) && orphanedTimers == old(orphanedTimers)
      ensures State() == Simulation.StopDriverMovement(old(State()))
      ensures old(Valid()) ==> Valid()
    {
      timerValid := false;
    }
  }

  /**
    What the object invariant buys a client: a valid view model either has no
    route, no location and no live timer, or holds the fixed route with the
    cursor on it and the driver shown at one of its three points.
   */
  lemma ValidShowsRoutePoint(vm: MapViewModel)
    requires vm.Valid()
    ensures vm.route == [] ==>
      vm.driverLocation == None && !vm.timerValid && vm.orphanedTimers == 0
    ensures vm.route != [] ==>
      vm.route == Simulation.FixedRoute() && vm.currentRouteIndex < 3 &&
      exists j :: 0 <= j < 3 && vm.driverLocation == Some(Simulation.FixedRoute()[j].coordinate)
  {
    Simulation.ReachableShowsRoutePoint(vm.State());
  }

  /**
    A fresh view model has no route; after setup it holds three points and
    shows the driver at (37.7749, -122.4194).
   */
  method SetupRouteTest() returns (wasEmpty: bool, count: nat, location: Option<Coord>)
    ensures wasEmpty && count == 3
    ensures location == Some(Coord(37.7749, -122.4194))
  {
    var vm := new MapViewModel();
    wasEmpty := vm.route == [];
    vm.SetupRoute();
    count := |vm.route|;
    location := vm.driverLocation;
  }

  /**
    Setup then start shows the driver at the first point; each tick moves it
    one point on until the third, where a further tick leaves it in place and
    releases the timer.
   */
  method DriverMovementTest() returns (atStart: Option<Coord>, afterOne: Option<Coord>,
                                       afterTwo: Option<Coord>, afterThree: Option<Coord>,
                                       timerStillValid: bool)
    ensures atStart == Some(Coord(37.7749, -122.4194))
    ensures afterOne == Some(Coord(37.7849, -122.4094))
    ensures afterTwo == Some(Coord(37.7949, -122.3994))
    ensures afterThree == afterTwo && !timerStillValid
  {
    var vm := new MapViewModel();
    vm.SetupRoute();
    vm.StartDriverMovement();
    atStart := vm.driverLocation;
    vm.Tick();
    afterOne := vm.driverLocation;
    vm.Tick();
    afterTwo := vm.driverLocation;
    vm.Tick();
    afterThree := vm.driverLocation;
    timerStillValid := vm.timerValid;
  }

  /**
    Starting twice leaves the driver rewound and two repeating timers
    scheduled; stopping afterwards releases only the held one.
   */
  method RestartTest() returns (index: nat, liveBeforeStop: nat, liveAfterStop: nat)
    ensures index == 0 && liveBeforeStop == 2 && liveAfterStop == 1
  {
    var vm := new MapViewModel();
    vm.SetupRoute();
    vm.StartDriverMovement();
    vm.Tick();
    vm.StartDriverMovement();
    index := vm.currentRouteIndex;
    liveBeforeStop := (if vm.timerValid then 1 else 0) + vm.orphanedTimers;
    vm.StopDriverMovement();
    liveAfterStop := (if vm.timerValid then 1 else 0) + vm.orphanedTimers;
  }
}
