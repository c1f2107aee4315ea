/** The `useRouteDisplay` hook: a local route-visibility flag that follows route loads. */
module RouteDisplay {
  import opened Wrappers
  import opened Types

  class RouteDisplayState {
    var showRouteDisplay: bool

    /** The route is shown initially. */
    constructor ()
      ensures showRouteDisplay
    {
      showRouteDisplay := true;
    }

    /** `toggleRouteDisplay`. */
    method Toggle()
      modifies this
      ensures showRouteDisplay == !old(showRouteDisplay)
    {
      showRouteDisplay := !showRouteDisplay;
    }

    /** `hideRoute`. */
    method Hide()
      modifies this
      ensures !showRouteDisplay
    {
      showRouteDisplay := false;
    }

    /** `showRoute`. */
    method Show()
      modifies this
      ensures showRouteDisplay
    {
      showRouteDisplay := true;
    }

    /** The effect run when the context's route changes: a loaded route is shown, no route changes nothing. */
    method OnRouteChange(routeData: Option<RouteData>)
      modifies this
      ensures routeData.Some? ==> showRouteDisplay
      ensures routeData.None? ==> showRouteDisplay == old(showRouteDisplay)
    {
      if routeData.Some? {
        showRouteDisplay := true;
      }
    }
  }

  /** `hasRoute`: `!!routeData`. */
  function HasRoute(routeData: Option<RouteData>): (b: bool)
    ensures b <==> routeData != None
  {
    routeData.Some?
  }

  /** Toggling twice restores the flag. */
  method ToggleTwice(d: RouteDisplayState)
    modifies d
    ensures d.showRouteDisplay == old(d.showRouteDisplay)
  {
    d.Toggle();
    d.Toggle();
  }
}
