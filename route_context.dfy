/** The shared route state (`RouteProvider`): the loaded route and two display flags. */
module RouteContext {
  import opened Wrappers
  import opened Types

  class RouteProvider {
    var routeData: Option<RouteData>
    var showAdjacentPOIs: bool
    var showRouteDisplay: bool

    /** No route, adjacency filtering off, route display on. */
    constructor ()
      ensures routeData == None && !showAdjacentPOIs && showRouteDisplay
    {
      routeData := None;
      showAdjacentPOIs := false;
      showRouteDisplay := true;
    }

    /** `loadRoute`: stores the route and shows it; the adjacency flag is untouched. */
    method LoadRoute(route: RouteData)
      modifies this
      ensures routeData == Some(route) && showRouteDisplay
      ensures showAdjacentPOIs == old(showAdjacentPOIs)
    {
      routeData := Some(route);
      showRouteDisplay := true;
    }

    /** `removeRoute`: forgets the route and hides the display; the adjacency flag is untouched. */
    method RemoveRoute()
      modifies this
      ensures routeData == None && !showRouteDisplay
      ensures showAdjacentPOIs == old(showAdjacentPOIs)
    {
      routeData := None;
      showRouteDisplay := false;
    }

    /** `toggleAdjacentPOIs`: flips the adjacency flag only. */
    method ToggleAdjacentPOIs()
      modifies this
      ensures showAdjacentPOIs == !old(showAdjacentPOIs)
      ensures routeData == old(routeData) && showRouteDisplay == old(showRouteDisplay)
    {
      showAdjacentPOIs := !showAdjacentPOIs;
    }

    /** `toggleRouteDisplay`: flips the display flag only. */
    method ToggleRouteDisplay()
      modifies this
      ensures showRouteDisplay == !old(showRouteDisplay)
      ensures routeData == old(routeData) && showAdjacentPOIs == old(showAdjacentPOIs)
    {
      showRouteDisplay := !showRouteDisplay;
    }
  }

  /** Toggling the display twice leaves the whole provider state as it was. */
  method ToggleRouteDisplayTwice(p: RouteProvider)
    modifies p
    ensures p.routeData == old(p.routeData)
    ensures p.showAdjacentPOIs == old(p.showAdjacentPOIs)
    ensures p.showRouteDisplay == old(p.showRouteDisplay)
  {
    p.ToggleRouteDisplay();
    p.ToggleRouteDisplay();
  }
}
