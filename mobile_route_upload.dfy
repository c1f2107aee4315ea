/** `useMobileRouteUpload`: the route-upload hook's error state and its file handler. */
module MobileRouteUpload {
  import opened Wrappers
  import opened Types
  import opened Gpx
  import RouteContext

  class RouteUpload {
    var error: Option<string>

    /** No error. */
    constructor ()
      ensures error == None
    {
      error := None;
    }

    /**
     * `handleFileUpload`: without a file nothing changes; a failure sets its message and loads
     * nothing; otherwise the parsed route is loaded into the route context and the error cleared.
     */
    method HandleFileUpload(file: Option<GpxFile>, route: RouteContext.RouteProvider, now: string)
      modifies this, route
      ensures Upload(file, now).NoFile? ==> error == old(error) && unchanged(route)
      ensures Upload(file, now).Failed? ==> error == Some(Upload(file, now).message) && unchanged(route)
      ensures Upload(file, now).Loaded? ==>
        && error == None
        && route.routeData == Some(Upload(file, now).route)
        && route.showRouteDisplay
        && route.showAdjacentPOIs == old(route.showAdjacentPOIs)
    {
      if file.None? {
        return;
      }
      var f := file.value;
      if f.content.None? {
        error := Some(READ_ERROR);
        return;
      }
      if !IsGpxName(f.name) {
        error := Some(TYPE_ERROR);
        return;
      }
      var name, points := ParseFlat(f.content.value);
      if |points| == 0 {
        error := Some(EMPTY_ERROR);
        return;
      }
      route.LoadRoute(RouteData(now, Some(name), ToCoordinates(points)));
      error := None;
    }

    /** `clearError`. */
    method ClearError()
      modifies this
      ensures error == None
    {
      error := None;
    }
  }
}
