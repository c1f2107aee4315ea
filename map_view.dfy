/**
 * The map component's state and its visible-set filter: the fetched points of interest, the
 * route handed over by a toolbar, the adjacency flag, and the map centre and key.
 */
module MapView {
  import opened Wrappers
  import opened Types
  import opened Seqs

  /**
   * The route the map holds. Toolbars hand over either a `RouteData` (which has
   * `coordinates`) or the mobile parser's `{ name, points }`; the filter reads `.points`.
   */
  datatype MapRoute = Typed(data: RouteData) | Parsed(gpx: ParsedGpx)

  /** `routeData?.points`. */
  function Points(route: Option<MapRoute>): (pts: Option<seq<GpxPoint>>)
    ensures pts.Some? <==> route.Some? && route.value.Parsed?
  {
    match route
    case Some(Parsed(gpx)) => Some(gpx.points)
    case _ => None
  }

  /**
   * The proximity test: flat distance in degrees strictly below 0.01, that is, squared
   * distance strictly below 0.0001. A NaN coordinate makes the comparison false.
   */
  predicate Near(p: Poi, v: GpxPoint)
  {
    && v.lat.Some? && v.lon.Some?
    && (p.lat - v.lat.value) * (p.lat - v.lat.value) + (p.lon - v.lon.value) * (p.lon - v.lon.value) < 1.0 / 10000.0
  }

  /** `routePoints.some(...)`. */
  function AnyNear(p: Poi, pts: seq<GpxPoint>): (b: bool)
    ensures b <==> exists v :: v in pts && Near(p, v)
  {
    if pts == [] then false
    else Near(p, pts[0]) || AnyNear(p, pts[1..])
  }

  /** The category step: `pois.filter(poi => selectedTypes.includes(poi.type))`. */
  function ByCategory(pois: seq<Poi>, selected: seq<PoiType>): seq<Poi>
  {
    Filter(pois, (p: Poi) => p.poiType in selected)
  }

  /** `filteredPois`: the category step, then the proximity step when adjacency is on and the route has points. */
  function FilteredPois(pois: seq<Poi>, selected: seq<PoiType>, showAdjacent: bool, route: Option<MapRoute>): seq<Poi>
  {
    var filtered := ByCategory(pois, selected);
    if showAdjacent && Points(route).Some? then
      var routePoints := Points(route).value;
      Filter(filtered, (p: Poi) => AnyNear(p, routePoints))
    else filtered
  }

  /**
   * Every visible record comes from `pois`, has a selected type, and the visible list keeps the
   * relative order of `pois`.
   */
  lemma FilteredSound(pois: seq<Poi>, selected: seq<PoiType>, showAdjacent: bool, route: Option<MapRoute>)
    ensures forall p :: p in FilteredPois(pois, selected, showAdjacent, route) ==> p in pois && p.poiType in selected
    ensures IsSubsequence(FilteredPois(pois, selected, showAdjacent, route), pois)
  {
    var cat := ByCategory(pois, selected);
    FilterIsSubsequence(pois, (p: Poi) => p.poiType in selected);
    if showAdjacent && Points(route).Some? {
      var pts := Points(route).value;
      FilterIsSubsequence(cat, (p: Poi) => AnyNear(p, pts));
      SubsequenceTransitive(FilteredPois(pois, selected, showAdjacent, route), cat, pois);
    }
    forall p | p in FilteredPois(pois, selected, showAdjacent, route) ensures p in pois && p.poiType in selected {
      var r := FilteredPois(pois, selected, showAdjacent, route);
      var i :| 0 <= i < |r| && r[i] == p;
      assert p in cat;
      var j :| 0 <= j < |cat| && cat[j] == p;
    }
  }

  /** With adjacency off, or a route without a `points` field, only the category step applies. */
  lemma CategoryOnlyWithoutPoints(pois: seq<Poi>, selected: seq<PoiType>, showAdjacent: bool, route: Option<MapRoute>)
    requires !showAdjacent || route.None? || route.value.Typed?
    ensures FilteredPois(pois, selected, showAdjacent, route) == ByCategory(pois, selected)
  {
  }

  /**
   * With adjacency on and route points present, a record is visible iff it is in `pois`, its
   * type is selected, and some route point is nearer than 0.01 degrees.
   */
  lemma AdjacentExactly(pois: seq<Poi>, selected: seq<PoiType>, route: MapRoute, p: Poi)
    requires route.Parsed?
    ensures p in FilteredPois(pois, selected, true, Some(route)) <==>
      p in pois && p.poiType in selected && exists v :: v in route.gpx.points && Near(p, v)
  {
    var cat := ByCategory(pois, selected);
    var r := FilteredPois(pois, selected, true, Some(route));
    if p in r {
      var i :| 0 <= i < |r| && r[i] == p;
      var j :| 0 <= j < |cat| && cat[j] == p;
    }
    if p in pois && p.poiType in selected && AnyNear(p, route.gpx.points) {
      var i :| 0 <= i < |pois| && pois[i] == p;
      assert p in cat;
      var j :| 0 <= j < |cat| && cat[j] == p;
    }
  }

  /** With adjacency on and an empty points list nothing is visible. */
  lemma EmptyRouteShowsNothing(pois: seq<Poi>, selected: seq<PoiType>, name: string)
    ensures FilteredPois(pois, selected, true, Some(Parsed(ParsedGpx(name, [])))) == []
  {
    var cat := ByCategory(pois, selected);
    FilterNone(cat, (p: Poi) => AnyNear(p, []));
  }

  /** What the change test compares: `{ id, lat, lon }` of each record. */
  function Projection(ps: seq<Poi>): (r: seq<(Option<string>, real, real)>)
    ensures |r| == |ps|
    ensures forall i :: 0 <= i < |ps| ==> r[i] == (ps[i].id, ps[i].lat, ps[i].lon)
  {
    seq(|ps|, i requires 0 <= i < |ps| => (ps[i].id, ps[i].lat, ps[i].lon))
  }

  /**
   * The `setPois` updater: the fetched list replaces the stored one only when the projections
   * differ. Either way the stored projection afterwards is the fetched one.
   */
  function NextPois(prev: seq<Poi>, data: seq<Poi>): (next: seq<Poi>)
    ensures Projection(next) == Projection(data)
    ensures next == prev || next == data
    ensures Projection(prev) == Projection(data) ==> next == prev
  {
    if Projection(prev) != Projection(data) then data else prev
  }

  /**
   * What `res.json()` gave `handleBboxUpdate`: nothing, because the fetch or the decoding threw;
   * a JSON value that is not an array; or an array of records.
   */
  datatype PoisAnswer = FetchFailed | NotAnArray | Records(data: seq<Poi>)

  class MapState {
    var pois: seq<Poi>
    var routeData: Option<MapRoute>
    var showAdjacentPOI: bool
    var mapCenter: (real, real)
    var mapKey: int

    /** Empty list, no route, adjacency off, centred on San Francisco, key 0. */
    constructor ()
      ensures pois == [] && routeData == None && !showAdjacentPOI
      ensures mapCenter == (37.7749, -122.4194) && mapKey == 0
    {
      pois := [];
      routeData := None;
      showAdjacentPOI := false;
      mapCenter := (37.7749, -122.4194);
      mapKey := 0;
    }

    /** The visible records for the given category selection. */
    function Visible(selected: seq<PoiType>): seq<Poi>
      reads this
    {
      FilteredPois(pois, selected, showAdjacentPOI, routeData)
    }

    /**
     * `handleBboxUpdate` once `/api/pois` has answered. A failed fetch or JSON decoding is caught
     * and leaves the list as it was. A body that decodes to something other than an array (the
     * route's 500 answer `{ error }`) reaches the `setPois` updater, whose `data.map` throws while
     * React applies it, outside the handler's `try`: `updaterThrew` reports that, and the list
     * is not replaced.
     */
    method HandleBboxUpdate(answer: PoisAnswer) returns (updaterThrew: bool)
      modifies this
      ensures updaterThrew <==> answer.NotAnArray?
      ensures answer.Records? ==> pois == NextPois(old(pois), answer.data)
      ensures !answer.Records? ==> pois == old(pois)
      ensures routeData == old(routeData) && showAdjacentPOI == old(showAdjacentPOI)
      ensures mapCenter == old(mapCenter) && mapKey == old(mapKey)
    {
      updaterThrew := false;
      match answer {
        case FetchFailed =>
        case NotAnArray =>
          updaterThrew := true;
        case Records(data) =>
          if Projection(pois) != Projection(data) {
            pois := data;
          }
      }
    }

    /** `handleLocationSelect`: recentres the map and bumps the key by one. */
    method HandleLocationSelect(lat: real, lng: real)
      modifies this
      ensures mapCenter == (lat, lng) && mapKey == old(mapKey) + 1
      ensures pois == old(pois) && routeData == old(routeData) && showAdjacentPOI == old(showAdjacentPOI)
    {
      mapCenter := (lat, lng);
      mapKey := mapKey + 1;
    }

    /** `handleRouteLoad`. */
    method HandleRouteLoad(route: MapRoute)
      modifies this
      ensures routeData == Some(route)
      ensures pois == old(pois) && showAdjacentPOI == old(showAdjacentPOI)
      ensures mapCenter == old(mapCenter) && mapKey == old(mapKey)
    {
      routeData := Some(route);
    }

    /** `handleRouteRemove`: no route and adjacency off, so only the category step applies. */
    method HandleRouteRemove()
      modifies this
      ensures routeData == None && !showAdjacentPOI
      ensures pois == old(pois) && mapCenter == old(mapCenter) && mapKey == old(mapKey)
      ensures forall selected :: Visible(selected) == ByCategory(pois, selected)
    {
      routeData := None;
      showAdjacentPOI := false;
    }

    /** `handlePOIToggle`. */
    method HandlePOIToggle(show: bool)
      modifies this
      ensures showAdjacentPOI == show
      ensures pois == old(pois) && routeData == old(routeData)
      ensures mapCenter == old(mapCenter) && mapKey == old(mapKey)
    {
      showAdjacentPOI := show;
    }
  }
}
