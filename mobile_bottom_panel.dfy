/**
 * The mobile bottom panel: a three-state panel (collapsed, search, expanded) driven by touch
 * gestures, the search field, result selection and the backdrop.
 */
module MobileBottomPanel {
  import opened Wrappers
  import RouteContext
  import SearchCommon
  import opened Text

  datatype PanelState = Collapsed | Search | Expanded

  /** A search result as the panel lists it. */
  datatype PanelResult = PanelResult(id: int, lat: real, lng: real, name: string, address: Option<string>)

  /** The two placeholder results the panel shows for any query longer than two UTF-16 code units. */
  const SIMULATED_RESULTS: seq<PanelResult> := [
    PanelResult(1, 37.7749, -122.4194, "Starbucks Coffee", Some("123 Main St")),
    PanelResult(2, 37.7694, -122.4862, "Golden Gate Park", Some("San Francisco, CA"))
  ]

  /** An upward swipe longer than this many pixels expands the panel. */
  const SWIPE_THRESHOLD: real := 50.0

  /** The results for a query: the placeholders iff `query.length` is more than two. */
  function ResultsFor(query: string): (r: seq<PanelResult>)
    ensures Utf16Length(query) > 2 ==> r == SIMULATED_RESULTS
    ensures Utf16Length(query) <= 2 ==> r == []
  {
    if Utf16Length(query) > 2 then SIMULATED_RESULTS else []
  }

  /**
   * Three characters always pass the gate, one never does; two characters pass exactly when one
   * of them lies above U+FFFF (and so counts twice in `query.length`).
   */
  lemma ResultsForByCharacters(query: string)
    ensures |query| >= 3 ==> ResultsFor(query) == SIMULATED_RESULTS
    ensures |query| <= 1 ==> ResultsFor(query) == []
    ensures |query| == 2 ==>
      (ResultsFor(query) == SIMULATED_RESULTS <==> query[0] as int > 0xFFFF || query[1] as int > 0xFFFF)
  {
    if |query| == 2 {
      assert query[..1][..0] == [];
      assert Utf16Length(query) == Utf16Units(query[0]) + Utf16Units(query[1]);
    }
  }

  class PanelModel {
    var panelState: PanelState
    var searchQuery: string
    var searchResults: seq<PanelResult>
    var startY: real
    var isDragging: bool

    /** Collapsed, with an empty query and no results. */
    constructor ()
      ensures panelState == Collapsed && searchQuery == "" && searchResults == []
      ensures startY == 0.0 && !isDragging
    {
      panelState := Collapsed;
      searchQuery := "";
      searchResults := [];
      startY := 0.0;
      isDragging := false;
    }

    /** `handleTouchStart`: remembers where the finger went down and starts dragging. */
    method TouchStart(clientY: real)
      modifies this
      ensures startY == clientY && isDragging
      ensures panelState == old(panelState) && searchQuery == old(searchQuery) && searchResults == old(searchResults)
    {
      startY := clientY;
      isDragging := true;
    }

    /**
     * `handleTouchMove`: while dragging, an upward movement of more than 50 pixels expands the
     * panel and ends the drag; anything else changes nothing.
     */
    method TouchMove(clientY: real)
      modifies this
      ensures old(isDragging) && old(startY) - clientY > SWIPE_THRESHOLD ==> panelState == Expanded && !isDragging
      ensures !(old(isDragging) && old(startY) - clientY > SWIPE_THRESHOLD) ==>
        panelState == old(panelState) && isDragging == old(isDragging)
      ensures startY == old(startY) && searchQuery == old(searchQuery) && searchResults == old(searchResults)
    {
      if !isDragging {
        return;
      }
      var deltaY := startY - clientY;
      if deltaY > SWIPE_THRESHOLD {
        panelState := Expanded;
        isDragging := false;
      }
    }

    /** `handleTouchEnd`. */
    method TouchEnd()
      modifies this
      ensures !isDragging
      ensures startY == old(startY) && panelState == old(panelState)
      ensures searchQuery == old(searchQuery) && searchResults == old(searchResults)
    {
      isDragging := false;
    }

    /** `handleSearchFocus`: the panel moves to the search state. */
    method SearchFocus()
      modifies this
      ensures panelState == Search
      ensures searchQuery == old(searchQuery) && searchResults == old(searchResults)
      ensures startY == old(startY) && isDragging == old(isDragging)
    {
      panelState := Search;
    }

    /** `handleSearchChange`: stores the query and the results for it. */
    method SearchChange(query: string)
      modifies this
      ensures searchQuery == query && searchResults == ResultsFor(query)
      ensures panelState == old(panelState) && startY == old(startY) && isDragging == old(isDragging)
    {
      searchQuery := query;
      if Utf16Length(query) > 2 {
        searchResults := SIMULATED_RESULTS;
      } else {
        searchResults := [];
      }
    }

    /**
     * `handleResultSelect`: hands the result's coordinates and name to `onLocationSelect`, shows
     * the name, empties the results and collapses the panel.
     */
    method ResultSelect(result: PanelResult) returns (handed: SearchCommon.LocationChoice)
      modifies this
      ensures handed == SearchCommon.LocationChoice(Some(result.lat), Some(result.lng), result.name)
      ensures panelState == Collapsed && searchQuery == result.name && searchResults == []
      ensures startY == old(startY) && isDragging == old(isDragging)
    {
      handed := SearchCommon.LocationChoice(Some(result.lat), Some(result.lng), result.name);
      searchQuery := result.name;
      searchResults := [];
      panelState := Collapsed;
    }

    /** `handleBackdropClick`: from search or expanded, collapses and clears; from collapsed, nothing. */
    method BackdropClick()
      modifies this
      ensures old(panelState) != Collapsed ==> panelState == Collapsed && searchQuery == "" && searchResults == []
      ensures old(panelState) == Collapsed ==>
        (panelState == Collapsed && searchQuery == old(searchQuery) && searchResults == old(searchResults))
      ensures startY == old(startY) && isDragging == old(isDragging)
    {
      if panelState != Collapsed {
        panelState := Collapsed;
        searchQuery := "";
        searchResults := [];
      }
    }

    /** The "Remove Route" button: removes the route from the shared context and collapses the panel. */
    method RemoveRouteClick(route: RouteContext.RouteProvider)
      modifies this, route
      ensures panelState == Collapsed
      ensures route.routeData.None? && !route.showRouteDisplay
      ensures route.showAdjacentPOIs == old(route.showAdjacentPOIs)
      ensures searchQuery == old(searchQuery) && searchResults == old(searchResults)
      ensures startY == old(startY) && isDragging == old(isDragging)
    {
      route.RemoveRoute();
      panelState := Collapsed;
    }
  }

  /** After any result is selected, a backdrop click changes nothing. */
  method SelectThenBackdrop(panel: PanelModel, result: PanelResult)
    returns (handed: SearchCommon.LocationChoice)
    modifies panel
    ensures handed.displayName == result.name
    ensures panel.panelState == Collapsed && panel.searchQuery == result.name && panel.searchResults == []
  {
    handed := panel.ResultSelect(result);
    panel.BackdropClick();
  }
}
