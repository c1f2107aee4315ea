/**
 * The mobile toolbar (`MobileToolbar`): the panel and point-of-interest menu flags and the GPX
 * upload, which hands the toolbar parser's `{ name, points }` to the map and reports failures
 * with an alert.
 */
module MobileToolbar {
  import opened Wrappers
  import opened Types
  import opened Gpx
  import MapView

  const READ_ALERT := "Error reading GPX file. Please check the file format."
  const TYPE_ALERT := "Only GPX files are currently supported"
  const EMPTY_ALERT := "No valid GPS points found in the GPX file"

  /** What the toolbar's upload handler decides. */
  datatype ToolbarOutcome = NothingChosen | Alert(message: string) | Load(parsed: ParsedGpx)

  /** The decision of the toolbar's `handleFileUpload`; the file is read before its name is checked. */
  function ToolbarUpload(file: Option<GpxFile>): (o: ToolbarOutcome)
    ensures file.None? <==> o.NothingChosen?
    ensures file.Some? && file.value.content.None? ==> o == Alert(READ_ALERT)
    ensures file.Some? && file.value.content.Some? && !IsGpxName(file.value.name) ==> o == Alert(TYPE_ALERT)
    ensures (file.Some? && file.value.content.Some? && IsGpxName(file.value.name)
             && ToolbarPoints(file.value.content.value) == []) ==> o == Alert(EMPTY_ALERT)
    ensures (file.Some? && file.value.content.Some? && IsGpxName(file.value.name)
             && ToolbarPoints(file.value.content.value) != []) ==> o.Load?
    ensures o.Load? ==> (
      && file.Some? && file.value.content.Some? && IsGpxName(file.value.name)
      && o.parsed.name == RouteName(file.value.content.value)
      && o.parsed.points == ToolbarPoints(file.value.content.value) != [])
  {
    match file
    case None => NothingChosen
    case Some(f) =>
      if f.content.None? then Alert(READ_ALERT)
      else if !IsGpxName(f.name) then Alert(TYPE_ALERT)
      else
        var doc := f.content.value;
        if ToolbarPoints(doc) == [] then Alert(EMPTY_ALERT)
        else Load(ParsedGpx(RouteName(doc), ToolbarPoints(doc)))
  }

  class ToolbarState {
    var showPanel: bool
    var showPOIMenu: bool

    /** Panel and menu closed. */
    constructor ()
      ensures !showPanel && !showPOIMenu
    {
      showPanel := false;
      showPOIMenu := false;
    }

    /**
     * `handleFileUpload`: without a file nothing happens; a failure returns its alert and loads
     * nothing; otherwise the map receives the parsed route and the panel closes.
     */
    method HandleFileUpload(file: Option<GpxFile>, mapState: MapView.MapState) returns (alert: Option<string>)
      modifies this, mapState
      ensures ToolbarUpload(file).NothingChosen? ==> alert == None && unchanged(this) && unchanged(mapState)
      ensures ToolbarUpload(file).Alert? ==> alert == Some(ToolbarUpload(file).message) && unchanged(this) && unchanged(mapState)
      ensures ToolbarUpload(file).Load? ==> (
        && alert == None && !showPanel && showPOIMenu == old(showPOIMenu)
        && mapState.routeData == Some(MapView.Parsed(ToolbarUpload(file).parsed))
        && mapState.pois == old(mapState.pois) && mapState.showAdjacentPOI == old(mapState.showAdjacentPOI)
        && mapState.mapCenter == old(mapState.mapCenter) && mapState.mapKey == old(mapState.mapKey))
    {
      alert := None;
      if file.None? {
        return;
      }
      var f := file.value;
      if f.content.None? {
        alert := Some(READ_ALERT);
        return;
      }
      if !IsGpxName(f.name) {
        alert := Some(TYPE_ALERT);
        return;
      }
      var parsed := ParseToolbar(f.content.value);
      if |parsed.points| == 0 {
        alert := Some(EMPTY_ALERT);
        return;
      }
      mapState.HandleRouteLoad(MapView.Parsed(parsed));
      showPanel := false;
    }

    /** `handlePOIToggle`: flips the menu flag. */
    method HandlePOIToggle()
      modifies this
      ensures showPOIMenu == !old(showPOIMenu) && showPanel == old(showPanel)
    {
      showPOIMenu := !showPOIMenu;
    }

    /** The menu's `onClose`. */
    method ClosePOIMenu()
      modifies this
      ensures !showPOIMenu && showPanel == old(showPanel)
    {
      showPOIMenu := false;
    }

    /** The route button: flips the panel flag. */
    method TogglePanel()
      modifies this
      ensures showPanel == !old(showPanel) && showPOIMenu == old(showPOIMenu)
    {
      showPanel := !showPanel;
    }
  }
}
