/**
 * The GPX parsers. The XML document is given as what the DOM queries return: the first track
 * and route names, the `trkpt`/`rtept` elements in document order, and the same points grouped
 * by track and segment or by route. Each point carries its two attributes as read.
 */
module Gpx {
  import opened Wrappers
  import opened Types
  import opened Seqs
  import opened Text

  /** A `lat`/`lon` attribute: absent, or its text with what `parseFloat` makes of it (None is NaN). */
  datatype Attr = Missing | Present(text: string, parsed: Option<real>)

  /** `parseFloat(el.getAttribute(name) || "0")`: an absent or empty attribute reads as 0. */
  function Reading(a: Attr): (x: Option<real>)
    ensures a.Missing? ==> x == Some(0.0)
    ensures a.Present? && a.text == "" ==> x == Some(0.0)
    ensures a.Present? && a.text != "" ==> x == a.parsed
  {
    if a.Missing? || a.text == "" then Some(0.0) else a.parsed
  }

  datatype RawPoint = RawPoint(lat: Attr, lon: Attr)

  /**
   * A parsed GPX document. `trkName`/`rteName` are the text of the first `trk name` and
   * `rte name` elements; `points` are all `trkpt, rtept` elements in document order; `tracks`
   * lists, per `trk`, per `trkseg`, its `trkpt` elements; `routes` lists, per `rte`, its `rtept`.
   */
  datatype GpxDocument = GpxDocument(
    trkName: Option<string>,
    rteName: Option<string>,
    points: seq<RawPoint>,
    tracks: seq<seq<seq<RawPoint>>>,
    routes: seq<seq<RawPoint>>)

  const DEFAULT_ROUTE_NAME := "Imported Route"

  /** The track name, else the route name, else "Imported Route" (empty text falls through). */
  function RouteName(doc: GpxDocument): (name: string)
    ensures doc.trkName.Some? && doc.trkName.value != "" ==> name == doc.trkName.value
    ensures (doc.trkName.None? || doc.trkName.value == "") && doc.rteName.Some? && doc.rteName.value != "" ==> name == doc.rteName.value
    ensures (doc.trkName.None? || doc.trkName.value == "") && (doc.rteName.None? || doc.rteName.value == "") ==> name == DEFAULT_ROUTE_NAME
    ensures name != ""
  {
    if doc.trkName.Some? && doc.trkName.value != "" then doc.trkName.value
    else if doc.rteName.Some? && doc.rteName.value != "" then doc.rteName.value
    else DEFAULT_ROUTE_NAME
  }

  // ---- The flat parser of the route-upload hook and the desktop map button ----

  /** JavaScript truthiness of a number: neither 0 nor NaN. */
  predicate NumberTruthy(x: Option<real>)
  {
    x.Some? && x.value != 0.0
  }

  /** `if (lat && lon)`. */
  predicate KeepFlat(p: RawPoint)
  {
    NumberTruthy(Reading(p.lat)) && NumberTruthy(Reading(p.lon))
  }

  /** `{ lat, lon }` of a kept point (both readings are numbers then). */
  function FlatVertex(p: RawPoint): LatLon
  {
    LatLon(Reading(p.lat).GetOr(0.0), Reading(p.lon).GetOr(0.0))
  }

  /** The points the flat parser keeps: one pass over `trkpt, rtept` in document order. */
  function FlatPoints(raw: seq<RawPoint>): seq<LatLon>
  {
    KeepMap(raw, KeepFlat, FlatVertex)
  }

  /**
   * A vertex is kept iff both readings are non-zero numbers; each kept vertex is such a point's
   * pair of readings; pieces of the document contribute in document order.
   */
  lemma FlatPointsExactly(raw: seq<RawPoint>)
    ensures forall v :: v in FlatPoints(raw) ==> v.lat != 0.0 && v.lon != 0.0
    ensures forall v :: v in FlatPoints(raw) ==>
      exists i :: 0 <= i < |raw| && Reading(raw[i].lat) == Some(v.lat) && Reading(raw[i].lon) == Some(v.lon)
    ensures forall i :: 0 <= i < |raw| && KeepFlat(raw[i]) ==>
      LatLon(Reading(raw[i].lat).value, Reading(raw[i].lon).value) in FlatPoints(raw)
    ensures forall a, b :: raw == a + b ==> FlatPoints(raw) == FlatPoints(a) + FlatPoints(b)
  {
    KeepMapMember(raw, KeepFlat, FlatVertex);
    forall v | v in FlatPoints(raw)
      ensures v.lat != 0.0 && v.lon != 0.0
      ensures exists i :: 0 <= i < |raw| && Reading(raw[i].lat) == Some(v.lat) && Reading(raw[i].lon) == Some(v.lon)
    {
      var j :| 0 <= j < |FlatPoints(raw)| && FlatPoints(raw)[j] == v;
      var i :| 0 <= i < |raw| && KeepFlat(raw[i]) && FlatVertex(raw[i]) == v;
    }
    forall a, b | raw == a + b ensures FlatPoints(raw) == FlatPoints(a) + FlatPoints(b) {
      KeepMapAppend(a, b, KeepFlat, FlatVertex);
    }
  }

  /** `parseGPX` of the hook and the map button: a `forEach` pushing the kept points. */
  method ParseFlat(doc: GpxDocument) returns (name: string, points: seq<LatLon>)
    ensures name == RouteName(doc)
    ensures points == FlatPoints(doc.points)
  {
    name := RouteName(doc);
    points := [];
    for i := 0 to |doc.points|
      invariant points == FlatPoints(doc.points[..i])
    {
      var point := doc.points[i];
      var lat := Reading(point.lat);
      var lon := Reading(point.lon);
      if lat.Some? && lat.value != 0.0 && lon.Some? && lon.value != 0.0 {
        points := points + [LatLon(lat.value, lon.value)];
      }
      KeepMapSnoc(doc.points[..i], point, KeepFlat, FlatVertex);
      assert doc.points[..i + 1] == doc.points[..i] + [point];
    }
    assert doc.points[..|doc.points|] == doc.points;
  }

  /** `parsed.points.map(p => [p.lat, p.lon])`. */
  function ToCoordinates(points: seq<LatLon>): (coords: seq<Coord>)
    ensures |coords| == |points|
    ensures forall i :: 0 <= i < |points| ==> coords[i].0 == points[i].lat && coords[i].1 == points[i].lon
  {
    seq(|points|, i requires 0 <= i < |points| => (points[i].lat, points[i].lon))
  }

  /** The pairs read back as vertices. */
  function FromCoordinates(coords: seq<Coord>): (points: seq<LatLon>)
    ensures |points| == |coords|
  {
    seq(|coords|, i requires 0 <= i < |coords| => LatLon(coords[i].0, coords[i].1))
  }

  /** The conversion to pairs loses nothing: reading the pairs back gives the vertices. */
  lemma CoordinatesRoundTrip(points: seq<LatLon>)
    ensures FromCoordinates(ToCoordinates(points)) == points
  {
    var back := FromCoordinates(ToCoordinates(points));
    forall i | 0 <= i < |points| ensures back[i] == points[i] {
    }
  }

  // ---- The mobile toolbar's parser ----

  /** `if (lat !== 0 && lon !== 0)`: NaN is kept. */
  predicate KeepNonZero(p: RawPoint)
  {
    Reading(p.lat) != Some(0.0) && Reading(p.lon) != Some(0.0)
  }

  function ToolbarVertex(p: RawPoint): GpxPoint
  {
    GpxPoint(Reading(p.lat), Reading(p.lon))
  }

  /** The kept points of a list of point groups, group after group. */
  function GroupsKept(groups: seq<seq<RawPoint>>): seq<GpxPoint>
  {
    if groups == [] then []
    else GroupsKept(groups[..|groups| - 1]) + KeepMap(groups[|groups| - 1], KeepNonZero, ToolbarVertex)
  }

  /** The kept points of every track, segment after segment, track after track. */
  function TracksKept(tracks: seq<seq<seq<RawPoint>>>): seq<GpxPoint>
  {
    if tracks == [] then []
    else TracksKept(tracks[..|tracks| - 1]) + GroupsKept(tracks[|tracks| - 1])
  }

  /** The toolbar's points: the track points, or the route points when the tracks gave none. */
  function ToolbarPoints(doc: GpxDocument): seq<GpxPoint>
  {
    var fromTracks := TracksKept(doc.tracks);
    if fromTracks != [] then fromTracks else GroupsKept(doc.routes)
  }

  /** Concatenation of point groups in order. */
  function Concat(groups: seq<seq<RawPoint>>): seq<RawPoint>
  {
    if groups == [] then [] else Concat(groups[..|groups| - 1]) + groups[|groups| - 1]
  }

  /** All `trkpt` elements of all tracks, in document order. */
  function TrackPoints(tracks: seq<seq<seq<RawPoint>>>): seq<RawPoint>
  {
    if tracks == [] then [] else TrackPoints(tracks[..|tracks| - 1]) + Concat(tracks[|tracks| - 1])
  }

  /** The nested group walk is one pass over the points in document order. */
  lemma {:induction false} GroupsKeptInOrder(groups: seq<seq<RawPoint>>)
    ensures GroupsKept(groups) == KeepMap(Concat(groups), KeepNonZero, ToolbarVertex)
  {
    if groups != [] {
      var init := groups[..|groups| - 1];
      GroupsKeptInOrder(init);
      KeepMapAppend(Concat(init), groups[|groups| - 1], KeepNonZero, ToolbarVertex);
    }
  }

  /** The track walk is one pass over all track points in document order. */
  lemma {:induction false} TracksKeptInOrder(tracks: seq<seq<seq<RawPoint>>>)
    ensures TracksKept(tracks) == KeepMap(TrackPoints(tracks), KeepNonZero, ToolbarVertex)
  {
    if tracks != [] {
      var init := tracks[..|tracks| - 1];
      TracksKeptInOrder(init);
      GroupsKeptInOrder(tracks[|tracks| - 1]);
      KeepMapAppend(TrackPoints(init), Concat(tracks[|tracks| - 1]), KeepNonZero, ToolbarVertex);
    }
  }

  /**
   * Route points are used only when no track point survives: with a kept track point the
   * result is exactly the kept track points; otherwise exactly the kept route points.
   */
  lemma RoutesOnlyAsFallback(doc: GpxDocument)
    ensures (exists i :: 0 <= i < |TrackPoints(doc.tracks)| && KeepNonZero(TrackPoints(doc.tracks)[i])) ==>
      ToolbarPoints(doc) == KeepMap(TrackPoints(doc.tracks), KeepNonZero, ToolbarVertex)
    ensures (forall i :: 0 <= i < |TrackPoints(doc.tracks)| ==> !KeepNonZero(TrackPoints(doc.tracks)[i])) ==>
      ToolbarPoints(doc) == KeepMap(Concat(doc.routes), KeepNonZero, ToolbarVertex)
  {
    TracksKeptInOrder(doc.tracks);
    GroupsKeptInOrder(doc.routes);
    KeepMapEmpty(TrackPoints(doc.tracks), KeepNonZero, ToolbarVertex);
  }

  /** No kept vertex has a zero coordinate, and a point with a missing attribute is dropped. */
  lemma ToolbarDropsOnlyZero(doc: GpxDocument)
    ensures forall v :: v in ToolbarPoints(doc) ==> v.lat != Some(0.0) && v.lon != Some(0.0)
    ensures forall p: RawPoint :: p.lat.Missing? || p.lon.Missing? ==> !KeepNonZero(p)
  {
    RoutesOnlyAsFallback(doc);
    var fromTracks := TrackPoints(doc.tracks);
    var fromRoutes := Concat(doc.routes);
    KeepMapMember(fromTracks, KeepNonZero, ToolbarVertex);
    KeepMapMember(fromRoutes, KeepNonZero, ToolbarVertex);
    forall v | v in ToolbarPoints(doc) ensures v.lat != Some(0.0) && v.lon != Some(0.0) {
      var pts := ToolbarPoints(doc);
      var j :| 0 <= j < |pts| && pts[j] == v;
      if pts == KeepMap(fromTracks, KeepNonZero, ToolbarVertex) {
        var i :| 0 <= i < |fromTracks| && KeepNonZero(fromTracks[i]) && ToolbarVertex(fromTracks[i]) == v;
      } else {
        var i :| 0 <= i < |fromRoutes| && KeepNonZero(fromRoutes[i]) && ToolbarVertex(fromRoutes[i]) == v;
      }
    }
  }

  /** The toolbar's parser: nested walks over tracks, then over routes if nothing was kept. */
  method ParseToolbar(doc: GpxDocument) returns (parsed: ParsedGpx)
    ensures parsed.name == RouteName(doc)
    ensures parsed.points == ToolbarPoints(doc)
  {
    var trackPoints: seq<GpxPoint> := [];
    for t := 0 to |doc.tracks|
      invariant trackPoints == TracksKept(doc.tracks[..t])
    {
      var segments := doc.tracks[t];
      trackPoints := PushGroups(trackPoints, segments);
      assert doc.tracks[..t + 1][..t] == doc.tracks[..t];
    }
    assert doc.tracks[..|doc.tracks|] == doc.tracks;
    if |trackPoints| == 0 {
      trackPoints := PushGroups(trackPoints, doc.routes);
    }
    parsed := ParsedGpx(RouteName(doc), trackPoints);
  }

  /** The walk over a list of point groups (segments of a track, or routes), pushing kept points. */
  method PushGroups(acc: seq<GpxPoint>, groups: seq<seq<RawPoint>>) returns (out: seq<GpxPoint>)
    ensures out == acc + GroupsKept(groups)
  {
    out := acc;
    for g := 0 to |groups|
      invariant out == acc + GroupsKept(groups[..g])
    {
      out := PushPoints(out, groups[g]);
      assert groups[..g + 1][..g] == groups[..g];
    }
    assert groups[..|groups|] == groups;
  }

  /** The walk over the points of one group, pushing each point whose readings are not 0. */
  method PushPoints(acc: seq<GpxPoint>, points: seq<RawPoint>) returns (out: seq<GpxPoint>)
    ensures out == acc + KeepMap(points, KeepNonZero, ToolbarVertex)
  {
    out := acc;
    for k := 0 to |points|
      invariant out == acc + KeepMap(points[..k], KeepNonZero, ToolbarVertex)
    {
      var point := points[k];
      var lat := Reading(point.lat);
      var lon := Reading(point.lon);
      if lat != Some(0.0) && lon != Some(0.0) {
        out := out + [GpxPoint(lat, lon)];
      }
      KeepMapSnoc(points[..k], point, KeepNonZero, ToolbarVertex);
      assert points[..k + 1] == points[..k] + [point];
    }
    assert points[..|points|] == points;
  }

  /**
   * The two parsers disagree on an unparsable coordinate: a point whose `lat` reads as NaN is
   * dropped by the flat parser and kept by the toolbar's.
   */
  lemma ParsersDisagreeOnNaN()
    ensures var p := RawPoint(Present("n/a", None), Present("8.5", Some(8.5)));
      var doc := GpxDocument(None, None, [p], [[[p]]], []);
      && FlatPoints(doc.points) == []
      && ToolbarPoints(doc) == [GpxPoint(None, Some(8.5))]
  {
    var p := RawPoint(Present("n/a", None), Present("8.5", Some(8.5)));
    assert KeepMap([p], KeepNonZero, ToolbarVertex) == [GpxPoint(None, Some(8.5))] by {
      assert [p][..0] == [];
    }
    assert GroupsKept([[p]]) == [GpxPoint(None, Some(8.5))] by {
      assert [[p]][..0] == [];
    }
    assert TracksKept([[[p]]]) == [GpxPoint(None, Some(8.5))] by {
      assert [[[p]]][..0] == [];
    }
    assert FlatPoints([p]) == [] by {
      assert [p][..0] == [];
    }
  }

  /** Every point the flat parser keeps the toolbar's parser keeps too. */
  lemma FlatKeptIsToolbarKept(p: RawPoint)
    requires KeepFlat(p)
    ensures KeepNonZero(p) && ToolbarVertex(p) == GpxPoint(Some(FlatVertex(p).lat), Some(FlatVertex(p).lon))
  {
  }

  // ---- The upload handlers of the hook and the map button ----

  /** A chosen file: its name and its parsed content, `None` when reading it threw. */
  datatype GpxFile = GpxFile(name: string, content: Option<GpxDocument>)

  /** `file.name.toLowerCase().endsWith(".gpx")`. */
  predicate IsGpxName(name: string)
  {
    EndsWith(ToLower(name), ".gpx")
  }

  const READ_ERROR := "Error parsing GPX file"
  const TYPE_ERROR := "Only GPX files are supported"
  const EMPTY_ERROR := "No valid GPS points found"

  /** What `handleFileUpload` decides: nothing to do, an error message, or a route to load. */
  datatype UploadOutcome = NoFile | Failed(message: string) | Loaded(route: RouteData)

  /**
   * The decision of the hook's and the map button's upload handler; `now` is
   * `Date.now().toString()`. The file is read before its name is checked.
   */
  function Upload(file: Option<GpxFile>, now: string): (o: UploadOutcome)
    ensures file.None? <==> o.NoFile?
    ensures file.Some? && file.value.content.None? ==> o == Failed(READ_ERROR)
    ensures file.Some? && file.value.content.Some? && !IsGpxName(file.value.name) ==> o == Failed(TYPE_ERROR)
    ensures (file.Some? && file.value.content.Some? && IsGpxName(file.value.name)
             && FlatPoints(file.value.content.value.points) == []) ==> o == Failed(EMPTY_ERROR)
    ensures (file.Some? && file.value.content.Some? && IsGpxName(file.value.name)
             && FlatPoints(file.value.content.value.points) != []) ==> o.Loaded?
    ensures o.Loaded? ==> IsGpxName(file.value.name) && file.value.content.Some?
    ensures o.Loaded? ==> (
      var doc := file.value.content.value;
      && o.route.id == now
      && o.route.name == Some(RouteName(doc))
      && |o.route.coordinates| == |FlatPoints(doc.points)| > 0
      && FromCoordinates(o.route.coordinates) == FlatPoints(doc.points))
  {
    match file
    case None => NoFile
    case Some(f) =>
      if f.content.None? then Failed(READ_ERROR)
      else if !IsGpxName(f.name) then Failed(TYPE_ERROR)
      else
        var doc := f.content.value;
        var points := FlatPoints(doc.points);
        if |points| == 0 then Failed(EMPTY_ERROR)
        else
          CoordinatesRoundTrip(points);
          Loaded(RouteData(now, Some(RouteName(doc)), ToCoordinates(points)))
  }

  /**
   * The extension test ignores case and needs the whole suffix: a name passes iff it has at
   * least four characters and ends in '.', then g or G, p or P, x or X.
   */
  lemma GpxNameExactly(name: string)
    ensures IsGpxName(name) <==>
      && |name| >= 4
      && name[|name| - 4] == '.'
      && (name[|name| - 3] == 'g' || name[|name| - 3] == 'G')
      && (name[|name| - 2] == 'p' || name[|name| - 2] == 'P')
      && (name[|name| - 1] == 'x' || name[|name| - 1] == 'X')
  {
    var n := |name|;
    if n >= 4 {
      var low := ToLower(name);
      assert low[n - 4..] == [LowerChar(name[n - 4]), LowerChar(name[n - 3]), LowerChar(name[n - 2]), LowerChar(name[n - 1])];
    }
  }

  /** Any stem followed by ".gpx" in any mix of cases is accepted. */
  lemma ExtensionIgnoresCase(stem: string, ext: string)
    requires |ext| == 4 && ToLower(ext) == ".gpx"
    ensures IsGpxName(stem + ext)
  {
    assert ToLower(stem + ext) == ToLower(stem) + ToLower(ext);
  }
}
