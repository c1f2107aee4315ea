/**
 * `fetchOSMPOIs`: the Overpass query for one category and box, and the normalisation of the
 * returned elements into point-of-interest records. The HTTP exchange itself is a parameter.
 */
module FetchOsm {
  import opened Wrappers
  import opened Types

  /** The Overpass tag selector for a category; an unknown category gets the empty key. */
  function OsmKey(t: PoiType): (key: string)
    ensures t == TOILET ==> key == "amenity=toilets"
    ensures t == DRINKING_WATER ==> key == "amenity=drinking_water"
    ensures t == CAFE ==> key == "amenity=cafe"
    ensures t !in POI_TYPES ==> key == ""
  {
    var key := "";
    var key := if t == TOILET then "amenity=toilets" else key;
    var key := if t == DRINKING_WATER then "amenity=drinking_water" else key;
    if t == CAFE then "amenity=cafe" else key
  }

  /** `(${south},${west},${north},${east})`, given how numbers print. */
  function BoxText(box: BoundingBox, num: real -> string): string
  {
    "(" + num(box.south) + "," + num(box.west) + "," + num(box.north) + "," + num(box.east) + ")"
  }

  /** One selector line of the query: `node`, `way` or `relation` with the key and the box. */
  function SelectorLine(kind: string, key: string, box: BoundingBox, num: real -> string): string
  {
    "      " + kind + "[" + key + "]" + BoxText(box, num) + ";\n"
  }

  const QUERY_HEAD := "\n    [out:json][timeout:25];\n    (\n"
  const QUERY_TAIL := "    );\n    out center;\n  "

  /** The query text sent to the Overpass interpreter. `num` is JavaScript's number-to-string. */
  function QueryText(t: PoiType, box: BoundingBox, num: real -> string): string
  {
    var key := OsmKey(t);
    QUERY_HEAD
    + SelectorLine("node", key, box, num)
    + SelectorLine("way", key, box, num)
    + SelectorLine("relation", key, box, num)
    + QUERY_TAIL
  }

  /** `text` contains `part` starting at `at`. */
  predicate OccursAt(part: string, text: string, at: nat)
  {
    at + |part| <= |text| && text[at..at + |part|] == part
  }

  /**
   * The node, way and relation selectors appear in that order, all with the category's key and
   * the box edges in south, west, north, east order.
   */
  lemma QuerySelectsAllKinds(t: PoiType, box: BoundingBox, num: real -> string)
    ensures OccursAt(SelectorLine("node", OsmKey(t), box, num), QueryText(t, box, num), |QUERY_HEAD|)
    ensures OccursAt(SelectorLine("way", OsmKey(t), box, num), QueryText(t, box, num),
                     |QUERY_HEAD| + |SelectorLine("node", OsmKey(t), box, num)|)
    ensures OccursAt(SelectorLine("relation", OsmKey(t), box, num), QueryText(t, box, num),
                     |QUERY_HEAD| + |SelectorLine("node", OsmKey(t), box, num)| + |SelectorLine("way", OsmKey(t), box, num)|)
  {
    var key := OsmKey(t);
    ThreeInOrder(QUERY_HEAD, SelectorLine("node", key, box, num), SelectorLine("way", key, box, num),
                 SelectorLine("relation", key, box, num), QUERY_TAIL);
  }

  /** Three pieces between a head and a tail occur one after the other. */
  lemma ThreeInOrder(head: string, a: string, b: string, c: string, tail: string)
    ensures OccursAt(a, head + a + b + c + tail, |head|)
    ensures OccursAt(b, head + a + b + c + tail, |head| + |a|)
    ensures OccursAt(c, head + a + b + c + tail, |head| + |a| + |b|)
  {
    var text := head + a + b + c + tail;
    assert text[|head|..|head| + |a|] == a;
    assert text[|head| + |a|..|head| + |a| + |b|] == b;
    assert text[|head| + |a| + |b|..|head| + |a| + |b| + |c|] == c;
  }

  /** An element's `center`, present for ways and relations. */
  datatype Center = Center(lat: Option<real>, lon: Option<real>)

  /** An Overpass element as returned (`out center`). */
  datatype Element = Element(
    id: int,
    lat: Option<real>,
    lon: Option<real>,
    center: Option<Center>,
    tags: Option<map<string, string>>)

  /** The Overpass answer: a non-ok status with its text, or the decoded `elements`. */
  datatype OverpassResponse = NotOk(statusText: string) | Answered(elements: seq<Element>)

  /** `el.tags?.name || type`. */
  function NameOf(el: Element, t: PoiType): (name: string)
    ensures el.tags.Some? && "name" in el.tags.value && el.tags.value["name"] != "" ==> name == el.tags.value["name"]
    ensures !(el.tags.Some? && "name" in el.tags.value && el.tags.value["name"] != "") ==> name == t
  {
    if el.tags.Some? && "name" in el.tags.value && el.tags.value["name"] != "" then el.tags.value["name"] else t
  }

  /** `own ?? center?.x ?? 0`: an explicit 0 is kept. */
  function Coalesce(own: Option<real>, center: Option<Center>, fromCenter: Center -> Option<real>): (x: real)
    ensures own.Some? ==> x == own.value
    ensures own.None? && center.Some? && fromCenter(center.value).Some? ==> x == fromCenter(center.value).value
    ensures own.None? && (center.None? || fromCenter(center.value).None?) ==> x == 0.0
  {
    if own.Some? then own.value
    else if center.Some? && fromCenter(center.value).Some? then fromCenter(center.value).value
    else 0.0
  }

  /** One element as a record: the requested type, source "osm", timestamps `now`. */
  function Normalize(el: Element, t: PoiType, now: string): (p: Poi)
    ensures p.id.None? && p.osmId == el.id && p.poiType == t && p.source == SOURCE_OSM
    ensures p.name == NameOf(el, t)
    ensures p.lat == Coalesce(el.lat, el.center, (c: Center) => c.lat) && p.lon == Coalesce(el.lon, el.center, (c: Center) => c.lon)
    ensures el.tags.Some? ==> p.tags == el.tags
    ensures el.tags.None? ==> p.tags == Some(map[])
    ensures p.createdAt == now && p.updatedAt == now
  {
    Poi(None, el.id, t, SOURCE_OSM, NameOf(el, t),
        Coalesce(el.lat, el.center, (c: Center) => c.lat), Coalesce(el.lon, el.center, (c: Center) => c.lon),
        Some(el.tags.GetOr(map[])), now, now)
  }

  /**
   * `fetchOSMPOIs` once the Overpass exchange is done: a non-ok answer throws, an ok answer
   * yields one record per element, in element order.
   */
  function FetchOsmPois(t: PoiType, response: OverpassResponse, now: string): (r: Result<seq<Poi>>)
    ensures response.NotOk? <==> r.Err?
    ensures r.Err? ==> r.message == "Overpass query failed: " + response.statusText
    ensures r.Ok? ==> |r.value| == |response.elements|
    ensures r.Ok? ==> forall i :: 0 <= i < |r.value| ==> r.value[i] == Normalize(response.elements[i], t, now)
    ensures r.Ok? ==> forall p :: p in r.value ==> p.poiType == t && p.source == SOURCE_OSM
  {
    match response
    case NotOk(statusText) => Err("Overpass query failed: " + statusText)
    case Answered(elements) =>
      Ok(seq(|elements|, i requires 0 <= i < |elements| => Normalize(elements[i], t, now)))
  }
}
