/**
 * The records shared by the server routes, the seeder and the map: a point of interest as the
 * client sees it, a point-of-interest document as MongoDB stores it, a loaded route and a
 * bounding box. Coordinates are exact reals (degrees).
 */
module Types {
  import opened Wrappers

  /**
   * A point-of-interest category. The TypeScript union "toilet" | "drinking_water" | "cafe" is
   * only ever produced by unchecked casts, so any string can reach a field of this type.
   */
  type PoiType = string

  const TOILET: PoiType := "toilet"
  const DRINKING_WATER: PoiType := "drinking_water"
  const CAFE: PoiType := "cafe"

  /** The three categories in the order the seeder and the type buttons use. */
  const POI_TYPES: seq<PoiType> := [TOILET, DRINKING_WATER, CAFE]

  /** Where a record came from ("osm" | "yelp"). */
  type PoiSource = string

  const SOURCE_OSM: PoiSource := "osm"

  /**
   * A point of interest (POI). `id` is MongoDB's `_id` (absent before the record is stored),
   * `osmId` the identifier in the upstream source, `tags` the raw upstream tags (optional).
   */
  datatype Poi = Poi(
    id: Option<string>,
    osmId: int,
    poiType: PoiType,
    source: PoiSource,
    name: string,
    lat: real,
    lon: real,
    tags: Option<map<string, string>>,
    createdAt: string,
    updatedAt: string)

  /** A stored timestamp: a BSON date, or whatever else was written into the field. */
  datatype Stamp = DateValue(iso: string) | OtherValue(text: string)

  /**
   * A document of the `pois` collection as the driver returns it. `id` is the stringified
   * `_id`; `tags` is absent when the document has none.
   */
  datatype Doc = Doc(
    id: string,
    osmId: int,
    poiType: PoiType,
    source: PoiSource,
    name: string,
    lat: real,
    lon: real,
    tags: Option<map<string, string>>,
    createdAt: Stamp,
    updatedAt: Stamp)

  /** A `[lat, lng]` pair. */
  type Coord = (real, real)

  /** A loaded route in the shape the route context stores. */
  datatype RouteData = RouteData(id: string, name: Option<string>, coordinates: seq<Coord>)

  /** A route vertex as the desktop and hook GPX parsers keep it (both readings are numbers). */
  datatype LatLon = LatLon(lat: real, lon: real)

  /** A route vertex as the mobile toolbar's GPX parser keeps it; `None` stands for NaN. */
  datatype GpxPoint = GpxPoint(lat: Option<real>, lon: Option<real>)

  /** What the mobile toolbar's GPX parser hands to the map: `{ name, points }`. */
  datatype ParsedGpx = ParsedGpx(name: string, points: seq<GpxPoint>)

  /** A box given by its south, west, north and east edges (degrees). */
  datatype BoundingBox = BoundingBox(south: real, west: real, north: real, east: real)

  /** The box contains the point, edges included. */
  predicate InBox(box: BoundingBox, lat: real, lon: real)
  {
    box.south <= lat <= box.north && box.west <= lon <= box.east
  }
}

/**
 * Next.js request query values. A query key maps to a string, to a list of strings when the key
 * is repeated, or is absent (`Option.None`). Each value carries what `parseFloat` and
 * `parseInt(_, 10)` read from it; `None` there stands for NaN.
 */
module Query {
  import opened Wrappers

  datatype QueryValue = Single(text: string) | Multi(items: seq<string>)

  datatype Param = Param(value: QueryValue, number: Option<real>, integer: Option<int>)

  /** JavaScript truthiness of `req.query[key]`: present, and not the empty string. */
  predicate Truthy(p: Option<Param>)
  {
    p.Some? && !(p.value.value.Single? && p.value.value.text == "")
  }

  /** `parseFloat(req.query[key])`; an absent key parses to NaN. */
  function Number(p: Option<Param>): (r: Option<real>)
    ensures p.None? ==> r.None?
  {
    if p.None? then None else p.value.number
  }
}
