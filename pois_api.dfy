/**
 * The `/api/pois` route: builds a MongoDB filter from the query parameters one constraint at a
 * time, applies an optional limit to the cursor, and answers the matching documents.
 */
module PoisApi {
  import opened Wrappers
  import opened Types
  import opened Query
  import opened Seqs

  /** The parameters the route reads. */
  datatype PoisQuery = PoisQuery(
    poiType: Option<Param>,
    south: Option<Param>, west: Option<Param>, north: Option<Param>, east: Option<Param>,
    limit: Option<Param>)

  /** Status 405, or status 200 with the documents found. */
  datatype PoisResponse = MethodNotAllowed | Found(docs: seq<Doc>)

  /** `{ $in: types }` or a plain equality on `type`. */
  datatype TypeConstraint = AnyOf(types: seq<PoiType>) | Equals(t: PoiType)

  /** The filter object; a field is `None` while it has not been assigned. */
  datatype PoiFilter = PoiFilter(
    poiType: Option<TypeConstraint>,
    lat: Option<(real, real)>,
    lon: Option<(real, real)>)

  /** A `find(filter)` cursor, possibly with `.limit(n)` applied. */
  datatype Cursor = Cursor(filter: PoiFilter, limit: Option<int>)

  /** How MongoDB matches a document against the filter: every assigned field must hold. */
  predicate Matches(f: PoiFilter, d: Doc)
  {
    (match f.poiType
     case None => true
     case Some(AnyOf(ts)) => d.poiType in ts
     case Some(Equals(t)) => d.poiType == t) &&
    (f.lat.None? || f.lat.value.0 <= d.lat <= f.lat.value.1) &&
    (f.lon.None? || f.lon.value.0 <= d.lon <= f.lon.value.1)
  }

  /** `cursor.limit(n)`: 0 means no limit, a negative `n` limits to `-n` documents. */
  function Limited(docs: seq<Doc>, limit: Option<int>): (r: seq<Doc>)
    ensures limit.None? || limit.value == 0 ==> r == docs
    ensures limit.Some? && limit.value != 0 ==>
      |r| == (if |docs| < Abs(limit.value) then |docs| else Abs(limit.value))
    ensures r == docs[..|r|]
  {
    if limit.None? || limit.value == 0 || |docs| <= Abs(limit.value) then docs
    else docs[..Abs(limit.value)]
  }

  function Abs(n: int): nat
  {
    if n < 0 then -n else n
  }

  /** Running the cursor over the collection: the matching documents in collection order. */
  function Run(c: Cursor, collection: seq<Doc>): seq<Doc>
  {
    Limited(Filter(collection, d => Matches(c.filter, d)), c.limit)
  }

  // What the route promises, stated from the parameters rather than from the filter object.

  /** A `type` parameter admits a document: absent or empty admits all, a list by membership, a string by equality. */
  predicate TypeAdmits(p: Option<Param>, d: Doc)
  {
    !Truthy(p) ||
    (match p.value.value
     case Multi(items) => d.poiType in items
     case Single(text) => d.poiType == text)
  }

  /** The box applies when all four edges are present, non-empty and parse to numbers. */
  predicate BoxApplies(q: PoisQuery)
  {
    Truthy(q.south) && Truthy(q.west) && Truthy(q.north) && Truthy(q.east) &&
    Number(q.south).Some? && Number(q.west).Some? && Number(q.north).Some? && Number(q.east).Some?
  }

  /** The box admits a document: always when it does not apply, else with inclusive edges. */
  predicate BoxAdmits(q: PoisQuery, d: Doc)
  {
    BoxApplies(q) ==>
      InBox(BoundingBox(Number(q.south).value, Number(q.west).value, Number(q.north).value, Number(q.east).value),
            d.lat, d.lon)
  }

  /** The limit applies when it is a single value that parses to an integer. */
  function LimitOf(q: PoisQuery): Option<int>
  {
    if Truthy(q.limit) && q.limit.value.value.Single? && q.limit.value.integer.Some?
    then q.limit.value.integer
    else None
  }

  /** The documents the route answers with. */
  function Answer(q: PoisQuery, collection: seq<Doc>): seq<Doc>
  {
    Limited(Filter(collection, d => TypeAdmits(q.poiType, d) && BoxAdmits(q, d)), LimitOf(q))
  }

  /** The route handler: the filter and the cursor are built one step at a time. */
  method Handle(httpMethod: string, q: PoisQuery, collection: seq<Doc>) returns (r: PoisResponse)
    ensures httpMethod != "GET" <==> r == MethodNotAllowed
    ensures r.Found? ==> r.docs == Answer(q, collection)
  {
    if httpMethod != "GET" {
      return MethodNotAllowed;
    }
    var filter := PoiFilter(None, None, None);
    if Truthy(q.poiType) {
      match q.poiType.value.value {
        case Multi(items) =>
          filter := filter.(poiType := Some(AnyOf(items)));
        case Single(text) =>
          filter := filter.(poiType := Some(Equals(text)));
      }
    }
    if Truthy(q.south) && Truthy(q.west) && Truthy(q.north) && Truthy(q.east) {
      var s, w, n, e := Number(q.south), Number(q.west), Number(q.north), Number(q.east);
      if s.Some? && w.Some? && n.Some? && e.Some? {
        filter := filter.(lat := Some((s.value, n.value)));
        filter := filter.(lon := Some((w.value, e.value)));
      }
    }
    var cursor := Cursor(filter, None);
    if Truthy(q.limit) && q.limit.value.value.Single? {
      var parsedLimit := q.limit.value.integer;
      if parsedLimit.Some? {
        cursor := cursor.(limit := parsedLimit);
      }
    }
    assert forall d :: Matches(filter, d) == (TypeAdmits(q.poiType, d) && BoxAdmits(q, d));
    assert Filter(collection, d => Matches(cursor.filter, d))
        == Filter(collection, d => TypeAdmits(q.poiType, d) && BoxAdmits(q, d)) by {
      FilterSame(collection, d => Matches(cursor.filter, d), d => TypeAdmits(q.poiType, d) && BoxAdmits(q, d));
    }
    r := Found(Run(cursor, collection));
  }

  /** Filtering with two predicates that agree everywhere gives the same result. */
  lemma {:induction false} FilterSame(s: seq<Doc>, p: Doc -> bool, p': Doc -> bool)
    requires forall d :: p(d) == p'(d)
    ensures Filter(s, p) == Filter(s, p')
  {
    if s != [] {
      FilterSame(s[1..], p, p');
    }
  }

  /**
   * Every answered document comes from the collection in its order, is admitted by the type
   * parameter, and lies inside the box (edges included) whenever the box applies.
   */
  lemma AnswerSound(q: PoisQuery, collection: seq<Doc>)
    ensures IsSubsequence(Answer(q, collection), collection)
    ensures forall d :: d in Answer(q, collection) ==> TypeAdmits(q.poiType, d) && BoxAdmits(q, d)
  {
    var p := d => TypeAdmits(q.poiType, d) && BoxAdmits(q, d);
    var all := Filter(collection, p);
    FilterIsSubsequence(collection, p);
    PrefixSubsequence(Answer(q, collection), all);
    SubsequenceTransitive(Answer(q, collection), all, collection);
    forall d | d in Answer(q, collection) ensures p(d) {
      var i :| 0 <= i < |Answer(q, collection)| && Answer(q, collection)[i] == d;
      assert d == all[i];
    }
  }

  /** Without an applicable limit every admitted document of the collection is answered. */
  lemma AnswerComplete(q: PoisQuery, collection: seq<Doc>, d: Doc)
    requires LimitOf(q).None? || LimitOf(q) == Some(0)
    requires d in collection && TypeAdmits(q.poiType, d) && BoxAdmits(q, d)
    ensures d in Answer(q, collection)
  {
    var i :| 0 <= i < |collection| && collection[i] == d;
  }

  /** A limit `n != 0` that applies caps the answer at `|n|` documents, taken from the front. */
  lemma AnswerLimited(q: PoisQuery, collection: seq<Doc>)
    requires LimitOf(q).Some? && LimitOf(q).value != 0
    ensures |Answer(q, collection)| <= Abs(LimitOf(q).value)
    ensures |Filter(collection, d => TypeAdmits(q.poiType, d) && BoxAdmits(q, d))| >= Abs(LimitOf(q).value) ==>
      |Answer(q, collection)| == Abs(LimitOf(q).value)
  {
  }

  /** A list of values for `limit`, or one that is not an integer, leaves the answer unlimited. */
  lemma NoLimitUnlessSingleInteger(q: PoisQuery, collection: seq<Doc>)
    requires q.limit.Some? && (q.limit.value.value.Multi? || q.limit.value.integer.None?)
    ensures Answer(q, collection) == Filter(collection, d => TypeAdmits(q.poiType, d) && BoxAdmits(q, d))
  {
  }
}
