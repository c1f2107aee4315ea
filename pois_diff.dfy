/**
 * The `/api/pois-diff` route: the points of interest inside the requested box, and, given the
 * previously requested box, which of them are new (`added`) and which dropped out (`removed`).
 */
module PoisDiff {
  import opened Wrappers
  import opened Types
  import opened Query
  import opened Seqs

  /** The parameters the route reads. */
  datatype DiffQuery = DiffQuery(
    south: Option<Param>, west: Option<Param>, north: Option<Param>, east: Option<Param>,
    prevSouth: Option<Param>, prevWest: Option<Param>, prevNorth: Option<Param>, prevEast: Option<Param>)

  /** The route's answer: status 400 with an error, or the diff. */
  datatype DiffResponse =
    | BadRequest(error: string)
    | Diff(added: seq<Poi>, removed: seq<Poi>)

  /** A box as parsed from the query: an edge is `None` when it parsed to NaN. */
  datatype QueryBox = QueryBox(south: Option<real>, west: Option<real>, north: Option<real>, east: Option<real>)

  /**
   * The MongoDB selection `lat in [south, north], lon in [west, east]`. An edge that is NaN
   * admits no document.
   */
  predicate InQueryBox(box: QueryBox, d: Doc)
  {
    box.south.Some? && box.west.Some? && box.north.Some? && box.east.Some? &&
    InBox(BoundingBox(box.south.value, box.west.value, box.north.value, box.east.value), d.lat, d.lon)
  }

  /** `find(...)`: the documents of the collection inside the box, in collection order. */
  function Select(collection: seq<Doc>, box: QueryBox): (r: seq<Doc>)
  {
    Filter(collection, d => InQueryBox(box, d))
  }

  /** The ids occurring in a list of documents. */
  function Ids(docs: seq<Doc>): set<string>
  {
    set i | 0 <= i < |docs| :: docs[i].id
  }

  /**
   * The keys of `new Map(docs.map(p => [p._id.toString(), p]))` in iteration order: each id
   * once, at the position of its first occurrence.
   */
  function KeyOrder(docs: seq<Doc>): (keys: seq<string>)
    ensures NoDups(keys)
    ensures forall k :: k in keys <==> k in Ids(docs)
  {
    if docs == [] then []
    else
      var init := docs[..|docs| - 1];
      var last := docs[|docs| - 1];
      var keys := KeyOrder(init);
      assert Ids(docs) == Ids(init) + {last.id} by {
        forall k | k in Ids(docs) ensures k in Ids(init) + {last.id} {
          var i :| 0 <= i < |docs| && docs[i].id == k;
          if i < |docs| - 1 { assert init[i] == docs[i]; }
        }
        forall k | k in Ids(init) ensures k in Ids(docs) {
          var i :| 0 <= i < |init| && init[i].id == k;
          assert docs[i] == init[i];
        }
      }
      if last.id in keys then keys else keys + [last.id]
  }

  /** The entries of `new Map(docs.map(p => [p._id.toString(), p]))`: a later document with the same id wins. */
  function MapOf(docs: seq<Doc>): (m: map<string, Doc>)
    ensures m.Keys == Ids(docs)
    ensures forall k :: k in m ==> m[k].id == k && m[k] in docs
  {
    if docs == [] then map[]
    else
      var init := docs[..|docs| - 1];
      var last := docs[|docs| - 1];
      assert Ids(docs) == Ids(init) + {last.id} by {
        forall k | k in Ids(docs) ensures k in Ids(init) + {last.id} {
          var i :| 0 <= i < |docs| && docs[i].id == k;
          if i < |docs| - 1 { assert init[i] == docs[i]; }
        }
        forall k | k in Ids(init) ensures k in Ids(docs) {
          var i :| 0 <= i < |init| && init[i].id == k;
          assert docs[i] == init[i];
        }
      }
      MapOf(init)[last.id := last]
  }

  /** `formatPOI`: the stored document as the client type; absent tags become `{}`. */
  function FormatPoi(d: Doc): (p: Poi)
    ensures p.id == Some(d.id) && p.osmId == d.osmId && p.name == d.name
    ensures p.lat == d.lat && p.lon == d.lon && p.poiType == d.poiType && p.source == d.source
    ensures d.tags.Some? ==> p.tags == d.tags
    ensures d.tags.None? ==> p.tags == Some(map[])
  {
    Poi(Some(d.id), d.osmId, d.poiType, d.source, d.name, d.lat, d.lon,
        Some(d.tags.GetOr(map[])), StampText(d.createdAt), StampText(d.updatedAt))
  }

  /** `x instanceof Date ? x.toISOString() : String(x)`. */
  function StampText(s: Stamp): string
  {
    match s
    case DateValue(iso) => iso
    case OtherValue(text) => text
  }

  /** `docs.map(formatPOI)`. */
  function FormatAll(docs: seq<Doc>): (ps: seq<Poi>)
    ensures |ps| == |docs|
    ensures forall i :: 0 <= i < |docs| ==> ps[i] == FormatPoi(docs[i])
  {
    seq(|docs|, i requires 0 <= i < |docs| => FormatPoi(docs[i]))
  }

  /** `keys.map(id => formatPOI(m.get(id)!))`. */
  function FormatKeys(keys: seq<string>, m: map<string, Doc>): (ps: seq<Poi>)
    requires forall i :: 0 <= i < |keys| ==> keys[i] in m
    ensures |ps| == |keys|
    ensures forall i :: 0 <= i < |keys| ==> ps[i] == FormatPoi(m[keys[i]])
  {
    seq(|keys|, i requires 0 <= i < |keys| => FormatPoi(m[keys[i]]))
  }

  /** The keys of `from` absent from `other`, in `from`'s Map iteration order. */
  function MissingKeys(from: seq<Doc>, other: seq<Doc>): seq<string>
  {
    var otherMap := MapOf(other);
    Filter(KeyOrder(from), k => k !in otherMap)
  }

  /** The records of `from` whose ids `other` lacks, formatted: `added` and `removed` alike. */
  function Missing(from: seq<Doc>, other: seq<Doc>): (ps: seq<Poi>)
  {
    var keys := MissingKeys(from, other);
    FormatKeys(keys, MapOf(from))
  }

  /** The box the query asks for. */
  function CurrentBox(q: DiffQuery): QueryBox
  {
    QueryBox(Number(q.south), Number(q.west), Number(q.north), Number(q.east))
  }

  /** The previous box, present iff `prevSouth` is truthy. */
  function PreviousBox(q: DiffQuery): Option<QueryBox>
  {
    if Truthy(q.prevSouth)
    then Some(QueryBox(Number(q.prevSouth), Number(q.prevWest), Number(q.prevNorth), Number(q.prevEast)))
    else None
  }

  /** All four current edges are present and non-empty. */
  predicate HasBox(q: DiffQuery)
  {
    Truthy(q.south) && Truthy(q.west) && Truthy(q.north) && Truthy(q.east)
  }

  /** The route handler over a given collection. */
  function Handle(q: DiffQuery, collection: seq<Doc>): (r: DiffResponse)
    ensures !HasBox(q) <==> r == BadRequest("Missing required bbox params")
  {
    if !HasBox(q) then BadRequest("Missing required bbox params")
    else
      var current := Select(collection, CurrentBox(q));
      match PreviousBox(q)
      case None => Diff(FormatAll(current), [])
      case Some(prev) =>
        var previous := Select(collection, prev);
        Diff(Missing(current, previous), Missing(previous, current))
  }

  /** The ids of a list of records, as the client sees them. */
  function IdsOf(ps: seq<Poi>): seq<Option<string>>
  {
    seq(|ps|, i requires 0 <= i < |ps| => ps[i].id)
  }

  /** A document is selected iff it is in the collection and inside the box, edges included. */
  lemma SelectExactly(collection: seq<Doc>, box: QueryBox, d: Doc)
    ensures d in Select(collection, box) <==> d in collection && InQueryBox(box, d)
  {
    var r := Select(collection, box);
    if d in r {
      var i :| 0 <= i < |r| && r[i] == d;
    }
    if d in collection && InQueryBox(box, d) {
      var i :| 0 <= i < |collection| && collection[i] == d;
    }
  }

  /**
   * `Missing(from, other)` lists, once each and in `from`'s Map order, exactly the ids of `from`
   * that `other` lacks; each entry is the formatted document of `from` with that id.
   */
  lemma MissingExactly(from: seq<Doc>, other: seq<Doc>)
    ensures |Missing(from, other)| == |MissingKeys(from, other)|
    ensures forall i :: 0 <= i < |Missing(from, other)| ==>
      Missing(from, other)[i].id == Some(MissingKeys(from, other)[i])
    ensures forall k :: k in MissingKeys(from, other) <==> k in Ids(from) && k !in Ids(other)
    ensures NoDups(MissingKeys(from, other))
    ensures IsSubsequence(MissingKeys(from, other), KeyOrder(from))
    ensures forall i :: 0 <= i < |Missing(from, other)| ==>
      exists d :: d in from && Missing(from, other)[i] == FormatPoi(d)
  {
    MissingKeysExactly(from, other);
    MissingEntries(from, other);
  }

  /** The missing keys: exactly the ids of `from` that `other` lacks, once each, in Map order. */
  lemma MissingKeysExactly(from: seq<Doc>, other: seq<Doc>)
    ensures forall k :: k in MissingKeys(from, other) <==> k in Ids(from) && k !in Ids(other)
    ensures NoDups(MissingKeys(from, other))
    ensures IsSubsequence(MissingKeys(from, other), KeyOrder(from))
  {
    var otherMap := MapOf(other);
    var ko := KeyOrder(from);
    var keys := MissingKeys(from, other);
    assert keys == Filter(ko, k => k !in otherMap);
    FilterNoDups(ko, k => k !in otherMap);
    FilterIsSubsequence(ko, k => k !in otherMap);
    forall k | k in keys ensures k in Ids(from) && k !in Ids(other) {
      var j :| 0 <= j < |keys| && keys[j] == k;
      assert k in ko;
    }
    forall k | k in Ids(from) && k !in Ids(other) ensures k in keys {
      var j :| 0 <= j < |ko| && ko[j] == k;
    }
  }

  /** The missing records: one per missing key, carrying that key, formatted from a document of `from`. */
  lemma MissingEntries(from: seq<Doc>, other: seq<Doc>)
    ensures |Missing(from, other)| == |MissingKeys(from, other)|
    ensures forall i :: 0 <= i < |Missing(from, other)| ==>
      Missing(from, other)[i].id == Some(MissingKeys(from, other)[i])
    ensures forall i :: 0 <= i < |Missing(from, other)| ==>
      exists d :: d in from && Missing(from, other)[i] == FormatPoi(d)
  {
    var keys := MissingKeys(from, other);
    var m := MapOf(from);
    MissingKeysExactly(from, other);
    assert forall i :: 0 <= i < |keys| ==> keys[i] in m;
    var ps := Missing(from, other);
    assert ps == FormatKeys(keys, m);
    forall i | 0 <= i < |ps| ensures exists d :: d in from && ps[i] == FormatPoi(d) {
      var d := m[keys[i]];
      assert d in from && ps[i] == FormatPoi(d);
    }
  }

  /** With the same documents on both sides nothing is missing. */
  lemma MissingSelf(docs: seq<Doc>)
    ensures Missing(docs, docs) == []
  {
    var m := MapOf(docs);
    FilterNone(KeyOrder(docs), k => k !in m);
  }

  /**
   * A first request (no truthy `prevSouth`) answers every selected document as added, in
   * collection order, and nothing as removed; every added record lies in the requested box.
   */
  lemma FirstRequestAddsAll(q: DiffQuery, collection: seq<Doc>)
    requires HasBox(q) && !Truthy(q.prevSouth)
    ensures Handle(q, collection).Diff?
    ensures Handle(q, collection).removed == []
    ensures |Handle(q, collection).added| == |Select(collection, CurrentBox(q))|
    ensures forall i :: 0 <= i < |Handle(q, collection).added| ==>
      Handle(q, collection).added[i] == FormatPoi(Select(collection, CurrentBox(q))[i])
    ensures forall p :: p in Handle(q, collection).added ==>
      Number(q.south).value <= p.lat <= Number(q.north).value &&
      Number(q.west).value <= p.lon <= Number(q.east).value
  {
    var current := Select(collection, CurrentBox(q));
    forall p | p in Handle(q, collection).added
      ensures Number(q.south).value <= p.lat <= Number(q.north).value
      ensures Number(q.west).value <= p.lon <= Number(q.east).value
    {
      var i :| 0 <= i < |current| && p == FormatPoi(current[i]);
      assert InQueryBox(CurrentBox(q), current[i]);
    }
  }

  /** The ids of `Missing(from, other)`: each present, each once, exactly those of `from` that `other` lacks. */
  lemma MissingIds(from: seq<Doc>, other: seq<Doc>)
    ensures forall o :: o in IdsOf(Missing(from, other)) ==> o.Some?
    ensures forall k :: Some(k) in IdsOf(Missing(from, other)) <==> k in Ids(from) && k !in Ids(other)
    ensures NoDups(IdsOf(Missing(from, other)))
  {
    MissingExactly(from, other);
    IdsOfKeys(Missing(from, other), MissingKeys(from, other));
  }

  /**
   * With a previous box: `added` holds exactly the ids selected now and not before, `removed`
   * exactly those selected before and not now; each list names an id at most once, no id is in
   * both, and `added` follows the order of the current selection.
   */
  lemma DiffExactly(q: DiffQuery, collection: seq<Doc>)
    requires HasBox(q) && PreviousBox(q).Some?
    ensures Handle(q, collection).Diff?
    ensures forall k :: Some(k) in IdsOf(Handle(q, collection).added) <==>
      k in Ids(Select(collection, CurrentBox(q))) && k !in Ids(Select(collection, PreviousBox(q).value))
    ensures forall k :: Some(k) in IdsOf(Handle(q, collection).removed) <==>
      k in Ids(Select(collection, PreviousBox(q).value)) && k !in Ids(Select(collection, CurrentBox(q)))
    ensures NoDups(IdsOf(Handle(q, collection).added)) && NoDups(IdsOf(Handle(q, collection).removed))
    ensures forall o :: o in IdsOf(Handle(q, collection).added) ==> o.Some? && o !in IdsOf(Handle(q, collection).removed)
    ensures IsSubsequence(MissingKeys(Select(collection, CurrentBox(q)), Select(collection, PreviousBox(q).value)),
                          KeyOrder(Select(collection, CurrentBox(q))))
  {
    var current := Select(collection, CurrentBox(q));
    var previous := Select(collection, PreviousBox(q).value);
    assert Handle(q, collection) == Diff(Missing(current, previous), Missing(previous, current));
    MissingIds(current, previous);
    MissingIds(previous, current);
    MissingExactly(current, previous);
  }

  /** When each record's id is `Some` of the matching key, the id lists mirror the keys. */
  lemma IdsOfKeys(ps: seq<Poi>, keys: seq<string>)
    requires |ps| == |keys|
    requires forall i :: 0 <= i < |ps| ==> ps[i].id == Some(keys[i])
    ensures forall k :: Some(k) in IdsOf(ps) <==> k in keys
    ensures forall o :: o in IdsOf(ps) ==> o.Some? && o.value in keys
    ensures NoDups(keys) ==> NoDups(IdsOf(ps))
  {
    var ids := IdsOf(ps);
    forall k | Some(k) in ids ensures k in keys {
      var i :| 0 <= i < |ids| && ids[i] == Some(k);
      assert keys[i] == k;
    }
    forall k | k in keys ensures Some(k) in ids {
      var i :| 0 <= i < |keys| && keys[i] == k;
      assert ids[i] == Some(k);
    }
  }

  /** Asking again for the box last asked for yields an empty diff. */
  lemma SameBoxEmptyDiff(q: DiffQuery, collection: seq<Doc>)
    requires HasBox(q) && PreviousBox(q) == Some(CurrentBox(q))
    ensures Handle(q, collection) == Diff([], [])
  {
    MissingSelf(Select(collection, CurrentBox(q)));
  }
}
