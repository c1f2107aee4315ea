/**
 * The seeding script: California is cut into latitude bands, and for every category and band
 * the Overpass fetch is tried up to three times; whatever the first successful try returns is
 * inserted. The outcome of each try is a parameter; the collection is a sequence.
 */
module SeedPois {
  import opened Wrappers
  import opened Types

  /** South, west, north, east. */
  const CALIFORNIA_BBOX := BoundingBox(32.534156, -124.409591, 42.009518, -114.131211)
  const SLICES := 7
  const MAX_RETRIES := 3

  /** The latitude of the k-th band edge: `south + k * latStep`. */
  function Edge(box: BoundingBox, slices: int, k: int): real
    requires slices > 0
  {
    box.south + (k as real) * ((box.north - box.south) / (slices as real))
  }

  /**
   * `splitBoundingBox`: `slices` bands of equal height, in order from the south; a
   * non-positive count gives no band (an array of length 0).
   */
  function SplitBoundingBox(box: BoundingBox, slices: int): (bands: seq<BoundingBox>)
    ensures slices <= 0 ==> bands == []
    ensures slices > 0 ==> |bands| == slices
    ensures forall i :: 0 <= i < |bands| ==> bands[i].west == box.west && bands[i].east == box.east
    ensures forall i :: 0 <= i < |bands| ==>
      bands[i].south == Edge(box, slices, i) && bands[i].north == Edge(box, slices, i + 1)
  {
    if slices <= 0 then
      []
    else
      seq(slices, i requires 0 <= i < slices =>
        BoundingBox(Edge(box, slices, i), box.west, Edge(box, slices, i + 1), box.east))
  }

  /**
   * Consecutive bands share their edge, the first starts at `south`, the last ends at `north`,
   * and every band is `latStep` high.
   */
  lemma BandsTile(box: BoundingBox, slices: int)
    requires slices > 0
    ensures forall i :: 0 <= i < slices - 1 ==>
      SplitBoundingBox(box, slices)[i].north == SplitBoundingBox(box, slices)[i + 1].south
    ensures SplitBoundingBox(box, slices)[0].south == box.south
    ensures SplitBoundingBox(box, slices)[slices - 1].north == box.north
    ensures forall i :: 0 <= i < slices ==>
      SplitBoundingBox(box, slices)[i].north - SplitBoundingBox(box, slices)[i].south == (box.north - box.south) / (slices as real)
  {
    LastEdge(box, slices);
    var bands := SplitBoundingBox(box, slices);
    var step := (box.north - box.south) / (slices as real);
    forall i | 0 <= i < slices ensures bands[i].north - bands[i].south == step {
      assert bands[i].south == Edge(box, slices, i) && bands[i].north == Edge(box, slices, i + 1);
      EdgeStep(box, slices, i);
    }
  }

  /** Edges `k` and `k + 1` are one `latStep` apart. */
  lemma EdgeStep(box: BoundingBox, slices: int, k: int)
    requires slices > 0
    ensures Edge(box, slices, k + 1) - Edge(box, slices, k) == (box.north - box.south) / (slices as real)
  {
    StepApart(box.south, (box.north - box.south) / (slices as real), k);
  }

  /** Two edges `k` and `k + 1` steps from the same start are one step apart. */
  lemma StepApart(start: real, step: real, k: int)
    ensures (start + ((k + 1) as real) * step) - (start + (k as real) * step) == step
  {
    assert ((k + 1) as real) * step == (k as real) * step + step;
  }

  /** Every latitude of the box lies in some band. */
  lemma BandsCover(box: BoundingBox, slices: int, lat: real)
    requires slices > 0 && box.south <= lat <= box.north
    ensures exists i :: (0 <= i < slices &&
      SplitBoundingBox(box, slices)[i].south <= lat <= SplitBoundingBox(box, slices)[i].north)
  {
    var i := BandIndex(box, slices, lat);
    assert SplitBoundingBox(box, slices)[i].south == Edge(box, slices, i);
  }

  /** The band a latitude falls in: the last band takes the north edge itself. */
  lemma BandIndex(box: BoundingBox, slices: int, lat: real) returns (i: int)
    requires slices > 0 && box.south <= lat <= box.north
    ensures 0 <= i < slices && Edge(box, slices, i) <= lat <= Edge(box, slices, i + 1)
  {
    var step := (box.north - box.south) / (slices as real);
    LastEdge(box, slices);
    if step == 0.0 {
      i := 0;
      assert Edge(box, slices, 0) == box.south;
    } else {
      var q := (lat - box.south) / step;
      assert step > 0.0;
      assert 0.0 <= q;
      i := if q.Floor < slices then q.Floor else slices - 1;
      StepBounds(box.south, step, lat, q, i);
    }
  }

  /** The last band edge is the north edge (exact arithmetic). */
  lemma LastEdge(box: BoundingBox, slices: int)
    requires slices > 0
    ensures Edge(box, slices, slices) == box.north
  {
    var step := (box.north - box.south) / (slices as real);
    assert (slices as real) * step == box.north - box.south;
  }

  /** Scaling `q = (lat - south) / step` back by a positive step. */
  lemma StepBounds(south: real, step: real, lat: real, q: real, i: int)
    requires step > 0.0 && q == (lat - south) / step && (i as real) <= q
    ensures south + (i as real) * step <= lat
    ensures q < (i + 1) as real ==> lat < south + ((i + 1) as real) * step
  {
    assert lat - south == q * step;
    assert (i as real) * step <= q * step;
    if q < (i + 1) as real {
      assert q * step < ((i + 1) as real) * step;
    }
  }

  /** What the retry loop ends with: how many fetches it made and the records of the last success. */
  datatype RetryResult = RetryResult(attempts: nat, pois: seq<Poi>)

  /**
   * The retry loop from try `k` on, when try `j` of category `t` over `box` yields
   * `fetch(t, box, j)` (None when `fetchOSMPOIs` throws).
   */
  function Retry(t: PoiType, box: BoundingBox, fetch: (PoiType, BoundingBox, nat) -> Option<seq<Poi>>, k: nat): (r: RetryResult)
    requires k <= MAX_RETRIES
    ensures k < r.attempts <= MAX_RETRIES || (k == MAX_RETRIES && r == RetryResult(k, []))
    decreases MAX_RETRIES - k
  {
    if k == MAX_RETRIES then RetryResult(k, [])
    else match fetch(t, box, k)
      case Some(pois) => RetryResult(k + 1, pois)
      case None => Retry(t, box, fetch, k + 1)
  }

  /**
   * The loop tries at most three times, every try before the last one made failed, and it keeps
   * the records of the try that succeeded, or nothing when all three failed.
   */
  lemma {:induction false} RetryExactly(t: PoiType, box: BoundingBox, fetch: (PoiType, BoundingBox, nat) -> Option<seq<Poi>>, k: nat)
    requires k < MAX_RETRIES
    ensures var r := Retry(t, box, fetch, k);
      && k + 1 <= r.attempts <= MAX_RETRIES
      && (forall j :: k <= j < r.attempts - 1 ==> fetch(t, box, j).None?)
      && (fetch(t, box, r.attempts - 1).Some? ==> r.pois == fetch(t, box, r.attempts - 1).value)
      && (fetch(t, box, r.attempts - 1).None? ==> r.attempts == MAX_RETRIES && r.pois == [])
    decreases MAX_RETRIES - k
  {
    if fetch(t, box, k).None? && k + 1 < MAX_RETRIES {
      RetryExactly(t, box, fetch, k + 1);
    }
  }

  /** The outcome for one category and band. */
  datatype Batch = Batch(poiType: PoiType, slice: nat, box: BoundingBox, attempts: nat, pois: seq<Poi>)

  function SliceBatch(t: PoiType, i: nat, box: BoundingBox, fetch: (PoiType, BoundingBox, nat) -> Option<seq<Poi>>): (b: Batch)
    ensures b.poiType == t && b.slice == i && b.box == box
    ensures b.attempts == Retry(t, box, fetch, 0).attempts && b.pois == Retry(t, box, fetch, 0).pois
  {
    var r := Retry(t, box, fetch, 0);
    Batch(t, i, box, r.attempts, r.pois)
  }

  /** One category over all bands, in band order. */
  function TypeBatches(t: PoiType, boxes: seq<BoundingBox>, fetch: (PoiType, BoundingBox, nat) -> Option<seq<Poi>>): (bs: seq<Batch>)
    ensures |bs| == |boxes|
    ensures forall i :: 0 <= i < |bs| ==> bs[i] == SliceBatch(t, i, boxes[i], fetch)
  {
    seq(|boxes|, i requires 0 <= i < |boxes| => SliceBatch(t, i, boxes[i], fetch))
  }

  /** All categories in order, each over all bands. */
  function Batches(types: seq<PoiType>, boxes: seq<BoundingBox>, fetch: (PoiType, BoundingBox, nat) -> Option<seq<Poi>>): seq<Batch>
  {
    if types == [] then []
    else Batches(types[..|types| - 1], boxes, fetch) + TypeBatches(types[|types| - 1], boxes, fetch)
  }

  /** Where band `si` of the `ti`-th category sits in the list of outcomes. */
  function Position(ti: int, si: int, bands: int): int
  {
    ti * bands + si
  }

  /**
   * The outcomes come in blocks of `|boxes|`, one block per category in order: the outcome at
   * `Position(ti, si, |boxes|)` is band `si` of the `ti`-th category.
   */
  lemma {:induction false} BatchesOrder(types: seq<PoiType>, boxes: seq<BoundingBox>, fetch: (PoiType, BoundingBox, nat) -> Option<seq<Poi>>)
    ensures |Batches(types, boxes, fetch)| == |types| * |boxes|
    ensures forall ti, si :: 0 <= ti < |types| && 0 <= si < |boxes| ==>
      && 0 <= Position(ti, si, |boxes|) < |Batches(types, boxes, fetch)|
      && Batches(types, boxes, fetch)[Position(ti, si, |boxes|)] == SliceBatch(types[ti], si, boxes[si], fetch)
  {
    BatchesLength(types, boxes, fetch);
    forall ti, si | 0 <= ti < |types| && 0 <= si < |boxes|
      ensures 0 <= Position(ti, si, |boxes|) < |Batches(types, boxes, fetch)|
      ensures Batches(types, boxes, fetch)[Position(ti, si, |boxes|)] == SliceBatch(types[ti], si, boxes[si], fetch)
    {
      BatchAt(types, boxes, fetch, ti, si);
    }
  }

  /** One block of `|boxes|` outcomes per category. */
  lemma {:induction false} BatchesLength(types: seq<PoiType>, boxes: seq<BoundingBox>, fetch: (PoiType, BoundingBox, nat) -> Option<seq<Poi>>)
    ensures |Batches(types, boxes, fetch)| == |types| * |boxes|
  {
    if types != [] {
      var init := types[..|types| - 1];
      BatchesLength(init, boxes, fetch);
      assert |types| * |boxes| == |init| * |boxes| + |boxes|;
    }
  }

  /** The outcome at one position: band `si` of the `ti`-th category. */
  lemma {:induction false} BatchAt(types: seq<PoiType>, boxes: seq<BoundingBox>, fetch: (PoiType, BoundingBox, nat) -> Option<seq<Poi>>,
                                   ti: nat, si: nat)
    requires ti < |types| && si < |boxes|
    ensures 0 <= Position(ti, si, |boxes|) < |Batches(types, boxes, fetch)|
    ensures Batches(types, boxes, fetch)[Position(ti, si, |boxes|)] == SliceBatch(types[ti], si, boxes[si], fetch)
    decreases |types|
  {
    var init := types[..|types| - 1];
    var n := |boxes|;
    BatchesLength(init, boxes, fetch);
    var prev := Batches(init, boxes, fetch);
    var tb := TypeBatches(types[|types| - 1], boxes, fetch);
    assert Batches(types, boxes, fetch) == prev + tb;
    if ti < |init| {
      BatchAt(init, boxes, fetch, ti, si);
      assert init[ti] == types[ti];
    } else {
      assert Position(ti, si, n) == |prev| + si;
    }
  }

  /** The records inserted, batch after batch. */
  function Inserted(bs: seq<Batch>): seq<Poi>
  {
    if bs == [] then [] else Inserted(bs[..|bs| - 1]) + bs[|bs| - 1].pois
  }

  /** The sum of the per-batch insertion counts. */
  function InsertedCount(bs: seq<Batch>): nat
  {
    if bs == [] then 0 else InsertedCount(bs[..|bs| - 1]) + |bs[|bs| - 1].pois|
  }

  /** The total the script reports is the number of records in the collection. */
  lemma {:induction false} CountIsSize(bs: seq<Batch>)
    ensures InsertedCount(bs) == |Inserted(bs)|
  {
    if bs != [] {
      CountIsSize(bs[..|bs| - 1]);
    }
  }

  /** A band whose three tries all fail contributes nothing. */
  lemma AllFailedInsertsNothing(t: PoiType, i: nat, box: BoundingBox, fetch: (PoiType, BoundingBox, nat) -> Option<seq<Poi>>)
    requires forall j :: 0 <= j < MAX_RETRIES ==> fetch(t, box, j).None?
    ensures SliceBatch(t, i, box, fetch).attempts == MAX_RETRIES
    ensures SliceBatch(t, i, box, fetch).pois == []
    ensures forall bs :: Inserted(bs + [SliceBatch(t, i, box, fetch)]) == Inserted(bs)
  {
    RetryExactly(t, box, fetch, 0);
    forall bs ensures Inserted(bs + [SliceBatch(t, i, box, fetch)]) == Inserted(bs) {
      assert (bs + [SliceBatch(t, i, box, fetch)])[..|bs|] == bs;
    }
  }

  /** The retry loop for one category and band. */
  method RetrySlice(t: PoiType, i: nat, box: BoundingBox, fetch: (PoiType, BoundingBox, nat) -> Option<seq<Poi>>)
    returns (b: Batch)
    ensures b == SliceBatch(t, i, box, fetch)
  {
    var retries := 0;
    var pois: seq<Poi> := [];
    var done := false;
    while retries < MAX_RETRIES && !done
      invariant 0 <= retries <= MAX_RETRIES
      invariant !done ==> pois == [] && Retry(t, box, fetch, 0) == Retry(t, box, fetch, retries)
      invariant done ==> retries < MAX_RETRIES && Retry(t, box, fetch, 0) == RetryResult(retries + 1, pois)
      decreases MAX_RETRIES - retries, if done then 0 else 1
    {
      var outcome := fetch(t, box, retries);
      if outcome.Some? {
        pois := outcome.value;
        done := true;
      } else {
        retries := retries + 1;
      }
    }
    b := Batch(t, i, box, if done then retries + 1 else retries, pois);
  }

  /**
   * `seed`: empty the collection, then for each category and each band run the retry loop and
   * insert the records of the successful try when there are any. `fetch(t, box, j)` is what
   * try `j` of `fetchOSMPOIs(t, box)` yields.
   */
  method Seed(fetch: (PoiType, BoundingBox, nat) -> Option<seq<Poi>>)
    returns (batches: seq<Batch>, collection: seq<Poi>, totalInserted: nat)
    ensures batches == Batches(POI_TYPES, SplitBoundingBox(CALIFORNIA_BBOX, SLICES), fetch)
    ensures collection == Inserted(batches)
    ensures totalInserted == InsertedCount(batches) == |collection|
  {
    var slices := SplitBoundingBox(CALIFORNIA_BBOX, SLICES);
    batches, collection, totalInserted := SeedTypes(POI_TYPES, slices, fetch);
  }

  /** The outer loop of `seed`: every category in order, starting from an empty collection. */
  method SeedTypes(types: seq<PoiType>, slices: seq<BoundingBox>, fetch: (PoiType, BoundingBox, nat) -> Option<seq<Poi>>)
    returns (batches: seq<Batch>, collection: seq<Poi>, totalInserted: nat)
    ensures batches == Batches(types, slices, fetch)
    ensures collection == Inserted(batches)
    ensures totalInserted == InsertedCount(batches) == |collection|
  {
    collection := [];
    totalInserted := 0;
    batches := [];
    for ti := 0 to |types|
      invariant batches == Batches(types[..ti], slices, fetch)
      invariant collection == Inserted(batches) && totalInserted == InsertedCount(batches)
    {
      batches, collection, totalInserted := SeedType(types[ti], slices, fetch, batches, collection, totalInserted);
      BatchesSnoc(types, ti, slices, fetch);
    }
    assert types[..|types|] == types;
    CountIsSize(batches);
  }

  /** One more category appends its block of outcomes. */
  lemma BatchesSnoc(types: seq<PoiType>, ti: nat, boxes: seq<BoundingBox>, fetch: (PoiType, BoundingBox, nat) -> Option<seq<Poi>>)
    requires ti < |types|
    ensures Batches(types[..ti + 1], boxes, fetch) == Batches(types[..ti], boxes, fetch) + TypeBatches(types[ti], boxes, fetch)
  {
    assert types[..ti + 1][..ti] == types[..ti];
  }

  /** The inner loop of `seed`: every band of one category, in order. */
  method SeedType(t: PoiType, slices: seq<BoundingBox>, fetch: (PoiType, BoundingBox, nat) -> Option<seq<Poi>>,
                  batches0: seq<Batch>, collection0: seq<Poi>, total0: nat)
    returns (batches: seq<Batch>, collection: seq<Poi>, totalInserted: nat)
    requires collection0 == Inserted(batches0) && total0 == InsertedCount(batches0)
    ensures batches == batches0 + TypeBatches(t, slices, fetch)
    ensures collection == Inserted(batches) && totalInserted == InsertedCount(batches)
  {
    batches, collection, totalInserted := batches0, collection0, total0;
    for i := 0 to |slices|
      invariant batches == batches0 + TypeBatches(t, slices[..i], fetch)
      invariant collection == Inserted(batches) && totalInserted == InsertedCount(batches)
    {
      var b := RetrySlice(t, i, slices[i], fetch);
      if |b.pois| > 0 {
        collection := collection + b.pois;
        totalInserted := totalInserted + |b.pois|;
      }
      InsertedAppend(batches, b);
      batches := batches + [b];
      TypeBatchesSnoc(t, slices, i, fetch);
    }
    assert slices[..|slices|] == slices;
  }

  /** One more band appends its outcome. */
  lemma TypeBatchesSnoc(t: PoiType, boxes: seq<BoundingBox>, i: nat, fetch: (PoiType, BoundingBox, nat) -> Option<seq<Poi>>)
    requires i < |boxes|
    ensures TypeBatches(t, boxes[..i + 1], fetch) == TypeBatches(t, boxes[..i], fetch) + [SliceBatch(t, i, boxes[i], fetch)]
  {
    var longer, shorter := TypeBatches(t, boxes[..i + 1], fetch), TypeBatches(t, boxes[..i], fetch);
    forall j | 0 <= j < i ensures longer[j] == shorter[j] {
      assert boxes[..i + 1][j] == boxes[..i][j];
    }
  }

  lemma InsertedAppend(bs: seq<Batch>, b: Batch)
    ensures Inserted(bs + [b]) == Inserted(bs) + b.pois
    ensures InsertedCount(bs + [b]) == InsertedCount(bs) + |b.pois|
  {
    assert (bs + [b])[..|bs|] == bs;
  }
}
