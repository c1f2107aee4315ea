/**
 * What the desktop search box and the location-search hook share: the result record, the
 * wrap-around arrow navigation, the Enter choice and the two display-name transformations.
 */
module SearchCommon {
  import opened Wrappers
  import opened Text

  /**
   * A geocoder answer; `lat` and `lon` are the decimal strings the service returns, and
   * `latReading`/`lonReading` are what `parseFloat` makes of them (`None` for NaN).
   */
  datatype SearchResult = SearchResult(
    displayName: string, lat: string, lon: string, placeId: string, kind: string, importance: real,
    latReading: Option<real>, lonReading: Option<real>)

  /** The arguments of `onLocationSelect(lat, lng, displayName)`; a `None` coordinate is NaN. */
  datatype LocationChoice = LocationChoice(lat: Option<real>, lng: Option<real>, displayName: string)

  /** `choice` is what selecting `result` hands over: both parsed coordinates and the full display name. */
  predicate HandsOver(result: SearchResult, choice: LocationChoice)
  {
    choice.lat == result.latReading && choice.lng == result.lonReading && choice.displayName == result.displayName
  }

  /** The keys the handlers look at; every other key is ignored. */
  datatype Key = ArrowDown | ArrowUp | Enter | Escape | OtherKey(name: string)

  /** What the debounced search got from the geocoder. */
  datatype SearchOutcome =
    | Threw                          // fetch or JSON decoding threw
    | NotOk                          // the response status was not ok
    | Answered(data: seq<SearchResult>)

  /** ArrowDown: one further down, wrapping from the last entry to the first. */
  function NextIndex(i: int, len: nat): (r: int)
    ensures len > 0 && -1 <= i < len ==> 0 <= r < len
    ensures len > 0 && i == len - 1 ==> r == 0
    ensures -1 <= i < len - 1 ==> r == i + 1
  {
    if i < len - 1 then i + 1 else 0
  }

  /** ArrowUp: one further up, wrapping from the first entry (or from none) to the last. */
  function PrevIndex(i: int, len: nat): (r: int)
    ensures len > 0 && -1 <= i < len ==> 0 <= r < len
    ensures i <= 0 ==> r == len - 1
    ensures 0 < i ==> r == i - 1
  {
    if i > 0 then i - 1 else len - 1
  }

  /** On a non-empty list the two arrows undo each other. */
  lemma ArrowsInverse(i: int, len: nat)
    requires 0 <= i < len
    ensures PrevIndex(NextIndex(i, len), len) == i
    ensures NextIndex(PrevIndex(i, len), len) == i
  {
  }

  /** Enter: the highlighted entry when the index is valid, otherwise the first entry, if any. */
  function EnterChoice(results: seq<SearchResult>, selectedIndex: int): (r: Option<SearchResult>)
    ensures r.None? <==> results == []
    ensures 0 <= selectedIndex < |results| ==> r == Some(results[selectedIndex])
    ensures results != [] && !(0 <= selectedIndex < |results|) ==> r == Some(results[0])
  {
    if 0 <= selectedIndex < |results| then Some(results[selectedIndex])
    else if |results| > 0 then Some(results[0])
    else None
  }

  /** `displayName.split(',')[0]`: the text before the first comma, or all of it. */
  function MainName(displayName: string): (r: string)
    ensures CommaFree(r)
    ensures |r| <= |displayName| && r == displayName[..|r|]
    ensures |r| < |displayName| ==> displayName[|r|] == ','
  {
    SplitFirstPiece(displayName);
    Split(displayName)[0]
  }

  /** `formatDisplayName`: the first three comma-separated parts, trimmed, joined by ", ". */
  function FormatDisplayName(displayName: string): string
  {
    Join(FirstThree(TrimAll(Split(displayName))), ", ")
  }

  function TrimAll(parts: seq<string>): (r: seq<string>)
    ensures |r| == |parts|
    ensures forall i :: 0 <= i < |parts| ==> r[i] == Trim(parts[i])
  {
    seq(|parts|, i requires 0 <= i < |parts| => Trim(parts[i]))
  }

  /** `parts.slice(0, 3)`. */
  function FirstThree(parts: seq<string>): seq<string>
  {
    if |parts| <= 3 then parts else parts[..3]
  }

  /** Comma-free, already trimmed parts come back unchanged from a `", "`-join. */
  lemma TrimmedJoinParts(parts: seq<string>)
    requires |parts| >= 1
    requires forall i :: 0 <= i < |parts| ==> CommaFree(parts[i]) && Trim(parts[i]) == parts[i]
    ensures TrimAll(Split(Join(parts, ", "))) == parts
  {
    SplitJoinCommaSpace(parts);
  }

  /** The first three trimmed parts of any text are comma-free and trimmed. */
  lemma FirstThreeTrimmed(displayName: string)
    ensures 1 <= |FirstThree(TrimAll(Split(displayName)))| <= 3
    ensures forall i :: 0 <= i < |FirstThree(TrimAll(Split(displayName)))| ==>
      CommaFree(FirstThree(TrimAll(Split(displayName)))[i]) &&
      Trim(FirstThree(TrimAll(Split(displayName)))[i]) == FirstThree(TrimAll(Split(displayName)))[i]
  {
    var parts := Split(displayName);
    var first := FirstThree(TrimAll(parts));
    forall i | 0 <= i < |first| ensures CommaFree(first[i]) && Trim(first[i]) == first[i] {
      assert first[i] == Trim(parts[i]);
      TrimCommaFree(parts[i]);
      TrimIdempotent(parts[i]);
    }
  }

  /**
   * Read back with `split(",")` and `trim()`, a formatted name consists of exactly the first
   * (at most three) trimmed parts of the original.
   */
  lemma FormatDisplayNameParts(displayName: string)
    ensures |Split(FormatDisplayName(displayName))| <= 3
    ensures TrimAll(Split(FormatDisplayName(displayName))) == FirstThree(TrimAll(Split(displayName)))
  {
    FirstThreeTrimmed(displayName);
    TrimmedJoinParts(FirstThree(TrimAll(Split(displayName))));
  }

  /** Formatting an already formatted name changes nothing. */
  lemma FormatDisplayNameIdempotent(displayName: string)
    ensures FormatDisplayName(FormatDisplayName(displayName)) == FormatDisplayName(displayName)
  {
    var first := FirstThree(TrimAll(Split(displayName)));
    var formatted := FormatDisplayName(displayName);
    assert formatted == Join(first, ", ");
    FormatDisplayNameParts(displayName);
    assert TrimAll(Split(formatted)) == first;
    assert FirstThree(first) == first;
    assert FormatDisplayName(formatted) == Join(FirstThree(TrimAll(Split(formatted))), ", ");
  }
}
