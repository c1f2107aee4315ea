/**
 * The `useLocationSearch` hook: query text, geocoder results, the highlighted index and the
 * loading flag, driven by the debounced search, the keyboard and result selection.
 */
module LocationSearch {
  import opened Wrappers
  import opened SearchCommon
  import opened Text

  class LocationSearchState {
    var query: string
    var results: seq<SearchResult>
    var isLoading: bool
    var selectedIndex: int
    const minQueryLength: int

    /** The highlighted index is -1 or, while there are results, one of theirs. */
    predicate Valid()
      reads this
    {
      -1 <= selectedIndex && (results != [] ==> selectedIndex < |results|)
    }

    /** The hook's initial state; the caller's `minQueryLength` defaults to 2. */
    constructor (minQueryLength: int)
      ensures Valid()
      ensures query == "" && results == [] && !isLoading && selectedIndex == -1
      ensures this.minQueryLength == minQueryLength
    {
      query := "";
      results := [];
      isLoading := false;
      selectedIndex := -1;
      this.minQueryLength := minQueryLength;
    }

    /** `setQuery`, as the input's change handler calls it. */
    method SetQuery(text: string)
      modifies this
      ensures query == text
      ensures results == old(results) && selectedIndex == old(selectedIndex) && isLoading == old(isLoading)
    {
      query := text;
    }

    /**
     * The effect run after each change of `query`: a query shorter than `minQueryLength` clears
     * the results and schedules nothing; otherwise a search is scheduled.
     */
    method QueryEffect() returns (searchScheduled: bool)
      requires Valid()
      modifies this
      ensures Valid()
      ensures searchScheduled <==> Utf16Length(query) >= minQueryLength
      ensures !searchScheduled ==> results == []
      ensures searchScheduled ==> results == old(results)
      ensures query == old(query) && selectedIndex == old(selectedIndex) && isLoading == old(isLoading)
    {
      if Utf16Length(query) < minQueryLength {
        results := [];
        return false;
      }
      return true;
    }

    /**
     * The scheduled search once the geocoder has answered: an ok answer replaces the results and
     * resets the highlight, a thrown error empties the results, a non-ok status changes nothing.
     */
    method RunSearch(outcome: SearchOutcome)
      requires Valid()
      modifies this
      ensures Valid() && !isLoading
      ensures outcome.Answered? ==> results == outcome.data && selectedIndex == -1
      ensures outcome.Threw? ==> results == [] && selectedIndex == old(selectedIndex)
      ensures outcome.NotOk? ==> results == old(results) && selectedIndex == old(selectedIndex)
      ensures query == old(query)
    {
      isLoading := true;
      match outcome {
        case Answered(data) =>
          results := data;
          selectedIndex := -1;
        case Threw =>
          results := [];
        case NotOk =>
      }
      isLoading := false;
    }

    /**
     * `handleKeyDown`: nothing happens without results; the arrows move the highlight with
     * wrap-around; Enter selects the highlighted (else the first) result; Escape clears
     * everything. Returns the result Enter selects and what it hands to `onLocationSelect`.
     */
    method HandleKeyDown(key: Key) returns (selected: Option<SearchResult>, handed: Option<LocationChoice>)
      requires Valid()
      modifies this
      ensures Valid()
      ensures old(results) == [] ==>
        (selected.None? && query == old(query) && results == old(results) && selectedIndex == old(selectedIndex))
      ensures old(results) != [] && key.ArrowDown? ==>
        selectedIndex == NextIndex(old(selectedIndex), |old(results)|) && 0 <= selectedIndex < |results|
      ensures old(results) != [] && key.ArrowUp? ==>
        selectedIndex == PrevIndex(old(selectedIndex), |old(results)|) && 0 <= selectedIndex < |results|
      ensures (key.ArrowDown? || key.ArrowUp?) ==> query == old(query) && results == old(results)
      ensures old(results) != [] && key.Enter? ==>
        selected == EnterChoice(old(results), old(selectedIndex)) &&
        query == MainName(selected.value.displayName) && results == [] && selectedIndex == -1
      ensures old(results) != [] && key.Escape? ==> query == "" && results == [] && selectedIndex == -1
      ensures !key.Enter? ==> selected.None?
      ensures handed.Some? <==> selected.Some?
      ensures selected.Some? ==> HandsOver(selected.value, handed.value)
      ensures key.OtherKey? ==> query == old(query) && results == old(results) && selectedIndex == old(selectedIndex)
      ensures isLoading == old(isLoading)
    {
      selected, handed := None, None;
      if results == [] {
        return;
      }
      match key {
        case ArrowDown =>
          selectedIndex := NextIndex(selectedIndex, |results|);
        case ArrowUp =>
          selectedIndex := PrevIndex(selectedIndex, |results|);
        case Enter =>
          selected := EnterChoice(results, selectedIndex);
          var choice := HandleResultSelect(selected.value);
          handed := Some(choice);
        case Escape =>
          selectedIndex := -1;
          query := "";
          results := [];
        case OtherKey(_) =>
      }
    }

    /**
     * `handleResultSelect`: hands the parsed coordinates and the full display name to
     * `onLocationSelect`; the query becomes the name before the first comma; results and
     * highlight are cleared.
     */
    method HandleResultSelect(result: SearchResult) returns (handed: LocationChoice)
      modifies this
      ensures Valid()
      ensures HandsOver(result, handed)
      ensures query == MainName(handed.displayName) && results == [] && selectedIndex == -1
      ensures isLoading == old(isLoading)
    {
      handed := LocationChoice(result.latReading, result.lonReading, result.displayName);
      query := MainName(result.displayName);
      results := [];
      selectedIndex := -1;
    }

    /** `clearSearch`. */
    method ClearSearch()
      modifies this
      ensures Valid()
      ensures query == "" && results == [] && selectedIndex == -1
      ensures isLoading == old(isLoading)
    {
      query := "";
      results := [];
      selectedIndex := -1;
    }
  }
}
