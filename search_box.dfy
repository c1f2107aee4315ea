/**
 * The desktop `SearchBox`: like the location-search hook, plus an open/closed dropdown flag that
 * gates the keyboard.
 */
module SearchBox {
  import opened Wrappers
  import opened SearchCommon
  import opened Text

  /** The minimum query length that starts a search. */
  const MIN_QUERY_LENGTH := 2

  class SearchBoxState {
    var query: string
    var results: seq<SearchResult>
    var isOpen: bool
    var isLoading: bool
    var selectedIndex: int

    /** The highlighted index is -1 or, while there are results, one of theirs. */
    predicate Valid()
      reads this
    {
      -1 <= selectedIndex && (results != [] ==> selectedIndex < |results|)
    }

    constructor ()
      ensures Valid()
      ensures query == "" && results == [] && !isOpen && !isLoading && selectedIndex == -1
    {
      query := "";
      results := [];
      isOpen := false;
      isLoading := false;
      selectedIndex := -1;
    }

    /** The input's change handler. */
    method SetQuery(text: string)
      modifies this
      ensures query == text
      ensures results == old(results) && isOpen == old(isOpen) && selectedIndex == old(selectedIndex)
      ensures isLoading == old(isLoading)
    {
      query := text;
    }

    /**
     * The effect run after each change of `query`: a query shorter than two UTF-16 code units clears
     * the results and closes the dropdown; otherwise a search is scheduled.
     */
    method QueryEffect() returns (searchScheduled: bool)
      requires Valid()
      modifies this
      ensures Valid()
      ensures searchScheduled <==> Utf16Length(query) >= MIN_QUERY_LENGTH
      ensures !searchScheduled ==> results == [] && !isOpen
      ensures searchScheduled ==> results == old(results) && isOpen == old(isOpen)
      ensures query == old(query) && selectedIndex == old(selectedIndex) && isLoading == old(isLoading)
    {
      if Utf16Length(query) < MIN_QUERY_LENGTH {
        results := [];
        isOpen := false;
        return false;
      }
      return true;
    }

    /**
     * The scheduled search once the geocoder has answered: an ok answer stores the data, opens
     * the dropdown iff it is non-empty and resets the highlight; a thrown error empties the
     * results and leaves the dropdown flag alone; a non-ok status changes nothing.
     */
    method RunSearch(outcome: SearchOutcome)
      requires Valid()
      modifies this
      ensures Valid() && !isLoading
      ensures outcome.Answered? ==>
        results == outcome.data && (isOpen <==> outcome.data != []) && selectedIndex == -1
      ensures outcome.Threw? ==>
        results == [] && isOpen == old(isOpen) && selectedIndex == old(selectedIndex)
      ensures outcome.NotOk? ==>
        results == old(results) && isOpen == old(isOpen) && selectedIndex == old(selectedIndex)
      ensures query == old(query)
    {
      isLoading := true;
      match outcome {
        case Answered(data) =>
          results := data;
          isOpen := |data| > 0;
          selectedIndex := -1;
        case Threw =>
          results := [];
        case NotOk =>
      }
      isLoading := false;
    }

    /** Focusing the input reopens the dropdown when there are results. */
    method Focus()
      modifies this
      ensures isOpen == (old(isOpen) || results != [])
      ensures query == old(query) && results == old(results) && selectedIndex == old(selectedIndex)
      ensures isLoading == old(isLoading)
    {
      if |results| > 0 {
        isOpen := true;
      }
    }

    /** A mouse press outside the box closes the dropdown and clears the highlight. */
    method ClickOutside()
      modifies this
      ensures Valid()
      ensures !isOpen && selectedIndex == -1
      ensures query == old(query) && results == old(results) && isLoading == old(isLoading)
    {
      isOpen := false;
      selectedIndex := -1;
    }

    /**
     * `handleKeyDown`: ignored while the dropdown is closed; the arrows move the highlight with
     * wrap-around; Enter selects the highlighted (else the first) result; Escape closes the
     * dropdown and clears the highlight but keeps the query. Returns the result Enter selects
     * and what it hands to `onLocationSelect`.
     */
    method HandleKeyDown(key: Key) returns (selected: Option<SearchResult>, handed: Option<LocationChoice>)
      requires Valid()
      modifies this
      ensures Valid()
      ensures !old(isOpen) ==>
        (selected.None? && query == old(query) && isOpen == old(isOpen) && selectedIndex == old(selectedIndex))
      ensures old(isOpen) && key.ArrowDown? ==> selectedIndex == NextIndex(old(selectedIndex), |old(results)|)
      ensures old(isOpen) && key.ArrowUp? ==> selectedIndex == PrevIndex(old(selectedIndex), |old(results)|)
      ensures old(isOpen) && (key.ArrowDown? || key.ArrowUp?) && results != [] ==> 0 <= selectedIndex < |results|
      ensures (key.ArrowDown? || key.ArrowUp?) ==> query == old(query) && isOpen == old(isOpen)
      ensures old(isOpen) && key.Enter? ==> selected == EnterChoice(old(results), old(selectedIndex))
      ensures old(isOpen) && key.Enter? && selected.Some? ==>
        query == MainName(selected.value.displayName) && !isOpen && selectedIndex == -1
      ensures old(isOpen) && key.Escape? ==> !isOpen && selectedIndex == -1 && query == old(query)
      ensures !key.Enter? ==> selected.None?
      ensures handed.Some? <==> selected.Some?
      ensures selected.Some? ==> HandsOver(selected.value, handed.value)
      ensures key.OtherKey? ==> query == old(query) && isOpen == old(isOpen) && selectedIndex == old(selectedIndex)
      ensures results == old(results) && isLoading == old(isLoading)
    {
      selected, handed := None, None;
      if !isOpen {
        return;
      }
      match key {
        case ArrowDown =>
          selectedIndex := NextIndex(selectedIndex, |results|);
        case ArrowUp =>
          selectedIndex := PrevIndex(selectedIndex, |results|);
        case Enter =>
          selected := EnterChoice(results, selectedIndex);
          if selected.Some? {
            var choice := HandleResultSelect(selected.value);
            handed := Some(choice);
          }
        case Escape =>
          isOpen := false;
          selectedIndex := -1;
        case OtherKey(_) =>
      }
    }

    /**
     * `handleResultSelect`: hands the parsed coordinates and the full display name to
     * `onLocationSelect`; the query becomes the name before the first comma, the dropdown
     * closes and the highlight is cleared; the results stay.
     */
    method HandleResultSelect(result: SearchResult) returns (handed: LocationChoice)
      modifies this
      ensures Valid()
      ensures HandsOver(result, handed)
      ensures query == MainName(handed.displayName) && !isOpen && selectedIndex == -1
      ensures results == old(results) && isLoading == old(isLoading)
    {
      handed := LocationChoice(result.latReading, result.lonReading, result.displayName);
      query := MainName(result.displayName);
      isOpen := false;
      selectedIndex := -1;
    }
  }
}
