/** The category selection shared by the map and the type buttons (`PoiFilterProvider`). */
module PoiFilter {
  import opened Types
  import opened Seqs

  /**
   * The selection after toggling `t`: a selected type is removed (every occurrence), an
   * unselected one is appended at the end; no other type changes membership.
   */
  function Toggled(prev: seq<PoiType>, t: PoiType): (next: seq<PoiType>)
    ensures t in prev ==> t !in next && |next| < |prev|
    ensures t !in prev ==> next == prev + [t]
    ensures forall u :: u != t ==> (u in next <==> u in prev)
  {
    if t in prev then
      var next := Filter(prev, x => x != t);
      assert forall u :: u != t ==> (u in next <==> u in prev) by {
        forall u | u != t && u in prev ensures u in next {
          var i :| 0 <= i < |prev| && prev[i] == u;
        }
      }
      assert |next| < |prev| by {
        var i :| 0 <= i < |prev| && prev[i] == t;
        FilterDropsOne(prev, x => x != t, i);
      }
      next
    else prev + [t]
  }

  /** A filter that rejects some element is strictly shorter. */
  lemma {:induction false} FilterDropsOne(s: seq<PoiType>, p: PoiType -> bool, i: nat)
    requires i < |s| && !p(s[i])
    ensures |Filter(s, p)| < |s|
  {
    if i > 0 {
      FilterDropsOne(s[1..], p, i - 1);
    }
  }

  /** Toggling keeps a duplicate-free selection duplicate-free. */
  lemma ToggledNoDups(prev: seq<PoiType>, t: PoiType)
    requires NoDups(prev)
    ensures NoDups(Toggled(prev, t))
  {
    if t in prev {
      FilterNoDups(prev, x => x != t);
    } else {
      var next := prev + [t];
      forall i, j | 0 <= i < j < |next| ensures next[i] != next[j] {
        if j == |prev| {
          assert next[i] == prev[i];
        }
      }
    }
  }

  /** Toggling an unselected type twice restores the selection exactly. */
  lemma ToggleTwiceAbsent(prev: seq<PoiType>, t: PoiType)
    requires t !in prev
    ensures Toggled(Toggled(prev, t), t) == prev
  {
    var once := prev + [t];
    assert t in once;
    FilterRemovesLast(prev, t);
  }

  /** Removing `t` from `s + [t]` when `t` is not in `s` gives `s` back. */
  lemma {:induction false} FilterRemovesLast(s: seq<PoiType>, t: PoiType)
    requires t !in s
    ensures Filter(s + [t], x => x != t) == s
  {
    if s == [] {
      assert Filter([t], x => x != t) == Filter([t][1..], x => x != t);
    } else {
      assert (s + [t])[1..] == s[1..] + [t];
      FilterRemovesLast(s[1..], t);
    }
  }

  /** Toggling a selected type twice restores the same set of selected types (it moves to the end). */
  lemma ToggleTwicePresent(prev: seq<PoiType>, t: PoiType)
    requires t in prev
    ensures forall u :: u in Toggled(Toggled(prev, t), t) <==> u in prev
    ensures Toggled(Toggled(prev, t), t) == Toggled(prev, t) + [t]
  {
  }

  /** The provider's state: the selected categories, in selection order. */
  class PoiFilterProvider {
    var selectedTypes: seq<PoiType>

    /** Nothing is selected initially. */
    constructor ()
      ensures selectedTypes == []
    {
      selectedTypes := [];
    }

    /** `toggleType`. */
    method ToggleType(t: PoiType)
      modifies this
      ensures selectedTypes == Toggled(old(selectedTypes), t)
    {
      if t in selectedTypes {
        selectedTypes := Filter(selectedTypes, x => x != t);
      } else {
        selectedTypes := selectedTypes + [t];
      }
    }
  }

  /** Toggling any type twice from a fresh provider returns to the empty selection. */
  method ToggleTwiceFromStart(t: PoiType) returns (provider: PoiFilterProvider)
    ensures provider.selectedTypes == []
  {
    provider := new PoiFilterProvider();
    provider.ToggleType(t);
    assert provider.selectedTypes == [t];
    provider.ToggleType(t);
    ToggleTwiceAbsent([], t);
  }
}
