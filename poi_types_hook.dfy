/**
 * `usePoiTypes`: the three category buttons decorated with their selection state, and the
 * style of a button. The selection is the filter context's list of selected categories.
 */
module PoiTypesHook {
  import opened Wrappers
  import opened Types

  /** A category button: key, label (`label`), colour and whether it is selected. */
  datatype TypeOption = TypeOption(key: PoiType, caption: string, color: string, isSelected: bool)

  /** The fixed list of buttons before decoration: (key, label, colour). */
  const BASE_TYPES: seq<(PoiType, string, string)> := [
    (TOILET, "Toilets", "#007BFF"),
    (DRINKING_WATER, "Water", "#20C997"),
    (CAFE, "Cafe", "#FF8C00")
  ]

  /** `types`: each base entry with `isSelected` set from the selection. */
  function Decorate(selected: seq<PoiType>): (types: seq<TypeOption>)
    ensures |types| == |BASE_TYPES| == 3
    ensures forall i :: 0 <= i < |types| ==>
      && types[i].key == BASE_TYPES[i].0 && types[i].caption == BASE_TYPES[i].1 && types[i].color == BASE_TYPES[i].2
      && (types[i].isSelected <==> BASE_TYPES[i].0 in selected)
  {
    seq(|BASE_TYPES|, i requires 0 <= i < |BASE_TYPES| =>
      TypeOption(BASE_TYPES[i].0, BASE_TYPES[i].1, BASE_TYPES[i].2, BASE_TYPES[i].0 in selected))
  }

  /** The value the filter context provides: the selection is its `selectedTypes` property. */
  datatype FilterContextValue = FilterContextValue(selectedTypes: seq<PoiType>)

  /** Reading a property of the context value by name: any other name reads as `undefined`. */
  function ContextProperty(ctx: FilterContextValue, name: string): (v: Option<seq<PoiType>>)
    ensures v.Some? <==> name == "selectedTypes"
    ensures v.Some? ==> v.value == ctx.selectedTypes
  {
    if name == "selectedTypes" then Some(ctx.selectedTypes) else None
  }

  /** What calling `includes` on `undefined` throws. */
  const INCLUDES_ON_UNDEFINED := "Cannot read properties of undefined (reading 'includes')"

  /**
   * `usePoiTypes` as written: it takes the property `activeTypes` from the context value and
   * calls `includes` on it while decorating the first button.
   */
  function UsePoiTypesAsWritten(ctx: FilterContextValue): Result<seq<TypeOption>>
  {
    match ContextProperty(ctx, "activeTypes")
    case None => Err(INCLUDES_ON_UNDEFINED)
    case Some(active) => Ok(Decorate(active))
  }

  /** As written, the hook throws for every context value, whatever is selected. */
  lemma AsWrittenAlwaysThrows(ctx: FilterContextValue)
    ensures UsePoiTypesAsWritten(ctx) == Err(INCLUDES_ON_UNDEFINED)
  {
    assert ContextProperty(ctx, "activeTypes").None?;
  }

  /** `usePoiTypes` as intended: the buttons decorated from the context's `selectedTypes`. */
  function UsePoiTypes(ctx: FilterContextValue): (types: seq<TypeOption>)
    ensures |types| == 3
    ensures forall i :: 0 <= i < |types| ==>
      types[i].key == POI_TYPES[i] && (types[i].isSelected <==> POI_TYPES[i] in ctx.selectedTypes)
  {
    Decorate(ContextProperty(ctx, "selectedTypes").value)
  }

  /** The buttons come in the seeder's category order. */
  lemma DecorateOrder(selected: seq<PoiType>)
    ensures forall i :: 0 <= i < 3 ==> Decorate(selected)[i].key == POI_TYPES[i]
  {
  }

  /** `types.find(t => t.key === key)`. */
  function Find(types: seq<TypeOption>, key: PoiType): (r: Option<TypeOption>)
    ensures r.None? <==> forall i :: 0 <= i < |types| ==> types[i].key != key
    ensures r.Some? ==> exists i :: (0 <= i < |types| && types[i] == r.value
      && r.value.key == key && forall j :: 0 <= j < i ==> types[j].key != key)
  {
    if types == [] then None
    else if types[0].key == key then Some(types[0])
    else
      var r := Find(types[1..], key);
      assert forall i :: 1 <= i < |types| ==> types[i] == types[1..][i - 1];
      if r.Some? then
        var k :| 0 <= k < |types[1..]| && types[1..][k] == r.value
          && r.value.key == key && forall j :: 0 <= j < k ==> types[1..][j].key != key;
        assert types[k + 1] == r.value;
        r
      else r
  }

  /** An inline style; absent properties are `None`. */
  datatype ButtonStyle = ButtonStyle(backgroundColor: Option<string>, borderColor: Option<string>, color: Option<string>)

  const EMPTY_STYLE := ButtonStyle(None, None, None)

  /** `getButtonStyle`. */
  function GetButtonStyle(selected: seq<PoiType>, key: PoiType): (style: ButtonStyle)
  {
    match Find(Decorate(selected), key)
    case None => EMPTY_STYLE
    case Some(t) =>
      if t.isSelected then ButtonStyle(Some(t.color), Some(t.color), Some("white")) else EMPTY_STYLE
  }

  /**
   * A key outside the three categories, or an unselected one, gets the empty style; a selected
   * category gets its own colour as background and border and white text.
   */
  lemma ButtonStyleExactly(selected: seq<PoiType>, key: PoiType)
    ensures key !in POI_TYPES ==> GetButtonStyle(selected, key) == EMPTY_STYLE
    ensures key in POI_TYPES && key !in selected ==> GetButtonStyle(selected, key) == EMPTY_STYLE
    ensures forall i :: 0 <= i < 3 && BASE_TYPES[i].0 == key && key in selected ==>
      GetButtonStyle(selected, key) == ButtonStyle(Some(BASE_TYPES[i].2), Some(BASE_TYPES[i].2), Some("white"))
  {
    var types := Decorate(selected);
    var r := Find(types, key);
    if r.Some? {
      var k :| 0 <= k < |types| && types[k] == r.value && r.value.key == key && forall j :: 0 <= j < k ==> types[j].key != key;
      assert key == POI_TYPES[k];
      forall i | 0 <= i < 3 && BASE_TYPES[i].0 == key ensures i == k {
        assert POI_TYPES[i] == key;
      }
    } else {
      forall i | 0 <= i < 3 ensures POI_TYPES[i] != key {
        assert types[i].key == POI_TYPES[i];
      }
    }
  }

  /** A button is styled iff its key is a category and is selected. */
  lemma StyledIffSelected(selected: seq<PoiType>, key: PoiType)
    ensures GetButtonStyle(selected, key) != EMPTY_STYLE <==> key in POI_TYPES && key in selected
  {
    ButtonStyleExactly(selected, key);
    if key in POI_TYPES {
      var i :| 0 <= i < 3 && POI_TYPES[i] == key;
      assert BASE_TYPES[i].0 == key;
    }
  }
}
