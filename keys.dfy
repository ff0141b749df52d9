/** The fixed key lists of the style engine and the classification of a
    property key that the resolver's branches make. */
module StyleKeys {

  /** Keys whose value descendants inherit. */
  const InheritedProperties: seq<string> :=
    ["color", "textAlign", "lineHeight", "fontFamily", "fontSize", "fontWeight"]

  /** Keys copied verbatim, without numeric parsing. */
  const NonNumericProperties: seq<string> :=
    ["color", "textAlign", "position", "fontFamily"]

  /** A percentage on these is taken of the parent's value for the same key. */
  const SizeKeys: seq<string> :=
    ["width", "height", "minWidth", "minHeight", "maxWidth", "maxHeight"]

  /** A percentage on these is taken of the parent's width. */
  const HorizontalKeys: seq<string> :=
    ["left", "right", "paddingLeft", "paddingRight", "marginLeft", "marginRight"]

  /** A percentage on these is taken of the parent's height. */
  const VerticalKeys: seq<string> :=
    ["top", "bottom", "paddingTop", "paddingBottom", "marginTop", "marginBottom"]

  /** The keys a refresh re-resolves, in the order it visits them. */
  const TrackedKeys: seq<string> :=
    [ "width", "height", "minWidth", "minHeight", "maxWidth", "maxHeight",
      "left", "right", "top", "bottom",
      "paddingLeft", "paddingRight", "paddingTop", "paddingBottom",
      "marginLeft", "marginRight", "marginTop", "marginBottom",
      "staticLeft", "staticRight", "staticTop", "staticBottom",
      "position", "coating",
      "color", "textAlign", "lineHeight",
      "fontFamily", "fontSize", "fontWeight" ]

  /** The box keys paint reads. */
  const BoxPaintKeys: seq<string> := ["backgroundColor", "borderColor", "borderWidth", "radius"]

  /** The shadow keys paint reads, in the order `setShadow` assigns them. */
  const ShadowPaintKeys: seq<string> := ["shadowOffsetX", "shadowOffsetY", "shadowColor", "shadowBlur"]

  /** Keys only the paint procedure reads, and the bound paint entry. */
  const PaintOnlyKeys: seq<string> := BoxPaintKeys + ShadowPaintKeys + ["_paint"]

  /** The resolver branch a key takes. */
  datatype KeyClass = Inherited | NonNumeric | Size | Horizontal | Vertical | OtherNumeric

  /** Classification in the order the resolver tests: the inherited list first,
      then the non-numeric list, then the three percentage groups. */
  function Classify(key: string): (r: KeyClass)
    ensures r == Inherited <==> key in InheritedProperties
    ensures r == NonNumeric <==> key in NonNumericProperties && key !in InheritedProperties
    // no percentage-group key is caught by an earlier test
    ensures key in SizeKeys ==> r == Size
    ensures key in HorizontalKeys ==> r == Horizontal
    ensures key in VerticalKeys ==> r == Vertical
    ensures r == OtherNumeric <==>
              key !in InheritedProperties + NonNumericProperties + SizeKeys + HorizontalKeys + VerticalKeys
  {
    if key in InheritedProperties then Inherited
    else if key in NonNumericProperties then NonNumeric
    else if key in SizeKeys then Size
    else if key in HorizontalKeys then Horizontal
    else if key in VerticalKeys then Vertical
    else OtherNumeric
  }

  /** Keys that go through numeric parsing. */
  predicate IsNumericKey(key: string) {
    Classify(key) != Inherited && Classify(key) != NonNumeric
  }

  /** Because the inherited test comes first, of the non-numeric list only
      "position" ever takes the non-numeric branch. */
  lemma OnlyPositionIsNonNumeric(key: string)
    ensures Classify(key) == NonNumeric <==> key == "position"
  {
  }

  /** Every key of the three percentage groups is re-resolved by a refresh,
      and so are the inherited and non-numeric keys. */
  lemma ResolvedKeysAreTracked(key: string)
    requires Classify(key) != OtherNumeric
    ensures key in TrackedKeys
  {
  }

  /** No paint-only key is ever re-resolved by a refresh. */
  lemma PaintKeysAreUntracked(key: string)
    requires key in PaintOnlyKeys
    ensures key !in TrackedKeys
  {
    if key in BoxPaintKeys {
      BoxKeysAreUntracked(key);
    } else if key in ShadowPaintKeys {
      ShadowKeysAreUntracked(key);
    } else {
      assert key == "_paint";
    }
  }

  lemma BoxKeysAreUntracked(key: string)
    requires key in BoxPaintKeys
    ensures key !in TrackedKeys
  {
  }

  lemma ShadowKeysAreUntracked(key: string)
    requires key in ShadowPaintKeys
    ensures key !in TrackedKeys
  {
  }
}
