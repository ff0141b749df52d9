/** The unit resolver (styleProxy) and the refresh pass (refreshStyles): they
    write an element's live fields from raw style values, converting
    percentages against the parent's geometry. */
module StyleResolver {
  import opened JsValues
  import opened StyleKeys

  /** The element tree node, reduced to what the style engine touches. */
  class Element {
    /** The live fields `el[key]` that resolved values are written to. */
    var attrs: map<string, Val>
    /** `el.inherit`, the values descendants inherit. */
    var inherit: map<string, Val>
    /** `el.getParent()`; null at the root. */
    var parent: Element?
    /** Whether the node is itself a shadow root (`el.shadowRoot`). */
    var shadowRoot: bool
    /** The `class` attribute, when there is one. */
    var classAttr: Option<string>
  }

  /** The two maps the resolver writes. */
  datatype ElState = ElState(attrs: map<string, Val>, inherit: map<string, Val>)

  ghost function StateOf(el: Element): ElState
    reads el
  {
    ElState(el.attrs, el.inherit)
  }

  /** The parent's live fields, when there is a parent. */
  ghost function ParentGeometry(el: Element): Option<map<string, Val>>
    reads el, el.parent
  {
    if el.parent == null then None else Some(el.parent.attrs)
  }

  /** A value resolved for a numeric key: a number, NaN or the keyword "auto". */
  predicate IsResolvedNumber(v: Val) {
    v.Num? || v.NaN? || v == Str("auto")
  }

  /** The percentage branch is taken: there is a parent, parseFloat gives a
      non-zero number, and the value is a string ending in "%". */
  predicate UsablePercent(value: Val, parent: Option<map<string, Val>>)
    ensures UsablePercent(value, parent) ==>
              parent.Some? && value.Str? && ParseFloat(value).Num? && ParseFloat(value).x != 0.0
  {
    parent.Some? && Truthy(ParseFloat(value)) && EndsWithPercent(value)
  }

  /** The plain branch: the keyword "auto" stays "auto", anything else is
      whatever parseFloat makes of it, NaN included. */
  function Fallback(value: Val): (r: Val)
    ensures IsResolvedNumber(r)
    ensures r == Str("auto") <==> value == Str("auto")
    ensures value != Str("auto") ==> r == ParseFloat(value)
  {
    if value == Str("auto") then Str("auto") else ParseFloat(value)
  }

  /** The element state after resolving `value` for `key`, with `parent` the
      parent's live fields (None without a parent). */
  function Resolved(st: ElState, key: string, value: Val, parent: Option<map<string, Val>>): (r: ElState)
    // only the entry for `key` can change
    ensures r.attrs - {key} == st.attrs - {key}
    // only an inherited key reaches the inherited map, and it always does
    ensures r.inherit == if Classify(key) == Inherited then st.inherit[key := value] else st.inherit
    // inherited and non-numeric keys take the raw value verbatim
    ensures !IsNumericKey(key) ==> key in r.attrs && r.attrs[key] == value
    // a numeric key ends as a number, NaN or "auto", or is left alone
    ensures IsNumericKey(key) ==>
              r.attrs == st.attrs || (key in r.attrs && IsResolvedNumber(r.attrs[key]))
    // a percentage outside the three groups is ignored
    ensures Classify(key) == OtherNumeric && UsablePercent(value, parent) ==> r == st
    // anything but a usable percentage goes through the plain branch
    ensures IsNumericKey(key) && !UsablePercent(value, parent) ==>
              key in r.attrs && r.attrs[key] == Fallback(value)
  {
    var c := Classify(key);
    if c == Inherited then ElState(st.attrs[key := value], st.inherit[key := value])
    else if c == NonNumeric then ElState(st.attrs[key := value], st.inherit)
    else if !UsablePercent(value, parent) then ElState(st.attrs[key := Fallback(value)], st.inherit)
    else
      var fraction := Num(ParseFloat(value).x * 0.01);
      if c == Size then ElState(st.attrs[key := Mul(Lookup(parent.value, key), fraction)], st.inherit)
      else if c == Horizontal then ElState(st.attrs[key := Mul(Lookup(parent.value, "width"), fraction)], st.inherit)
      else if c == Vertical then ElState(st.attrs[key := Mul(Lookup(parent.value, "height"), fraction)], st.inherit)
      else st
  }

  /** styleProxy(el, key, value): resolve one raw value onto the element. */
  method StyleProxy(el: Element, key: string, value: Val)
    modifies el`attrs, el`inherit
    ensures StateOf(el) == Resolved(old(StateOf(el)), key, value, old(ParentGeometry(el)))
  {
    var p := el.parent;
    var numericValue := ParseFloat(value);

    if key in InheritedProperties {
      el.inherit := el.inherit[key := value];
      el.attrs := el.attrs[key := value];
      return;
    }

    if key in NonNumericProperties {
      el.attrs := el.attrs[key := value];
      return;
    }

    if p != null && Truthy(numericValue) && EndsWithPercent(value) {
      var parsed := numericValue.x * 0.01;
      if key in SizeKeys {
        el.attrs := el.attrs[key := Mul(Lookup(p.attrs, key), Num(parsed))];
      } else if key in HorizontalKeys {
        el.attrs := el.attrs[key := Mul(Lookup(p.attrs, "width"), Num(parsed))];
      } else if key in VerticalKeys {
        el.attrs := el.attrs[key := Mul(Lookup(p.attrs, "height"), Num(parsed))];
      }
    } else {
      el.attrs := el.attrs[key := if value == Str("auto") then Str("auto") else numericValue];
    }
  }

  /** A percentage "n%" with a parent and n non-zero: a size key takes n% of
      the parent's value for the same key. */
  lemma SizePercentOfParent(st: ElState, key: string, s: string, n: real, g: map<string, Val>)
    requires Classify(key) == Size
    requires ParseFloat(Str(s)) == Num(n) && n != 0.0
    ensures Lookup(Resolved(st, key, Str(s + "%"), Some(g)).attrs, key) == Mul(Lookup(g, key), Num(n * 0.01))
  {
    PercentIsUsable(s, n, g);
  }

  /** A horizontal key with "n%" takes n% of the parent's width. */
  lemma HorizontalPercentOfParent(st: ElState, key: string, s: string, n: real, g: map<string, Val>)
    requires Classify(key) == Horizontal
    requires ParseFloat(Str(s)) == Num(n) && n != 0.0
    ensures Lookup(Resolved(st, key, Str(s + "%"), Some(g)).attrs, key) == Mul(Lookup(g, "width"), Num(n * 0.01))
  {
    PercentIsUsable(s, n, g);
  }

  /** A vertical key with "n%" takes n% of the parent's height. */
  lemma VerticalPercentOfParent(st: ElState, key: string, s: string, n: real, g: map<string, Val>)
    requires Classify(key) == Vertical
    requires ParseFloat(Str(s)) == Num(n) && n != 0.0
    ensures Lookup(Resolved(st, key, Str(s + "%"), Some(g)).attrs, key) == Mul(Lookup(g, "height"), Num(n * 0.01))
  {
    PercentIsUsable(s, n, g);
  }

  /** "n%" with n non-zero takes the percentage branch when there is a parent. */
  lemma PercentIsUsable(s: string, n: real, g: map<string, Val>)
    requires ParseFloat(Str(s)) == Num(n) && n != 0.0
    ensures UsablePercent(Str(s + "%"), Some(g))
    ensures ParseFloat(Str(s + "%")) == Num(n)
  {
    ParseFloatIgnoresPercent(s);
  }

  /** "0%" (any numeral of value zero, then "%") does not take the percentage
      branch: parseFloat gives 0, which is falsy, so the key becomes 0. */
  lemma ZeroPercentIsZero(st: ElState, key: string, s: string, parent: Option<map<string, Val>>)
    requires IsNumericKey(key)
    requires ParseFloat(Str(s)) == Num(0.0)
    ensures Lookup(Resolved(st, key, Str(s + "%"), parent).attrs, key) == Num(0.0)
  {
    ParseFloatIgnoresPercent(s);
  }

  /** The keyword "auto" on a numeric key resolves to "auto", never a number. */
  lemma AutoStaysAuto(st: ElState, key: string, parent: Option<map<string, Val>>)
    requires IsNumericKey(key)
    ensures Lookup(Resolved(st, key, Str("auto"), parent).attrs, key) == Str("auto")
  {
    ParseFloatAuto();
  }

  /** What a numeric key resolves to depends on the element only through the
      key's own old entry. */
  lemma ResolvedIsLocal(st1: ElState, st2: ElState, key: string, value: Val, parent: Option<map<string, Val>>)
    requires SameAt(st1.attrs, st2.attrs, key) && SameAt(st1.inherit, st2.inherit, key)
    ensures SameAt(Resolved(st1, key, value, parent).attrs, Resolved(st2, key, value, parent).attrs, key)
    ensures SameAt(Resolved(st1, key, value, parent).inherit, Resolved(st2, key, value, parent).inherit, key)
  {
  }

  // ----- refreshStyles

  /** The state after resolving, in order, every key of `keys` whose stored
      value in `styles` is truthy. When the element is its own parent the
      parent's geometry is the element's current one. */
  ghost function Refreshed(st: ElState, styles: map<string, Val>, keys: seq<string>,
                           parent: Option<map<string, Val>>, selfParent: bool): (r: ElState)
    // only inherited keys ever reach the inherited map
    ensures forall k :: Classify(k) != Inherited ==> SameAt(r.inherit, st.inherit, k)
    decreases |keys|
  {
    if keys == [] then st
    else
      var prev := Refreshed(st, styles, keys[..|keys| - 1], parent, selfParent);
      var key := keys[|keys| - 1];
      var value := Lookup(styles, key);
      if Truthy(value) then Resolved(prev, key, value, if selfParent then Some(prev.attrs) else parent)
      else prev
  }

  /** refreshStyles(el, styles): re-resolve the tracked keys from the raw map. */
  method RefreshStyles(el: Element, styles: map<string, Val>)
    modifies el`attrs, el`inherit
    ensures StateOf(el) ==
              Refreshed(old(StateOf(el)), styles, TrackedKeys, old(ParentGeometry(el)), el.parent == el)
  {
    ghost var st0 := StateOf(el);
    ghost var pg := ParentGeometry(el);
    var list := TrackedKeys;
    for i := 0 to |list|
      invariant StateOf(el) == Refreshed(st0, styles, list[..i], pg, el.parent == el)
      invariant el.parent != el ==> ParentGeometry(el) == pg
    {
      var key := list[i];
      var value := Lookup(styles, key);
      if Truthy(value) {
        StyleProxy(el, key, value);
      }
      assert list[..i + 1][..i] == list[..i];
    }
    assert list[..|list|] == list;
  }

  /** A refresh leaves alone every key it does not visit and every key whose
      stored value is falsy. */
  lemma {:induction false} RefreshTouchesOnlyTruthyKeys(st: ElState, styles: map<string, Val>, keys: seq<string>,
                                                        parent: Option<map<string, Val>>, selfParent: bool, k: string)
    requires k !in keys || !Truthy(Lookup(styles, k))
    ensures SameAt(Refreshed(st, styles, keys, parent, selfParent).attrs, st.attrs, k)
    ensures SameAt(Refreshed(st, styles, keys, parent, selfParent).inherit, st.inherit, k)
    decreases |keys|
  {
    if keys != [] {
      var init := keys[..|keys| - 1];
      assert k in init ==> k in keys;
      RefreshTouchesOnlyTruthyKeys(st, styles, init, parent, selfParent, k);
      var prev := Refreshed(st, styles, init, parent, selfParent);
      var key := keys[|keys| - 1];
      if Truthy(Lookup(styles, key)) {
        assert key != k;
        var r := Resolved(prev, key, Lookup(styles, key), if selfParent then Some(prev.attrs) else parent);
        assert k in r.attrs <==> k in r.attrs - {key};
        assert k in prev.attrs <==> k in prev.attrs - {key};
      }
    }
  }

  /** Paint-only keys (background, border, radius, shadow) are never
      re-resolved by refreshStyles. */
  lemma RefreshIgnoresPaintKeys(st: ElState, styles: map<string, Val>,
                                parent: Option<map<string, Val>>, selfParent: bool, k: string)
    requires k in PaintOnlyKeys
    ensures SameAt(Refreshed(st, styles, TrackedKeys, parent, selfParent).attrs, st.attrs, k)
    ensures SameAt(Refreshed(st, styles, TrackedKeys, parent, selfParent).inherit, st.inherit, k)
  {
    PaintKeysAreUntracked(k);
    RefreshTouchesOnlyTruthyKeys(st, styles, TrackedKeys, parent, selfParent, k);
  }

  /** Resolving a key a second time with the same value and parent changes
      nothing more at that key. */
  lemma ResolvedTwice(st: ElState, key: string, value: Val, parent: Option<map<string, Val>>)
    ensures SameAt(Resolved(Resolved(st, key, value, parent), key, value, parent).attrs,
                   Resolved(st, key, value, parent).attrs, key)
    ensures SameAt(Resolved(Resolved(st, key, value, parent), key, value, parent).inherit,
                   Resolved(st, key, value, parent).inherit, key)
  {
  }

  /** With a parent other than the element itself, each visited key with a
      truthy value ends exactly as if it alone were resolved against the
      parent's current geometry: no key reads another key's fresh value, and
      a key listed twice ends as if resolved once. */
  lemma {:induction false} RefreshResolvesEachKeyAlone(st: ElState, styles: map<string, Val>, keys: seq<string>,
                                                       parent: Option<map<string, Val>>, k: string)
    requires k in keys && Truthy(Lookup(styles, k))
    ensures SameAt(Refreshed(st, styles, keys, parent, false).attrs,
                   Resolved(st, k, Lookup(styles, k), parent).attrs, k)
    ensures SameAt(Refreshed(st, styles, keys, parent, false).inherit,
                   Resolved(st, k, Lookup(styles, k), parent).inherit, k)
    decreases |keys|
  {
    var init := keys[..|keys| - 1];
    var key := keys[|keys| - 1];
    var prev := Refreshed(st, styles, init, parent, false);
    var v := Lookup(styles, k);
    if key == k {
      if k in init {
        RefreshResolvesEachKeyAlone(st, styles, init, parent, k);
        ResolvedIsLocal(prev, Resolved(st, k, v, parent), k, v, parent);
        ResolvedTwice(st, k, v, parent);
      } else {
        RefreshTouchesOnlyTruthyKeys(st, styles, init, parent, false, k);
        ResolvedIsLocal(prev, st, k, v, parent);
      }
    } else {
      assert k in init by {
        var i :| 0 <= i < |keys| && keys[i] == k;
        assert init[i] == k;
      }
      RefreshResolvesEachKeyAlone(st, styles, init, parent, k);
      if Truthy(Lookup(styles, key)) {
        var r := Resolved(prev, key, Lookup(styles, key), parent);
        assert k in r.attrs <==> k in r.attrs - {key};
        assert k in prev.attrs <==> k in prev.attrs - {key};
      }
    }
  }

  /** After a refresh, every tracked key with a truthy stored value holds the
      value resolved against the parent's geometry at the time of the
      refresh; in particular, a refresh that follows a parent resize sees the
      parent's new size. */
  lemma RefreshUsesCurrentParent(st: ElState, styles: map<string, Val>, g: map<string, Val>, k: string)
    requires k in TrackedKeys && Truthy(Lookup(styles, k))
    ensures SameAt(Refreshed(st, styles, TrackedKeys, Some(g), false).attrs,
                   Resolved(st, k, Lookup(styles, k), Some(g)).attrs, k)
  {
    RefreshResolvesEachKeyAlone(st, styles, TrackedKeys, Some(g), k);
  }
}
