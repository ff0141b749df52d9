/** ElementStyles: the style store attached to one element. It keeps the raw
    style map, merges class rule sets into it when it is created, routes every
    write through the resolver, re-resolves on refresh, and paints. */
module ElementStyleStore {
  import opened JsValues
  import opened StyleKeys
  import opened StyleResolver
  import opened ClassSheets
  import opened Drawing

  /** The raw style of a new store: the class rule sets merged into an empty
      map, then the bound paint entry. */
  function InitialStyle(classAttr: Option<string>, table: RuleTable): map<string, Val> {
    Merged(map[], ClassNames(classAttr), table)["_paint" := Fn]
  }

  /** A new store holds `_paint`, and every other key exactly when some class
      of the attribute defines it, with the value the last such class gives. */
  lemma InitialStyleFromClasses(classAttr: Option<string>, table: RuleTable, k: string)
    ensures "_paint" in InitialStyle(classAttr, table) && InitialStyle(classAttr, table)["_paint"] == Fn
    ensures k != "_paint" ==>
              (k in InitialStyle(classAttr, table) <==> LastClassValue(ClassNames(classAttr), table, k).Some?)
    ensures k != "_paint" && k in InitialStyle(classAttr, table) ==>
              Some(InitialStyle(classAttr, table)[k]) == LastClassValue(ClassNames(classAttr), table, k)
  {
    MergeTakesLastClass(map[], ClassNames(classAttr), table, k);
  }

  /** Without a class attribute (or with an empty one) a new store holds only
      `_paint`. */
  lemma InitialStyleWithoutClasses(classAttr: Option<string>, table: RuleTable)
    requires classAttr.None? || classAttr.value == ""
    ensures InitialStyle(classAttr, table) == map["_paint" := Fn]
  {
    var none: seq<Option<RuleSet>> := [Some(map[])];
    assert none[..0] == [];
  }

  class ElementStyles {
    /** The element the styles belong to. */
    const el: Element
    /** The raw style map: values as they were written, before resolution. */
    var style: map<string, Val>

    /** `new ElementStyles(el)`: an empty raw map, into which the class rule
        sets of `el`'s class attribute are merged; then the bound paint entry
        `_paint` is stored in it. */
    constructor (el: Element, ownRules: RuleTable, parentRules: RuleTable)
      ensures this.el == el
      // a shadow root takes its classes from the parent shadow root's table
      ensures style == InitialStyle(el.classAttr, if el.shadowRoot then parentRules else ownRules)
    {
      ghost var table := if el.shadowRoot then parentRules else ownRules;
      var raw: map<string, Val> := map[];
      var classes := el.classAttr;
      if classes.Some? && classes.value != "" {
        var nss := if el.shadowRoot then parentRules else ownRules;
        raw := MergeClassRules(raw, classes.value, nss);
      } else {
        MergeNoClasses(raw, table);
      }
      assert raw["_paint" := Fn] == InitialStyle(classes, table);
      this.el := el;
      // the paint procedure, bound to this store
      style := raw["_paint" := Fn];
    }

    /** The proxy's `get`: the raw value stored for `name`, or undefined. */
    function Get(name: string): (r: Val)
      reads this
      ensures name in style ==> r == style[name]
      ensures name !in style ==> r == Undefined
    {
      Lookup(style, name)
    }

    /** The proxy's `has`: whether the raw map holds `prop`. */
    function Has(prop: string): (b: bool)
      reads this
      ensures b <==> prop in style
      ensures !b ==> Get(prop) == Undefined
    {
      prop in style
    }

    /** The proxy's `set`: resolve the value onto the element, then store the
        raw value. It accepts every key. */
    method Set(key: string, value: Val) returns (ok: bool)
      modifies this, el`attrs, el`inherit
      ensures ok
      ensures style == old(style)[key := value]
      ensures Get(key) == value && Has(key)
      ensures forall k :: k != key ==> Get(k) == old(Get(k)) && (Has(k) <==> old(Has(k)))
      ensures StateOf(el) == Resolved(old(StateOf(el)), key, value, old(ParentGeometry(el)))
    {
      StyleProxy(el, key, value);
      style := style[key := value];
      ok := true;
    }

    /** The body of the resize and load listeners: refreshStyles(el, style). */
    method Refresh()
      modifies el`attrs, el`inherit
      ensures style == old(style)
      ensures StateOf(el) ==
                Refreshed(old(StateOf(el)), style, TrackedKeys, old(ParentGeometry(el)), el.parent == el)
    {
      RefreshStyles(el, style);
    }

    /** paint(ctx): draw the element's box from the raw style. It changes
        nothing but the surface, so two calls in a row make the same calls. */
    method Paint(ctx: Canvas)
      modifies ctx
      ensures ctx.trace == old(ctx.trace) + PaintOps(style, Lookup(el.attrs, "width"), Lookup(el.attrs, "height"))
    {
      var s := style;
      var w := Lookup(el.attrs, "width");
      var h := Lookup(el.attrs, "height");
      ghost var t0 := ctx.trace;
      PaintFont(ctx, s);
      PaintBackground(ctx, s, w, h);
      ClearBlur(ctx, s);
      PaintBorder(ctx, s, w, h);
      AppendFour(t0, FontOps(s), BackgroundOps(s, w, h), ShadowClearOps(s), BorderOps(s, w, h));
    }
  }

  // ----- the four steps of paint, in order

  /** The font step: fontSize, then fontFamily, each only when truthy. */
  method PaintFont(ctx: Canvas, s: map<string, Val>)
    modifies ctx
    ensures ctx.trace == old(ctx.trace) + FontOps(s)
  {
    if Truthy(Lookup(s, "fontSize")) {
      ctx.SetAttr("fontSize", Lookup(s, "fontSize"));
    }
    if Truthy(Lookup(s, "fontFamily")) {
      ctx.SetAttr("fontFamily", Lookup(s, "fontFamily"));
    }
  }

  /** The background step: with the style's shadow on, fill the box (0, 0, w, h)
      with corner radius `radius || 0`, then switch the shadow off. */
  method PaintBackground(ctx: Canvas, s: map<string, Val>, w: Val, h: Val)
    modifies ctx
    ensures ctx.trace == old(ctx.trace) + BackgroundOps(s, w, h)
  {
    if Truthy(Lookup(s, "backgroundColor")) {
      ghost var t := ctx.trace;
      SetShadow(ctx, s);
      ctx.SetAttr("fillStyle", Lookup(s, "backgroundColor"));
      ctx.FillRect(Num(0.0), Num(0.0), w, h, Or(Lookup(s, "radius"), Num(0.0)));
      DisableShadow(ctx);
      AppendFour(t, ShadowOps(s), [Attr("fillStyle", Lookup(s, "backgroundColor"))],
        [Fill(Num(0.0), Num(0.0), w, h, Or(Lookup(s, "radius"), Num(0.0)))], ClearShadowOps);
    }
  }

  /** The blur step: a style with a blur has all four shadow attributes zeroed. */
  method ClearBlur(ctx: Canvas, s: map<string, Val>)
    modifies ctx
    ensures ctx.trace == old(ctx.trace) + ShadowClearOps(s)
  {
    if Truthy(Lookup(s, "shadowBlur")) {
      ctx.SetAttr("shadowOffsetX", Num(0.0));
      ctx.SetAttr("shadowOffsetY", Num(0.0));
      ctx.SetAttr("shadowColor", Num(0.0));
      ctx.SetAttr("shadowBlur", Num(0.0));
    }
  }

  /** The border step: when borderColor and borderWidth are both truthy, set
      the line width and colour and stroke the grown rectangle. */
  method PaintBorder(ctx: Canvas, s: map<string, Val>, w: Val, h: Val)
    modifies ctx
    ensures ctx.trace == old(ctx.trace) + BorderOps(s, w, h)
  {
    var bw := Lookup(s, "borderWidth");
    if Truthy(Lookup(s, "borderColor")) && Truthy(bw) {
      var x := Num(0.0);
      var y := Num(0.0);
      ctx.SetAttr("lineWidth", bw);
      ctx.SetAttr("strokeStyle", Lookup(s, "borderColor"));
      ctx.StrokeRect(
        Sub(x, Mul(bw, Num(0.5))),
        Sub(y, Mul(bw, Num(0.5))),
        Add(w, bw),
        Add(h, bw),
        Add(Lookup(s, "radius"), Mul(bw, Num(0.5))));
    }
  }

  // ----- the calls paint makes, as a function of the raw style and the box size

  function FontOps(s: map<string, Val>): seq<Cmd> {
    (if Truthy(Lookup(s, "fontSize")) then [Attr("fontSize", Lookup(s, "fontSize"))] else []) +
    (if Truthy(Lookup(s, "fontFamily")) then [Attr("fontFamily", Lookup(s, "fontFamily"))] else [])
  }

  function BackgroundOps(s: map<string, Val>, w: Val, h: Val): seq<Cmd> {
    if Truthy(Lookup(s, "backgroundColor")) then
      ShadowOps(s) + [Attr("fillStyle", Lookup(s, "backgroundColor"))] +
      [Fill(Num(0.0), Num(0.0), w, h, Or(Lookup(s, "radius"), Num(0.0)))] + ClearShadowOps
    else []
  }

  function ShadowClearOps(s: map<string, Val>): seq<Cmd> {
    if Truthy(Lookup(s, "shadowBlur")) then ClearShadowOps else []
  }

  /** The rectangle stroked for a border: grown by half the border width on
      every side, with the corner radius grown by as much. */
  function BorderRect(s: map<string, Val>, w: Val, h: Val): Cmd {
    var bw := Lookup(s, "borderWidth");
    Stroke(Sub(Num(0.0), Mul(bw, Num(0.5))), Sub(Num(0.0), Mul(bw, Num(0.5))),
           Add(w, bw), Add(h, bw), Add(Lookup(s, "radius"), Mul(bw, Num(0.5))))
  }

  function BorderOps(s: map<string, Val>, w: Val, h: Val): seq<Cmd> {
    if Truthy(Lookup(s, "borderColor")) && Truthy(Lookup(s, "borderWidth")) then
      [ Attr("lineWidth", Lookup(s, "borderWidth")),
        Attr("strokeStyle", Lookup(s, "borderColor")),
        BorderRect(s, w, h) ]
    else []
  }

  /** Everything paint does to the surface, in order. */
  function PaintOps(s: map<string, Val>, w: Val, h: Val): (r: seq<Cmd>)
    // paint makes no call at all exactly when every key it tests is falsy
    ensures r == [] <==>
              !Truthy(Lookup(s, "fontSize")) && !Truthy(Lookup(s, "fontFamily")) &&
              !Truthy(Lookup(s, "backgroundColor")) && !Truthy(Lookup(s, "shadowBlur")) &&
              !(Truthy(Lookup(s, "borderColor")) && Truthy(Lookup(s, "borderWidth")))
  {
    FontOps(s) + BackgroundOps(s, w, h) + ShadowClearOps(s) + BorderOps(s, w, h)
  }

  // ----- what paint draws and leaves behind

  lemma AppendFour(t: seq<Cmd>, f: seq<Cmd>, b: seq<Cmd>, c: seq<Cmd>, d: seq<Cmd>)
    ensures t + f + b + c + d == t + (f + b + c + d)
  {
  }

  lemma {:induction false} NoRects(t: seq<Cmd>)
    requires forall i :: 0 <= i < |t| ==> t[i].Attr?
    ensures Rects(t) == []
    decreases |t|
  {
    if t != [] {
      NoRects(t[..|t| - 1]);
    }
  }

  /** An attribute's value after four runs of calls: what the last run that
      sets it gives it, or else what it was before. */
  lemma AttrAfterFour(t: seq<Cmd>, f: seq<Cmd>, b: seq<Cmd>, c: seq<Cmd>, d: seq<Cmd>, name: string)
    ensures AttrAfter(t + (f + b + c + d), name) ==
              if AttrAfter(d, name).Some? then AttrAfter(d, name)
              else if AttrAfter(c, name).Some? then AttrAfter(c, name)
              else if AttrAfter(b, name).Some? then AttrAfter(b, name)
              else if AttrAfter(f, name).Some? then AttrAfter(f, name)
              else AttrAfter(t, name)
  {
    AppendFour(t, f, b, c, d);
    AttrAfterAppend(t + f + b + c, d, name);
    AttrAfterAppend(t + f + b, c, name);
    AttrAfterAppend(t + f, b, name);
    AttrAfterAppend(t, f, name);
  }

  lemma RectsFour(f: seq<Cmd>, b: seq<Cmd>, c: seq<Cmd>, d: seq<Cmd>)
    ensures Rects(f + b + c + d) == Rects(f) + Rects(b) + Rects(c) + Rects(d)
  {
    RectsAppend(f + b + c, d);
    RectsAppend(f + b, c);
    RectsAppend(f, b);
  }

  /** The font and blur steps only assign attributes. */
  lemma FontAndBlurDrawNothing(s: map<string, Val>)
    ensures Rects(FontOps(s)) == []
    ensures Rects(ShadowClearOps(s)) == []
  {
    NoRects(FontOps(s));
    NoRects(ShadowClearOps(s));
  }

  /** The background step draws the one fill exactly when backgroundColor is
      truthy. */
  lemma BackgroundDraws(s: map<string, Val>, w: Val, h: Val)
    ensures Rects(BackgroundOps(s, w, h)) ==
              if Truthy(Lookup(s, "backgroundColor"))
              then [Fill(Num(0.0), Num(0.0), w, h, Or(Lookup(s, "radius"), Num(0.0)))] else []
  {
    if Truthy(Lookup(s, "backgroundColor")) {
      var fs := Attr("fillStyle", Lookup(s, "backgroundColor"));
      var fill := Fill(Num(0.0), Num(0.0), w, h, Or(Lookup(s, "radius"), Num(0.0)));
      ShadowOpsSetShadow(s, "");
      ClearShadowZeroes("");
      SingleCall(fs, "");
      SingleCall(fill, "");
      RectsFour(ShadowOps(s), [fs], [fill], ClearShadowOps);
    }
  }

  /** The border step draws the one stroke exactly when borderColor and
      borderWidth are both truthy. */
  lemma BorderDraws(s: map<string, Val>, w: Val, h: Val)
    ensures Rects(BorderOps(s, w, h)) ==
              if Truthy(Lookup(s, "borderColor")) && Truthy(Lookup(s, "borderWidth"))
              then [BorderRect(s, w, h)] else []
  {
    if Truthy(Lookup(s, "borderColor")) && Truthy(Lookup(s, "borderWidth")) {
      var lw := Attr("lineWidth", Lookup(s, "borderWidth"));
      var ss := Attr("strokeStyle", Lookup(s, "borderColor"));
      var r := BorderRect(s, w, h);
      assert BorderOps(s, w, h) == [lw, ss] + [r];
      NoRects([lw, ss]);
      SingleCall(r, "");
      RectsAppend([lw, ss], [r]);
    }
  }

  /** The font step sets only fontSize and fontFamily, each to the style's
      value when that is truthy. */
  lemma FontOpsEffect(s: map<string, Val>, n: string)
    ensures AttrAfter(FontOps(s), n) ==
              if n == "fontFamily" && Truthy(Lookup(s, "fontFamily")) then Some(Lookup(s, "fontFamily"))
              else if n == "fontSize" && Truthy(Lookup(s, "fontSize")) then Some(Lookup(s, "fontSize"))
              else None
  {
    var size := if Truthy(Lookup(s, "fontSize")) then [Attr("fontSize", Lookup(s, "fontSize"))] else [];
    var family := if Truthy(Lookup(s, "fontFamily")) then [Attr("fontFamily", Lookup(s, "fontFamily"))] else [];
    assert FontOps(s) == size + family;
    if size != [] {
      SingleCall(size[0], n);
      assert size == [size[0]];
    }
    if family != [] {
      SingleCall(family[0], n);
      assert family == [family[0]];
    }
    AttrAfterAppend(size, family, n);
  }

  /** The background step, when backgroundColor is truthy, leaves fillStyle set
      to the colour and every shadow attribute at 0, and sets nothing else;
      otherwise it does nothing. */
  lemma BackgroundOpsEffect(s: map<string, Val>, w: Val, h: Val, n: string)
    ensures AttrAfter(BackgroundOps(s, w, h), n) ==
              if !Truthy(Lookup(s, "backgroundColor")) then None
              else if n in ShadowPaintKeys then Some(Num(0.0))
              else if n == "fillStyle" then Some(Lookup(s, "backgroundColor"))
              else None
  {
    if Truthy(Lookup(s, "backgroundColor")) {
      var fs := Attr("fillStyle", Lookup(s, "backgroundColor"));
      var fill := Fill(Num(0.0), Num(0.0), w, h, Or(Lookup(s, "radius"), Num(0.0)));
      ShadowOpsSetShadow(s, n);
      SingleCall(fs, n);
      SingleCall(fill, n);
      ClearShadowZeroes(n);
      AttrAfterFour([], ShadowOps(s), [fs], [fill], ClearShadowOps, n);
      assert [] + (ShadowOps(s) + [fs] + [fill] + ClearShadowOps) == BackgroundOps(s, w, h);
    }
  }

  /** The blur step, when shadowBlur is truthy, zeroes the shadow attributes
      and sets nothing else; otherwise it does nothing. */
  lemma ShadowClearOpsEffect(s: map<string, Val>, n: string)
    ensures AttrAfter(ShadowClearOps(s), n) ==
              if Truthy(Lookup(s, "shadowBlur")) && n in ShadowPaintKeys then Some(Num(0.0)) else None
  {
    ClearShadowZeroes(n);
  }

  /** The border step, when borderColor and borderWidth are truthy, leaves
      lineWidth and strokeStyle set from the style and sets nothing else;
      otherwise it does nothing. */
  lemma BorderOpsEffect(s: map<string, Val>, w: Val, h: Val, n: string)
    ensures AttrAfter(BorderOps(s, w, h), n) ==
              if !(Truthy(Lookup(s, "borderColor")) && Truthy(Lookup(s, "borderWidth"))) then None
              else if n == "strokeStyle" then Some(Lookup(s, "borderColor"))
              else if n == "lineWidth" then Some(Lookup(s, "borderWidth"))
              else None
  {
    if Truthy(Lookup(s, "borderColor")) && Truthy(Lookup(s, "borderWidth")) {
      var lw := Attr("lineWidth", Lookup(s, "borderWidth"));
      var ss := Attr("strokeStyle", Lookup(s, "borderColor"));
      var r := BorderRect(s, w, h);
      assert BorderOps(s, w, h) == [lw] + [ss] + [r];
      SingleCall(lw, n);
      SingleCall(ss, n);
      SingleCall(r, n);
      AttrAfterAppend([lw], [ss], n);
      AttrAfterAppend([lw] + [ss], [r], n);
    }
  }

  /** paint draws at most two rectangles: the background fill over the box
      (0, 0, w, h) with corner radius `radius || 0`, exactly when
      backgroundColor is truthy, then the border stroke, exactly when
      borderColor and borderWidth are both truthy. */
  lemma PaintDraws(s: map<string, Val>, w: Val, h: Val)
    ensures Rects(PaintOps(s, w, h)) ==
              (if Truthy(Lookup(s, "backgroundColor"))
               then [Fill(Num(0.0), Num(0.0), w, h, Or(Lookup(s, "radius"), Num(0.0)))] else []) +
              (if Truthy(Lookup(s, "borderColor")) && Truthy(Lookup(s, "borderWidth"))
               then [BorderRect(s, w, h)] else [])
  {
    var fill := if Truthy(Lookup(s, "backgroundColor"))
                then [Fill(Num(0.0), Num(0.0), w, h, Or(Lookup(s, "radius"), Num(0.0)))] else [];
    var stroke := if Truthy(Lookup(s, "borderColor")) && Truthy(Lookup(s, "borderWidth"))
                  then [BorderRect(s, w, h)] else [];
    FontAndBlurDrawNothing(s);
    BackgroundDraws(s, w, h);
    BorderDraws(s, w, h);
    RectsOfSteps(FontOps(s), BackgroundOps(s, w, h), ShadowClearOps(s), BorderOps(s, w, h), fill, stroke);
  }

  lemma RectsOfSteps(f: seq<Cmd>, b: seq<Cmd>, c: seq<Cmd>, d: seq<Cmd>, fill: seq<Cmd>, stroke: seq<Cmd>)
    requires Rects(f) == [] && Rects(b) == fill && Rects(c) == [] && Rects(d) == stroke
    ensures Rects(f + b + c + d) == fill + stroke
  {
    RectsFour(f, b, c, d);
    assert [] + fill + [] + stroke == fill + stroke;
  }

  /** Without a radius in the style, the border's corner radius is NaN: the
      stroke does not default the radius as the fill does. */
  lemma BorderRadiusWithoutRadius(s: map<string, Val>, w: Val, h: Val)
    requires "radius" !in s
    ensures BorderRect(s, w, h).radius == NaN
    ensures Truthy(Lookup(s, "backgroundColor")) ==> Fill(Num(0.0), Num(0.0), w, h, Num(0.0)) in Rects(PaintOps(s, w, h))
  {
    PaintDraws(s, w, h);
  }

  /** Just before the fill, fillStyle holds the background colour and the
      shadow attributes hold the style's own values. */
  lemma BeforeFill(s: map<string, Val>, f: seq<Cmd>, n: string)
    ensures AttrAfter(f + ShadowOps(s) + [Attr("fillStyle", Lookup(s, "backgroundColor"))], n) ==
              if n == "fillStyle" then Some(Lookup(s, "backgroundColor"))
              else if n in ShadowPaintKeys then Some(Lookup(s, n))
              else AttrAfter(f, n)
  {
    var fs := Attr("fillStyle", Lookup(s, "backgroundColor"));
    SingleCall(fs, n);
    ShadowOpsSetShadow(s, n);
    AttrAfterAppend(f + ShadowOps(s), [fs], n);
    AttrAfterAppend(f, ShadowOps(s), n);
  }

  lemma Regroup(f: seq<Cmd>, a: seq<Cmd>, x: Cmd, y: Cmd, c: seq<Cmd>, d: seq<Cmd>, e: seq<Cmd>)
    ensures f + (a + [x] + [y] + c) + d + e == (f + a + [x]) + [y] + (c + d + e)
  {
  }

  /** The fill is drawn with the style's own shadow and fill colour in force. */
  lemma FillCastsStyleShadow(s: map<string, Val>, w: Val, h: Val)
    requires Truthy(Lookup(s, "backgroundColor"))
    ensures exists i :: 0 <= i < |PaintOps(s, w, h)| &&
              PaintOps(s, w, h)[i] == Fill(Num(0.0), Num(0.0), w, h, Or(Lookup(s, "radius"), Num(0.0))) &&
              AttrAfter(PaintOps(s, w, h)[..i], "fillStyle") == Some(Lookup(s, "backgroundColor")) &&
              forall n :: n in ShadowPaintKeys ==> AttrAfter(PaintOps(s, w, h)[..i], n) == Some(Lookup(s, n))
  {
    var f := FontOps(s);
    var fill := Fill(Num(0.0), Num(0.0), w, h, Or(Lookup(s, "radius"), Num(0.0)));
    var fs := Attr("fillStyle", Lookup(s, "backgroundColor"));
    var pre := f + ShadowOps(s) + [fs];
    var rest := ClearShadowOps + ShadowClearOps(s) + BorderOps(s, w, h);
    assert BackgroundOps(s, w, h) == ShadowOps(s) + [fs] + [fill] + ClearShadowOps;
    Regroup(f, ShadowOps(s), fs, fill, ClearShadowOps, ShadowClearOps(s), BorderOps(s, w, h));
    var ops := PaintOps(s, w, h);
    assert ops == pre + [fill] + rest;
    Pick(pre, fill, rest);
    BeforeFill(s, f, "fillStyle");
    forall n | n in ShadowPaintKeys
      ensures AttrAfter(ops[..|pre|], n) == Some(Lookup(s, n))
    {
      BeforeFill(s, f, n);
    }
  }

  lemma Pick(pre: seq<Cmd>, x: Cmd, rest: seq<Cmd>)
    ensures (pre + [x] + rest)[|pre|] == x
    ensures (pre + [x] + rest)[..|pre|] == pre
  {
  }

  /** After paint, the shadow is off whenever paint set one (backgroundColor)
      or the style names a blur; otherwise paint leaves the shadow alone. */
  lemma PaintClearsShadow(before: seq<Cmd>, s: map<string, Val>, w: Val, h: Val, n: string)
    requires n in ShadowPaintKeys
    ensures Truthy(Lookup(s, "backgroundColor")) || Truthy(Lookup(s, "shadowBlur")) ==>
              AttrAfter(before + PaintOps(s, w, h), n) == Some(Num(0.0))
    ensures !Truthy(Lookup(s, "backgroundColor")) && !Truthy(Lookup(s, "shadowBlur")) ==>
              AttrAfter(before + PaintOps(s, w, h), n) == AttrAfter(before, n)
  {
    FontOpsEffect(s, n);
    BackgroundOpsEffect(s, w, h, n);
    ShadowClearOpsEffect(s, n);
    BorderOpsEffect(s, w, h, n);
    AttrAfterFour(before, FontOps(s), BackgroundOps(s, w, h), ShadowClearOps(s), BorderOps(s, w, h), n);
  }

  /** paint leaves fontSize and fontFamily set to the style's values when
      those are truthy, and does not touch them otherwise. */
  lemma PaintSetsFonts(before: seq<Cmd>, s: map<string, Val>, w: Val, h: Val, n: string)
    requires n == "fontSize" || n == "fontFamily"
    ensures AttrAfter(before + PaintOps(s, w, h), n) ==
              if Truthy(Lookup(s, n)) then Some(Lookup(s, n)) else AttrAfter(before, n)
  {
    FontOpsEffect(s, n);
    BackgroundOpsEffect(s, w, h, n);
    ShadowClearOpsEffect(s, n);
    BorderOpsEffect(s, w, h, n);
    AttrAfterFour(before, FontOps(s), BackgroundOps(s, w, h), ShadowClearOps(s), BorderOps(s, w, h), n);
  }
}
