/** The 2D drawing surface, seen only through the calls made on it, and the
    `drawer` helpers that set and clear its shadow. */
module Drawing {
  import opened JsValues
  import opened StyleKeys

  /** One call on the surface: an attribute assignment or a rectangle. */
  datatype Cmd =
    | Attr(name: string, value: Val)
    | Fill(x: Val, y: Val, w: Val, h: Val, radius: Val)
    | Stroke(x: Val, y: Val, w: Val, h: Val, radius: Val)

  /** The drawing surface (`ctx`), recording every call in order. */
  class Canvas {
    var trace: seq<Cmd>

    constructor ()
      ensures trace == []
    {
      trace := [];
    }

    /** `ctx[name] = value` */
    method SetAttr(name: string, value: Val)
      modifies this
      ensures trace == old(trace) + [Attr(name, value)]
    {
      trace := trace + [Attr(name, value)];
    }

    /** `ctx.fillRect(x, y, w, h, radius)` */
    method FillRect(x: Val, y: Val, w: Val, h: Val, radius: Val)
      modifies this
      ensures trace == old(trace) + [Fill(x, y, w, h, radius)]
    {
      trace := trace + [Fill(x, y, w, h, radius)];
    }

    /** `ctx.strokeRect(x, y, w, h, radius)` */
    method StrokeRect(x: Val, y: Val, w: Val, h: Val, radius: Val)
      modifies this
      ensures trace == old(trace) + [Stroke(x, y, w, h, radius)]
    {
      trace := trace + [Stroke(x, y, w, h, radius)];
    }
  }

  /** The value a trace last assigned to attribute `name`, if it assigned one. */
  function AttrAfter(trace: seq<Cmd>, name: string): Option<Val>
    decreases |trace|
  {
    if trace == [] then None
    else
      var last := trace[|trace| - 1];
      if last.Attr? && last.name == name then Some(last.value)
      else AttrAfter(trace[..|trace| - 1], name)
  }

  /** The rectangles a trace draws, in order. */
  function Rects(trace: seq<Cmd>): (r: seq<Cmd>)
    ensures forall i :: 0 <= i < |r| ==> !r[i].Attr?
    decreases |trace|
  {
    if trace == [] then []
    else
      var last := trace[|trace| - 1];
      Rects(trace[..|trace| - 1]) + (if last.Attr? then [] else [last])
  }

  /** An attribute's value after `a` then `b`: what `b` last set it to, or
      else what `a` did. */
  lemma {:induction false} AttrAfterAppend(a: seq<Cmd>, b: seq<Cmd>, name: string)
    ensures AttrAfter(a + b, name) == if AttrAfter(b, name).Some? then AttrAfter(b, name) else AttrAfter(a, name)
    decreases |b|
  {
    if b == [] {
      assert a + b == a;
    } else {
      assert (a + b)[..|a + b| - 1] == a + b[..|b| - 1];
      AttrAfterAppend(a, b[..|b| - 1], name);
    }
  }

  lemma {:induction false} RectsAppend(a: seq<Cmd>, b: seq<Cmd>)
    ensures Rects(a + b) == Rects(a) + Rects(b)
    decreases |b|
  {
    if b == [] {
      assert a + b == a;
    } else {
      assert (a + b)[..|a + b| - 1] == a + b[..|b| - 1];
      RectsAppend(a, b[..|b| - 1]);
    }
  }

  /** The calls `drawer.setShadow(ctx, style)` makes: the style's four shadow
      keys become the surface attributes of the same names, in order. */
  function ShadowOps(style: map<string, Val>): seq<Cmd> {
    [ Attr("shadowOffsetX", Lookup(style, "shadowOffsetX")),
      Attr("shadowOffsetY", Lookup(style, "shadowOffsetY")),
      Attr("shadowColor", Lookup(style, "shadowColor")),
      Attr("shadowBlur", Lookup(style, "shadowBlur")) ]
  }

  /** The style `drawer.disableShadow` hands to setShadow: all four zero. */
  const NoShadow: map<string, Val> :=
    map["shadowOffsetX" := Num(0.0), "shadowOffsetY" := Num(0.0),
        "shadowColor" := Num(0.0), "shadowBlur" := Num(0.0)]

  /** setShadow sets each shadow attribute to the style's value for it (undefined
      when the style has none), draws nothing and touches nothing else. */
  lemma ShadowOpsSetShadow(style: map<string, Val>, name: string)
    ensures AttrAfter(ShadowOps(style), name) ==
              if name in ShadowPaintKeys then Some(Lookup(style, name)) else None
    ensures Rects(ShadowOps(style)) == []
  {
    var a, b, c, d := ShadowOps(style)[0], ShadowOps(style)[1], ShadowOps(style)[2], ShadowOps(style)[3];
    assert ShadowOps(style) == [a] + [b] + [c] + [d];
    forall x <- [a, b, c, d] ensures AttrAfter([x], name) == (if x.name == name then Some(x.value) else None)
      && Rects([x]) == []
    {
      SingleCall(x, name);
    }
    AttrAfterAppend([a], [b], name);
    AttrAfterAppend([a] + [b], [c], name);
    AttrAfterAppend([a] + [b] + [c], [d], name);
    RectsAppend([a], [b]);
    RectsAppend([a] + [b], [c]);
    RectsAppend([a] + [b] + [c], [d]);
  }

  /** What a single call sets and draws. */
  lemma SingleCall(x: Cmd, name: string)
    ensures AttrAfter([x], name) == if x.Attr? && x.name == name then Some(x.value) else None
    ensures Rects([x]) == if x.Attr? then [] else [x]
  {
    assert [x][..0] == [];
  }

  /** drawer.setShadow(ctx, style) */
  method SetShadow(ctx: Canvas, style: map<string, Val>)
    modifies ctx
    ensures ctx.trace == old(ctx.trace) + ShadowOps(style)
  {
    ctx.SetAttr("shadowOffsetX", Lookup(style, "shadowOffsetX"));
    ctx.SetAttr("shadowOffsetY", Lookup(style, "shadowOffsetY"));
    ctx.SetAttr("shadowColor", Lookup(style, "shadowColor"));
    ctx.SetAttr("shadowBlur", Lookup(style, "shadowBlur"));
  }

  /** The calls that switch the shadow off: all four attributes set to 0. */
  const ClearShadowOps: seq<Cmd> :=
    [ Attr("shadowOffsetX", Num(0.0)), Attr("shadowOffsetY", Num(0.0)),
      Attr("shadowColor", Num(0.0)), Attr("shadowBlur", Num(0.0)) ]

  /** drawer.disableShadow(ctx) */
  method DisableShadow(ctx: Canvas)
    modifies ctx
    ensures ctx.trace == old(ctx.trace) + ClearShadowOps
  {
    SetShadow(ctx, NoShadow);
    assert ShadowOps(NoShadow) == ClearShadowOps;
  }

  /** After the clearing calls every shadow attribute is 0; nothing is drawn. */
  lemma ClearShadowZeroes(name: string)
    ensures AttrAfter(ClearShadowOps, name) == if name in ShadowPaintKeys then Some(Num(0.0)) else None
    ensures Rects(ClearShadowOps) == []
  {
    ShadowOpsSetShadow(NoShadow, name);
    assert ShadowOps(NoShadow) == ClearShadowOps;
  }
}
