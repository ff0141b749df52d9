/** The class-sheet merge made when a style store is created: the class
    attribute is split on spaces, each name is looked up in the rule table of
    the enclosing shadow root, and the rule sets are merged into the raw
    style map with Object.assign. */
module ClassSheets {
  import opened JsValues

  /** A class's rule set: property key to raw value. */
  type RuleSet = map<string, Val>

  /** The named rule sets a shadow root exposes (`getNSS()`). */
  type RuleTable = map<string, RuleSet>

  /** The index of the first space in `s`. */
  function IndexOfSpace(s: string): (i: nat)
    requires ' ' in s
    ensures i < |s| && s[i] == ' ' && ' ' !in s[..i]
  {
    if s[0] == ' ' then 0
    else
      assert ' ' in s[1..] by {
        var j :| 0 <= j < |s| && s[j] == ' ';
        assert s[1..][j - 1] == ' ';
      }
      var i := 1 + IndexOfSpace(s[1..]);
      assert s[..i] == [s[0]] + s[1..][..i - 1];
      i
  }

  /** `s.split(" ")`: the pieces between single spaces, empty ones included;
      a string without a space is one piece. */
  function Split(s: string): (parts: seq<string>)
    ensures |parts| >= 1
    ensures forall i :: 0 <= i < |parts| ==> ' ' !in parts[i]
    decreases |s|
  {
    if ' ' in s then
      var i := IndexOfSpace(s);
      [s[..i]] + Split(s[i + 1..])
    else [s]
  }

  /** `parts.join(" ")` */
  function Join(parts: seq<string>): string {
    if parts == [] then ""
    else if |parts| == 1 then parts[0]
    else parts[0] + " " + Join(parts[1..])
  }

  /** Joining the pieces with spaces gives back the attribute. */
  lemma {:induction false} JoinSplit(s: string)
    ensures Join(Split(s)) == s
    decreases |s|
  {
    if ' ' in s {
      var i := IndexOfSpace(s);
      JoinSplit(s[i + 1..]);
      JoinCons(s[..i], Split(s[i + 1..]));
      assert s == s[..i] + " " + s[i + 1..];
    }
  }

  lemma JoinCons(x: string, rest: seq<string>)
    requires |rest| >= 1
    ensures Join([x] + rest) == x + " " + Join(rest)
  {
    assert ([x] + rest)[1..] == rest;
  }

  /** Splitting space-free names joined with spaces gives back the names. */
  lemma {:induction false} SplitJoin(parts: seq<string>)
    requires |parts| >= 1
    requires forall i :: 0 <= i < |parts| ==> ' ' !in parts[i]
    ensures Split(Join(parts)) == parts
  {
    if |parts| > 1 {
      var s := Join(parts);
      var head := parts[0];
      assert s == head + " " + Join(parts[1..]);
      assert s[|head|] == ' ';
      assert ' ' in s;
      assert s[..|head|] == head;
      FirstSpaceAfter(head, Join(parts[1..]));
      assert s[|head| + 1..] == Join(parts[1..]);
      SplitJoin(parts[1..]);
    }
  }

  lemma FirstSpaceAfter(head: string, tail: string)
    requires ' ' !in head
    ensures ' ' in head + " " + tail
    ensures IndexOfSpace(head + " " + tail) == |head|
  {
    var s := head + " " + tail;
    assert s[|head|] == ' ';
    assert s[..|head|] == head;
    var i := IndexOfSpace(s);
    assert i <= |head| ==> s[..i] == head[..i];
  }

  /** The class names of a `class` attribute: none when it is absent or
      empty (the falsy test), otherwise its pieces. */
  function ClassNames(attr: Option<string>): (names: seq<string>)
    ensures attr.Some? && attr.value != "" ==> Join(names) == attr.value
    ensures attr.None? || attr.value == "" ==> names == []
  {
    if attr.Some? && attr.value != "" then
      JoinSplit(attr.value);
      Split(attr.value)
    else []
  }

  /** `nss[c]` for each class name in order; undefined (None) for a name the
      table does not define. */
  function ClassSources(classes: seq<string>, table: RuleTable): seq<Option<RuleSet>>
    decreases |classes|
  {
    if classes == [] then []
    else
      var c := classes[|classes| - 1];
      ClassSources(classes[..|classes| - 1], table) + [if c in table then Some(table[c]) else None]
  }

  /** Object.assign(target, ...sources): each defined source's entries are
      copied onto the target in turn; undefined sources are skipped. */
  function AssignAll(target: RuleSet, sources: seq<Option<RuleSet>>): RuleSet
    decreases |sources|
  {
    if sources == [] then target
    else
      var prev := AssignAll(target, sources[..|sources| - 1]);
      match sources[|sources| - 1]
      case None => prev
      case Some(src) => prev + src
  }

  /** The raw style after the merge: Object.assign(style, nss[c1], …,
      nss[ck], copy of style). */
  function Merged(style: RuleSet, classes: seq<string>, table: RuleTable): (r: RuleSet)
    // the copy applied last keeps every key already in the style
    ensures forall k :: k in style ==> k in r && r[k] == style[k]
  {
    var srcs := ClassSources(classes, table) + [Some(style)];
    assert srcs[..|srcs| - 1] == ClassSources(classes, table);
    AssignAll(style, srcs)
  }

  /** The merge as the constructor runs it: look up each class of the
      attribute in turn, append a copy of the style, and Object.assign them
      all onto the style. */
  method MergeClassRules(style: RuleSet, classAttr: string, nss: RuleTable) returns (merged: RuleSet)
    ensures merged == Merged(style, Split(classAttr), nss)
  {
    var names := Split(classAttr);
    var tmp: seq<Option<RuleSet>> := [];
    for i := 0 to |names|
      invariant tmp == ClassSources(names[..i], nss)
    {
      var c := names[i];
      tmp := tmp + [if c in nss then Some(nss[c]) else None];
      assert names[..i + 1][..i] == names[..i];
    }
    assert names[..|names|] == names;
    // a copy of the style goes last so that its own entries win
    tmp := tmp + [Some(style)];
    merged := ObjectAssign(style, tmp);
  }

  /** Object.assign(target, ...sources), copying each defined source's
      entries onto the target in turn. */
  method ObjectAssign(target: RuleSet, sources: seq<Option<RuleSet>>) returns (r: RuleSet)
    ensures r == AssignAll(target, sources)
  {
    r := target;
    for j := 0 to |sources|
      invariant r == AssignAll(target, sources[..j])
    {
      if sources[j].Some? {
        r := r + sources[j].value;
      }
      assert sources[..j + 1][..j] == sources[..j];
    }
    assert sources[..|sources|] == sources;
  }

  /** With no class names the merge leaves the style as it is. */
  lemma MergeNoClasses(style: RuleSet, table: RuleTable)
    ensures Merged(style, [], table) == style
  {
    var srcs: seq<Option<RuleSet>> := [Some(style)];
    assert ClassSources([], table) + [Some(style)] == srcs;
    assert srcs[..0] == [];
    assert AssignAll(style, srcs) == style + style;
    assert style + style == style;
  }

  /** The value the last class in the list that defines `key` gives it, if
      any class does: a reference definition of the merge's priority. */
  function LastClassValue(classes: seq<string>, table: RuleTable, key: string): Option<Val>
    decreases |classes|
  {
    if classes == [] then None
    else
      var c := classes[|classes| - 1];
      if c in table && key in table[c] then Some(table[c][key])
      else LastClassValue(classes[..|classes| - 1], table, key)
  }

  lemma {:induction false} ClassSourcesLastWins(style: RuleSet, classes: seq<string>, table: RuleTable, key: string)
    requires key !in style
    ensures LastClassValue(classes, table, key).Some? ==>
              key in AssignAll(style, ClassSources(classes, table)) &&
              AssignAll(style, ClassSources(classes, table))[key] == LastClassValue(classes, table, key).value
    ensures LastClassValue(classes, table, key).None? ==> key !in AssignAll(style, ClassSources(classes, table))
    decreases |classes|
  {
    if classes != [] {
      var init := classes[..|classes| - 1];
      ClassSourcesLastWins(style, init, table, key);
      var srcs := ClassSources(classes, table);
      assert srcs[..|srcs| - 1] == ClassSources(init, table);
    }
  }

  /** Every other key is defined exactly when some listed class defines it,
      and takes its value from the last such class. */
  lemma MergeTakesLastClass(style: RuleSet, classes: seq<string>, table: RuleTable, key: string)
    requires key !in style
    ensures key in Merged(style, classes, table) <==> LastClassValue(classes, table, key).Some?
    ensures key in Merged(style, classes, table) ==>
              Merged(style, classes, table)[key] == LastClassValue(classes, table, key).value
  {
    var srcs := ClassSources(classes, table) + [Some(style)];
    assert srcs[..|srcs| - 1] == ClassSources(classes, table);
    ClassSourcesLastWins(style, classes, table, key);
  }

  lemma {:induction false} ClassSourcesAppend(xs: seq<string>, ys: seq<string>, table: RuleTable)
    ensures ClassSources(xs + ys, table) == ClassSources(xs, table) + ClassSources(ys, table)
    decreases |ys|
  {
    if ys == [] {
      assert xs + ys == xs;
    } else {
      var init := ys[..|ys| - 1];
      assert (xs + ys)[..|xs + ys| - 1] == xs + init;
      ClassSourcesAppend(xs, init, table);
    }
  }

  lemma {:induction false} AssignAllSkipsUndefined(target: RuleSet, a: seq<Option<RuleSet>>, b: seq<Option<RuleSet>>)
    ensures AssignAll(target, a + [None] + b) == AssignAll(target, a + b)
    decreases |b|
  {
    if b == [] {
      assert (a + [None] + b)[..|a| + 1 - 1] == a;
      assert a + b == a;
    } else {
      var init := b[..|b| - 1];
      assert (a + [None] + b)[..|a + [None] + b| - 1] == a + [None] + init;
      assert (a + b)[..|a + b| - 1] == a + init;
      AssignAllSkipsUndefined(target, a, init);
    }
  }

  /** A class name the table does not define contributes nothing, wherever it
      stands in the list. */
  lemma MergeSkipsUnknownClass(style: RuleSet, xs: seq<string>, c: string, ys: seq<string>, table: RuleTable)
    requires c !in table
    ensures Merged(style, xs + [c] + ys, table) == Merged(style, xs + ys, table)
  {
    UnknownClassSource(xs, c, ys, table);
    ClassSourcesAppend(xs, ys, table);
    var a := ClassSources(xs, table);
    var b := ClassSources(ys, table) + [Some(style)];
    assert ClassSources(xs + [c] + ys, table) + [Some(style)] == a + [None] + b;
    assert ClassSources(xs + ys, table) + [Some(style)] == a + b;
    AssignAllSkipsUndefined(style, a, b);
  }

  lemma UnknownClassSource(xs: seq<string>, c: string, ys: seq<string>, table: RuleTable)
    requires c !in table
    ensures ClassSources(xs + [c] + ys, table) == ClassSources(xs, table) + [None] + ClassSources(ys, table)
  {
    ClassSourcesAppend(xs + [c], ys, table);
    ClassSourcesAppend(xs, [c], table);
    assert ClassSources([c], table) == [None] by {
      assert [c][..0] == [];
    }
  }
}
