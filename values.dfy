/** JavaScript values as the style engine meets them, with the parts of the
    language's conversions that the engine relies on: truthiness, parseFloat,
    Number() and the arithmetic operators. Numbers are exact reals; NaN is a
    value of its own. */
module JsValues {

  datatype Option<+T> = None | Some(value: T)

  /** A style value: undefined, NaN, any other number, a string, or a
      function (the store's bound paint entry). */
  datatype Val = Undefined | NaN | Num(x: real) | Str(s: string) | Fn

  /** JavaScript truthiness: undefined, NaN, 0 and "" are falsy; a function
      is truthy. */
  predicate Truthy(v: Val) {
    match v
    case Undefined => false
    case NaN => false
    case Num(x) => x != 0.0
    case Str(s) => s != ""
    case Fn => true
  }

  /** `obj[key]` on a plain object: the stored value, or undefined. */
  function Lookup(m: map<string, Val>, key: string): Val {
    if key in m then m[key] else Undefined
  }

  /** Two maps agree at `key`: both lack it or both hold the same value. */
  predicate SameAt(m1: map<string, Val>, m2: map<string, Val>, key: string) {
    (key in m1 <==> key in m2) && (key in m1 ==> m1[key] == m2[key])
  }

  /** `value[value.length - 1] == "%"`: only a non-empty string can end in "%". */
  predicate EndsWithPercent(v: Val) {
    v.Str? && |v.s| > 0 && v.s[|v.s| - 1] == '%'
  }

  /** The ASCII white space parseFloat and Number() skip: space, tab, line
      feed, vertical tab, form feed and carriage return. */
  predicate IsSpace(c: char) {
    c == ' ' || c == '\t' || c == '\n' || c == '\U{B}' || c == '\U{C}' || c == '\r'
  }

  predicate IsDigit(c: char) {
    '0' as int <= c as int <= '9' as int
  }

  function TrimStart(s: string): string {
    if s != [] && IsSpace(s[0]) then TrimStart(s[1..]) else s
  }

  function TrimEnd(s: string): string {
    if s != [] && IsSpace(s[|s| - 1]) then TrimEnd(s[..|s| - 1]) else s
  }

  /** The length of the longest run of digits at the head of `s`. */
  function DigitRun(s: string): (n: nat)
    ensures n <= |s|
    ensures forall i :: 0 <= i < n ==> IsDigit(s[i])
    ensures n < |s| ==> !IsDigit(s[n])
  {
    if s != [] && IsDigit(s[0]) then 1 + DigitRun(s[1..]) else 0
  }

  function DigitsValue(d: string): nat
    requires forall i :: 0 <= i < |d| ==> IsDigit(d[i])
  {
    if d == [] then 0
    else
      var last := d[|d| - 1];
      assert IsDigit(last);
      10 * DigitsValue(d[..|d| - 1]) + (last as int - '0' as int)
  }

  function Pow10(n: nat): (p: nat)
    ensures p >= 1
  {
    if n == 0 then 1 else 10 * Pow10(n - 1)
  }

  /** A decimal numeral read from the head of a string: its value and how
      many characters it spans. */
  datatype Numeral = Numeral(value: real, length: nat)

  /** An unsigned numeral `digits [. digits]` or `. digits` at the head of `s`. */
  function UnsignedPrefix(s: string): (r: Option<Numeral>)
    ensures r.Some? ==> 0 < r.value.length <= |s|
  {
    var i := DigitRun(s);
    var whole := DigitsValue(s[..i]) as real;
    if i < |s| && s[i] == '.' then
      var f := DigitRun(s[i + 1..]);
      if i == 0 && f == 0 then None
      else Some(Numeral(whole + DigitsValue(s[i + 1..][..f]) as real / Pow10(f) as real, i + 1 + f))
    else if i == 0 then None
    else Some(Numeral(whole, i))
  }

  /** A numeral with an optional sign at the head of `s`. */
  function NumeralPrefix(s: string): (r: Option<Numeral>)
    ensures r.Some? ==> 0 < r.value.length <= |s|
  {
    if s != [] && (s[0] == '-' || s[0] == '+') then
      match UnsignedPrefix(s[1..])
      case None => None
      case Some(n) => Some(Numeral(if s[0] == '-' then -n.value else n.value, n.length + 1))
    else UnsignedPrefix(s)
  }

  /** parseFloat on a string: the longest numeral after leading white space;
      NaN when there is none. */
  function ParseFloatString(s: string): (r: Val)
    ensures r.Num? || r.NaN?
  {
    match NumeralPrefix(TrimStart(s))
    case Some(n) => Num(n.value)
    case None => NaN
  }

  /** parseFloat(v): numbers come back unchanged; undefined, NaN and a
      function (whose source text is not a numeral) give NaN. */
  function ParseFloat(v: Val): (r: Val)
    ensures r.Num? || r.NaN?
    ensures v.Num? ==> r == v
    ensures v.Undefined? || v.NaN? || v.Fn? ==> r.NaN?
  {
    match v
    case Num(_) => v
    case Str(s) => ParseFloatString(s)
    case _ => NaN
  }

  /** Number(s) on a string: white space trimmed, it must be empty (giving 0)
      or exactly one numeral. */
  function StringToNumber(s: string): (r: Val)
    ensures r.Num? || r.NaN?
  {
    var t := TrimEnd(TrimStart(s));
    if t == "" then Num(0.0)
    else
      match NumeralPrefix(t)
      case Some(n) => if n.length == |t| then Num(n.value) else NaN
      case None => NaN
  }

  /** Number(v), the conversion the arithmetic operators apply. */
  function ToNumber(v: Val): (r: Val)
    ensures r.Num? || r.NaN?
    ensures v.Num? ==> r == v
    ensures v.Undefined? || v.NaN? || v.Fn? ==> r.NaN?
  {
    match v
    case Num(_) => v
    case Str(s) => StringToNumber(s)
    case _ => NaN
  }

  /** `a * b` */
  function Mul(a: Val, b: Val): (r: Val)
    ensures r.Num? <==> ToNumber(a).Num? && ToNumber(b).Num?
    ensures r.Num? ==> r.x == ToNumber(a).x * ToNumber(b).x
  {
    if ToNumber(a).Num? && ToNumber(b).Num? then Num(ToNumber(a).x * ToNumber(b).x) else NaN
  }

  /** `a - b` */
  function Sub(a: Val, b: Val): (r: Val)
    ensures r.Num? <==> ToNumber(a).Num? && ToNumber(b).Num?
    ensures r.Num? ==> r.x == ToNumber(a).x - ToNumber(b).x
  {
    if ToNumber(a).Num? && ToNumber(b).Num? then Num(ToNumber(a).x - ToNumber(b).x) else NaN
  }

  /** `a + b` on numeric operands (see the README for strings). */
  function Add(a: Val, b: Val): (r: Val)
    ensures r.Num? <==> ToNumber(a).Num? && ToNumber(b).Num?
    ensures r.Num? ==> r.x == ToNumber(a).x + ToNumber(b).x
  {
    if ToNumber(a).Num? && ToNumber(b).Num? then Num(ToNumber(a).x + ToNumber(b).x) else NaN
  }

  /** `a || b` */
  function Or(a: Val, b: Val): (r: Val)
    ensures Truthy(a) ==> r == a
    ensures !Truthy(a) ==> r == b
  {
    if Truthy(a) then a else b
  }

  // ----- parseFloat stops at the first character that cannot continue a numeral

  lemma {:induction false} TrimStartPercent(s: string)
    ensures TrimStart(s + "%") == TrimStart(s) + "%"
  {
    if s != [] && IsSpace(s[0]) {
      assert (s + "%")[1..] == s[1..] + "%";
      TrimStartPercent(s[1..]);
    }
  }

  lemma {:induction false} DigitRunPercent(s: string)
    ensures DigitRun(s + "%") == DigitRun(s)
  {
    if s != [] && IsDigit(s[0]) {
      assert (s + "%")[1..] == s[1..] + "%";
      DigitRunPercent(s[1..]);
    }
  }

  lemma UnsignedPrefixPercent(s: string)
    ensures UnsignedPrefix(s + "%") == UnsignedPrefix(s)
  {
    var i := DigitRun(s);
    DigitRunPercent(s);
    assert (s + "%")[..i] == s[..i];
    if i < |s| && s[i] == '.' {
      FractionPercent(s, i);
    } else {
      assert !(i < |s + "%"| && (s + "%")[i] == '.');
    }
  }

  lemma FractionPercent(s: string, i: nat)
    requires i < |s| && s[i] == '.'
    ensures DigitRun(s[i + 1..] + "%") == DigitRun(s[i + 1..])
    ensures (s + "%")[i + 1..] == s[i + 1..] + "%"
    ensures (s[i + 1..] + "%")[..DigitRun(s[i + 1..])] == s[i + 1..][..DigitRun(s[i + 1..])]
  {
    assert (s + "%")[i + 1..] == s[i + 1..] + "%";
    DigitRunPercent(s[i + 1..]);
  }

  lemma NumeralPrefixPercent(s: string)
    ensures NumeralPrefix(s + "%") == NumeralPrefix(s)
  {
    var t := s + "%";
    if s != [] && (s[0] == '-' || s[0] == '+') {
      assert t[1..] == s[1..] + "%";
      UnsignedPrefixPercent(s[1..]);
    } else if s == [] {
      assert t == "%";
      assert UnsignedPrefix(t) == None;
    } else {
      UnsignedPrefixPercent(s);
    }
  }

  /** A trailing "%" never changes what parseFloat reads: parseFloat("50%")
      is parseFloat("50"). */
  lemma ParseFloatIgnoresPercent(s: string)
    ensures ParseFloat(Str(s + "%")) == ParseFloat(Str(s))
  {
    TrimStartPercent(s);
    NumeralPrefixPercent(TrimStart(s));
  }

  /** parseFloat("auto") is NaN. */
  lemma ParseFloatAuto()
    ensures ParseFloat(Str("auto")) == NaN
  {
    var s := "auto";
    assert TrimStart(s) == s;
    assert DigitRun(s) == 0;
  }
}
