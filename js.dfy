/** JavaScript values as the three core files see them: numbers that may be
    NaN, property values that may be undefined, and the comparison and
    arithmetic rules that make NaN "fail closed". */
module Js {

  datatype Option<+T> = None | Some(value: T)

  datatype Result<+T, +E> = Ok(value: T) | Err(error: E)

  /** A JavaScript number. Doubles are modelled as exact reals; the
      infinities never arise from the conversions the core performs. */
  datatype Number = NaN | Finite(value: real)

  /** A property value read from a row object. */
  datatype JsValue = Undefined | Str(s: string) | Num(n: Number)

  /** `Number(v)`: undefined converts to NaN, a number to itself and a
      string through the string-to-number conversion, which is a parameter
      because its grammar is not part of this model. */
  function ToNumber(v: JsValue, stringToNumber: string -> Number): (r: Number)
    ensures v.Undefined? ==> r.NaN?
    ensures v.Num? ==> r == v.n
    ensures v.Str? ==> r == stringToNumber(v.s)
  {
    match v
    case Undefined => NaN
    case Str(s) => stringToNumber(s)
    case Num(n) => n
  }

  /** `a - b` */
  function Sub(a: Number, b: Number): (r: Number)
    ensures r.Finite? <==> a.Finite? && b.Finite?
    ensures r.Finite? ==> r.value + b.value == a.value
  {
    if a.Finite? && b.Finite? then Finite(a.value - b.value) else NaN
  }

  function AbsReal(x: real): real {
    if x < 0.0 then -x else x
  }

  /** `Math.abs(a)` */
  function Abs(a: Number): (r: Number)
    ensures r.Finite? <==> a.Finite?
    ensures r.Finite? ==> r.value >= 0.0 && (r.value == a.value || r.value == -a.value)
  {
    if a.Finite? then Finite(AbsReal(a.value)) else NaN
  }

  /** `a > b` for a number `b`: false whenever `a` is NaN. */
  predicate GreaterThan(a: Number, b: real) {
    a.Finite? && a.value > b
  }

  /** `a <= b` for a number `b`: false whenever `a` is NaN. */
  predicate AtMost(a: Number, b: real) {
    a.Finite? && a.value <= b
  }

  /** `a + b` */
  function Add(a: Number, b: Number): (r: Number)
    ensures r.Finite? <==> a.Finite? && b.Finite?
    ensures r.Finite? ==> r.value - b.value == a.value
  {
    if a.Finite? && b.Finite? then Finite(a.value + b.value) else NaN
  }

  /** `a <= b` after `Math.abs(a - b)`: both numbers, at most `tolerance`
      apart. */
  predicate Within(a: Number, b: Number, tolerance: real) {
    AtMost(Abs(Sub(a, b)), tolerance)
  }

  /** The characters `String.prototype.trim` removes: white space (tab,
      vertical tab, form feed, space, no-break space, byte order mark and
      the other space separators) and line terminators. */
  predicate IsWhitespace(c: char) {
    || c == ' ' || c == '\t' || c == '\n' || c == '\r' || c == '\U{000B}' || c == '\U{000C}'
    || c == '\U{00A0}' || c == '\U{FEFF}' || c == '\U{1680}'
    || ('\U{2000}' <= c <= '\U{200A}')
    || c == '\U{2028}' || c == '\U{2029}' || c == '\U{202F}' || c == '\U{205F}' || c == '\U{3000}'
  }

  /** The number of characters of class `ws` that `s` starts with. */
  function LeadingCount(s: string, ws: char -> bool, from: nat): (n: nat)
    requires from <= |s|
    requires forall k :: 0 <= k < from ==> ws(s[k])
    ensures from <= n <= |s|
    ensures forall k :: 0 <= k < n ==> ws(s[k])
    ensures n < |s| ==> !ws(s[n])
    decreases |s| - from
  {
    if from < |s| && ws(s[from]) then LeadingCount(s, ws, from + 1) else from
  }

  /** Where the run of characters of class `ws` that ends `s[..hi]` starts,
      not looking below `lo`. */
  function TrailingStart(s: string, ws: char -> bool, lo: nat, hi: nat): (e: nat)
    requires lo <= hi <= |s|
    requires forall k :: hi <= k < |s| ==> ws(s[k])
    ensures lo <= e <= hi
    ensures forall k :: e <= k < |s| ==> ws(s[k])
    ensures e > lo ==> !ws(s[e - 1])
    decreases hi
  {
    if lo < hi && ws(s[hi - 1]) then TrailingStart(s, ws, lo, hi - 1) else hi
  }

  /** `r` is the infix of `s` at `i`, and everything around it in `s` is
      white space. */
  predicate InfixAmidWhitespace(s: string, r: string, i: int) {
    && 0 <= i <= |s| - |r| && r == s[i..i + |r|]
    && (forall k :: 0 <= k < i ==> IsWhitespace(s[k]))
    && (forall k :: i + |r| <= k < |s| ==> IsWhitespace(s[k]))
  }

  /** `s.trim()`: the infix of `s` that neither starts nor ends with white
      space, obtained by dropping white space at both ends. */
  function Trim(s: string): (r: string)
    ensures exists i :: InfixAmidWhitespace(s, r, i)
    ensures r != [] ==> !IsWhitespace(r[0]) && !IsWhitespace(r[|r| - 1])
  {
    var i := LeadingCount(s, IsWhitespace, 0);
    var e := TrailingStart(s, IsWhitespace, i, |s|);
    assert InfixAmidWhitespace(s, s[i..e], i);
    s[i..e]
  }

  /** `s.match(/suffix$/)` for a suffix without special characters. */
  predicate EndsWith(s: string, suffix: string) {
    |suffix| <= |s| && s[|s| - |suffix|..] == suffix
  }
}
