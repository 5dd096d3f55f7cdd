/**
 * The pieces of JavaScript's value semantics that the analysis service and the
 * screens depend on: JSON values, truthiness (`!x`), the numeric reading used by
 * `<` and `>` (ToNumber), the white-space class of `\s` and `trim`, and
 * lower-casing.
 */
module JsSemantics {
  import opened Wrappers

  /** An IEEE double as the normaliser sees it: a finite value, an infinity, or NaN. */
  datatype Number = Finite(value: real) | PositiveInfinity | NegativeInfinity | NaN

  /**
   * A JSON value. An object is a map from property names to values; a property
   * that is absent (JavaScript's `undefined`) is `None` when looked up with `Get`.
   */
  datatype JsValue =
    | JNull
    | JBool(b: bool)
    | JNum(n: Number)
    | JStr(s: string)
    | JArray(items: seq<JsValue>)
    | JObject(props: map<string, JsValue>)

  /** Property lookup: `obj.key`, `None` standing for `undefined`. */
  function Get(props: map<string, JsValue>, key: string): (r: Option<JsValue>)
    ensures r.Some? <==> key in props
    ensures r.Some? ==> r.value == props[key]
  {
    if key in props then Some(props[key]) else None
  }

  /** `!!v`: false exactly for null, false, 0, NaN and the empty string. */
  predicate Truthy(v: JsValue) {
    match v
    case JNull => false
    case JBool(b) => b
    case JNum(n) => n != NaN && n != Finite(0.0)
    case JStr(s) => s != ""
    case JArray(_) => true
    case JObject(_) => true
  }

  /** Truthiness of a looked-up property; `undefined` is falsy. */
  predicate TruthyProp(v: Option<JsValue>) {
    v.Some? && Truthy(v.value)
  }

  /** `x < c` for a number `x` and a finite constant `c`; false when `x` is NaN. */
  predicate LessThan(x: Number, c: real) {
    match x
    case Finite(r) => r < c
    case NegativeInfinity => true
    case PositiveInfinity => false
    case NaN => false
  }

  /** `x > c` for a number `x` and a finite constant `c`; false when `x` is NaN. */
  predicate GreaterThan(x: Number, c: real) {
    match x
    case Finite(r) => r > c
    case PositiveInfinity => true
    case NegativeInfinity => false
    case NaN => false
  }

  /**
   * ToNumber, as applied by `v < 0` and `v > 100`. An array is read through its
   * `join(",")`: no element gives "" (0), one element gives that element's
   * string form, two or more put a comma into the text, which never reads as a
   * number. A plain object reads as "[object Object]", that is NaN. JavaScript
   * throws instead when an object with an own `toString` property sits at the
   * top or anywhere inside an array, at any depth; the model does not.
   */
  function ToNumber(v: JsValue): Number
    decreases v, 0
  {
    match v
    case JNull => Finite(0.0)
    case JBool(b) => if b then Finite(1.0) else Finite(0.0)
    case JNum(n) => n
    case JStr(s) => StringToNumber(s)
    case JArray(items) =>
      if |items| == 0 then Finite(0.0)
      else if |items| == 1 then ElementToNumber(items[0])
      else NaN
    case JObject(_) => NaN
  }

  /** ToNumber of the text an array element contributes to `join`. */
  function ElementToNumber(v: JsValue): Number
    decreases v, 1
  {
    match v
    case JNull => Finite(0.0)  // null joins as ""
    case JBool(_) => NaN       // "true" / "false"
    case JNum(n) => n          // a number's shortest text reads back as itself
    case JStr(s) => StringToNumber(s)
    case JArray(_) => ToNumber(v)
    case JObject(_) => NaN
  }

  /** The characters of `\s` and of `String.prototype.trim`: WhiteSpace and LineTerminator. */
  predicate IsWhiteSpace(c: char) {
    var n := c as int;
    n == 0x09 || n == 0x0A || n == 0x0B || n == 0x0C || n == 0x0D || n == 0x20 ||
    n == 0xA0 || n == 0x1680 || (0x2000 <= n <= 0x200A) || n == 0x2028 || n == 0x2029 ||
    n == 0x202F || n == 0x205F || n == 0x3000 || n == 0xFEFF
  }

  predicate NoWhiteSpace(s: string) {
    forall k :: 0 <= k < |s| ==> !IsWhiteSpace(s[k])
  }

  function TrimStart(s: string): (r: string)
    ensures |r| <= |s| && r == s[|s| - |r|..]
    ensures r == [] || !IsWhiteSpace(r[0])
    ensures forall k :: 0 <= k < |s| - |r| ==> IsWhiteSpace(s[k])
  {
    if s != [] && IsWhiteSpace(s[0]) then
      var r := TrimStart(s[1..]);
      assert forall k :: 1 <= k < |s| - |r| ==> s[k] == s[1..][k - 1];
      r
    else s
  }

  function TrimEnd(s: string): (r: string)
    ensures |r| <= |s| && r == s[..|r|]
    ensures r == [] || !IsWhiteSpace(r[|r| - 1])
  {
    if s != [] && IsWhiteSpace(s[|s| - 1]) then TrimEnd(s[..|s| - 1]) else s
  }

  function Trim(s: string): string {
    TrimEnd(TrimStart(s))
  }

  /** Value of a digit character in base 16 or less, or `base` itself when it is not a digit there. */
  function DigitValue(c: char, base: nat): (d: nat)
    requires 2 <= base <= 16
    ensures d <= base
  {
    var v :=
      if '0' <= c <= '9' then (c as int) - ('0' as int)
      else if 'a' <= c <= 'f' then (c as int) - ('a' as int) + 10
      else if 'A' <= c <= 'F' then (c as int) - ('A' as int) + 10
      else base;
    if v < base then v else base
  }

  predicate AllDigits(s: string, base: nat)
    requires 2 <= base <= 16
  {
    forall k :: 0 <= k < |s| ==> DigitValue(s[k], base) < base
  }

  /** The value of a digit string (most significant digit first); 0 for the empty string. */
  function DigitsValue(s: string, base: nat): nat
    requires 2 <= base <= 16
    requires AllDigits(s, base)
  {
    if s == [] then 0
    else DigitsValue(s[..|s| - 1], base) * base + DigitValue(s[|s| - 1], base)
  }

  function Pow10(e: nat): (p: nat)
    ensures p >= 1
  {
    if e == 0 then 1 else 10 * Pow10(e - 1)
  }

  function IndexOf(s: string, c: char): (r: Option<nat>)
    ensures r.Some? ==> r.value < |s| && s[r.value] == c && c !in s[..r.value]
    ensures r.None? ==> c !in s
  {
    if s == [] then None
    else if s[0] == c then Some(0)
    else match IndexOf(s[1..], c)
      case Some(i) => Some(i + 1)
      case None => None
  }

  function LastIndexOf(s: string, c: char): (r: Option<nat>)
    ensures r.Some? ==> r.value < |s| && s[r.value] == c && c !in s[r.value + 1..]
    ensures r.None? ==> c !in s
  {
    if s == [] then None
    else if s[|s| - 1] == c then Some(|s| - 1)
    else LastIndexOf(s[..|s| - 1], c)
  }

  /** `digits [. digits]` or `. digits`, with at least one digit. */
  function Mantissa(m: string): Option<real> {
    match IndexOf(m, '.')
    case None =>
      if |m| > 0 && AllDigits(m, 10) then Some(DigitsValue(m, 10) as real) else None
    case Some(d) =>
      var whole, frac := m[..d], m[d + 1..];
      if (|whole| > 0 || |frac| > 0) && AllDigits(whole, 10) && AllDigits(frac, 10)
      then Some(DigitsValue(whole, 10) as real + DigitsValue(frac, 10) as real / Pow10(|frac|) as real)
      else None
  }

  /** `[+|-] digits`. */
  function Exponent(x: string): Option<int> {
    if |x| > 1 && (x[0] == '+' || x[0] == '-') && AllDigits(x[1..], 10) then
      Some(if x[0] == '-' then -(DigitsValue(x[1..], 10) as int) else DigitsValue(x[1..], 10))
    else if |x| > 0 && AllDigits(x, 10) then Some(DigitsValue(x, 10))
    else None
  }

  function Scale(r: real, e: int): real {
    if e >= 0 then r * Pow10(e) as real else r / Pow10(-e) as real
  }

  /** An unsigned decimal literal with an optional exponent, or `Infinity`. */
  function UnsignedDecimal(t: string): Number {
    if t == "Infinity" then PositiveInfinity
    else
      var e := match IndexOf(t, 'e') case Some(i) => Some(i) case None => IndexOf(t, 'E');
      match e
      case None =>
        (match Mantissa(t) case Some(r) => Finite(r) case None => NaN)
      case Some(i) =>
        match (Mantissa(t[..i]), Exponent(t[i + 1..]))
        case (Some(r), Some(x)) => Finite(Scale(r, x))
        case _ => NaN
  }

  function Negate(n: Number): Number {
    match n
    case Finite(r) => Finite(-r)
    case PositiveInfinity => NegativeInfinity
    case NegativeInfinity => PositiveInfinity
    case NaN => NaN
  }

  /** `0x`, `0o` or `0b` followed by digits of that base (no sign allowed). */
  function RadixLiteral(t: string): Option<Number> {
    if |t| > 2 && t[0] == '0' then
      var base := if t[1] in "xX" then 16 else if t[1] in "oO" then 8 else if t[1] in "bB" then 2 else 0;
      if base != 0 && AllDigits(t[2..], base) then Some(Finite(DigitsValue(t[2..], base) as real)) else None
    else None
  }

  /**
   * StringToNumber: surrounding white space is ignored, an empty text reads as 0,
   * anything that is not a numeric literal reads as NaN.
   */
  function StringToNumber(s: string): Number {
    var t := Trim(s);
    if t == [] then Finite(0.0)
    else match RadixLiteral(t)
      case Some(n) => n
      case None =>
        if t[0] == '+' then UnsignedDecimal(t[1..])
        else if t[0] == '-' then Negate(UnsignedDecimal(t[1..]))
        else UnsignedDecimal(t)
  }

  /** A word is not a numeric literal: "high" reads as NaN. */
  lemma WordReadsAsNaN()
    ensures StringToNumber("high") == NaN
  {
    var t := "high";
    assert !IsWhiteSpace(t[0]) && !IsWhiteSpace(t[3]);
    assert TrimStart(t) == t;
    assert TrimEnd(t) == t;
    assert RadixLiteral(t) == None;
    assert 'e' !in t && 'E' !in t && '.' !in t;
    assert DigitValue(t[0], 10) == 10;
    assert Mantissa(t) == None;
    assert UnsignedDecimal(t) == NaN;
  }

  /** The text "0" reads as the number zero. */
  lemma ZeroTextReadsAsZero()
    ensures StringToNumber("0") == Finite(0.0)
  {
    var t := "0";
    assert !IsWhiteSpace(t[0]);
    assert TrimStart(t) == t;
    assert TrimEnd(t) == t;
    assert RadixLiteral(t) == None;
    assert 'e' !in t && 'E' !in t && '.' !in t;
    assert DigitValue(t[0], 10) == 0;
    assert DigitsValue(t, 10) == 0 by { assert t[..0] == ""; }
    assert Mantissa(t) == Some(0.0);
  }

  /** `toLowerCase` on one character; only the ASCII capitals are modelled. */
  function LowerChar(c: char): (r: char)
    ensures !('A' <= r <= 'Z')
    ensures IsWhiteSpace(r) <==> IsWhiteSpace(c)
  {
    if 'A' <= c <= 'Z' then (c as int + 32) as char else c
  }

  function ToLowerCase(s: string): (r: string)
    ensures |r| == |s|
    ensures forall k :: 0 <= k < |s| ==> r[k] == LowerChar(s[k])
  {
    seq(|s|, k requires 0 <= k < |s| => LowerChar(s[k]))
  }

  /** Lower-casing twice is lower-casing once. */
  lemma ToLowerCaseIdempotent(s: string)
    ensures ToLowerCase(ToLowerCase(s)) == ToLowerCase(s)
  {
    var once := ToLowerCase(s);
    assert forall k :: 0 <= k < |s| ==> LowerChar(once[k]) == once[k];
  }
}
