/** The JavaScript values the request handler and the page work on once a JSON
    body has been parsed, JavaScript truthiness, and `parseFloat` over decimal text. */
module Js {

  datatype Option<+T> = None | Some(value: T)

  /** A value read out of a parsed JSON object. `JUndefined` is what reading a
      property that is not there yields; `JObject` stands for any object. */
  datatype JsValue =
    | JUndefined
    | JNull
    | JBool(b: bool)
    | JNum(n: real)
    | JStr(s: string)
    | JObject

  /** A parsed JSON object: property name to value. */
  type Object = map<string, JsValue>

  /** What `parseFloat` returns: a finite number, or NaN when no number starts the text. */
  datatype Number = Num(r: real) | NaN

  /** Property access `o.name`. */
  function Field(o: Object, name: string): JsValue {
    if name in o then o[name] else JUndefined
  }

  /** JavaScript truthiness: `undefined`, `null`, `false`, `0` and `''` are the
      falsy values here; every string but the empty one is truthy, `"0"` included. */
  predicate Truthy(v: JsValue) {
    match v
    case JUndefined => false
    case JNull => false
    case JBool(b) => b
    case JNum(n) => n != 0.0
    case JStr(s) => s != ""
    case JObject => true
  }

  predicate IsDigit(c: char) {
    '0' <= c <= '9'
  }

  /** The white space `parseFloat` skips before the number. */
  predicate IsSpace(c: char) {
    c == ' ' || c == '\t' || c == '\n' || c == '\r' || c == '\U{000B}' || c == '\U{000C}'
    || c == '\U{00A0}' || c == '\U{2028}' || c == '\U{2029}' || c == '\U{FEFF}'
  }

  /** Length of the longest prefix of `s` made of white space. */
  function SpaceRun(s: string): (n: nat)
    ensures n <= |s|
    ensures forall k :: 0 <= k < n ==> IsSpace(s[k])
    ensures n < |s| ==> !IsSpace(s[n])
  {
    if s == [] || !IsSpace(s[0]) then 0 else 1 + SpaceRun(s[1..])
  }

  /** Length of the longest prefix of `s` made of decimal digits. */
  function DigitRun(s: string): (n: nat)
    ensures n <= |s|
    ensures forall k :: 0 <= k < n ==> IsDigit(s[k])
    ensures n < |s| ==> !IsDigit(s[n])
  {
    if s == [] || !IsDigit(s[0]) then 0 else 1 + DigitRun(s[1..])
  }

  predicate AllDigits(d: string) {
    forall k :: 0 <= k < |d| ==> IsDigit(d[k])
  }

  /** The value of a run of decimal digits, most significant digit first. */
  function DigitsValue(d: string): nat
    requires AllDigits(d)
  {
    if d == [] then 0 else 10 * DigitsValue(d[..|d| - 1]) + (d[|d| - 1] as int - '0' as int)
  }

  function Pow10(e: nat): (p: nat)
    ensures p >= 1
  {
    if e == 0 then 1 else 10 * Pow10(e - 1)
  }

  /** The exponent written by an `e` or `E`, an optional sign and at least one
      digit at the start of `s`; 0 when `s` does not start with one. */
  function Exponent(s: string): int {
    if s == [] || (s[0] != 'e' && s[0] != 'E') then 0
    else
      var t := s[1..];
      var signed := t != [] && (t[0] == '+' || t[0] == '-');
      var u := if signed then t[1..] else t;
      var n := DigitRun(u);
      if n == 0 then 0
      else if signed && t[0] == '-' then -(DigitsValue(u[..n]) as int)
      else DigitsValue(u[..n])
  }

  /** `m` times ten to the power `e`. */
  function Scale(m: real, e: int): real {
    if e >= 0 then m * Pow10(e) as real else m / Pow10(-e) as real
  }

  /** The longest prefix of `s` made of decimal digits. */
  function Digits(s: string): (d: string)
    ensures AllDigits(d) && |d| <= |s| && d == s[..|d|]
    ensures |d| < |s| ==> !IsDigit(s[|d|])
  {
    s[..DigitRun(s)]
  }

  /** The decimal literal at the start of `u`, which has no sign: digits, an
      optional point with digits, an optional exponent. NaN when neither the
      integer nor the fraction part has a digit. */
  function UnsignedLiteral(u: string): Number {
    var whole := Digits(u);
    var afterWhole := u[|whole|..];
    var point := afterWhole != [] && afterWhole[0] == '.';
    var fraction := if point then Digits(afterWhole[1..]) else [];
    if whole == [] && fraction == [] then NaN
    else
      var rest := if point then afterWhole[1 + |fraction|..] else afterWhole;
      var mantissa := DigitsValue(whole) as real + DigitsValue(fraction) as real / Pow10(|fraction|) as real;
      Num(Scale(mantissa, Exponent(rest)))
  }

  function Negate(x: Number): Number {
    match x
    case Num(r) => Num(-r)
    case NaN => NaN
  }

  /** `parseFloat(s)`: skip leading white space, read an optional sign and the
      longest decimal literal after it. */
  function ParseFloat(s: string): Number {
    var t := s[SpaceRun(s)..];
    if t != [] && t[0] == '-' then Negate(UnsignedLiteral(t[1..]))
    else if t != [] && t[0] == '+' then UnsignedLiteral(t[1..])
    else UnsignedLiteral(t)
  }

  /** `parseFloat(v)`: the argument is first converted to text. A number's text
      reads back as that number; `undefined`, `null`, `true` and `false` start
      with no number. The model reads every object as the text of a plain
      object, `[object Object]`, so as NaN; an object whose own `toString` or
      `valueOf` changes that conversion is not modelled. */
  function ParseFloatValue(v: JsValue): Number {
    match v
    case JNum(n) => Num(n)
    case JStr(s) => ParseFloat(s)
    case _ => NaN
  }

  /** A literal with no digit in its text does not start with a number. */
  lemma UnsignedLiteralWithoutDigits(u: string)
    requires forall k :: 0 <= k < |u| ==> !IsDigit(u[k])
    ensures UnsignedLiteral(u) == NaN
  {
    assert Digits(u) == [];
  }

  /** Text with no digit in it is not a number to `parseFloat`: it gives NaN, never 0. */
  lemma ParseFloatWithoutDigits(s: string)
    requires forall k :: 0 <= k < |s| ==> !IsDigit(s[k])
    ensures ParseFloat(s) == NaN
  {
    var t := s[SpaceRun(s)..];
    if t != [] && (t[0] == '-' || t[0] == '+') {
      UnsignedLiteralWithoutDigits(t[1..]);
    } else {
      UnsignedLiteralWithoutDigits(t);
    }
  }

  /** The decimal text of a natural number, as `String(n)` writes it. */
  function DecimalText(n: nat): (d: string)
    ensures d != [] && AllDigits(d)
  {
    if n < 10 then ['0' + n as char] else DecimalText(n / 10) + ['0' + (n % 10) as char]
  }

  lemma {:induction false} DecimalTextValue(n: nat)
    ensures DigitsValue(DecimalText(n)) == n
  {
    if n >= 10 {
      var d := DecimalText(n);
      assert d[..|d| - 1] == DecimalText(n / 10);
      DecimalTextValue(n / 10);
    }
  }

  lemma DigitRunOfDigits(d: string)
    requires AllDigits(d)
    ensures DigitRun(d) == |d|
  {
  }

  /** `parseFloat` reads back the decimal text of every natural number. */
  lemma ParseFloatDecimalText(n: nat)
    ensures ParseFloat(DecimalText(n)) == Num(n as real)
  {
    var d := DecimalText(n);
    assert !IsSpace(d[0]);
    assert d[SpaceRun(d)..] == d;
    DigitRunOfDigits(d);
    assert Digits(d) == d;
    assert d[|d|..] == [];
    DecimalTextValue(n);
  }
}
