/** The few JavaScript runtime behaviours the proxy relies on: truthiness,
    JSON values, `Error.prototype.toString`, ASCII `toUpperCase` and
    `String(n)` for integers. */
module Js {
  import opened Wrappers

  // ---------------------------------------------------------------------
  // Truthiness of optional strings

  /** `if (s)` for a value that is a string or `undefined`/`null`:
      only a non-empty string is truthy. */
  predicate Truthy(s: Option<string>) {
    s.Some? && s.value != ""
  }

  /** `a || b` on values that are strings or `undefined`/`null`. */
  function Or(a: Option<string>, b: Option<string>): Option<string> {
    if Truthy(a) then a else b
  }

  // ---------------------------------------------------------------------
  // JSON values

  /** A value produced by `JSON.parse`. A number is `mantissa * 10^exponent`,
      so it is zero exactly when its mantissa is. */
  datatype Json =
    | JNull
    | JBool(b: bool)
    | JNumber(mantissa: int, exponent: int)
    | JString(s: string)
    | JArray(items: seq<Json>)
    | JObject(members: seq<(string, Json)>)

  /** JavaScript truthiness of a parsed JSON value: `null`, `false`, `0` and
      `""` are falsy; every array and object is truthy. */
  predicate JsonTruthy(j: Json) {
    match j
    case JNull => false
    case JBool(b) => b
    case JNumber(m, _) => m != 0
    case JString(s) => s != ""
    case JArray(_) => true
    case JObject(_) => true
  }

  // ---------------------------------------------------------------------
  // Errors

  /** An `Error` object: its `name` (`"Error"`, `"SyntaxError"`, ...) and
      its `message`. */
  datatype JsError = JsError(name: string, message: string)

  /** `String(err)` for an `Error`: the name, then `": "` and the message
      when the message is not empty. Every error the proxy raises has a
      non-empty name, so the case of an empty name (where the message alone
      is the text) is not distinguished. */
  function ErrorToString(e: JsError): (r: string)
    ensures e.message == "" ==> r == e.name
    ensures e.message != "" ==> |r| == |e.name| + 2 + |e.message|
    ensures e.message != "" ==> r[..|e.name|] == e.name && r[|r| - |e.message|..] == e.message
    ensures e.message != "" ==> r[|e.name|..|e.name| + 2] == ": "
  {
    if e.message == "" then e.name else e.name + ": " + e.message
  }

  /** `String(err.message || err)`: the message, or the whole error text
      when the message is empty. */
  function MessageOrString(e: JsError): (r: string)
    ensures e.message != "" ==> r == e.message
    ensures e.message == "" ==> r == e.name
  {
    if e.message != "" then e.message else ErrorToString(e)
  }

  // ---------------------------------------------------------------------
  // ASCII upper-casing

  predicate IsLower(c: char) {
    'a' <= c <= 'z'
  }

  function UpperChar(c: char): char {
    if IsLower(c) then (c as int - 32) as char else c
  }

  /** `s.toUpperCase()` restricted to ASCII: each lower-case letter becomes
      its capital, every other character is kept. */
  function Upper(s: string): (r: string)
    ensures |r| == |s|
    ensures forall i :: 0 <= i < |s| && IsLower(s[i]) ==> r[i] as int == s[i] as int - 32
    ensures forall i :: 0 <= i < |s| && !IsLower(s[i]) ==> r[i] == s[i]
    ensures forall i :: 0 <= i < |r| ==> !IsLower(r[i])
  {
    seq(|s|, i requires 0 <= i < |s| => UpperChar(s[i]))
  }

  /** Upper-casing twice is upper-casing once. */
  lemma UpperIdempotent(s: string)
    ensures Upper(Upper(s)) == Upper(s)
  {
  }

  // ---------------------------------------------------------------------
  // Decimal text of integers

  predicate IsDigit(c: char) {
    '0' <= c <= '9'
  }

  function DigitChar(d: int): (c: char)
    requires 0 <= d < 10
    ensures IsDigit(c)
  {
    ('0' as int + d) as char
  }

  function DigitValue(c: char): int
    requires IsDigit(c)
  {
    c as int - '0' as int
  }

  /** `String(n)` for a non-negative integer: its decimal digits, most
      significant first, with no leading zero. */
  function NatToString(n: nat): (r: string)
    ensures |r| >= 1
    ensures forall i :: 0 <= i < |r| ==> IsDigit(r[i])
    ensures |r| > 1 ==> r[0] != '0'
    ensures n == 0 <==> r == "0"
    decreases n
  {
    if n < 10 then [DigitChar(n)] else NatToString(n / 10) + [DigitChar(n % 10)]
  }

  /** `String(n)` for any integer. */
  function IntToString(n: int): (r: string)
    ensures |r| >= 1
    ensures n < 0 <==> r[0] == '-'
    ensures n >= 0 ==> r == NatToString(n)
    ensures n < 0 ==> r[1..] == NatToString(-n)
  {
    if n < 0 then "-" + NatToString(-n) else NatToString(n)
  }

  /** Reference reading of a string of decimal digits, left to right. */
  function ParseNat(s: string): nat
    requires forall i :: 0 <= i < |s| ==> IsDigit(s[i])
  {
    if s == [] then 0 else ParseNat(s[..|s| - 1]) * 10 + DigitValue(s[|s| - 1])
  }

  /** Reading back the decimal text of `n` gives `n`. */
  lemma {:induction false} ParseNatToString(n: nat)
    ensures ParseNat(NatToString(n)) == n
  {
    var r := NatToString(n);
    if n >= 10 {
      var p := NatToString(n / 10);
      assert r[..|r| - 1] == p;
      ParseNatToString(n / 10);
    }
  }
}
