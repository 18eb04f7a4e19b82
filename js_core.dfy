/** The pieces of JavaScript value semantics that the portal's code relies on:
    optional values, thrown values, settled promises, truthiness of strings,
    `String.prototype.indexOf` / `endsWith`, number-to-string conversion and
    `Array.prototype.toString`. */
module JsCore {

  datatype Option<T> = None | Some(value: T) {
    function GetOr(default: T): T {
      match this
      case Some(v) => v
      case None => default
    }
  }

  /** A value or the message of the `Error` it was replaced by. */
  datatype Result<T> = Success(value: T) | Failure(error: string)

  /** A value caught by a `catch` clause: an `Error` object (with its message)
      or any other thrown value. */
  datatype Thrown = ErrorObject(message: string) | OtherValue

  /** How an awaited promise, or a call that may throw, settles. */
  datatype Settled<T> = Resolved(value: T) | Rejected(reason: Thrown)

  /** `error instanceof Error ? error.message : fallback` */
  function MessageOr(t: Thrown, fallback: string): string {
    match t
    case ErrorObject(m) => m
    case OtherValue => fallback
  }

  /** A string, `null` or `undefined` is truthy exactly when it is a non-empty string. */
  predicate Present(o: Option<string>) {
    o.Some? && o.value != ""
  }

  /** `o || fallback` for an optional string. */
  function OrElse(o: Option<string>, fallback: string): string {
    if Present(o) then o.value else fallback
  }

  predicate StartsWith(s: string, prefix: string) {
    |prefix| <= |s| && s[..|prefix|] == prefix
  }

  /** `s.endsWith(suffix)`: case-sensitive, character by character. */
  predicate EndsWith(s: string, suffix: string) {
    |suffix| <= |s| && s[|s| - |suffix|..] == suffix
  }

  /** Any text followed by the suffix ends with it, and a string ending with
      it is the rest of the string followed by the suffix. */
  lemma EndsWithAppended(s: string, prefix: string, suffix: string)
    ensures EndsWith(prefix + suffix, suffix)
    ensures EndsWith(s, suffix) ==> s == s[..|s| - |suffix|] + suffix
  {
    assert (prefix + suffix)[|prefix|..] == suffix;
  }

  ghost predicate OccursAt(s: string, t: string, i: int) {
    0 <= i && i + |t| <= |s| && s[i..i + |t|] == t
  }

  /** `s.indexOf(t, k)`: the first position at or after `k` where `t` occurs, or -1. */
  function IndexFrom(s: string, t: string, k: nat): (r: int)
    requires k <= |s|
    decreases |s| - k
    ensures r == -1 || (k <= r && OccursAt(s, t, r))
    ensures r == -1 ==> forall i :: k <= i ==> !OccursAt(s, t, i)
    ensures r != -1 ==> forall i :: k <= i < r ==> !OccursAt(s, t, i)
  {
    if k + |t| > |s| then -1
    else if s[k..k + |t|] == t then k
    else IndexFrom(s, t, k + 1)
  }

  /** `s.indexOf(t)` */
  function IndexOf(s: string, t: string): (r: int)
    ensures r == -1 <==> forall i :: !OccursAt(s, t, i)
    ensures r != -1 ==> OccursAt(s, t, r) && forall i :: 0 <= i < r ==> !OccursAt(s, t, i)
  {
    IndexFrom(s, t, 0)
  }

  predicate IsDigit(c: char) {
    '0' as int <= c as int <= '9' as int
  }

  function DigitChar(d: nat): (c: char)
    requires d < 10
    ensures IsDigit(c) && c as int - '0' as int == d
  {
    ('0' as int + d) as char
  }

  /** `${n}` for a non-negative integer number: its decimal digits. */
  function NatToString(n: nat): (r: string)
    decreases n
    ensures |r| >= 1 && forall i :: 0 <= i < |r| ==> IsDigit(r[i])
    ensures |r| > 1 ==> r[0] != '0'
  {
    if n < 10 then [DigitChar(n)] else NatToString(n / 10) + [DigitChar(n % 10)]
  }

  /** The number a string of decimal digits denotes. */
  function DecimalValue(s: string): nat
    requires forall i :: 0 <= i < |s| ==> IsDigit(s[i])
  {
    if s == [] then 0
    else
      assert IsDigit(s[|s| - 1]);
      DecimalValue(s[..|s| - 1]) * 10 + (s[|s| - 1] as int - '0' as int)
  }

  /** Reading back the digits `NatToString` writes gives the number again. */
  lemma {:induction false} DecimalRoundTrip(n: nat)
    ensures DecimalValue(NatToString(n)) == n
  {
    if n >= 10 {
      var s := NatToString(n);
      assert s[..|s| - 1] == NatToString(n / 10);
      DecimalRoundTrip(n / 10);
    }
  }

  /** `values.join(sep)`, which is what `${array}` produces with sep ",". */
  function Join(values: seq<string>, sep: string): string {
    if values == [] then ""
    else if |values| == 1 then values[0]
    else values[0] + sep + Join(values[1..], sep)
  }
}
