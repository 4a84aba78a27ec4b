/** The small part of JavaScript string semantics the validators rely on:
    `.length` counts UTF-16 code units, `!value` is true exactly for
    `undefined` and the empty string, and `/^\d+$/` accepts a non-empty run of
    ASCII decimal digits.
 */
module JsString {
  import opened Wrappers

  /** Code points above the Basic Multilingual Plane take two UTF-16 code
      units (a surrogate pair); every other code point takes one. */
  function CodeUnits(c: char): nat {
    if c as int >= 0x1_0000 then 2 else 1
  }

  /** JavaScript's `s.length`: the number of UTF-16 code units of `s`. */
  function JsLength(s: string): (n: nat)
    ensures n == 0 <==> s == []
  {
    if s == [] then 0 else CodeUnits(s[0]) + JsLength(s[1..])
  }

  /** A string is never shorter in UTF-16 code units than in code points, and
      never more than twice as long. */
  lemma {:induction false} JsLengthBounds(s: string)
    ensures |s| <= JsLength(s) <= 2 * |s|
  {
    if s != [] {
      JsLengthBounds(s[1..]);
    }
  }

  /** For text inside the Basic Multilingual Plane, `.length` is the number of
      characters. */
  lemma {:induction false} JsLengthBmp(s: string)
    requires forall i :: 0 <= i < |s| ==> s[i] as int < 0x1_0000
    ensures JsLength(s) == |s|
  {
    if s != [] {
      JsLengthBmp(s[1..]);
    }
  }

  /** JavaScript truthiness of an optional string: `undefined` and `''` are
      falsy, every other string is truthy. */
  predicate Truthy(v: Option<string>) {
    v.Some? && v.value != []
  }

  /** `value || ''`: the string itself when truthy, otherwise the empty string. */
  function OrEmpty(v: Option<string>): string {
    if Truthy(v) then v.value else []
  }

  /** `\d`: the ASCII decimal digits. */
  predicate IsDigit(c: char) {
    '0' <= c <= '9'
  }

  /** Declarative reading of `^\d+$`: at least one character, all digits. */
  predicate AllDigits(s: string) {
    |s| > 0 && forall i :: 0 <= i < |s| ==> IsDigit(s[i])
  }

  /** `/^\d+$/.test(s)` as a left-to-right matcher: the `\d+` loop consumes
      one digit and then either stops at the end of input (`$`) or repeats. */
  predicate MatchesDigitsRegex(s: string) {
    |s| > 0 && IsDigit(s[0]) && (|s| == 1 || MatchesDigitsRegex(s[1..]))
  }

  /** The matcher and the declarative reading agree on every string. */
  lemma {:induction false} DigitsRegexCorrect(s: string)
    ensures MatchesDigitsRegex(s) <==> AllDigits(s)
  {
    if |s| > 1 {
      DigitsRegexCorrect(s[1..]);
      assert forall i :: 1 <= i < |s| ==> s[i] == s[1..][i - 1];
    }
  }
}
