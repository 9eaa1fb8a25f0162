/**
 * JavaScript string values and the few string built-ins the card tool uses.
 *
 * A JavaScript string is a sequence of UTF-16 code units. Regular expressions
 * without the `u` flag (`.`, `[^a-zA-Z0-9]`), `startsWith`, `===` and
 * `replace` with a string pattern all work on code units, so the model does too.
 */
module JsText {
  import opened Wrappers

  /** One UTF-16 code unit. */
  newtype CodeUnit = x: int | 0 <= x < 0x1_0000

  type JsString = seq<CodeUnit>

  const Underscore: CodeUnit := 0x5F
  const Hyphen: CodeUnit := 0x2D
  const Space: CodeUnit := 0x20
  const LowerX: CodeUnit := 0x78
  const NumberSign: CodeUnit := 0x23

  predicate InBasicPlane(c: char)
  {
    c as int < 0x1_0000
  }

  /**
   * The string value of a JavaScript string literal: one code unit per
   * character of the Basic Multilingual Plane, equal to its code point.
   * (Every literal the model uses lies in that plane; the tool's one literal
   * beyond it, the lamp emoji U+1F4A1 of a static heading, is not modelled.
   * A character beyond the plane, which JavaScript would store as a
   * surrogate pair, becomes U+FFFD.)
   */
  function Js(s: string): (r: JsString)
    ensures |r| == |s|
    ensures forall j :: 0 <= j < |s| && InBasicPlane(s[j]) ==> r[j] as int == s[j] as int
  {
    seq(|s|, j requires 0 <= j < |s| => if InBasicPlane(s[j]) then s[j] as int as CodeUnit else 0xFFFD)
  }

  /** Literals concatenate as their values do. */
  lemma JsConcat(a: string, b: string)
    ensures Js(a + b) == Js(a) + Js(b)
  {
    assert forall j :: 0 <= j < |a + b| ==> Js(a + b)[j] == (Js(a) + Js(b))[j];
  }

  /** ASCII `[0-9]`, `[A-Z]` and `[a-z]`: the complement of `[^a-zA-Z0-9]`. */
  predicate IsAsciiAlphanumeric(c: CodeUnit)
  {
    (0x30 <= c <= 0x39) || (0x41 <= c <= 0x5A) || (0x61 <= c <= 0x7A)
  }

  predicate IsAsciiDigit(c: CodeUnit)
  {
    0x30 <= c <= 0x39
  }

  /**
   * ECMAScript LineTerminator (LF, CR, LINE SEPARATOR, PARAGRAPH SEPARATOR):
   * the code units the regular-expression atom `.` does not match.
   */
  predicate IsLineTerminator(c: CodeUnit)
  {
    c == 0x0A || c == 0x0D || c == 0x2028 || c == 0x2029
  }

  predicate NoLineTerminators(s: JsString)
  {
    forall j :: 0 <= j < |s| ==> !IsLineTerminator(s[j])
  }

  /** `s.indexOf(c)` for a one-unit pattern: the first position of `c`, or -1. */
  function IndexOf(s: JsString, c: CodeUnit): (i: int)
    ensures -1 <= i < |s|
    ensures i == -1 <==> c !in s
    ensures 0 <= i ==> s[i] == c && c !in s[..i]
  {
    if s == [] then -1
    else if s[0] == c then 0
    else
      var j := IndexOf(s[1..], c);
      if j == -1 then -1
      else
        assert s[..j + 1] == [s[0]] + s[1..][..j];
        j + 1
  }

  /** `indexOf` finds a position that holds the unit with none before it. */
  lemma {:induction false} IndexOfAt(s: JsString, c: CodeUnit, i: nat)
    requires i < |s| && s[i] == c && c !in s[..i]
    ensures IndexOf(s, c) == i
  {
    if i > 0 {
      assert s[0] in s[..i];
      assert s[1..][..i - 1] == s[..i][1..];
      IndexOfAt(s[1..], c, i - 1);
    }
  }

  /**
   * `s.replace(c, rep)` with a one-unit string pattern: only the FIRST
   * occurrence is replaced. (`rep` is taken literally; the `$` patterns of
   * replacement strings do not occur in the tool.)
   */
  function ReplaceFirst(s: JsString, c: CodeUnit, rep: JsString): (r: JsString)
    ensures c !in s ==> r == s
    ensures c in s ==> exists i :: 0 <= i < |s| && s[i] == c && c !in s[..i] && r == s[..i] + rep + s[i + 1..]
    ensures c in s ==> |r| == |s| - 1 + |rep|
  {
    var i := IndexOf(s, c);
    if i < 0 then s else s[..i] + rep + s[i + 1..]
  }

  /** The number of leading decimal digits of `s`. */
  function LeadingDigits(s: JsString): (k: nat)
    ensures k <= |s|
    ensures forall j :: 0 <= j < k ==> IsAsciiDigit(s[j])
    ensures k < |s| ==> !IsAsciiDigit(s[k])
  {
    if s == [] || !IsAsciiDigit(s[0]) then 0 else 1 + LeadingDigits(s[1..])
  }

  /** The value of a string of decimal digits, most significant first. */
  function DecimalValue(digits: JsString): nat
    requires forall j :: 0 <= j < |digits| ==> IsAsciiDigit(digits[j])
  {
    if digits == [] then 0
    else
      var last := digits[|digits| - 1];
      assert IsAsciiDigit(last);
      10 * DecimalValue(digits[..|digits| - 1]) + (last as int - 0x30)
  }

  /**
   * `parseInt(s)` for a string with no leading white space or sign: the value
   * of the longest decimal-digit prefix, or `None` (NaN) when there is none.
   */
  function ParseInt(s: JsString): (n: Option<nat>)
    ensures n.None? <==> (s == [] || !IsAsciiDigit(s[0]))
  {
    var k := LeadingDigits(s);
    if k == 0 then None else Some(DecimalValue(s[..k]))
  }

  /** `toUpperCase()` on ASCII letters; every other code unit is kept. */
  function AsciiUpper(s: JsString): (r: JsString)
    ensures |r| == |s|
    ensures forall j :: 0 <= j < |s| ==> r[j] == (if 0x61 <= s[j] <= 0x7A then s[j] - 0x20 else s[j])
  {
    if s == [] then [] else [if 0x61 <= s[0] <= 0x7A then s[0] - 0x20 else s[0]] + AsciiUpper(s[1..])
  }
}
