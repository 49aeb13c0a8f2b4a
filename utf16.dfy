/**
 * JavaScript strings are sequences of UTF-16 code units, and `String.prototype.length`
 * counts code units, not characters. A form field arrives as Unicode text; in Dafny a
 * `char` is a Unicode scalar value, so the length JavaScript reports for a string is the
 * number of UTF-16 code units its scalar values encode to: one for a value inside the
 * Basic Multilingual Plane, two (a surrogate pair) for a value above it.
 */
module Utf16 {

  /** The first scalar value that needs a surrogate pair in UTF-16. */
  const SUPPLEMENTARY_START := 0x1_0000

  predicate InBmp(c: char) {
    (c as int) < SUPPLEMENTARY_START
  }

  /** Code units UTF-16 uses to encode one scalar value. */
  function CodeUnits(c: char): (n: nat)
    ensures n == 1 <==> InBmp(c)
    ensures n == 2 <==> !InBmp(c)
  {
    if InBmp(c) then 1 else 2
  }

  /**
   * The value of `s.length` in JavaScript for the string whose scalar values are `s`.
   * It is never less than the number of characters and never more than twice it; it
   * equals the character count exactly when every character lies in the Basic
   * Multilingual Plane.
   */
  function JsLength(s: string): (n: nat)
    ensures |s| <= n <= 2 * |s|
    ensures n == |s| <==> forall i | 0 <= i < |s| :: InBmp(s[i])
    ensures n == 0 <==> s == []
  {
    if s == [] then 0
    else
      var rest := JsLength(s[1..]);
      assert forall i | 1 <= i < |s| :: s[i] == s[1..][i - 1];
      CodeUnits(s[0]) + rest
  }

  /** The code-unit length of a concatenation is the sum of the lengths of its parts. */
  lemma {:induction false} JsLengthAppend(a: string, b: string)
    ensures JsLength(a + b) == JsLength(a) + JsLength(b)
  {
    if a == [] {
      assert a + b == b;
    } else {
      assert (a + b)[1..] == a[1..] + b;
      JsLengthAppend(a[1..], b);
    }
  }
}
