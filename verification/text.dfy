/**
  The two facts about JavaScript strings the validators depend on: what the
  regular-expression class `\s` counts as white space, and that `length` counts
  UTF-16 code units, not characters. A Dafny `char` is a Unicode scalar value.
 */
module JsText {

  /** Membership in `\s`: the WhiteSpace and LineTerminator code points of ECMAScript. */
  predicate IsSpace(c: char) {
    var n := c as int;
    n == 0x09 || n == 0x0A || n == 0x0B || n == 0x0C || n == 0x0D || n == 0x20
    || n == 0xA0 || n == 0x1680 || (0x2000 <= n <= 0x200A) || n == 0x2028 || n == 0x2029
    || n == 0x202F || n == 0x205F || n == 0x3000 || n == 0xFEFF
  }

  /** Code units one character takes in UTF-16: two above the Basic Multilingual Plane. */
  function Units(c: char): nat {
    if c as int > 0xFFFF then 2 else 1
  }

  /** `s.length` in JavaScript. */
  function Utf16Length(s: string): nat {
    if |s| == 0 then 0 else Units(s[0]) + Utf16Length(s[1..])
  }

  /** Every character takes one or two code units, so the JavaScript length lies
      between the number of characters and twice that number. */
  lemma {:induction false} Utf16LengthBounds(s: string)
    ensures |s| <= Utf16Length(s) <= 2 * |s|
  {
    if |s| > 0 {
      Utf16LengthBounds(s[1..]);
    }
  }

  /** On text inside the Basic Multilingual Plane the two lengths agree. */
  lemma {:induction false} Utf16LengthBmp(s: string)
    requires forall k | 0 <= k < |s| :: s[k] as int <= 0xFFFF
    ensures Utf16Length(s) == |s|
  {
    if |s| > 0 {
      assert forall k | 0 <= k < |s[1..]| :: s[1..][k] == s[k + 1];
      Utf16LengthBmp(s[1..]);
    }
  }

  /** Above the Basic Multilingual Plane every character is a surrogate pair, so the
      JavaScript length is twice the number of characters. */
  lemma {:induction false} Utf16LengthAstral(s: string)
    requires forall k | 0 <= k < |s| :: s[k] as int > 0xFFFF
    ensures Utf16Length(s) == 2 * |s|
  {
    if |s| > 0 {
      assert forall k | 0 <= k < |s[1..]| :: s[1..][k] == s[k + 1];
      Utf16LengthAstral(s[1..]);
    }
  }
}
