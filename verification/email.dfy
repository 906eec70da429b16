/**
  The e-mail validator of the user schema: `/\S+@\S+\.\S+/.test(email)`.
  The pattern is not anchored, so it only asks for SOME substring of the form
  non-space+ `@` non-space+ `.` non-space+. `RegexMatches` states that
  directly; `IsEmail` is a left-to-right scan that decides it.
 */
module Email {
  import opened JsText

  /** `s[a..e]` is a match of the pattern with its `@` at `at` and its `.` at `dot`.
      `@` and `.` are not space themselves, so every character of the match is non-space. */
  ghost predicate RegexMatchAt(s: string, a: int, at: int, dot: int, e: int) {
    && 0 <= a < at
    && at + 1 < dot
    && dot + 1 < e <= |s|
    && s[at] == '@'
    && s[dot] == '.'
    && forall k | a <= k < e :: !IsSpace(s[k])
  }

  /** The pattern occurs somewhere in `s`. */
  ghost predicate RegexMatches(s: string) {
    exists a, at, dot, e :: RegexMatchAt(s, a, at, dot, e)
  }

  /** An `@` at `at` preceded by a non-space character. */
  predicate AtSign(s: string, at: int) {
    1 <= at < |s| && s[at] == '@' && !IsSpace(s[at - 1])
  }

  /** A `.` at `dot`, after at least one character past `at`, followed by a non-space
      character, with no space anywhere between `at` and that character. */
  predicate DotAfter(s: string, at: int, dot: int) {
    && 0 <= at
    && at + 1 < dot
    && dot + 1 < |s|
    && s[dot] == '.'
    && forall k | at < k <= dot + 1 :: !IsSpace(s[k])
  }

  /** The shortest possible match: one character on either side of the separators. */
  lemma ShortestMatch(s: string)
    ensures RegexMatches(s) <==> exists at, dot :: AtSign(s, at) && DotAfter(s, at, dot)
  {
    if RegexMatches(s) {
      var a, at, dot, e :| RegexMatchAt(s, a, at, dot, e);
      assert AtSign(s, at) && DotAfter(s, at, dot);
    }
    if exists at, dot :: AtSign(s, at) && DotAfter(s, at, dot) {
      var at, dot :| AtSign(s, at) && DotAfter(s, at, dot);
      assert RegexMatchAt(s, at - 1, at, dot, dot + 2);
    }
  }

  /** Looks for the `.` of a match whose `@` is at `at`, from position `k` on, given
      that everything strictly between `at` and `k` is non-space. */
  function DotFrom(s: string, at: int, k: int): (r: bool)
    requires 0 <= at < k <= |s|
    requires forall j | at < j < k :: !IsSpace(s[j])
    ensures r <==> exists dot | k <= dot :: DotAfter(s, at, dot)
    decreases |s| - k
  {
    if k == |s| then false
    else if IsSpace(s[k]) then
      false
    else if at + 1 < k && k + 1 < |s| && s[k] == '.' && !IsSpace(s[k + 1]) then
      assert DotAfter(s, at, k);
      true
    else
      var r := DotFrom(s, at, k + 1);
      assert !DotAfter(s, at, k);
      r
  }

  /** Looks for a match whose `@` is at position `i` or later. */
  function ScanFrom(s: string, i: nat): (r: bool)
    requires 1 <= i
    ensures r <==> exists at, dot | i <= at :: AtSign(s, at) && DotAfter(s, at, dot)
    decreases |s| - i
  {
    if |s| <= i then false
    else if s[i] == '@' && !IsSpace(s[i - 1]) && DotFrom(s, i, i + 1) then true
    else
      var r := ScanFrom(s, i + 1);
      assert !(AtSign(s, i) && exists dot | i + 1 <= dot :: DotAfter(s, i, dot));
      assert forall dot :: DotAfter(s, i, dot) ==> i + 1 <= dot;
      r
  }

  /** The validator. */
  function IsEmail(s: string): (r: bool)
    ensures r <==> RegexMatches(s)
  {
    ShortestMatch(s);
    ScanFrom(s, 1)
  }

  /** The validator is not anchored: leading text, even with spaces in it, is ignored,
      and so is trailing text. */
  lemma Examples()
    ensures IsEmail("a b@c.d")
    ensures IsEmail("a@b.c")
    ensures IsEmail("x y@b.c z")
    ensures !IsEmail("a@b")
    ensures !IsEmail("@b.c")
    ensures !IsEmail("a@.c")
    ensures !IsEmail("a @b.c")
  {
    assert RegexMatchAt("a b@c.d", 2, 3, 5, 7);
    assert RegexMatchAt("a@b.c", 0, 1, 3, 5);
    assert RegexMatchAt("x y@b.c z", 2, 3, 5, 7);
    assert !ScanFrom("a@b", 1);
    assert !ScanFrom("@b.c", 1);
    assert !ScanFrom("a@.c", 1);
    assert !ScanFrom("a @b.c", 1);
  }
}
