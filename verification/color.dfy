/**
  The colour validator shared by topics and types: `/^#([0-9a-f]{3}){1,2}$/i`.
  `Matches` follows the pattern's structure (an anchored `#`, then one or two
  groups of three hex digits, then the end); the lemmas characterise it.
 */
module Color {
  import opened Store

  /** `[0-9a-f]` under the `i` flag. ASCII letters are the only ones whose
      canonical (upper-case) form falls in the class. */
  predicate HexDigit(c: char) {
    ('0' <= c <= '9') || ('a' <= c <= 'f') || ('A' <= c <= 'F')
  }

  /** `([0-9a-f]{3}){n}` matching all of `t`. */
  predicate Groups(t: string, n: nat)
    decreases n
  {
    if n == 0 then |t| == 0
    else 3 <= |t| && HexDigit(t[0]) && HexDigit(t[1]) && HexDigit(t[2]) && Groups(t[3..], n - 1)
  }

  /** `/^#([0-9a-f]{3}){1,2}$/i.test(s)`. Without the `m` flag `$` only matches at
      the very end, so a trailing line break is not tolerated. */
  predicate Matches(s: string) {
    0 < |s| && s[0] == '#' && (Groups(s[1..], 1) || Groups(s[1..], 2))
  }

  predicate AllHex(t: string) {
    forall k | 0 <= k < |t| :: HexDigit(t[k])
  }

  /** n groups of three are exactly the all-hex strings of length 3n. */
  lemma {:induction false} GroupsShape(t: string, n: nat)
    ensures Groups(t, n) <==> |t| == 3 * n && AllHex(t)
    decreases n
  {
    if n > 0 && 3 <= |t| {
      GroupsShape(t[3..], n - 1);
      assert forall k | 3 <= k < |t| :: t[3..][k - 3] == t[k];
      if HexDigit(t[0]) && HexDigit(t[1]) && HexDigit(t[2]) && AllHex(t[3..]) {
        forall k | 0 <= k < |t| ensures HexDigit(t[k]) {
          if 3 <= k {
            assert t[k] == t[3..][k - 3];
          }
        }
      }
    }
  }

  /** A colour is accepted iff it is `#` followed by exactly three or exactly six hex digits. */
  lemma AcceptedIff(s: string)
    ensures Matches(s) <==> (|s| == 4 || |s| == 7) && s[0] == '#' && AllHex(s[1..])
  {
    if 0 < |s| {
      GroupsShape(s[1..], 1);
      GroupsShape(s[1..], 2);
    }
  }

  /** Anything but four or seven characters, or without the leading `#`, is rejected. */
  lemma RejectsBadShape(s: string)
    requires (|s| != 4 && |s| != 7) || (0 < |s| && s[0] != '#')
    ensures !Matches(s)
  {
    AcceptedIff(s);
  }

  /** ASCII lower-casing, the only case mapping that matters to the class. */
  function Lower(c: char): char {
    if 'A' <= c <= 'Z' then (c as int + 32) as char else c
  }

  function LowerAll(s: string): (r: string)
    ensures |r| == |s|
    ensures forall k | 0 <= k < |s| :: r[k] == Lower(s[k])
  {
    seq(|s|, k requires 0 <= k < |s| => Lower(s[k]))
  }

  /** The match ignores case: lower-casing a string never changes the verdict. */
  lemma CaseInsensitive(s: string)
    ensures Matches(s) <==> Matches(LowerAll(s))
  {
    var l := LowerAll(s);
    AcceptedIff(s);
    AcceptedIff(l);
    if 0 < |s| {
      assert forall k | 0 <= k < |s| - 1 :: s[1..][k] == s[k + 1] && l[1..][k] == l[k + 1];
      assert AllHex(s[1..]) <==> AllHex(l[1..]);
    }
  }

  lemma Examples()
    ensures Matches("#ABC") && Matches("#abc") && Matches("#1e90ff") && Matches("#FF0000")
    ensures !Matches("#abcd") && !Matches("#12345") && !Matches("abc") && !Matches("#abg")
    ensures !Matches("#abc\n") && !Matches("")
  {
    AcceptedIff("#ABC");
    AcceptedIff("#abc");
    AcceptedIff("#1e90ff");
    AcceptedIff("#FF0000");
    AcceptedIff("#abg");
    AcceptedIff("#abcd");
    AcceptedIff("#12345");
    AcceptedIff("abc");
    AcceptedIff("#abc\n");
    assert !HexDigit("#abg"[3]);
  }

  /** The `color` path of the topic and type schemas: `required` with the schema's
      own message, then the pattern with 'Invalid color'. Mongoose reports the first
      failing validator of a path only, and `required` comes first. */
  function ColorRule(color: Option<string>, requiredMessage: string): (e: Errors)
    ensures e.Keys <= {"color"}
    ensures "color" in e <==> !Filled(color) || !Matches(color.value)
    ensures !Filled(color) ==> e == map["color" := Message(requiredMessage)]
    ensures Filled(color) && !Matches(color.value) ==> e == map["color" := Message("Invalid color")]
  {
    if !Filled(color) then Require(false, "color", requiredMessage)
    else Require(Matches(color.value), "color", "Invalid color")
  }
}
