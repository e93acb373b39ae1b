/** UTF-8 as Go's unicode/utf8 decodes it, and what becomes of bytes that are not UTF-8. */
module Utf8 {
  import opened Common

  predicate Follows(b: Byte) { 0x80 <= b < 0xC0 }

  predicate SecondOfThree(b0: Byte, b1: Byte) {
    (if b0 == 0xE0 then 0xA0 else 0x80) <= b1 < (if b0 == 0xED then 0xA0 else 0xC0)
  }

  predicate SecondOfFour(b0: Byte, b1: Byte) {
    (if b0 == 0xF0 then 0x90 else 0x80) <= b1 < (if b0 == 0xF4 then 0x90 else 0xC0)
  }

  /** The length of the well-formed code point at the start of `s`; 0 if there is none. */
  function RuneLen(s: Text): (n: nat)
    ensures n <= |s| && n <= 4
    ensures n == 1 <==> s != [] && s[0] < 0x80
  {
    if s == [] then 0
    else if s[0] < 0x80 then 1
    else if 0xC2 <= s[0] < 0xE0 && |s| >= 2 && Follows(s[1]) then 2
    else if 0xE0 <= s[0] < 0xF0 && |s| >= 3 && SecondOfThree(s[0], s[1]) && Follows(s[2]) then 3
    else if 0xF0 <= s[0] < 0xF5 && |s| >= 4 && SecondOfFour(s[0], s[1]) && Follows(s[2]) && Follows(s[3]) then 4
    else 0
  }

  /** A well-formed code point is recognised whatever follows it. */
  lemma RuneLenPrefix(s: Text, t: Text)
    requires RuneLen(s) > 0
    ensures RuneLen(s[..RuneLen(s)] + t) == RuneLen(s)
  {
  }

  predicate Valid(s: Text) {
    s == [] || (RuneLen(s) > 0 && Valid(s[RuneLen(s)..]))
  }

  /** U+FFFD, the replacement character. */
  const REPLACEMENT: Text := [0xEF, 0xBF, 0xBD]

  /** How much of `s` is dealt with at a time: a code point, or one stray byte. */
  function Advance(s: Text): (n: nat)
    requires s != []
    ensures 1 <= n <= |s|
  {
    if RuneLen(s) == 0 then 1 else RuneLen(s)
  }

  function Kept(s: Text): Text
    requires s != []
  {
    if RuneLen(s) == 0 then REPLACEMENT else s[..RuneLen(s)]
  }

  /** Every byte that does not start a well-formed code point is replaced. */
  function Sanitize(s: Text): Text {
    if s == [] then [] else Kept(s) + Sanitize(s[Advance(s)..])
  }

  lemma {:induction false} ValidConcat(s: Text, t: Text)
    requires RuneLen(s) == |s| > 0 && Valid(t)
    ensures Valid(s + t)
  {
  }

  lemma {:induction false} SanitizeIsValid(s: Text)
    ensures Valid(Sanitize(s))
  {
    if s != [] {
      if RuneLen(s) == 0 {
        SanitizeIsValid(s[1..]);
        ValidConcat(REPLACEMENT, Sanitize(s[1..]));
      } else {
        var n := RuneLen(s);
        SanitizeIsValid(s[n..]);
        RuneLenPrefix(s, []);
        assert s[..n] + [] == s[..n];
        ValidConcat(s[..n], Sanitize(s[n..]));
      }
    }
  }

  lemma {:induction false} ValidIsKept(s: Text)
    requires Valid(s)
    ensures Sanitize(s) == s
  {
    if s != [] {
      ValidIsKept(s[RuneLen(s)..]);
      assert s == s[..RuneLen(s)] + s[RuneLen(s)..];
    }
  }

  /** Sanitising changes exactly the texts that are not UTF-8. */
  lemma {:induction false} SanitizeKeepsExactlyValid(s: Text)
    ensures Sanitize(s) == s <==> Valid(s)
  {
    SanitizeIsValid(s);
    if Valid(s) {
      ValidIsKept(s);
    }
  }

  /** The UTF-8 form of a code point. */
  function EncodeRune(r: int): Text
    requires 0 <= r < 0x110000
  {
    if r < 0x80 then [r]
    else if r < 0x800 then [0xC0 + r / 64, 0x80 + r % 64]
    else if r < 0x10000 then [0xE0 + r / 4096, 0x80 + r / 64 % 64, 0x80 + r % 64]
    else [0xF0 + r / 262144, 0x80 + r / 4096 % 64, 0x80 + r / 64 % 64, 0x80 + r % 64]
  }
}
