/**
 * JSON strings and numbers as Go's encoding/json writes and reads them (sections 6
 * and 7 of RFC 8259): HTML-safe escaping, and U+FFFD in place of bytes that are
 * not UTF-8.
 */
module JsonText {
  import opened Common
  import opened Utf8

  const QUOTE: Byte := 34
  const BACKSLASH: Byte := 92

  function Hex(x: int): Byte
    requires 0 <= x < 16
  {
    if x < 10 then 48 + x else 87 + x
  }

  function Unhex(b: Byte): (x: Option<int>)
    ensures x.Some? ==> 0 <= x.value < 16
  {
    if 48 <= b < 58 then Some(b - 48)
    else if 97 <= b < 103 then Some(b - 87)
    else if 65 <= b < 71 then Some(b - 55)
    else None
  }

  lemma HexRoundTrip(x: int)
    requires 0 <= x < 16
    ensures Unhex(Hex(x)) == Some(x)
  {
  }

  /** One ASCII byte inside a string. */
  function EscapeAscii(b: Byte): Text
    requires b < 0x80
  {
    if b == QUOTE || b == BACKSLASH then [BACKSLASH, b]
    else if b == 8 then [BACKSLASH, 98]    // \b
    else if b == 12 then [BACKSLASH, 102]  // \f
    else if b == 10 then [BACKSLASH, 110]  // \n
    else if b == 13 then [BACKSLASH, 114]  // \r
    else if b == 9 then [BACKSLASH, 116]   // \t
    else if b < 32 || b == 38 || b == 60 || b == 62  // control characters, & < >
    then [BACKSLASH, 117, 48, 48, Hex(b / 16), Hex(b % 16)]
    else [b]
  }

  const ESCAPED_FFFD: Text := [BACKSLASH, 117, 102, 102, 102, 100]
  const ESCAPED_2028: Text := [BACKSLASH, 117, 50, 48, 50, 56]
  const ESCAPED_2029: Text := [BACKSLASH, 117, 50, 48, 50, 57]

  /** What is written for the first code point, or stray byte, of `s`. */
  function Piece(s: Text): Text
    requires s != []
  {
    if s[0] < 0x80 then EscapeAscii(s[0])
    else if RuneLen(s) == 0 then ESCAPED_FFFD
    else if s[..RuneLen(s)] == [0xE2, 0x80, 0xA8] then ESCAPED_2028
    else if s[..RuneLen(s)] == [0xE2, 0x80, 0xA9] then ESCAPED_2029
    else s[..RuneLen(s)]
  }

  /** The inside of a JSON string. */
  function Quote(s: Text): Text {
    if s == [] then [] else Piece(s) + Quote(s[Advance(s)..])
  }

  /** \uXXXX at the start of `s`. */
  function ReadU4(s: Text): (r: Option<int>)
    ensures r.Some? ==> |s| >= 6 && 0 <= r.value < 0x10000
  {
    if |s| < 6 || s[0] != BACKSLASH || s[1] != 117 then None
    else
      var h3, h2, h1, h0 := Unhex(s[2]), Unhex(s[3]), Unhex(s[4]), Unhex(s[5]);
      if h3.None? || h2.None? || h1.None? || h0.None? then None
      else Some(h3.value * 4096 + h2.value * 256 + h1.value * 16 + h0.value)
  }

  /** What one escape stands for, and its length. */
  function Unescape(s: Text): (r: Option<(Text, nat)>)
    requires s != [] && s[0] == BACKSLASH
    ensures r.Some? ==> 2 <= r.value.1 <= |s|
  {
    if |s| < 2 then None
    else if s[1] == QUOTE || s[1] == BACKSLASH || s[1] == 47 then Some(([s[1]], 2))
    else if s[1] == 98 then Some(([8], 2))
    else if s[1] == 102 then Some(([12], 2))
    else if s[1] == 110 then Some(([10], 2))
    else if s[1] == 114 then Some(([13], 2))
    else if s[1] == 116 then Some(([9], 2))
    else
      var u := ReadU4(s);
      if u.None? then None
      else if 0xD800 <= u.value < 0xE000 then
        // half of a surrogate pair: the other half must follow
        var v := ReadU4(s[6..]);
        if u.value < 0xDC00 && v.Some? && 0xDC00 <= v.value < 0xE000
        then Some((EncodeRune(0x10000 + (u.value - 0xD800) * 1024 + (v.value - 0xDC00)), 12))
        else Some((REPLACEMENT, 6))
      else Some((EncodeRune(u.value), 6))
  }

  /** Reads the inside of a string and its closing quote; the rest of the input is handed back. */
  function Unquote(s: Text): Option<(Text, Text)>
    decreases |s|
  {
    if s == [] then None
    else if s[0] == QUOTE then Some(([], s[1..]))
    else if s[0] == BACKSLASH then
      var e := Unescape(s);
      if e.None? then None else Prepend(e.value.0, Unquote(s[e.value.1..]))
    else if s[0] < 32 then None
    else if RuneLen(s) == 0 then Prepend(REPLACEMENT, Unquote(s[1..]))
    else Prepend(s[..RuneLen(s)], Unquote(s[RuneLen(s)..]))
  }

  function Prepend(t: Text, r: Option<(Text, Text)>): Option<(Text, Text)> {
    if r.None? then None else Some((t + r.value.0, r.value.1))
  }

  // ---------------------------------------------------------------------

  /** Reading back one escaped piece `e` that stands for `t`. */
  lemma ReadsEscape(e: Text, t: Text, rest: Text)
    requires |e| >= 2 && e[0] == BACKSLASH && Unescape(e + rest) == Some((t, |e|))
    ensures Unquote(e + rest) == Prepend(t, Unquote(rest))
  {
  }

  lemma ReadsU4(h3: int, h2: int, h1: int, h0: int, rest: Text)
    requires 0 <= h3 < 16 && 0 <= h2 < 16 && 0 <= h1 < 16 && 0 <= h0 < 16
    requires !(0xD8 <= h3 * 16 + h2 < 0xE0)
    ensures var e := [BACKSLASH, 117, Hex(h3), Hex(h2), Hex(h1), Hex(h0)];
            Unescape(e + rest) == Some((EncodeRune(h3 * 4096 + h2 * 256 + h1 * 16 + h0), 6))
  {
    HexRoundTrip(h3);
    HexRoundTrip(h2);
    HexRoundTrip(h1);
    HexRoundTrip(h0);
  }

  lemma ReadsAscii(b: Byte, rest: Text)
    requires b < 0x80
    ensures Unquote(EscapeAscii(b) + rest) == Prepend([b], Unquote(rest))
  {
    var e := EscapeAscii(b);
    if |e| == 1 {
      assert (e + rest)[1..] == rest && (e + rest)[..1] == [b];
    } else if |e| == 2 {
      ReadsEscape(e, [b], rest);
    } else {
      ReadsU4(0, 0, b / 16, b % 16, rest);
      ReadsEscape(e, [b], rest);
    }
  }

  lemma ReadsReplacement(rest: Text)
    ensures Unquote(ESCAPED_FFFD + rest) == Prepend(REPLACEMENT, Unquote(rest))
  {
  }

  lemma ReadsLineSeparator(rest: Text)
    ensures Unquote(ESCAPED_2028 + rest) == Prepend([0xE2, 0x80, 0xA8], Unquote(rest))
  {
  }

  lemma ReadsParagraphSeparator(rest: Text)
    ensures Unquote(ESCAPED_2029 + rest) == Prepend([0xE2, 0x80, 0xA9], Unquote(rest))
  {
  }

  lemma ReadsRune(s: Text, rest: Text)
    requires RuneLen(s) > 1
    ensures Unquote(s[..RuneLen(s)] + rest) == Prepend(s[..RuneLen(s)], Unquote(rest))
  {
  }

  lemma ReadsPiece(s: Text, rest: Text)
    requires s != []
    ensures Unquote(Piece(s) + rest) == Prepend(Kept(s), Unquote(rest))
  {
    if s[0] < 0x80 {
      ReadsAscii(s[0], rest);
      assert s[..1] == [s[0]];
    } else if RuneLen(s) == 0 {
      ReadsReplacement(rest);
    } else if s[..RuneLen(s)] == [0xE2, 0x80, 0xA8] {
      ReadsLineSeparator(rest);
    } else if s[..RuneLen(s)] == [0xE2, 0x80, 0xA9] {
      ReadsParagraphSeparator(rest);
    } else {
      ReadsRune(s, rest);
    }
  }

  /** A string that was written reads back as its sanitised self, wherever it stands. */
  lemma {:induction false} StringRoundTrip(s: Text, rest: Text)
    ensures Unquote(Quote(s) + ([QUOTE] + rest)) == Some((Sanitize(s), rest))
  {
    var tail := [QUOTE] + rest;
    if s == [] {
      assert Quote(s) + tail == tail;
      assert tail[1..] == rest;
    } else {
      var after := s[Advance(s)..];
      StringRoundTrip(after, rest);
      ReadsPiece(s, Quote(after) + tail);
      Regroup(Piece(s), Quote(after), tail);
    }
  }

  lemma Regroup(a: Text, b: Text, c: Text)
    ensures a + b + c == a + (b + c)
  {
  }
}
