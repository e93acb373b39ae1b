/** The standard padded base64 encoding (section 4 of RFC 4648) as Go's base64.StdEncoding does it. */
module Base64 {
  import opened Common

  type Sextet = x: int | 0 <= x < 64

  /** One position of an encoded text. */
  datatype Glyph = Six(value: Sextet) | Pad

  // ---------------------------------------------------------------------
  // Bytes and groups of six bits.

  function Cut0(b0: Byte): Sextet { b0 / 4 }
  function Cut1(b0: Byte, b1: Byte): Sextet { b0 % 4 * 16 + b1 / 16 }
  function Cut2(b1: Byte, b2: Byte): Sextet { b1 % 16 * 4 + b2 / 64 }
  function Cut3(b2: Byte): Sextet { b2 % 64 }
  function Byte0(x0: Sextet, x1: Sextet): Byte { x0 * 4 + x1 / 16 }
  function Byte1(x1: Sextet, x2: Sextet): Byte { x1 % 16 * 16 + x2 / 4 }
  function Byte2(x2: Sextet, x3: Sextet): Byte { x2 % 4 * 64 + x3 }

  function Group(b: Text): seq<Glyph> {
    if b == [] then []
    else if |b| == 1 then [Six(Cut0(b[0])), Six(Cut1(b[0], 0)), Pad, Pad]
    else if |b| == 2 then [Six(Cut0(b[0])), Six(Cut1(b[0], b[1])), Six(Cut2(b[1], 0)), Pad]
    else [Six(Cut0(b[0])), Six(Cut1(b[0], b[1])), Six(Cut2(b[1], b[2])), Six(Cut3(b[2]))] + Group(b[3..])
  }

  /** Padding may only end the text; bits beyond the last byte are not checked. */
  function Ungroup(g: seq<Glyph>): Option<Text> {
    if g == [] then Some([])
    else if |g| < 4 || g[0].Pad? || g[1].Pad? then None
    else
      var b0 := Byte0(g[0].value, g[1].value);
      if g[2].Pad? then (if g[3].Pad? && |g| == 4 then Some([b0]) else None)
      else
        var b1 := Byte1(g[1].value, g[2].value);
        if g[3].Pad? then (if |g| == 4 then Some([b0, b1]) else None)
        else
          var rest := Ungroup(g[4..]);
          if rest.None? then None else Some([b0, b1, Byte2(g[2].value, g[3].value)] + rest.value)
  }

  /** Cutting three bytes into four groups of six bits loses nothing. */
  lemma Regroup(b0: Byte, b1: Byte, b2: Byte)
    ensures Byte0(Cut0(b0), Cut1(b0, b1)) == b0
    ensures Byte1(Cut1(b0, b1), Cut2(b1, b2)) == b1
    ensures Byte2(Cut2(b1, b2), Cut3(b2)) == b2
  {
  }

  lemma OneByte(b: Text, x0: Sextet, x1: Sextet)
    requires |b| == 1 && Group(b) == [Six(x0), Six(x1), Pad, Pad] && Byte0(x0, x1) == b[0]
    ensures Ungroup(Group(b)) == Some(b)
  {
    assert b == [b[0]];
  }

  lemma TwoBytes(b: Text, x0: Sextet, x1: Sextet, x2: Sextet)
    requires |b| == 2 && Group(b) == [Six(x0), Six(x1), Six(x2), Pad]
    requires Byte0(x0, x1) == b[0] && Byte1(x1, x2) == b[1]
    ensures Ungroup(Group(b)) == Some(b)
  {
    assert b == [b[0], b[1]];
  }

  lemma ThreeBytes(b: Text, x0: Sextet, x1: Sextet, x2: Sextet, x3: Sextet, tail: seq<Glyph>)
    requires |b| > 2 && Group(b) == [Six(x0), Six(x1), Six(x2), Six(x3)] + tail && Ungroup(tail) == Some(b[3..])
    requires Byte0(x0, x1) == b[0] && Byte1(x1, x2) == b[1] && Byte2(x2, x3) == b[2]
    ensures Ungroup(Group(b)) == Some(b)
  {
    var g := Group(b);
    assert g[0] == Six(x0) && g[1] == Six(x1) && g[2] == Six(x2) && g[3] == Six(x3) && g[4..] == tail;
    assert b == [b[0], b[1], b[2]] + b[3..];
  }

  lemma OneByteCut(b: Text) returns (x0: Sextet, x1: Sextet)
    requires |b| == 1
    ensures Group(b) == [Six(x0), Six(x1), Pad, Pad] && Byte0(x0, x1) == b[0]
  {
    x0, x1 := Cut0(b[0]), Cut1(b[0], 0);
    Regroup(b[0], 0, 0);
  }

  lemma TwoBytesCut(b: Text) returns (x0: Sextet, x1: Sextet, x2: Sextet)
    requires |b| == 2
    ensures Group(b) == [Six(x0), Six(x1), Six(x2), Pad] && Byte0(x0, x1) == b[0] && Byte1(x1, x2) == b[1]
  {
    x0, x1, x2 := Cut0(b[0]), Cut1(b[0], b[1]), Cut2(b[1], 0);
    Regroup(b[0], b[1], 0);
  }

  lemma ThreeBytesCut(b: Text) returns (x0: Sextet, x1: Sextet, x2: Sextet, x3: Sextet)
    requires |b| > 2
    ensures Group(b) == [Six(x0), Six(x1), Six(x2), Six(x3)] + Group(b[3..])
    ensures Byte0(x0, x1) == b[0] && Byte1(x1, x2) == b[1] && Byte2(x2, x3) == b[2]
  {
    x0, x1, x2, x3 := Cut0(b[0]), Cut1(b[0], b[1]), Cut2(b[1], b[2]), Cut3(b[2]);
    Regroup(b[0], b[1], b[2]);
  }

  lemma {:induction false} GroupsRoundTrip(b: Text)
    ensures Ungroup(Group(b)) == Some(b)
  {
    if |b| == 1 {
      var x0, x1 := OneByteCut(b);
      OneByte(b, x0, x1);
    } else if |b| == 2 {
      var x0, x1, x2 := TwoBytesCut(b);
      TwoBytes(b, x0, x1, x2);
    } else if |b| > 2 {
      var x0, x1, x2, x3 := ThreeBytesCut(b);
      GroupsRoundTrip(b[3..]);
      ThreeBytes(b, x0, x1, x2, x3, Group(b[3..]));
    }
  }

  // ---------------------------------------------------------------------
  // Groups and characters.

  function Symbol(g: Glyph): char {
    match g
    case Pad => '='
    case Six(x) =>
      if x < 26 then (65 + x) as char       // A-Z
      else if x < 52 then (71 + x) as char  // a-z
      else if x < 62 then (x - 4) as char   // 0-9
      else if x == 62 then '+'
      else '/'
  }

  function Value(c: char): Option<Glyph> {
    if 'A' <= c <= 'Z' then Some(Six(c as int - 65))
    else if 'a' <= c <= 'z' then Some(Six(c as int - 71))
    else if '0' <= c <= '9' then Some(Six(c as int + 4))
    else if c == '+' then Some(Six(62))
    else if c == '/' then Some(Six(63))
    else if c == '=' then Some(Pad)
    else None
  }

  lemma ValueOfSymbol(g: Glyph)
    ensures Value(Symbol(g)) == Some(g)
    ensures !IsBreak(Symbol(g)) && Symbol(g) != '.'
    ensures Symbol(g) == '/' <==> g == Six(63)
  {
  }

  predicate IsBreak(c: char) { c == '\n' || c == '\r' }

  function Spell(g: seq<Glyph>): (s: string)
    ensures |s| == |g| && forall i :: 0 <= i < |g| ==> s[i] == Symbol(g[i])
  {
    if g == [] then "" else [Symbol(g[0])] + Spell(g[1..])
  }

  /** Line breaks are skipped wherever they occur; any other foreign character is an error. */
  function Read(s: string): Option<seq<Glyph>> {
    if s == "" then Some([])
    else if IsBreak(s[0]) then Read(s[1..])
    else
      var g, rest := Value(s[0]), Read(s[1..]);
      if g.None? || rest.None? then None else Some([g.value] + rest.value)
  }

  lemma {:induction false} SpellingRoundTrip(g: seq<Glyph>)
    ensures Read(Spell(g)) == Some(g)
  {
    if g != [] {
      ValueOfSymbol(g[0]);
      SpellingRoundTrip(g[1..]);
      assert Spell(g)[1..] == Spell(g[1..]);
      assert g == [g[0]] + g[1..];
    }
  }

  // ---------------------------------------------------------------------

  function Encode(b: Text): string { Spell(Group(b)) }

  function Decode(s: string): Option<Text> {
    var g := Read(s);
    if g.None? then None else Ungroup(g.value)
  }

  lemma RoundTrip(b: Text)
    ensures Decode(Encode(b)) == Some(b)
  {
    SpellingRoundTrip(Group(b));
    GroupsRoundTrip(b);
  }

  lemma EncodeLength(b: Text)
    requires b != []
    ensures |Encode(b)| >= 4
  {
  }

  /** The last byte of some group of three has six low bits set. */
  ghost predicate Marked(b: Text) {
    exists i :: 0 <= i < |b| && i % 3 == 2 && b[i] % 64 == 63
  }

  lemma MarkedStep(b: Text)
    requires |b| > 2
    ensures Marked(b) <==> b[2] % 64 == 63 || Marked(b[3..])
  {
  }

  /** Of the four groups cut from ASCII bytes, only the last can be all ones. */
  lemma AsciiCuts(b0: Byte, b1: Byte, b2: Byte)
    requires b0 < 128 && b1 < 128 && b2 < 128
    ensures Cut0(b0) != 63 && Cut1(b0, b1) != 63 && Cut2(b1, b2) != 63
    ensures Cut3(b2) == 63 <==> b2 % 64 == 63
  {
  }

  lemma {:induction false} AllOnes(b: Text)
    requires forall i :: 0 <= i < |b| ==> b[i] < 128
    ensures Six(63) in Group(b) <==> Marked(b)
  {
    if |b| == 1 {
      AsciiCuts(b[0], 0, 0);
    } else if |b| == 2 {
      AsciiCuts(b[0], b[1], 0);
    } else if |b| > 2 {
      AsciiCuts(b[0], b[1], b[2]);
      AllOnes(b[3..]);
      MarkedStep(b);
      var head := [Six(Cut0(b[0])), Six(Cut1(b[0], b[1])), Six(Cut2(b[1], b[2])), Six(Cut3(b[2]))];
      assert Group(b) == head + Group(b[3..]);
      assert Six(63) in head <==> head[3] == Six(63);
    }
  }

  /** The last byte of some group of three is '?' or DEL. */
  ghost predicate QuestionEndsGroup(b: Text) {
    exists i :: 0 <= i < |b| && i % 3 == 2 && (b[i] == 63 || b[i] == 127)
  }

  lemma MarkedByQuestion(b: Text)
    requires forall i :: 0 <= i < |b| ==> b[i] < 128
    ensures Marked(b) <==> QuestionEndsGroup(b)
  {
  }

  /** The encoding of an ASCII text contains '/' exactly when '?' or DEL ends some group of three bytes. */
  lemma SlashInEncoding(b: Text)
    requires forall i :: 0 <= i < |b| ==> b[i] < 128
    ensures '/' in Encode(b) <==> QuestionEndsGroup(b)
  {
    MarkedByQuestion(b);
    AllOnes(b);
    SlashIsAllOnes(Group(b));
  }

  lemma SlashIsAllOnes(g: seq<Glyph>)
    ensures '/' in Spell(g) <==> Six(63) in g
  {
  }
}
