/**
 * The volume ID codec against the standards it follows: the texts it writes and accepts are pinned to the
 * alphabet and the layout of RFC 4648, RFC 3629 and RFC 8259, not only to one another.
 */
module Standards {
  import opened Common
  import opened Base64
  import opened Utf8
  import opened JsonText
  import opened VolumeIdentity

  // ---------------------------------------------------------------------
  // Base64.

  /** Table 1 of RFC 4648. */
  const ALPHABET := "ABCDEFGHIJKLM" + "NOPQRSTUVWXYZ" + "abcdefghijklm" + "nopqrstuvwxyz" + "0123456789" + "+/"

  lemma Letters(i: nat)
    requires i < 13
    ensures "ABCDEFGHIJKLM"[i] as int == 65 + i && "NOPQRSTUVWXYZ"[i] as int == 78 + i
    ensures "abcdefghijklm"[i] as int == 97 + i && "nopqrstuvwxyz"[i] as int == 110 + i
  {
    assert i == 0 || i == 1 || i == 2 || i == 3 || i == 4 || i == 5 || i == 6
        || i == 7 || i == 8 || i == 9 || i == 10 || i == 11 || i == 12;
  }

  lemma Numerals(i: nat)
    requires i < 10
    ensures "0123456789"[i] as int == 48 + i
  {
    assert i == 0 || i == 1 || i == 2 || i == 3 || i == 4 || i == 5 || i == 6 || i == 7 || i == 8 || i == 9;
  }

  lemma SymbolsAreStandard(x: Sextet)
    ensures |ALPHABET| == 64 && Symbol(Six(x)) == ALPHABET[x]
  {
    if x < 13 {
      Letters(x);
    } else if x < 26 {
      Letters(x - 13);
    } else if x < 39 {
      Letters(x - 26);
    } else if x < 52 {
      Letters(x - 39);
    } else if x < 62 {
      Numerals(x - 52);
    }
  }

  function Letter(x: Sextet): char {
    assert |ALPHABET| == 64;
    ALPHABET[x]
  }

  /** The byte at `i`, or zero behind the end. */
  function ByteAt(b: Text, i: nat): Byte { if i < |b| then b[i] else 0 }

  type Word24 = w: int | 0 <= w < 0x100_0000

  /** A group of three bytes as a number of 24 bits. */
  function Word(b: Text, i: nat): Word24 {
    ByteAt(b, i) * 65536 + ByteAt(b, i + 1) * 256 + ByteAt(b, i + 2)
  }

  /** Its four digits to base 64, the most significant first. */
  function Digit0(w: Word24): Sextet { w / 262144 }
  function Digit1(w: Word24): Sextet { w / 4096 % 64 }
  function Digit2(w: Word24): Sextet { w / 64 % 64 }
  function Digit3(w: Word24): Sextet { w % 64 }

  lemma CutsOfWord(b0: Byte, b1: Byte, b2: Byte)
    ensures var w := b0 * 65536 + b1 * 256 + b2;
            Cut0(b0) == Digit0(w) && Cut1(b0, b1) == Digit1(w) && Cut2(b1, b2) == Digit2(w) && Cut3(b2) == Digit3(w)
  {
    var w := b0 * 65536 + b1 * 256 + b2;
    assert w / 64 == b0 * 1024 + b1 * 4 + b2 / 64;
    assert w / 4096 == b0 * 16 + b1 / 16;
  }

  /** At position `i` of `s` stand the four characters for the number `w`, of which `have` bytes are there. */
  ghost predicate Quad(s: string, i: nat, w: Word24, have: nat)
    requires i + 4 <= |s|
  {
    && s[i] == Letter(Digit0(w))
    && s[i + 1] == Letter(Digit1(w))
    && s[i + 2] == (if have > 1 then Letter(Digit2(w)) else '=')
    && s[i + 3] == (if have > 2 then Letter(Digit3(w)) else '=')
  }

  lemma SpelledQuad(g: seq<Glyph>, x0: Sextet, x1: Sextet, x2: Sextet, x3: Sextet, have: nat)
    requires |g| >= 4 && g[0] == Six(x0) && g[1] == Six(x1)
    requires g[2] == (if have > 1 then Six(x2) else Pad) && g[3] == (if have > 2 then Six(x3) else Pad)
    ensures var s := Spell(g);
            && s[0] == Letter(x0) && s[1] == Letter(x1)
            && s[2] == (if have > 1 then Letter(x2) else '=') && s[3] == (if have > 2 then Letter(x3) else '=')
  {
    SymbolsAreStandard(x0);
    SymbolsAreStandard(x1);
    SymbolsAreStandard(x2);
    SymbolsAreStandard(x3);
  }

  lemma FirstGroup(b: Text, x0: Sextet, x1: Sextet, x2: Sextet, x3: Sextet)
    requires b != [] && x0 == Cut0(ByteAt(b, 0)) && x1 == Cut1(ByteAt(b, 0), ByteAt(b, 1))
    requires x2 == Cut2(ByteAt(b, 1), ByteAt(b, 2)) && x3 == Cut3(ByteAt(b, 2))
    ensures var g := Group(b);
            && |g| >= 4 && g[0] == Six(x0) && g[1] == Six(x1)
            && g[2] == (if |b| > 1 then Six(x2) else Pad) && g[3] == (if |b| > 2 then Six(x3) else Pad)
            && (|b| > 2 ==> g[4..] == Group(b[3..])) && (|b| <= 2 ==> |g| == 4)
  {
  }

  lemma FirstQuad(b: Text)
    requires b != []
    ensures |Encode(b)| >= 4 && Quad(Encode(b), 0, Word(b, 0), |b|)
    ensures |b| > 2 ==> Encode(b)[4..] == Encode(b[3..])
    ensures |b| <= 2 ==> |Encode(b)| == 4
  {
    var w := Word(b, 0);
    var x0, x1, x2, x3 := Digit0(w), Digit1(w), Digit2(w), Digit3(w);
    CutsOfWord(ByteAt(b, 0), ByteAt(b, 1), ByteAt(b, 2));
    FirstGroup(b, x0, x1, x2, x3);
    SpelledQuad(Group(b), x0, x1, x2, x3, |b|);
    if |b| > 2 {
      SpellTail(Group(b));
    }
  }

  lemma SpellTail(g: seq<Glyph>)
    requires |g| >= 4
    ensures Spell(g)[4..] == Spell(g[4..])
  {
  }

  /** Section 4 of RFC 4648: groups of three bytes one after the other, the last of which may be short. */
  ghost predicate IsStandardEncoding(b: Text, s: string) {
    if b == [] then s == ""
    else
      && |s| >= 4 && Quad(s, 0, Word(b, 0), |b|)
      && (if |b| <= 2 then |s| == 4 else IsStandardEncoding(b[3..], s[4..]))
  }

  /**
   * Each group of three bytes, read as a number of 24 bits, is written as its four digits
   * to base 64 in the standard alphabet, '=' standing for what is missing at the end.
   */
  lemma {:induction false} EncodesAsRfc4648(b: Text)
    ensures IsStandardEncoding(b, Encode(b))
  {
    if b != [] {
      FirstQuad(b);
      if |b| > 2 {
        EncodesAsRfc4648(b[3..]);
      }
    }
  }

  // ---------------------------------------------------------------------
  // What the base64 decoder accepts.

  function WithoutBreaks(s: string): string {
    if s == "" then ""
    else if s[0] == '\n' || s[0] == '\r' then WithoutBreaks(s[1..])
    else [s[0]] + WithoutBreaks(s[1..])
  }

  ghost predicate InAlphabet(c: char) { exists x: Sextet :: Letter(x) == c }

  /** Groups of four characters of the alphabet, the last of which may end in one or two '='. */
  ghost predicate WellFormed(t: string) {
    && |t| % 4 == 0
    && forall i :: 0 <= i < |t| ==>
         InAlphabet(t[i]) || (t[i] == '=' && i >= |t| - 2 && t[|t| - 1] == '=')
  }

  lemma ValueIsStandard(c: char)
    ensures Value(c).Some? <==> InAlphabet(c) || c == '='
    ensures Value(c) == Some(Pad) <==> c == '='
    ensures InAlphabet(c) ==> c != '='
  {
    if InAlphabet(c) {
      var x: Sextet :| Letter(x) == c;
      SymbolsAreStandard(x);
      ValueOfSymbol(Six(x));
    }
    if Value(c).Some? && Value(c).value.Six? {
      var x := Value(c).value.value;
      SymbolsAreStandard(x);
      assert Letter(x) == Symbol(Six(x)) == c;
    }
  }

  ghost predicate PadsAtEnd(g: seq<Glyph>) {
    && |g| % 4 == 0
    && forall i :: 0 <= i < |g| && g[i].Pad? ==> i >= |g| - 2 && g[|g| - 1].Pad?
  }

  lemma {:induction false} UngroupAccepts(g: seq<Glyph>)
    ensures Ungroup(g).Some? <==> PadsAtEnd(g)
  {
    if |g| >= 4 && g[0].Six? && g[1].Six? && g[2].Six? && g[3].Six? {
      UngroupAccepts(g[4..]);
      PadsShift(g);
    }
  }

  lemma PadsShift(g: seq<Glyph>)
    requires |g| >= 4 && g[0].Six? && g[1].Six? && g[2].Six? && g[3].Six?
    ensures PadsAtEnd(g) <==> PadsAtEnd(g[4..])
  {
    var t := g[4..];
    assert forall i :: 0 <= i < |t| ==> t[i] == g[i + 4];
    assert |t| % 4 == |g| % 4;
    if PadsAtEnd(t) {
      forall i | 0 <= i < |g| && g[i].Pad?
        ensures i >= |g| - 2 && g[|g| - 1].Pad?
      {
        assert t[i - 4].Pad?;
      }
    }
  }

  ghost predicate Known(t: string) { forall i :: 0 <= i < |t| ==> Value(t[i]).Some? }

  ghost predicate Stands(t: string, g: seq<Glyph>) {
    |g| == |t| && forall i :: 0 <= i < |t| ==> Value(t[i]) == Some(g[i])
  }

  lemma KnownCons(c: char, t: string)
    ensures Known([c] + t) <==> Value(c).Some? && Known(t)
  {
    var u := [c] + t;
    assert u[0] == c && forall i :: 0 <= i < |t| ==> u[i + 1] == t[i];
  }

  lemma {:induction false} ReadAccepts(s: string)
    ensures Read(s).Some? <==> Known(WithoutBreaks(s))
    ensures Read(s).Some? ==> Stands(WithoutBreaks(s), Read(s).value)
  {
    if s != "" {
      ReadAccepts(s[1..]);
      KnownCons(s[0], WithoutBreaks(s[1..]));
    }
  }

  lemma PadsStand(t: string, g: seq<Glyph>)
    requires Stands(t, g)
    ensures PadsAtEnd(g) <==> WellFormed(t)
  {
    forall i | 0 <= i < |t|
      ensures InAlphabet(t[i]) || t[i] == '='
      ensures g[i].Pad? <==> t[i] == '='
      ensures InAlphabet(t[i]) ==> t[i] != '='
    {
      ValueIsStandard(t[i]);
    }
  }

  lemma UnknownIsMalformed(t: string)
    requires !Known(t)
    ensures !WellFormed(t)
  {
    var i :| 0 <= i < |t| && Value(t[i]).None?;
    ValueIsStandard(t[i]);
  }

  /** Decoding skips line breaks and accepts exactly well-formed text. */
  lemma DecodeAccepts(s: string)
    ensures Decode(s).Some? <==> WellFormed(WithoutBreaks(s))
  {
    ReadAccepts(s);
    if Read(s).Some? {
      UngroupAccepts(Read(s).value);
      PadsStand(WithoutBreaks(s), Read(s).value);
    } else {
      UnknownIsMalformed(WithoutBreaks(s));
    }
  }

  // ---------------------------------------------------------------------
  // UTF-8.

  /** Unicode scalar values: code points that are not surrogates. */
  predicate IsScalar(r: int) { 0 <= r < 0xD800 || 0xE000 <= r < 0x11_0000 }

  /** The number that `t` writes: the marker bits of the bytes taken off, six bits to a continuation byte. */
  function CodePoint(t: Text): int
    requires 1 <= |t| <= 4
  {
    var b0: int := t[0];
    if |t| == 1 then b0 else
    var b1: int := t[1];
    if |t| == 2 then (b0 - 192) * 64 + (b1 - 128) else
    var b2: int := t[2];
    if |t| == 3 then (b0 - 224) * 4096 + (b1 - 128) * 64 + (b2 - 128) else
    var b3: int := t[3];
    (b0 - 240) * 262144 + (b1 - 128) * 4096 + (b2 - 128) * 64 + (b3 - 128)
  }

  /** Section 3 of RFC 3629: `t` is the UTF-8 form of `r`, which is the shortest. */
  predicate IsUtf8Of(t: Text, r: int) {
    && IsScalar(r) && 1 <= |t| <= 4 && r == CodePoint(t)
    && (forall i :: 0 < i < |t| ==> 128 <= t[i] < 192)
    && |t| == if r < 128 then 1 else if r < 2048 then 2 else if r < 65536 then 3 else 4
  }

  lemma EncodeRuneIsUtf8(r: int)
    requires IsScalar(r)
    ensures IsUtf8Of(EncodeRune(r), r)
  {
    assert r == r / 64 * 64 + r % 64;
    assert r / 64 == r / 4096 * 64 + r / 64 % 64;
    assert r / 4096 == r / 262144 * 64 + r / 4096 % 64;
  }

  /** What is taken for a code point is UTF-8 of a scalar value. */
  lemma RunesAreUtf8(s: Text)
    requires RuneLen(s) > 0
    ensures IsUtf8Of(s[..RuneLen(s)], CodePoint(s[..RuneLen(s)]))
  {
  }

  /** And all UTF-8 is taken for a code point, whatever follows. */
  lemma Utf8IsRune(t: Text, r: int, rest: Text)
    requires IsUtf8Of(t, r)
    ensures RuneLen(t + rest) == |t|
  {
    assert forall i :: 0 <= i < |t| ==> (t + rest)[i] == t[i];
  }

  // ---------------------------------------------------------------------
  // JSON.

  /** How one ASCII character is written inside a string: section 7 of RFC 8259, with &, < and > escaped too. */
  function AsciiSpelling(c: char): string
    requires c < 128 as char
  {
    match c
    case '\"' => "\\\""
    case '\\' => "\\\\"
    case '\U{8}' => "\\b"
    case '\U{C}' => "\\f"
    case '\n' => "\\n"
    case '\r' => "\\r"
    case '\t' => "\\t"
    case '&' => "\\u0026"
    case '<' => "\\u003c"
    case '>' => "\\u003e"
    case _ =>
      if c >= ' ' then [c]
      else (if c as int < 16 then "\\u000" else "\\u001") + ["0123456789abcdef"[c as int % 16]]
  }

  lemma HexDigits(i: nat)
    requires i < 16
    ensures "0123456789abcdef"[i] as int == Hex(i)
  {
    assert i == 0 || i == 1 || i == 2 || i == 3 || i == 4 || i == 5 || i == 6 || i == 7
        || i == 8 || i == 9 || i == 10 || i == 11 || i == 12 || i == 13 || i == 14 || i == 15;
  }

  lemma AsciiIsStandard(b: Byte)
    requires b < 128
    ensures var t := AsciiSpelling(b as char);
            && (forall i :: 0 <= i < |t| ==> t[i] < 128 as char)
            && EscapeAscii(b) == Bytes(t)
  {
    HexDigits(b % 16);
  }

  /** No code point starts here. */
  ghost predicate Stray(s: Text) {
    forall n, r :: 0 < n <= |s| ==> !IsUtf8Of(s[..n], r)
  }

  lemma PrefixIsRune(s: Text, n: nat, r: int)
    requires 0 < n <= |s| && IsUtf8Of(s[..n], r)
    ensures RuneLen(s) == n
  {
    Utf8IsRune(s[..n], r, s[n..]);
    assert s[..n] + s[n..] == s;
  }

  lemma StrayIsNoRune(s: Text)
    ensures Stray(s) <==> RuneLen(s) == 0
  {
    if RuneLen(s) > 0 {
      RunesAreUtf8(s);
    } else {
      forall n, r | 0 < n <= |s|
        ensures !IsUtf8Of(s[..n], r)
      {
        if IsUtf8Of(s[..n], r) {
          PrefixIsRune(s, n, r);
        }
      }
    }
  }

  lemma Separators(t: Text, r: int)
    requires IsUtf8Of(t, r)
    ensures r == 0x2028 <==> t == [0xE2, 0x80, 0xA8]
    ensures r == 0x2029 <==> t == [0xE2, 0x80, 0xA9]
  {
    if r == 0x2028 || r == 0x2029 {
      assert |t| == 3;
    }
  }

  /** A code point that is not ASCII, inside a string: itself, but for the two separators. */
  lemma CodePointQuoted(s: Text, n: nat, r: int)
    requires 1 < n <= |s| && IsUtf8Of(s[..n], r)
    ensures Quote(s) == (if r == 0x2028 then Bytes("\\u2028") else if r == 0x2029 then Bytes("\\u2029") else s[..n]) + Quote(s[n..])
  {
    PrefixIsRune(s, n, r);
    PieceOfCodePoint(s, n, r);
  }

  lemma PieceOfCodePoint(s: Text, n: nat, r: int)
    requires 1 < n <= |s| && IsUtf8Of(s[..n], r) && RuneLen(s) == n
    ensures Piece(s) == if r == 0x2028 then Bytes("\\u2028") else if r == 0x2029 then Bytes("\\u2029") else s[..n]
  {
    Separators(s[..n], r);
    EscapesAreStandard();
  }

  lemma EscapesAreStandard()
    ensures ESCAPED_2028 == Bytes("\\u2028") && ESCAPED_2029 == Bytes("\\u2029") && ESCAPED_FFFD == Bytes("\\ufffd")
  {
  }

  lemma AsciiQuoted(s: Text)
    requires s != [] && s[0] < 128
    ensures var t := AsciiSpelling(s[0] as char);
            && (forall i :: 0 <= i < |t| ==> t[i] < 128 as char)
            && Quote(s) == Bytes(t) + Quote(s[1..])
  {
    AsciiIsStandard(s[0]);
  }

  lemma StrayQuoted(s: Text)
    requires s != [] && Stray(s)
    ensures Quote(s) == Bytes("\\ufffd") + Quote(s[1..])
  {
    StrayIsNoRune(s);
    EscapesAreStandard();
  }

  /** Sanitising keeps code points and puts U+FFFD for every stray byte. */
  lemma SanitizedAsUtf8(s: Text)
    requires s != []
    ensures IsUtf8Of(REPLACEMENT, 0xFFFD)
    ensures forall n, r :: 0 < n <= |s| && IsUtf8Of(s[..n], r) ==> Sanitize(s) == s[..n] + Sanitize(s[n..])
    ensures Stray(s) ==> Sanitize(s) == REPLACEMENT + Sanitize(s[1..])
  {
    StrayIsNoRune(s);
    forall n, r | 0 < n <= |s| && IsUtf8Of(s[..n], r)
      ensures Sanitize(s) == s[..n] + Sanitize(s[n..])
    {
      PrefixIsRune(s, n, r);
    }
  }

  /** Printable ASCII that JSON leaves as it is. */
  predicate Simple(b: Byte) { 32 <= b < 127 && b != 34 && b != 92 && b != 38 && b != 60 && b != 62 }

  lemma {:induction false} SimpleQuoted(s: Text)
    requires forall i :: 0 <= i < |s| ==> Simple(s[i])
    ensures Quote(s) == s
  {
    if s != [] {
      assert Simple(s[0]);
      SimpleQuoted(s[1..]);
      assert s == [s[0]] + s[1..];
    }
  }

  /** Decimal: the last digit, behind the digits of the rest. */
  lemma DigitsAreDecimal(n: nat, d: nat)
    requires d < 10
    ensures Digits(d) == Bytes(["0123456789"[d]])
    ensures n > 0 ==> Digits(10 * n + d) == Digits(n) + Digits(d)
  {
    Numerals(d);
    assert (10 * n + d) / 10 == n && (10 * n + d) % 10 == d;
  }

  /** The JSON text of an identifier. */
  function JsonOf(x: VolumeIdentifier): Text {
    Bytes("{\"nsid\":") + Digits(x.nsid) + Bytes(",\"nqn\":\"") + Quote(x.nqn)
    + Bytes("\",\"volume_name\":\"") + Quote(x.volumeName) + Bytes("\"}")
  }

  lemma KeysAreStandard()
    ensures OPEN == Bytes("{\"nsid\":") && NQN_KEY == Bytes(",\"nqn\":\"") && [QUOTE] + CLOSE == Bytes("\"}")
  {
  }

  lemma NameKeyIsStandard()
    ensures [QUOTE] + NAME_KEY == Bytes("\",\"volume_name\":\"")
  {
  }

  lemma MarshalIsJson(x: VolumeIdentifier)
    ensures Marshal(x) == JsonOf(x)
  {
    KeysAreStandard();
    NameKeyIsStandard();
    Chain(OPEN, Digits(x.nsid), NQN_KEY, Quote(x.nqn), [QUOTE], NAME_KEY, Quote(x.volumeName), [QUOTE] + CLOSE);
  }

  lemma Chain(a: Text, b: Text, c: Text, d: Text, q: Text, e: Text, f: Text, g: Text)
    ensures a + (b + (c + (d + (q + (e + (f + g)))))) == a + b + c + d + (q + e) + f + g
  {
    assert q + (e + (f + g)) == (q + e) + f + g;
    assert a + (b + (c + (d + ((q + e) + f + g)))) == a + b + c + d + (q + e) + f + g;
  }

  /** The volume ID is the standard base64 of the JSON text {"nsid":…,"nqn":"…","volume_name":"…"}. */
  lemma VolumeIDIsStandard(x: VolumeIdentifier)
    ensures IsStandardEncoding(JsonOf(x), EncodeVolumeID(x))
  {
    MarshalIsJson(x);
    EncodesAsRfc4648(JsonOf(x));
  }

  // ---------------------------------------------------------------------
  // What the JSON reader accepts.

  ghost predicate Canonical(ds: Text) {
    ds != [] && (forall i :: 0 <= i < |ds| ==> IsDigit(ds[i])) && (ds[0] == 48 ==> |ds| == 1)
  }

  lemma {:induction false} DigitsOfValue(ds: Text)
    requires Canonical(ds)
    ensures Digits(ValueOf(ds)) == ds && (|ds| > 1 ==> ValueOf(ds) >= 10)
  {
    var n := |ds|;
    var init := ds[..n - 1];
    assert ds == init + [ds[n - 1]] && IsDigit(ds[n - 1]) && IsDigit(ds[0]);
    if n > 1 {
      assert forall i :: 0 <= i < |init| ==> init[i] == ds[i];
      DigitsOfValue(init);
      ValuePositive(init);
      LastDigit(ValueOf(init), ds[n - 1] - 48);
    } else {
      assert ValueOf(init) == 0;
    }
  }

  lemma {:induction false} ValuePositive(ds: Text)
    requires ds != [] && (forall i :: 0 <= i < |ds| ==> IsDigit(ds[i])) && ds[0] != 48
    ensures ValueOf(ds) > 0
  {
    assert IsDigit(ds[0]) && IsDigit(ds[|ds| - 1]);
    if |ds| > 1 {
      ValuePositive(ds[..|ds| - 1]);
    }
  }

  lemma LastDigit(v: nat, d: nat)
    requires v > 0 && d < 10
    ensures v * 10 + d >= 10 && Digits(v * 10 + d) == Digits(v) + [48 + d]
  {
    assert (v * 10 + d) / 10 == v && (v * 10 + d) % 10 == d;
  }

  /** A number is read exactly if it is written in decimal without leading zeros, fits 32 bits, and ends there. */
  lemma NumbersRead(s: Text, n: Uint32, rest: Text)
    requires rest == [] || !IsDigit(rest[0])
    ensures ReadUint32(s) == Some((n, rest)) <==> s == Digits(n) + rest
  {
    var k := Span(s);
    if ReadUint32(s) == Some((n, rest)) {
      assert Canonical(s[..k]);
      DigitsOfValue(s[..k]);
      assert s == s[..k] + s[k..];
    }
    if s == Digits(n) + rest {
      SpanOfDigits(n, rest);
    }
  }

  lemma SpanOfDigits(n: Uint32, rest: Text)
    requires rest == [] || !IsDigit(rest[0])
    ensures ReadUint32(Digits(n) + rest) == Some((n, rest))
  {
    DigitsMean(n);
    var s, k := Digits(n) + rest, |Digits(n)|;
    assert forall i :: 0 <= i < k ==> s[i] == Digits(n)[i];
    assert rest != [] ==> s[k] == rest[0];
    assert Span(s) == k;
    assert s[..k] == Digits(n) && s[k..] == rest;
  }

  /** What the short escapes stand for: section 7 of RFC 8259. */
  predicate ShortEscape(c: char, b: Byte) {
    || (c == '"' && b == 34) || (c == '\\' && b == 92) || (c == '/' && b == 47) || (c == 'b' && b == 8)
    || (c == 'f' && b == 12) || (c == 'n' && b == 10) || (c == 'r' && b == 13) || (c == 't' && b == 9)
  }

  lemma ShortEscapesRead(c: char, b: Byte, rest: Text)
    requires ShortEscape(c, b)
    ensures Unquote([BACKSLASH, c as int] + rest) == Prepend([b], Unquote(rest))
  {
    ReadsEscape([BACKSLASH, c as int], [b], rest);
  }

  /** `b` is the hexadecimal digit for `x`, in either case. */
  predicate IsHexDigit(b: Byte, x: nat) {
    || (x < 10 && b == '0' as int + x)
    || (10 <= x < 16 && (b == 'a' as int + (x - 10) || b == 'A' as int + (x - 10)))
  }

  lemma HexDigitsRead(b: Byte, x: nat)
    requires IsHexDigit(b, x)
    ensures Unhex(b) == Some(x)
  {
  }

  /** `e` is the escape with these four digits, in either case. */
  predicate IsHexEscape(e: Text, h3: nat, h2: nat, h1: nat, h0: nat) {
    && |e| == 6 && e[0] == BACKSLASH && e[1] == 'u' as int
    && IsHexDigit(e[2], h3) && IsHexDigit(e[3], h2) && IsHexDigit(e[4], h1) && IsHexDigit(e[5], h0)
  }

  /** The escape of the number `r`. */
  ghost predicate Escapes(e: Text, r: int) {
    exists h3: nat, h2: nat, h1: nat, h0: nat ::
      IsHexEscape(e, h3, h2, h1, h0) && r == h3 * 4096 + h2 * 256 + h1 * 16 + h0
  }

  lemma HexEscapeRead(e: Text, r: int, rest: Text)
    requires Escapes(e, r)
    ensures |e| == 6 && e[0] == BACKSLASH && e[1] == 117 && ReadU4(e + rest) == Some(r)
  {
    var h3: nat, h2: nat, h1: nat, h0: nat :|
      IsHexEscape(e, h3, h2, h1, h0) && r == h3 * 4096 + h2 * 256 + h1 * 16 + h0;
    FourDigitsRead(e, h3, h2, h1, h0, rest);
  }

  lemma FourDigitsRead(e: Text, h3: nat, h2: nat, h1: nat, h0: nat, rest: Text)
    requires IsHexEscape(e, h3, h2, h1, h0)
    ensures ReadU4(e + rest) == Some(h3 * 4096 + h2 * 256 + h1 * 16 + h0)
  {
    HexDigitsRead(e[2], h3);
    HexDigitsRead(e[3], h2);
    HexDigitsRead(e[4], h1);
    HexDigitsRead(e[5], h0);
  }

  /** Four hexadecimal digits stand for the code point with that number. */
  lemma HexEscapesRead(e: Text, r: int, t: Text, rest: Text)
    requires Escapes(e, r) && IsUtf8Of(t, r)
    ensures Unquote(e + rest) == Prepend(t, Unquote(rest))
  {
    HexEscapeRead(e, r, rest);
    EncodeRuneIsUtf8(r);
    OneForm(t, EncodeRune(r), r);
    ReadsEscape(e, t, rest);
  }

  /** Two escapes of surrogates stand for one code point. */
  lemma SurrogatesRead(e: Text, r: int, f: Text, q: int, t: Text, rest: Text)
    requires Escapes(e, r) && Escapes(f, q) && 0xD800 <= r < 0xDC00 && 0xDC00 <= q < 0xE000
    requires IsUtf8Of(t, 0x10000 + (r - 0xD800) * 1024 + (q - 0xDC00))
    ensures Unquote(e + f + rest) == Prepend(t, Unquote(rest))
  {
    var c := 0x10000 + (r - 0xD800) * 1024 + (q - 0xDC00);
    EncodeRuneIsUtf8(c);
    OneForm(t, EncodeRune(c), c);
    PairUnescapes(e, r, f, q, rest);
    ReadsEscape(e + f, t, rest);
  }

  lemma PairUnescapes(e: Text, r: int, f: Text, q: int, rest: Text)
    requires Escapes(e, r) && Escapes(f, q) && 0xD800 <= r < 0xDC00 && 0xDC00 <= q < 0xE000
    ensures |e + f| == 12 && (e + f)[0] == BACKSLASH
    ensures Unescape(e + f + rest) == Some((EncodeRune(0x10000 + (r - 0xD800) * 1024 + (q - 0xDC00)), 12))
  {
    HexEscapeRead(e, r, f + rest);
    HexEscapeRead(f, q, rest);
    PairShape(e, f, rest);
    UnescapePair(e + f + rest, r, q);
  }

  lemma PairShape(e: Text, f: Text, rest: Text)
    requires |e| == 6 && |f| == 6
    ensures e + (f + rest) == e + f + rest && (e + f + rest)[6..] == f + rest
    ensures (e + f + rest)[0] == e[0] && (e + f + rest)[1] == e[1] && (e + f)[0] == e[0]
  {
  }

  lemma UnescapePair(s: Text, r: int, q: int)
    requires |s| >= 12 && s[0] == BACKSLASH && s[1] == 117 && ReadU4(s) == Some(r) && ReadU4(s[6..]) == Some(q)
    requires 0xD800 <= r < 0xDC00 && 0xDC00 <= q < 0xE000
    ensures Unescape(s) == Some((EncodeRune(0x10000 + (r - 0xD800) * 1024 + (q - 0xDC00)), 12))
  {
  }

  /** Half a pair stands for U+FFFD. */
  lemma HalfPairRead(e: Text, r: int, rest: Text)
    requires Escapes(e, r) && 0xD800 <= r < 0xE000
    requires r < 0xDC00 ==> ReadU4(rest).None? || !(0xDC00 <= ReadU4(rest).value < 0xE000)
    ensures Unquote(e + rest) == Prepend(REPLACEMENT, Unquote(rest)) && IsUtf8Of(REPLACEMENT, 0xFFFD)
  {
    HexEscapeRead(e, r, rest);
    assert (e + rest)[6..] == rest;
    ReadsEscape(e, REPLACEMENT, rest);
  }

  /** Everything else stands for itself, a stray byte for U+FFFD, and the quote ends the string. */
  lemma OthersRead(s: Text)
    requires s != []
    ensures s[0] == '"' as int ==> Unquote(s) == Some(([], s[1..]))
    ensures 32 <= s[0] < 128 && s[0] != '"' as int && s[0] != '\\' as int ==> Unquote(s) == Prepend([s[0]], Unquote(s[1..]))
    ensures forall n, r :: 1 < n <= |s| && IsUtf8Of(s[..n], r) ==> Unquote(s) == Prepend(s[..n], Unquote(s[n..]))
    ensures Stray(s) ==> Unquote(s) == Prepend(REPLACEMENT, Unquote(s[1..]))
  {
    StrayIsNoRune(s);
    assert s[..1] == [s[0]];
    forall n, r | 1 < n <= |s| && IsUtf8Of(s[..n], r)
      ensures Unquote(s) == Prepend(s[..n], Unquote(s[n..]))
    {
      PrefixIsRune(s, n, r);
    }
  }

  /** A code point has one UTF-8 form. */
  lemma OneForm(t: Text, u: Text, r: int)
    requires IsUtf8Of(t, r) && IsUtf8Of(u, r)
    ensures t == u
  {
    assert |t| == |u|;
    assert forall i :: 0 < i < |t| ==> 128 <= t[i] < 192 && 128 <= u[i] < 192;
    if |t| == 2 {
      assert t[0] == u[0] && t[1] == u[1];
    } else if |t| == 3 {
      assert t[0] == u[0] && t[1] == u[1] && t[2] == u[2];
    } else if |t| == 4 {
      assert t[0] == u[0] && t[1] == u[1] && t[2] == u[2] && t[3] == u[3];
    }
  }

  /** What is refused: the end of the text before the closing quote, control characters, any other escape. */
  lemma UnquoteRefuses(s: Text)
    requires s == [] || s[0] < 32 || s == [BACKSLASH]
          || (|s| > 1 && s[0] == BACKSLASH && s[1] as char !in "\"\\/bfnrtu")
    ensures Unquote(s).None?
  {
    if |s| > 1 && s[0] == BACKSLASH {
      assert "\"\\/bfnrtu"[0] as int == 34 && "\"\\/bfnrtu"[1] as int == 92 && "\"\\/bfnrtu"[2] as int == 47;
      assert "\"\\/bfnrtu"[3] as int == 98 && "\"\\/bfnrtu"[4] as int == 102 && "\"\\/bfnrtu"[5] as int == 110;
      assert "\"\\/bfnrtu"[6] as int == 114 && "\"\\/bfnrtu"[7] as int == 116 && "\"\\/bfnrtu"[8] as int == 117;
    }
  }

  /** `t` read as the inside of a string, up to its closing quote, is `x`. */
  ghost predicate ReadsAs(s: Text, x: Text, rest: Text) { Unquote(s) == Some((x, rest)) }

  /** Nothing but the whole object, laid out as it is written, is accepted. */
  lemma UnmarshalAccepts(s: Text, x: VolumeIdentifier)
    ensures Unmarshal(s) == Some(x) <==>
            exists a, b :: && s == Bytes("{\"nsid\":") + (Digits(x.nsid) + (Bytes(",\"nqn\":\"") + a))
                           && ReadsAs(a, x.nqn, NAME_KEY + b) && ReadsAs(b, x.volumeName, Bytes("}"))
  {
    KeysAreStandard();
    CloseIsStandard();
    if Unmarshal(s) == Some(x) {
      UnmarshalLayout(s, x);
    }
    if a, b :| s == OPEN + (Digits(x.nsid) + (NQN_KEY + a)) && ReadsAs(a, x.nqn, NAME_KEY + b) && ReadsAs(b, x.volumeName, CLOSE) {
      LayoutUnmarshals(s, x, a, b);
    }
  }

  lemma CloseIsStandard()
    ensures CLOSE == Bytes("}")
  {
  }

  lemma UnmarshalLayout(s: Text, x: VolumeIdentifier)
    requires Unmarshal(s) == Some(x)
    ensures exists a, b :: && s == OPEN + (Digits(x.nsid) + (NQN_KEY + a))
                           && ReadsAs(a, x.nqn, NAME_KEY + b) && ReadsAs(b, x.volumeName, CLOSE)
  {
    var s1 := Strip(s, OPEN).value;
    var n := ReadUint32(s1).value;
    var a := Strip(n.1, NQN_KEY).value;
    var q := Unquote(a).value;
    var b := Strip(q.1, NAME_KEY).value;
    StripMeans(s, OPEN);
    StripMeans(n.1, NQN_KEY);
    StripMeans(q.1, NAME_KEY);
    assert (NQN_KEY + a)[0] == 44;
    NumbersRead(s1, n.0, n.1);
    assert ReadsAs(a, x.nqn, NAME_KEY + b) && ReadsAs(b, x.volumeName, CLOSE);
  }

  lemma StripMeans(s: Text, prefix: Text)
    requires Strip(s, prefix).Some?
    ensures s == prefix + Strip(s, prefix).value
  {
  }

  lemma LayoutUnmarshals(s: Text, x: VolumeIdentifier, a: Text, b: Text)
    requires s == OPEN + (Digits(x.nsid) + (NQN_KEY + a))
    requires ReadsAs(a, x.nqn, NAME_KEY + b) && ReadsAs(b, x.volumeName, CLOSE)
    ensures Unmarshal(s) == Some(x)
  {
    StripBack(OPEN, Digits(x.nsid) + (NQN_KEY + a));
    assert (NQN_KEY + a)[0] == 44;
    NumberRoundTrip(x.nsid, NQN_KEY + a);
    StripBack(NQN_KEY, a);
    StripBack(NAME_KEY, b);
  }
}
