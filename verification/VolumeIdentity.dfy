/**
 * The volume ID (pkg/driver/controllerserver.go): the identifier struct written as
 * a JSON object, in base64.
 */
module VolumeIdentity {
  import opened Common
  import Base64
  import opened Utf8
  import opened JsonText
  import Paths

  const UINT32_LIMIT := 0x1_0000_0000

  type Uint32 = n: int | 0 <= n < UINT32_LIMIT

  datatype VolumeIdentifier = VolumeIdentifier(nsid: Uint32, nqn: Text, volumeName: Text)

  // ---------------------------------------------------------------------
  // Decimal numbers.

  function Digits(n: nat): Text {
    if n < 10 then [48 + n] else Digits(n / 10) + [48 + n % 10]
  }

  predicate IsDigit(b: Byte) { 48 <= b < 58 }

  function Span(s: Text): (k: nat)
    ensures k <= |s| && forall i :: 0 <= i < k ==> IsDigit(s[i])
    ensures k < |s| ==> !IsDigit(s[k])
  {
    if s == [] || !IsDigit(s[0]) then 0 else 1 + Span(s[1..])
  }

  function ValueOf(ds: Text): nat
    requires forall i :: 0 <= i < |ds| ==> IsDigit(ds[i])
  {
    if ds == [] then 0
    else
      assert IsDigit(ds[|ds| - 1]);
      ValueOf(ds[..|ds| - 1]) * 10 + (ds[|ds| - 1] - 48)
  }

  /** A JSON integer that fits uint32; leading zeros are not allowed. */
  function ReadUint32(s: Text): Option<(Uint32, Text)> {
    var k := Span(s);
    if k == 0 || (k > 1 && s[0] == 48) || ValueOf(s[..k]) >= UINT32_LIMIT then None
    else Some((ValueOf(s[..k]), s[k..]))
  }

  lemma {:induction false} DigitsMean(n: nat)
    ensures Digits(n) != [] && forall i :: 0 <= i < |Digits(n)| ==> IsDigit(Digits(n)[i])
    ensures ValueOf(Digits(n)) == n
    ensures Digits(n)[0] == 48 ==> n == 0
  {
    if n >= 10 {
      DigitsMean(n / 10);
      assert Digits(n)[..|Digits(n)| - 1] == Digits(n / 10);
    } else {
      assert Digits(n)[..0] == [];
    }
  }

  lemma NumberRoundTrip(n: Uint32, rest: Text)
    requires rest != [] && !IsDigit(rest[0])
    ensures ReadUint32(Digits(n) + rest) == Some((n, rest))
  {
    DigitsMean(n);
    var s, k := Digits(n) + rest, |Digits(n)|;
    assert Span(s) == k by {
      assert s[k] == rest[0];
      assert forall i :: 0 <= i < k ==> s[i] == Digits(n)[i];
    }
    assert s[..k] == Digits(n) && s[k..] == rest;
  }

  // ---------------------------------------------------------------------
  // The object.

  const OPEN: Text := [123, 34, 110, 115, 105, 100, 34, 58]                       // {"nsid":
  const NQN_KEY: Text := [44, 34, 110, 113, 110, 34, 58, 34]                      // ,"nqn":"
  const NAME_KEY: Text := [44, 34, 118, 111, 108, 117, 109, 101, 95, 110, 97, 109, 101, 34, 58, 34] // ,"volume_name":"
  const CLOSE: Text := [125]                                                      // }

  /** json.Marshal of the struct. */
  function Marshal(x: VolumeIdentifier): Text {
    OPEN + (Digits(x.nsid) + (NQN_KEY + (Quote(x.nqn) + ([QUOTE] + (NAME_KEY + (Quote(x.volumeName) + ([QUOTE] + CLOSE)))))))
  }

  function Strip(s: Text, prefix: Text): Option<Text> {
    if prefix <= s then Some(s[|prefix|..]) else None
  }

  /** json.Unmarshal, for objects laid out as Marshal lays them out. */
  function Unmarshal(s: Text): Option<VolumeIdentifier> {
    var s1 := Strip(s, OPEN);
    if s1.None? then None else
    var n := ReadUint32(s1.value);
    if n.None? then None else
    var s2 := Strip(n.value.1, NQN_KEY);
    if s2.None? then None else
    var q := Unquote(s2.value);
    if q.None? then None else
    var s3 := Strip(q.value.1, NAME_KEY);
    if s3.None? then None else
    var v := Unquote(s3.value);
    if v.None? || v.value.1 != CLOSE then None
    else Some(VolumeIdentifier(n.value.0, q.value.0, v.value.0))
  }

  lemma StripBack(prefix: Text, rest: Text)
    ensures Strip(prefix + rest, prefix) == Some(rest)
  {
  }

  function Sanitized(x: VolumeIdentifier): VolumeIdentifier {
    VolumeIdentifier(x.nsid, Sanitize(x.nqn), Sanitize(x.volumeName))
  }

  lemma ObjectRoundTrip(x: VolumeIdentifier)
    ensures Unmarshal(Marshal(x)) == Some(Sanitized(x))
  {
    var t4 := Quote(x.volumeName) + ([QUOTE] + CLOSE);
    var t3 := Quote(x.nqn) + ([QUOTE] + (NAME_KEY + t4));
    var t2 := NQN_KEY + t3;
    StripBack(OPEN, Digits(x.nsid) + t2);
    assert t2[0] == 44;
    NumberRoundTrip(x.nsid, t2);
    StripBack(NQN_KEY, t3);
    StringRoundTrip(x.nqn, NAME_KEY + t4);
    StripBack(NAME_KEY, t4);
    StringRoundTrip(x.volumeName, CLOSE);
  }

  // ---------------------------------------------------------------------
  // The volume ID.

  function EncodeVolumeID(x: VolumeIdentifier): string {
    Base64.Encode(Marshal(x))
  }

  function DecodeVolumeID(id: string): Option<VolumeIdentifier> {
    var json := Base64.Decode(id);
    if json.None? then None else Unmarshal(json.value)
  }

  predicate IsText(x: VolumeIdentifier) { Valid(x.nqn) && Valid(x.volumeName) }

  /**
   * Decoding undoes encoding up to U+FFFD for stray bytes, hence exactly for
   * identifiers whose NQN and name are UTF-8 (as every protobuf string is).
   */
  lemma VolumeIDRoundTrip(x: VolumeIdentifier)
    ensures DecodeVolumeID(EncodeVolumeID(x)) == Some(Sanitized(x))
    ensures DecodeVolumeID(EncodeVolumeID(x)) == Some(x) <==> IsText(x)
  {
    Base64.RoundTrip(Marshal(x));
    ObjectRoundTrip(x);
    SanitizeKeepsExactlyValid(x.nqn);
    SanitizeKeepsExactlyValid(x.volumeName);
  }

  /** Two volumes never share an ID. */
  lemma VolumeIDInjective(x: VolumeIdentifier, y: VolumeIdentifier)
    requires IsText(x) && IsText(y) && EncodeVolumeID(x) == EncodeVolumeID(y)
    ensures x == y
  {
    VolumeIDRoundTrip(x);
    VolumeIDRoundTrip(y);
  }

  // ---------------------------------------------------------------------
  // The volume ID as a path component.

  /** Printable ASCII other than the question mark. */
  predicate Plain(b: Byte) { 32 <= b < 127 && b != 63 }

  ghost predicate AllPlain(s: Text) { forall i :: 0 <= i < |s| ==> Plain(s[i]) }

  lemma {:induction false} QuotePlain(s: Text)
    requires AllPlain(s)
    ensures AllPlain(Quote(s))
  {
    if s != [] {
      assert Plain(s[0]);
      assert AllPlain(s[1..]) by {
        forall i | 0 <= i < |s[1..]|
          ensures Plain(s[1..][i])
        {
          assert s[1..][i] == s[i + 1];
        }
      }
      QuotePlain(s[1..]);
      assert Advance(s) == 1 && AllPlain(Piece(s));
    }
  }

  lemma PlainConcat(s: Text, t: Text)
    requires AllPlain(s) && AllPlain(t)
    ensures AllPlain(s + t)
  {
  }

  lemma MarshalPlain(x: VolumeIdentifier)
    requires AllPlain(x.nqn) && AllPlain(x.volumeName)
    ensures AllPlain(Marshal(x))
  {
    QuotePlain(x.nqn);
    QuotePlain(x.volumeName);
    DigitsMean(x.nsid);
    var t5 := [QUOTE] + CLOSE;
    PlainConcat(Quote(x.volumeName), t5);
    var t4 := Quote(x.volumeName) + t5;
    PlainConcat(NAME_KEY, t4);
    PlainConcat([QUOTE], NAME_KEY + t4);
    PlainConcat(Quote(x.nqn), [QUOTE] + (NAME_KEY + t4));
    var t3 := Quote(x.nqn) + ([QUOTE] + (NAME_KEY + t4));
    PlainConcat(NQN_KEY, t3);
    assert AllPlain(Digits(x.nsid)) by {
      assert forall i :: 0 <= i < |Digits(x.nsid)| ==> IsDigit(Digits(x.nsid)[i]);
    }
    PlainConcat(Digits(x.nsid), NQN_KEY + t3);
    PlainConcat(OPEN, Digits(x.nsid) + (NQN_KEY + t3));
  }

  lemma PlainEncoding(json: Text)
    requires AllPlain(json)
    ensures '/' !in Base64.Encode(json)
  {
    forall i | 0 <= i < |json|
      ensures json[i] < 127 && json[i] != 63
    {
      assert Plain(json[i]);
    }
    Base64.SlashInEncoding(json);
  }

  /** For plain NQNs and names the volume ID is a single path component. */
  lemma VolumeIDIsOneComponent(x: VolumeIdentifier)
    requires AllPlain(x.nqn) && AllPlain(x.volumeName)
    ensures var id := EncodeVolumeID(x);
            '/' !in id && id != "" && id != "." && id != ".."
  {
    MarshalPlain(x);
    PlainEncoding(Marshal(x));
    Base64.EncodeLength(Marshal(x));
  }

  /**
   * Stage and unstage (concatenation) and publish (filepath.Join) mean the same
   * staging path, for every clean staging directory other than "/" and ".".
   */
  lemma StagingPathsAgree(dir: string, x: VolumeIdentifier)
    requires AllPlain(x.nqn) && AllPlain(x.volumeName)
    ensures var id := EncodeVolumeID(x);
            Paths.Join(dir, id) == dir + "/" + id <==> Paths.Clean(dir) == dir && dir != "/" && dir != "."
  {
    VolumeIDIsOneComponent(x);
    Paths.JoinIsConcatenation(dir, EncodeVolumeID(x));
  }
}
