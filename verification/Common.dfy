/** Vocabulary shared by every module of the model. */
module Common {

  datatype Option<+T> = None | Some(value: T)

  datatype Result<+T, +E> = Ok(value: T) | Err(error: E)

  /** A Go string is a sequence of bytes, not necessarily valid UTF-8. */
  type Byte = b: int | 0 <= b < 256
  type Text = seq<Byte>

  /**
   * What the outside world does with one remote or system call:
   * - NoFault: the call is executed and its own answer comes back;
   * - Lost: the call is not executed and an error comes back;
   * - Applied: the call is executed but an error comes back.
   */
  datatype Fault = NoFault | Lost | Applied

  /** Reading a missing key of a Go map yields the zero value. */
  function Get(m: map<string, Text>, key: string): Text {
    if key in m then m[key] else []
  }

  const DASH: Byte := 45

  predicate IsHex(b: Byte) { 48 <= b <= 57 || 65 <= b <= 70 || 97 <= b <= 102 }

  /** The text form of a UUID (section 4 of RFC 9562): 8, 4, 4, 4 and 12 hexadecimal digits between dashes. */
  predicate IsUuid(u: Text) {
    && |u| == 36
    && forall i :: 0 <= i < 36 ==> if i == 8 || i == 13 || i == 18 || i == 23 then u[i] == DASH else IsHex(u[i])
  }

  /** The bytes of an ASCII text. */
  function Bytes(s: string): (t: Text)
    requires forall i :: 0 <= i < |s| ==> s[i] < 128 as char
    ensures |t| == |s| && forall i :: 0 <= i < |s| ==> t[i] == s[i] as int
  {
    seq(|s|, i requires 0 <= i < |s| => s[i] as int)
  }
}
