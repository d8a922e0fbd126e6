/** Bytes, the ATT error the guarded handlers raise, the connection a handler
    is called with, and the text-to-bytes encodings the handlers use. */
module Att {

  newtype byte = x: int | 0 <= x < 256

  /** ATT "Insufficient Encryption" error code (Bluetooth Core Specification,
      Vol 3, Part F, section 3.4.1.1). */
  const INSUFFICIENT_ENCRYPTION: byte := 0x0F

  /** What a handler sees of the host stack's connection object: its printed
      form (`str(connection)`) and whether the link is encrypted. */
  datatype Connection = Connection(text: string, isEncrypted: bool)

  /** Why an attribute operation did not produce a value. */
  datatype AccessError =
    | AttError(code: byte)   // an ATT_Error raised with this code
    | EncodeError            // the text to send is not ASCII (UnicodeEncodeError)

  datatype ReadOutcome = ReadOk(value: seq<byte>) | ReadFailed(error: AccessError)

  datatype WriteOutcome = WriteOk | WriteFailed(error: AccessError)

  datatype Option<T> = None | Some(value: T)

  predicate IsAscii(s: string) {
    forall i :: 0 <= i < |s| ==> s[i] as int < 128
  }

  lemma AsciiConcat(a: string, b: string)
    ensures IsAscii(a + b) <==> IsAscii(a) && IsAscii(b)
  {
    if IsAscii(a) && IsAscii(b) {
      forall i | 0 <= i < |a + b| ensures (a + b)[i] as int < 128 {
        if i >= |a| { assert (a + b)[i] == b[i - |a|]; }
      }
    }
    if IsAscii(a + b) {
      forall i | 0 <= i < |a| ensures a[i] as int < 128 {
        assert (a + b)[i] == a[i];
      }
      forall i | 0 <= i < |b| ensures b[i] as int < 128 {
        assert (a + b)[|a| + i] == b[i];
      }
    }
  }

  /** The ASCII bytes of a string known to be ASCII: one byte per character. */
  function AsciiBytes(s: string): (r: seq<byte>)
    requires IsAscii(s)
    ensures |r| == |s|
    ensures forall i :: 0 <= i < |s| ==> r[i] as int == s[i] as int
  {
    seq(|s|, i requires 0 <= i < |s| => s[i] as int as byte)
  }

  /** `bytes(s, "ascii")`: the ASCII bytes, or an encoding error when some
      character is outside ASCII. */
  function AsciiEncode(s: string): (r: Option<seq<byte>>)
    ensures r.Some? <==> IsAscii(s)
    ensures r.Some? ==> |r.value| == |s|
    ensures r.Some? ==> forall i :: 0 <= i < |s| ==> r.value[i] as int == s[i] as int
  {
    if IsAscii(s) then Some(AsciiBytes(s)) else None
  }

  /** Decoding ASCII bytes back to text: the inverse of AsciiEncode. */
  function AsciiDecode(b: seq<byte>): (s: string)
    ensures |s| == |b|
    ensures forall i :: 0 <= i < |b| ==> s[i] as int == b[i] as int
  {
    seq(|b|, i requires 0 <= i < |b| => b[i] as int as char)
  }

  lemma AsciiRoundTrip(s: string)
    requires IsAscii(s)
    ensures AsciiDecode(AsciiBytes(s)) == s
    ensures AsciiDecode(AsciiEncode(s).value) == s
  {
    var d := AsciiDecode(AsciiBytes(s));
    assert |d| == |s|;
    forall i | 0 <= i < |s| ensures d[i] == s[i] {
      assert d[i] as int == s[i] as int;
    }
  }

  /** `struct.pack("<H", x)`: a 16-bit unsigned value, little-endian. */
  function PackU16Le(x: int): (r: seq<byte>)
    requires 0 <= x < 0x1_0000
    ensures |r| == 2 && r[0] as int + 256 * r[1] as int == x
  {
    [(x % 256) as byte, (x / 256) as byte]
  }

  function UnpackU16Le(b: seq<byte>): (x: int)
    requires |b| == 2
    ensures 0 <= x < 0x1_0000
  {
    b[0] as int + 256 * b[1] as int
  }

  lemma PackUnpack(b: seq<byte>)
    requires |b| == 2
    ensures PackU16Le(UnpackU16Le(b)) == b
  {
    var x := UnpackU16Le(b);
    assert x % 256 == b[0] as int && x / 256 == b[1] as int;
  }
}
