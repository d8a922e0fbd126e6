/** The four characteristic-value callbacks of the example GATT table: an
    unguarded read/write pair and a pair that demands an encrypted link. The
    source carries three identical copies of them (one per peripheral
    variant); they are one definition here. */
module Handlers {
  import opened Att

  const HELLO_PREFIX: string := "Hello "

  /** The value the guarded read discloses on an encrypted link. */
  const GUARDED_VALUE: seq<byte> := [123]

  /** Unguarded read: the ASCII bytes of "Hello " followed by the printed
      connection; it fails only when that text cannot be ASCII-encoded. */
  function EchoRead(c: Connection): (r: ReadOutcome)
    ensures r.ReadOk? <==> IsAscii(c.text)
    ensures r.ReadOk? ==> AsciiDecode(r.value) == HELLO_PREFIX + c.text
    ensures r.ReadFailed? ==> r.error == EncodeError
  {
    AsciiConcat(HELLO_PREFIX, c.text);
    match AsciiEncode(HELLO_PREFIX + c.text)
    case Some(b) =>
      AsciiRoundTrip(HELLO_PREFIX + c.text);
      ReadOk(b)
    case None => ReadFailed(EncodeError)
  }

  /** Unguarded write: only logs, never fails. */
  function EchoWrite(c: Connection, value: seq<byte>): (r: WriteOutcome)
    ensures r.WriteOk?
  {
    WriteOk
  }

  /** Guarded read: `[123]` on an encrypted link, otherwise the ATT
      insufficient-encryption error. */
  function GuardedRead(c: Connection): (r: ReadOutcome)
    ensures r == ReadOk(GUARDED_VALUE) <==> c.isEncrypted
    ensures r.ReadOk? <==> c.isEncrypted
    ensures !c.isEncrypted ==> r == ReadFailed(AttError(INSUFFICIENT_ENCRYPTION))
  {
    if c.isEncrypted then ReadOk([123])
    else ReadFailed(AttError(INSUFFICIENT_ENCRYPTION))
  }

  /** Guarded write: raises the insufficient-encryption error unless the link
      is encrypted; on success it returns nothing. */
  function GuardedWrite(c: Connection, value: seq<byte>): (r: WriteOutcome)
    ensures r.WriteFailed? <==> !c.isEncrypted
    ensures r.WriteFailed? ==> r.error == AttError(INSUFFICIENT_ENCRYPTION)
  {
    if !c.isEncrypted then WriteFailed(AttError(INSUFFICIENT_ENCRYPTION))
    else WriteOk
  }

  /** The unguarded handlers never raise the encryption error, and their
      outcome does not depend on the link's encryption at all. */
  lemma UnguardedIgnoresEncryption(c: Connection, value: seq<byte>, encrypted: bool)
    ensures EchoRead(c) == EchoRead(c.(isEncrypted := encrypted))
    ensures EchoWrite(c, value) == EchoWrite(c.(isEncrypted := encrypted), value)
    ensures EchoRead(c) != ReadFailed(AttError(INSUFFICIENT_ENCRYPTION))
  {
  }

  /** The guarded handlers depend on the connection only through its
      encryption flag, and the value written is never inspected. */
  lemma GuardedDependsOnlyOnEncryption(c: Connection, d: Connection, v: seq<byte>, w: seq<byte>)
    requires c.isEncrypted == d.isEncrypted
    ensures GuardedRead(c) == GuardedRead(d)
    ensures GuardedWrite(c, v) == GuardedWrite(d, w)
  {
  }
}
