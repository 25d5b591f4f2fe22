/** The 52-byte IM header in front of a business payload
    (include/hiim/im/header.hpp). */
module ImHeader {
  import opened Bytes
  import Wire

  const SIZE: nat := 52
  const OFFSET_NID: nat := 24
  const OFFSET_SEQ: nat := 28

  function Zeros(n: nat): (s: seq<Byte>)
    ensures |s| == n && forall i :: 0 <= i < n ==> s[i] == 0
  {
    seq(n, _ => 0)
  }

  /** cmd, length, sid, eight zero bytes, destination nid, seq, sixteen zero bytes. */
  function HeaderBytes(cmd: U32, length: U32, sid: U64, destNid: U32, sequence: U64): (s: seq<Byte>)
    ensures |s| == SIZE
  {
    Be32(cmd) + Be32(length) + Be64(sid) + Zeros(8) + Be32(destNid) + Be64(sequence) + Zeros(16)
  }

  /** Overwrites the cells from `offset` on, as `memcpy` does. */
  method CopyAt(buf: array<Byte>, offset: nat, bytes: seq<Byte>)
    requires offset + |bytes| <= buf.Length
    modifies buf
    ensures forall i :: 0 <= i < buf.Length ==>
              buf[i] == if offset <= i < offset + |bytes| then bytes[i - offset] else old(buf[i])
  {
    forall i | 0 <= i < |bytes| {
      buf[offset + i] := bytes[i];
    }
  }

  /** Copies the fields one after the other over the front of the buffer. */
  method FillFields(buf: array<Byte>, cmd: U32, length: U32, sid: U64, destNid: U32, sequence: U64)
    requires buf.Length >= SIZE
    modifies buf
    ensures buf[..] == HeaderBytes(cmd, length, sid, destNid, sequence) + old(buf[SIZE..])
  {
    hide Be32, Be64, Zeros;
    CopyAt(buf, 0, Be32(cmd));
    CopyAt(buf, 4, Be32(length));
    CopyAt(buf, 8, Be64(sid));
    CopyAt(buf, 16, Zeros(8));
    CopyAt(buf, OFFSET_NID, Be32(destNid));
    CopyAt(buf, OFFSET_SEQ, Be64(sequence));
    CopyAt(buf, OFFSET_SEQ + 8, Zeros(16));
    var b := buf[..];
    assert b[0..4] == Be32(cmd) && b[4..8] == Be32(length) && b[8..16] == Be64(sid);
    assert b[16..24] == Zeros(8) && b[24..28] == Be32(destNid) && b[28..36] == Be64(sequence);
    assert b[36..52] == Zeros(16) && b[SIZE..] == old(buf[SIZE..]);
    Pieces(b);
  }

  /** Fills the header in place; a short buffer is left alone. */
  method WriteHeader(buf: array<Byte>, cmd: U32, length: U32, sid: U64, destNid: U32, sequence: U64)
    modifies buf
    ensures buf.Length < SIZE ==> buf[..] == old(buf[..])
    ensures buf.Length >= SIZE ==>
              buf[..] == HeaderBytes(cmd, length, sid, destNid, sequence) + old(buf[SIZE..])
    ensures buf.Length >= 52 ==>
              var s := buf[..];
              && s[52..] == old(buf[52..])
              && Word(s, 0) == cmd && Word(s, 4) == length && Word(s, 8) * TWO_32 + Word(s, 12) == sid
              && Word(s, 24) == destNid && Word(s, 28) * TWO_32 + Word(s, 32) == sequence
              && forall i :: 16 <= i < 24 || 36 <= i < 52 ==> s[i] == 0
  {
    hide HeaderBytes, Word;
    if buf.Length < SIZE {
      return;
    }
    FieldLayout(cmd, length, sid, destNid, sequence, buf[SIZE..]);
    FillFields(buf, cmd, length, sid, destNid, sequence);
  }

  lemma Pieces(b: seq<Byte>)
    requires |b| >= SIZE
    ensures b == b[0..4] + b[4..8] + b[8..16] + b[16..24] + b[24..28] + b[28..36] + b[36..52] + b[SIZE..]
  {
  }

  /** The body length is cast to 32 bits. */
  function PackPayload(cmd: U32, sid: U64, destNid: U32, sequence: U64, body: seq<Byte>): seq<Byte> {
    HeaderBytes(cmd, |body| % TWO_32, sid, destNid, sequence) + body
  }

  /** Zero when the payload is too short to hold an IM header. */
  function ReadDestNid(payload: seq<Byte>): U32 {
    if |payload| < SIZE then 0 else FromBe32(payload[OFFSET_NID..OFFSET_NID + 4])
  }

  function ReadSeq(payload: seq<Byte>): U64 {
    if |payload| < SIZE then 0 else FromBe64(payload[OFFSET_SEQ..OFFSET_SEQ + 8])
  }

  /** The header at the front of a buffer, byte by byte. */
  lemma FieldLayout(cmd: U32, length: U32, sid: U64, destNid: U32, sequence: U64, tail: seq<Byte>)
    ensures var s := HeaderBytes(cmd, length, sid, destNid, sequence) + tail;
            && |s| == 52 + |tail| && s[52..] == tail
            && cmd == Word(s, 0)
            && length == Word(s, 4)
            && sid == Word(s, 8) * TWO_32 + Word(s, 12)
            && destNid == Word(s, 24)
            && sequence == Word(s, 28) * TWO_32 + Word(s, 32)
            && forall i :: 16 <= i < 24 || 36 <= i < 52 ==> s[i] == 0
  {
    hide Be32, Be64, FromBe32;
    Be32Is(cmd);
    Be32Is(length);
    Be32Is(destNid);
    Be64Is(sid);
    FourDigits(Be64(sid)[..4]);
    FourDigits(Be64(sid)[4..]);
    Be64Is(sequence);
    FourDigits(Be64(sequence)[..4]);
    FourDigits(Be64(sequence)[4..]);
  }

  /** A packed payload, byte by byte. */
  lemma PackLayout(cmd: U32, sid: U64, destNid: U32, sequence: U64, body: seq<Byte>)
    ensures var s := PackPayload(cmd, sid, destNid, sequence, body);
            && |s| == 52 + |body| && s[52..] == body
            && cmd == Word(s, 0)
            && |body| % TWO_32 == Word(s, 4)
            && sid == Word(s, 8) * TWO_32 + Word(s, 12)
            && destNid == Word(s, 24)
            && sequence == Word(s, 28) * TWO_32 + Word(s, 32)
            && forall i :: 16 <= i < 24 || 36 <= i < 52 ==> s[i] == 0
  {
    hide HeaderBytes, Word;
    FieldLayout(cmd, |body| % TWO_32, sid, destNid, sequence, body);
  }

  /** The destination and sequence number a reader finds, read off the bytes. */
  lemma ReadLayout(s: seq<Byte>)
    ensures |s| < 52 ==> ReadDestNid(s) == 0 && ReadSeq(s) == 0
    ensures |s| >= 52 ==>
              && ReadDestNid(s) == Word(s, 24)
              && ReadSeq(s) == Word(s, 28) * TWO_32 + Word(s, 32)
  {
    if |s| >= 52 {
      hide FromBe32, FromBe64;
      FourDigits(s[24..28]);
      EightDigits(s[28..36]);
      FourDigits(s[28..36][..4]);
      FourDigits(s[28..36][4..]);
    }
  }

  lemma ReadPacked(cmd: U32, sid: U64, destNid: U32, sequence: U64, body: seq<Byte>)
    ensures var p := PackPayload(cmd, sid, destNid, sequence, body);
            |p| == SIZE + |body| && ReadDestNid(p) == destNid && ReadSeq(p) == sequence && p[SIZE..] == body
  {
    var p := PackPayload(cmd, sid, destNid, sequence, body);
    assert p[OFFSET_NID..OFFSET_NID + 4] == Be32(destNid);
    assert p[OFFSET_SEQ..OFFSET_SEQ + 8] == Be64(sequence);
    Be32Inverse(destNid);
    Be64Inverse(sequence);
  }

  /** A wire frame around a packed IM payload comes back with the same wire
      fields, destination, sequence number and body, whatever follows it. */
  lemma NestedRoundTrip(typ: U32, nid: U32, flag: U32, cmd: U32, sid: U64, destNid: U32, sequence: U64,
                        body: seq<Byte>, rest: seq<Byte>)
    requires SIZE + |body| < TWO_32
    ensures var o := Wire.Pop(Wire.EncodeFrame(typ, nid, flag, PackPayload(cmd, sid, destNid, sequence, body)) + rest);
            && o.Got? && o.rest == rest
            && o.frame.typ == typ && o.frame.nid == nid && o.frame.flag == flag
            && ReadDestNid(o.frame.payload) == destNid
            && ReadSeq(o.frame.payload) == sequence
            && o.frame.payload[SIZE..] == body
  {
    var p := PackPayload(cmd, sid, destNid, sequence, body);
    ReadPacked(cmd, sid, destNid, sequence, body);
    Wire.PopEncoded(Wire.Frame(typ, nid, flag, p), rest);
  }
}
