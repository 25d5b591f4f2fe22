/** Bus wire v1 frames (include/hiim/wire/header.hpp): a 20-byte big-endian
    header with a fixed checksum word, then `length` payload bytes. */
module Wire {
  import opened Bytes

  const CHECKSUM: U32 := 0x1FE2_3DC4
  const FLAG_SYS: U32 := 0
  const FLAG_EXP: U32 := 1
  const HEADER_SIZE: nat := 20

  /** Header fields in host byte order. */
  datatype Header = Header(typ: U32, nid: U32, flag: U32, length: U32, chksum: U32)

  /** A popped frame: the header fields a reader uses, and the payload. */
  datatype Frame = Frame(typ: U32, nid: U32, flag: U32, payload: seq<Byte>)

  function MakeHeader(typ: U32, nid: U32, flag: U32, payloadLen: U32): Header {
    Header(typ, nid, flag, payloadLen, CHECKSUM)
  }

  function HeaderBytes(h: Header): (s: seq<Byte>)
    ensures |s| == HEADER_SIZE
  {
    Be32(h.typ) + Be32(h.nid) + Be32(h.flag) + Be32(h.length) + Be32(h.chksum)
  }

  function RawHeader(s: seq<Byte>): Header
    requires |s| >= HEADER_SIZE
  {
    Header(FromBe32(s[0..4]), FromBe32(s[4..8]), FromBe32(s[8..12]), FromBe32(s[12..16]), FromBe32(s[16..20]))
  }

  /** `None` when the input is short or the checksum word is wrong. */
  function DecodeHeader(s: seq<Byte>): Option<Header> {
    if |s| < HEADER_SIZE then None
    else
      var h := RawHeader(s);
      if h.chksum != CHECKSUM then None else Some(h)
  }

  /** The length field is the payload size cast to 32 bits, so it wraps. */
  function EncodeFrame(typ: U32, nid: U32, flag: U32, payload: seq<Byte>): (s: seq<Byte>)
    ensures |s| == HEADER_SIZE + |payload|
  {
    HeaderBytes(MakeHeader(typ, nid, flag, |payload| % TWO_32)) + payload
  }

  function Encode(f: Frame): seq<Byte> {
    EncodeFrame(f.typ, f.nid, f.flag, f.payload)
  }

  /** The payload length survives the 32-bit cast. */
  predicate Fits(f: Frame) {
    |f.payload| < TWO_32
  }

  /** What one attempt to pop a frame from buffered bytes finds. */
  datatype PopOutcome = NeedMore | Bad | Got(frame: Frame, rest: seq<Byte>)

  function Pop(s: seq<Byte>): (o: PopOutcome)
    ensures o.Got? ==> |o.rest| + HEADER_SIZE <= |s|
  {
    if |s| < HEADER_SIZE then NeedMore
    else
      match DecodeHeader(s)
      case None => Bad
      case Some(h) =>
        var frameLen := HEADER_SIZE + h.length;
        if |s| < frameLen then NeedMore
        else Got(Frame(h.typ, h.nid, h.flag, s[HEADER_SIZE..frameLen]), s[frameLen..])
  }

  /** Copies the header over the front of `out`; a short buffer is left alone. */
  method EncodeHeader(src: Header, out: array<Byte>)
    modifies out
    ensures out.Length < HEADER_SIZE ==> out[..] == old(out[..])
    ensures out.Length >= HEADER_SIZE ==> out[..] == HeaderBytes(src) + old(out[HEADER_SIZE..])
    ensures out.Length >= 20 ==>
              && Word(out[..], 0) == src.typ && Word(out[..], 4) == src.nid && Word(out[..], 8) == src.flag
              && Word(out[..], 12) == src.length && Word(out[..], 16) == src.chksum
  {
    if out.Length < HEADER_SIZE {
      return;
    }
    var bytes := HeaderBytes(src);
    forall i | 0 <= i < HEADER_SIZE {
      out[i] := bytes[i];
    }
    HeaderLayout(src);
    hide HeaderBytes;
  }

  // ---------- where each field stands ----------

  /** The header on the wire: type, node id, flag and length as big-endian words in this order,
      then the checksum word. */
  lemma HeaderLayout(h: Header)
    ensures var s := HeaderBytes(h);
            && h.typ == Word(s, 0)
            && h.nid == Word(s, 4)
            && h.flag == Word(s, 8)
            && h.length == Word(s, 12)
            && h.chksum == Word(s, 16)
  {
    hide Be32;
    Be32Is(h.typ);
    Be32Is(h.nid);
    Be32Is(h.flag);
    Be32Is(h.length);
    Be32Is(h.chksum);
  }

  lemma ChecksumBytes()
    ensures Be32(CHECKSUM) == [0x1F, 0xE2, 0x3D, 0xC4]
  {
    Be32Is(CHECKSUM);
    assert |Be32(CHECKSUM)| == 4;
  }

  /** A frame on the wire, byte by byte. */
  lemma FrameLayout(typ: U32, nid: U32, flag: U32, payload: seq<Byte>)
    ensures var s := EncodeFrame(typ, nid, flag, payload);
            && |s| == 20 + |payload|
            && typ == Word(s, 0)
            && nid == Word(s, 4)
            && flag == Word(s, 8)
            && |payload| % TWO_32 == Word(s, 12)
            && s[16..20] == [0x1F, 0xE2, 0x3D, 0xC4]
            && s[20..] == payload
  {
    var h := MakeHeader(typ, nid, flag, |payload| % TWO_32);
    HeaderLayout(h);
    ChecksumBytes();
    assert HeaderBytes(h)[16..20] == Be32(CHECKSUM);
    forall i | 0 <= i <= 16
      ensures Word(HeaderBytes(h) + payload, i) == Word(HeaderBytes(h), i)
    {
    }
    hide HeaderBytes, Be32, Word;
  }

  /** What popping does, read off the buffer's bytes: it waits for a header, discards on a wrong
      checksum word, waits for the payload the length word announces, and then returns the fields,
      the payload and what follows. */
  lemma PopLayout(s: seq<Byte>)
    ensures |s| < 20 ==> Pop(s) == NeedMore
    ensures |s| >= 20 && s[16..20] != [0x1F, 0xE2, 0x3D, 0xC4] ==> Pop(s) == Bad
    ensures |s| >= 20 && s[16..20] == [0x1F, 0xE2, 0x3D, 0xC4] ==>
              var n := Word(s, 12);
              && (|s| < 20 + n ==> Pop(s) == NeedMore)
              && (|s| >= 20 + n ==>
                    && Pop(s).Got?
                    && Pop(s).frame.typ == Word(s, 0)
                    && Pop(s).frame.nid == Word(s, 4)
                    && Pop(s).frame.flag == Word(s, 8)
                    && Pop(s).frame.payload == s[20..20 + n] && Pop(s).rest == s[20 + n..])
  {
    if |s| >= 20 {
      hide FromBe32;
      FourDigits(s[0..4]);
      FourDigits(s[4..8]);
      FourDigits(s[8..12]);
      FourDigits(s[12..16]);
      ChecksumBytes();
      Be32Inverse(CHECKSUM);
      FromBe32Inverse(s[16..20]);
    }
  }

  // ---------- header inverses ----------

  lemma HeaderInverse(h: Header, rest: seq<Byte>)
    ensures RawHeader(HeaderBytes(h) + rest) == h
  {
    var s := HeaderBytes(h) + rest;
    assert s[0..4] == Be32(h.typ);
    assert s[4..8] == Be32(h.nid);
    assert s[8..12] == Be32(h.flag);
    assert s[12..16] == Be32(h.length);
    assert s[16..20] == Be32(h.chksum);
    Be32Inverse(h.typ);
    Be32Inverse(h.nid);
    Be32Inverse(h.flag);
    Be32Inverse(h.length);
    Be32Inverse(h.chksum);
  }

  lemma RawHeaderInverse(s: seq<Byte>)
    requires |s| >= HEADER_SIZE
    ensures HeaderBytes(RawHeader(s)) == s[..HEADER_SIZE]
  {
    FromBe32Inverse(s[0..4]);
    FromBe32Inverse(s[4..8]);
    FromBe32Inverse(s[8..12]);
    FromBe32Inverse(s[12..16]);
    FromBe32Inverse(s[16..20]);
    assert s[..HEADER_SIZE] == s[0..4] + s[4..8] + s[8..12] + s[12..16] + s[16..20];
  }

  /** Decoding the header of an encoded frame returns the fields it was made
      from, and the payload size modulo 2^32, whatever follows the frame. */
  lemma DecodeEncodedHeader(f: Frame, rest: seq<Byte>)
    ensures DecodeHeader(Encode(f) + rest) == Some(MakeHeader(f.typ, f.nid, f.flag, |f.payload| % TWO_32))
  {
    var h := MakeHeader(f.typ, f.nid, f.flag, |f.payload| % TWO_32);
    assert Encode(f) + rest == HeaderBytes(h) + (f.payload + rest);
    HeaderInverse(h, f.payload + rest);
  }

  // ---------- frame inverses ----------

  /** A frame at the front of a byte stream is popped exactly. */
  lemma PopEncoded(f: Frame, rest: seq<Byte>)
    requires Fits(f)
    ensures Pop(Encode(f) + rest) == Got(f, rest)
  {
    hide RawHeader, HeaderBytes;
    var s := Encode(f) + rest;
    DecodeEncodedHeader(f, rest);
    assert s[HEADER_SIZE..HEADER_SIZE + |f.payload|] == f.payload;
    assert s[HEADER_SIZE + |f.payload|..] == rest;
  }

  /** Encoding is undone by popping exactly when the payload fits the 32-bit
      length field; a larger payload is always cut short. */
  lemma FrameRoundTrip(f: Frame, rest: seq<Byte>)
    ensures Pop(Encode(f) + rest) == Got(f, rest) <==> Fits(f)
  {
    if Fits(f) {
      PopEncoded(f, rest);
    } else {
      DecodeEncodedHeader(f, rest);
      var n := |f.payload| % TWO_32;
      var s := Encode(f) + rest;
      assert |s[HEADER_SIZE..HEADER_SIZE + n]| == n != |f.payload|;
    }
  }

  /** A popped frame re-encodes to exactly the bytes it was read from. */
  lemma EncodePopped(s: seq<Byte>)
    requires Pop(s).Got?
    ensures Fits(Pop(s).frame)
    ensures s == Encode(Pop(s).frame) + Pop(s).rest
  {
    hide FromBe32, HeaderBytes;
    var h := RawHeader(s);
    var f := Pop(s).frame;
    RawHeaderInverse(s);
    assert h == MakeHeader(f.typ, f.nid, f.flag, |f.payload|);
    assert s == s[..HEADER_SIZE] + f.payload + Pop(s).rest;
  }

  /** More bytes never change a frame that is already complete, nor a
      checksum that is already wrong. */
  lemma PopStable(s: seq<Byte>, more: seq<Byte>)
    ensures Pop(s).Got? ==> Pop(s + more) == Got(Pop(s).frame, Pop(s).rest + more)
    ensures Pop(s).Bad? ==> Pop(s + more).Bad?
  {
    hide FromBe32, HeaderBytes;
    if Pop(s).Got? {
      EncodePopped(s);
      var f, rest := Pop(s).frame, Pop(s).rest;
      assert s + more == Encode(f) + (rest + more);
      PopEncoded(f, rest + more);
    } else if Pop(s).Bad? {
      var t := s + more;
      assert t[0..4] == s[0..4] && t[4..8] == s[4..8] && t[8..12] == s[8..12];
      assert t[12..16] == s[12..16] && t[16..20] == s[16..20];
    }
  }

  /** A proper prefix of an encoded frame is never accepted and never
      rejected: the reader waits for the rest. */
  lemma PopPrefix(f: Frame, n: nat)
    requires Fits(f) && n < |Encode(f)|
    ensures Pop(Encode(f)[..n]).NeedMore?
  {
    var s, t := Encode(f)[..n], Encode(f)[n..];
    assert s + t == Encode(f);
    assert Encode(f) + [] == Encode(f);
    PopEncoded(f, []);
    PopStable(s, t);
  }

  /** No encoded frame is a proper prefix of another. */
  lemma PrefixFree(f: Frame, g: Frame)
    requires Fits(f) && Fits(g)
    ensures Encode(f) <= Encode(g) ==> f == g
  {
    if Encode(f) <= Encode(g) {
      var rest := Encode(g)[|Encode(f)|..];
      assert Encode(g) == Encode(f) + rest;
      PopEncoded(f, rest);
      assert Encode(g) + [] == Encode(g);
      PopEncoded(g, []);
    }
  }

  // ---------- a whole stream ----------

  function EncodeAll(fs: seq<Frame>): seq<Byte> {
    if fs == [] then [] else Encode(fs[0]) + EncodeAll(fs[1..])
  }

  /** Result of popping frames until the reader must wait or sees a bad
      checksum. `rest` is what was not consumed. */
  datatype Parsed = Parsed(frames: seq<Frame>, rest: seq<Byte>, bad: bool)

  function Parse(s: seq<Byte>): Parsed
    decreases |s|
  {
    match Pop(s)
    case NeedMore => Parsed([], s, false)
    case Bad => Parsed([], s, true)
    case Got(f, rest) => var p := Parse(rest); p.(frames := [f] + p.frames)
  }

  predicate AllFit(fs: seq<Frame>) {
    forall i :: 0 <= i < |fs| ==> Fits(fs[i])
  }

  /** Re-encoding what was parsed, plus what is left, is the input. */
  lemma {:induction false} ParseReproduces(s: seq<Byte>)
    ensures EncodeAll(Parse(s).frames) + Parse(s).rest == s
    ensures AllFit(Parse(s).frames)
    decreases |s|
  {
    hide Pop, Encode;
    if Pop(s).Got? {
      EncodePopped(s);
      ParseReproduces(Pop(s).rest);
      var p := Parse(Pop(s).rest);
      var fs := [Pop(s).frame] + p.frames;
      assert fs[1..] == p.frames;
      assert EncodeAll(fs) + p.rest == Encode(fs[0]) + (EncodeAll(p.frames) + p.rest);
    }
  }

  /** Reading on from a parsed prefix gives the parse of the whole. */
  lemma {:induction false} ParseAppend(s: seq<Byte>, t: seq<Byte>)
    ensures var p := Parse(s);
            if p.bad then Parse(s + t).frames == p.frames && Parse(s + t).bad
            else var q := Parse(p.rest + t);
                 Parse(s + t) == q.(frames := p.frames + q.frames)
    decreases |s|
  {
    hide Pop, Parse;
    ParseStep(s);
    ParseStep(s + t);
    PopStable(s, t);
    if Pop(s).Got? {
      var f, rest := Pop(s).frame, Pop(s).rest;
      ParseAppend(rest, t);
      var p, q := Parse(rest), Parse(Parse(rest).rest + t);
      assert [f] + (p.frames + q.frames) == [f] + p.frames + q.frames;
    } else if Pop(s).NeedMore? {
      var q := Parse(s + t);
      assert [] + q.frames == q.frames;
    }
  }

  lemma ParseStep(s: seq<Byte>)
    ensures match Pop(s)
            case NeedMore => Parse(s) == Parsed([], s, false)
            case Bad => Parse(s) == Parsed([], s, true)
            case Got(f, rest) => Parse(s) == Parse(rest).(frames := [f] + Parse(rest).frames)
  {
    hide Pop;
  }

  /** A stream of encoded frames parses back to those frames. */
  lemma {:induction false} ParseEncoded(fs: seq<Frame>, tail: seq<Byte>)
    requires AllFit(fs)
    ensures Parse(EncodeAll(fs) + tail) == Parse(tail).(frames := fs + Parse(tail).frames)
  {
    hide Pop, Encode;
    if fs == [] {
      assert EncodeAll(fs) + tail == tail;
      assert fs + Parse(tail).frames == Parse(tail).frames;
    } else {
      var s := EncodeAll(fs) + tail;
      assert s == Encode(fs[0]) + (EncodeAll(fs[1..]) + tail);
      PopEncoded(fs[0], EncodeAll(fs[1..]) + tail);
      ParseEncoded(fs[1..], tail);
      assert fs + Parse(tail).frames == [fs[0]] + (fs[1..] + Parse(tail).frames);
    }
  }

  /** Any prefix of a stream of encoded frames parses, without ever seeing a
      bad checksum, to a prefix of the frames: those that arrived whole. */
  lemma {:induction false} ParsePrefix(fs: seq<Frame>, s: seq<Byte>)
    requires AllFit(fs) && s <= EncodeAll(fs)
    ensures !Parse(s).bad && Parse(s).frames <= fs
    ensures s == EncodeAll(fs) ==> Parse(s).frames == fs && Parse(s).rest == []
  {
    hide DecodeHeader, Encode;
    if fs == [] {
      assert s == [];
      assert Pop(s).NeedMore?;
    } else {
      var e := Encode(fs[0]);
      if |s| < |e| {
        assert s == e[..|s|];
        PopPrefix(fs[0], |s|);
      } else {
        var t := s[|e|..];
        assert s == e + t;
        PopEncoded(fs[0], t);
        assert t <= EncodeAll(fs[1..]);
        ParsePrefix(fs[1..], t);
        assert fs == [fs[0]] + fs[1..];
      }
    }
  }

  lemma {:induction false} EncodeAllSnoc(fs: seq<Frame>, f: Frame)
    ensures EncodeAll(fs + [f]) == EncodeAll(fs) + Encode(f)
  {
    if fs == [] {
      assert fs + [f] == [f];
      assert [f][1..] == [];
    } else {
      assert (fs + [f])[1..] == fs[1..] + [f];
      EncodeAllSnoc(fs[1..], f);
    }
  }
}
