/** Reassembly of frames from a byte stream that arrives in arbitrary pieces
    (src/wire/frame_buffer.hpp, and the receive loop of src/hub/reactor.cpp). */
module Reassembly {
  import opened Bytes
  import opened Wire

  class FrameBuffer {
    var buf: seq<Byte>

    constructor ()
      ensures buf == []
    {
      buf := [];
    }

    method Append(data: seq<Byte>)
      modifies this
      ensures buf == old(buf) + data
    {
      buf := buf + data;
    }

    /** Pops one complete frame. A wrong checksum discards everything buffered. */
    method TryPopFrame() returns (r: Option<Frame>)
      modifies this
      ensures match Pop(old(buf))
              case NeedMore => r == None && buf == old(buf)
              case Bad => r == None && buf == []
              case Got(f, rest) => r == Some(f) && buf == rest
      ensures var s := old(buf);
              var whole := |s| >= 20 && s[16..20] == [0x1F, 0xE2, 0x3D, 0xC4] && |s| >= 20 + Word(s, 12);
              && (r.Some? <==> whole)
              && (whole ==>
                    && r.value.typ == Word(s, 0) && r.value.nid == Word(s, 4) && r.value.flag == Word(s, 8)
                    && r.value.payload == s[20..20 + Word(s, 12)] && buf == s[20 + Word(s, 12)..])
              && (!whole ==> buf == if |s| >= 20 && s[16..20] != [0x1F, 0xE2, 0x3D, 0xC4] then [] else s)
    {
      PopLayout(buf);
      hide Word;
      if |buf| < HEADER_SIZE {
        return None;
      }
      var hdr := DecodeHeader(buf);
      if hdr == None {
        buf := [];
        return None;
      }
      var frameLen := HEADER_SIZE + hdr.value.length;
      if |buf| < frameLen {
        return None;
      }
      var payload := buf[HEADER_SIZE..frameLen];
      buf := buf[frameLen..];
      r := Some(Frame(hdr.value.typ, hdr.value.nid, hdr.value.flag, payload));
    }

    /** The inner receive loop: pop until nothing complete is left. It ends
        because every pop removes at least a header. */
    method DrainFrames() returns (frames: seq<Frame>)
      modifies this
      ensures frames == Parse(old(buf)).frames
      ensures buf == if Parse(old(buf)).bad then [] else Parse(old(buf)).rest
    {
      hide Pop, Parse;
      frames := [];
      ghost var start := Parse(buf);
      while true
        invariant start == Parse(buf).(frames := frames + Parse(buf).frames)
        decreases |buf|
      {
        ParseStep(buf);
        var f := TryPopFrame();
        if f == None {
          return;
        }
        assert frames + ([f.value] + Parse(buf).frames) == frames + [f.value] + Parse(buf).frames;
        frames := frames + [f.value];
      }
    }

    /** The outer receive loop: each chunk the socket yields is appended and drained. */
    method ReceiveAll(chunks: seq<seq<Byte>>) returns (frames: seq<Frame>)
      modifies this
      requires buf == []
      ensures !Feed(chunks).bad ==> frames == Feed(chunks).frames && buf == Feed(chunks).buf
    {
      frames := [];
      for i := 0 to |chunks|
        invariant !Feed(chunks[..i]).bad ==> frames == Feed(chunks[..i]).frames && buf == Feed(chunks[..i]).buf
      {
        assert chunks[..i + 1][..i] == chunks[..i];
        Append(chunks[i]);
        var more := DrainFrames();
        frames := frames + more;
      }
      assert chunks[..|chunks|] == chunks;
    }
  }

  /** The reader's view after some chunks, up to the first wrong checksum. */
  datatype Reader = Reader(frames: seq<Frame>, buf: seq<Byte>, bad: bool)

  function FeedChunk(r: Reader, chunk: seq<Byte>): Reader {
    if r.bad then r
    else var p := Parse(r.buf + chunk); Reader(r.frames + p.frames, p.rest, p.bad)
  }

  function Feed(chunks: seq<seq<Byte>>): Reader {
    if chunks == [] then Reader([], [], false)
    else FeedChunk(Feed(chunks[..|chunks| - 1]), chunks[|chunks| - 1])
  }

  /** Frames popped, the moment of the first wrong checksum, and the bytes left
      depend only on the byte stream, not on how it was cut into chunks. */
  lemma {:induction false} ChunkingIndependent(chunks: seq<seq<Byte>>)
    ensures var r, p := Feed(chunks), Parse(Flatten(chunks));
            r.frames == p.frames && r.bad == p.bad && (!r.bad ==> r.buf == p.rest)
  {
    hide Pop;
    if chunks == [] {
      EmptyParse();
    } else {
      var front, last := chunks[..|chunks| - 1], chunks[|chunks| - 1];
      assert chunks == front + [last];
      FlattenSnoc(front, last);
      ChunkingIndependent(front);
      ParseAppend(Flatten(front), last);
    }
  }

  lemma EmptyParse()
    ensures Parse([]) == Parsed([], [], false)
  {
  }

  /** What was received is what was popped, re-encoded, followed by what is still buffered. */
  lemma FeedReproduces(chunks: seq<seq<Byte>>)
    requires !Feed(chunks).bad
    ensures EncodeAll(Feed(chunks).frames) + Feed(chunks).buf == Flatten(chunks)
    ensures AllFit(Feed(chunks).frames)
  {
    hide Pop, Encode;
    ChunkingIndependent(chunks);
    ParseReproduces(Flatten(chunks));
  }

  /** A receiver that gets, in any chunks, a prefix of a stream of encoded frames
      pops a prefix of those frames, in order and unchanged, and all of them if it gets all bytes. */
  lemma ReceivePrefix(fs: seq<Frame>, chunks: seq<seq<Byte>>)
    requires AllFit(fs) && Flatten(chunks) <= EncodeAll(fs)
    ensures !Feed(chunks).bad && Feed(chunks).frames <= fs
    ensures Flatten(chunks) == EncodeAll(fs) ==> Feed(chunks).frames == fs && Feed(chunks).buf == []
  {
    hide Pop, Encode;
    ChunkingIndependent(chunks);
    ParsePrefix(fs, Flatten(chunks));
  }
}
