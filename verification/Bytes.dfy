/** Bytes, fixed-width integers and the big-endian byte order the wire uses.

    The C++ code swaps an integer to big-endian and copies its four or eight
    bytes; the model writes those bytes directly, most significant first. */
module Bytes {

  type Byte = b: int | 0 <= b < 256
  type U32 = n: int | 0 <= n < TWO_32
  type U64 = n: int | 0 <= n < TWO_64

  const TWO_32: int := 0x1_0000_0000
  const TWO_64: int := 0x1_0000_0000_0000_0000

  datatype Option<+T> = None | Some(value: T)

  function Pow256(n: nat): (p: nat)
    ensures p > 0
  {
    if n == 0 then 1 else 256 * Pow256(n - 1)
  }

  /** The `width` low-order base-256 digits of `v`, most significant first. */
  function Digits(v: nat, width: nat): (s: seq<Byte>)
    ensures |s| == width
  {
    if width == 0 then [] else Digits(v / 256, width - 1) + [v % 256]
  }

  /** The number a string of base-256 digits denotes. */
  function Number(s: seq<Byte>): (v: nat)
    ensures v < Pow256(|s|)
  {
    if s == [] then 0 else Number(s[..|s| - 1]) * 256 + s[|s| - 1]
  }

  lemma {:induction false} NumberOfDigits(v: nat, width: nat)
    requires v < Pow256(width)
    ensures Number(Digits(v, width)) == v
  {
    if width > 0 {
      NumberOfDigits(v / 256, width - 1);
      var s := Digits(v, width);
      assert s[..width - 1] == Digits(v / 256, width - 1);
    }
  }

  lemma {:induction false} DigitsOfNumber(s: seq<Byte>)
    ensures Digits(Number(s), |s|) == s
  {
    if s != [] {
      var front, last: int := s[..|s| - 1], s[|s| - 1];
      DigitsOfNumber(front);
      assert Number(s) / 256 == Number(front) && Number(s) % 256 == last;
    }
  }

  lemma PowersOf256()
    ensures Pow256(4) == TWO_32 && Pow256(8) == TWO_64
  {
    assert Pow256(2) == 0x1_0000;
    assert Pow256(4) == 0x1_0000_0000;
    assert Pow256(6) == 0x1_0000_0000_0000;
  }

  function Be32(v: U32): (s: seq<Byte>)
    ensures |s| == 4
  {
    Digits(v, 4)
  }

  function FromBe32(s: seq<Byte>): U32
    requires |s| == 4
  {
    PowersOf256();
    Number(s)
  }

  function Be64(v: U64): (s: seq<Byte>)
    ensures |s| == 8
  {
    Digits(v, 8)
  }

  function FromBe64(s: seq<Byte>): U64
    requires |s| == 8
  {
    PowersOf256();
    Number(s)
  }

  lemma Be32Inverse(v: U32)
    ensures FromBe32(Be32(v)) == v
  {
    PowersOf256();
    NumberOfDigits(v, 4);
  }

  lemma FromBe32Inverse(s: seq<Byte>)
    requires |s| == 4
    ensures Be32(FromBe32(s)) == s
  {
    DigitsOfNumber(s);
  }

  lemma Be64Inverse(v: U64)
    ensures FromBe64(Be64(v)) == v
  {
    PowersOf256();
    NumberOfDigits(v, 8);
  }

  // ---------- the byte order, digit by digit ----------

  /** The number that the four bytes from position `i` on spell, most significant first. */
  function Word(s: seq<Byte>, i: nat): (v: U32)
    requires i + 4 <= |s|
  {
    var a: int, b: int, c: int, d: int := s[i], s[i + 1], s[i + 2], s[i + 3];
    a * 0x100_0000 + b * 0x1_0000 + c * 0x100 + d
  }

  lemma FourDigits(s: seq<Byte>)
    requires |s| == 4
    ensures FromBe32(s) == Word(s, 0)
  {
    assert Number(s[..3]) == Number(s[..3][..2]) * 256 + s[2] && s[..3][..2] == s[..2];
    assert Number(s[..2]) == Number(s[..2][..1]) * 256 + s[1] && s[..2][..1] == s[..1];
    assert Number(s[..1]) == Number(s[..1][..0]) * 256 + s[0];
  }

  /** The four bytes of a 32-bit number, most significant first. */
  lemma Be32Is(v: U32)
    ensures var s := Be32(v); v == Word(s, 0)
  {
    hide Be32, FromBe32;
    Be32Inverse(v);
    FourDigits(Be32(v));
  }

  lemma EightDigits(s: seq<Byte>)
    requires |s| == 8
    ensures FromBe64(s) == FromBe32(s[..4]) * TWO_32 + FromBe32(s[4..])
  {
    var t := s[4..];
    assert Number(s) == Number(s[..7]) * 256 + t[3] && s[..7][..6] == s[..6] && s[..6][..5] == s[..5];
    assert Number(s[..7]) == Number(s[..6]) * 256 + t[2];
    assert Number(s[..6]) == Number(s[..5]) * 256 + t[1];
    assert s[..5][..4] == s[..4];
    assert Number(s[..5]) == Number(s[..4]) * 256 + t[0];
    FourDigits(t);
  }

  /** The eight bytes of a 64-bit number: its high half before its low half. */
  lemma Be64Is(v: U64)
    ensures var s := Be64(v); v == FromBe32(s[..4]) * TWO_32 + FromBe32(s[4..])
  {
    hide Be64, FromBe64, FromBe32;
    Be64Inverse(v);
    EightDigits(Be64(v));
  }

  /** Concatenation of a sequence of byte strings. */
  function Flatten(chunks: seq<seq<Byte>>): seq<Byte>
  {
    if chunks == [] then [] else chunks[0] + Flatten(chunks[1..])
  }

  lemma {:induction false} FlattenSnoc(chunks: seq<seq<Byte>>, last: seq<Byte>)
    ensures Flatten(chunks + [last]) == Flatten(chunks) + last
  {
    if chunks == [] {
      assert chunks + [last] == [last];
      assert [last][1..] == [];
    } else {
      assert (chunks + [last])[1..] == chunks[1..] + [last];
      FlattenSnoc(chunks[1..], last);
    }
  }
}
