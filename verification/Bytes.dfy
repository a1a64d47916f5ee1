// Big-endian words, as the compiler and the checkpoint writer lay them out.
module Bytes {

  type byte = x: nat | x < 256

  const P16 := 0x1_0000
  const P32 := 0x1_0000_0000
  const P62 := 0x4000_0000_0000_0000

  // The low sixteen bits of `w`, high byte first.
  function Be16(w: int): (r: seq<byte>)
    ensures |r| == 2
  {
    [(w / 256) % 256, w % 256]
  }

  // Two bytes read as a signed sixteen-bit number.
  function Signed16(hi: byte, lo: byte): int {
    var u := hi * 256 + lo;
    if u < 0x8000 then u else u - P16
  }

  lemma Be16Decodes(w: int)
    requires -0x8000 <= w < 0x8000
    ensures Signed16(Be16(w)[0], Be16(w)[1]) == w
  {
  }

  // The low thirty-two bits of `w`, high byte first.
  function Be32(w: int): (r: seq<byte>)
    ensures |r| == 4
  {
    [(w / 0x100_0000) % 256, (w / P16) % 256, (w / 256) % 256, w % 256]
  }

  function Unsigned32(b: seq<byte>): (u: nat)
    requires |b| == 4
    ensures u < P32
  {
    (((b[0] as int) * 256 + b[1]) * 256 + b[2]) * 256 + b[3]
  }

  // The value that survives a cast to int32_t.
  function Wrap32(w: int): (r: int)
    ensures -0x8000_0000 <= r < 0x8000_0000
  {
    var u := w % P32;
    if u < 0x8000_0000 then u else u - P32
  }

  function Signed32(b: seq<byte>): int
    requires |b| == 4
  {
    Wrap32(Unsigned32(b))
  }

  lemma Be32Decodes(w: int)
    ensures Unsigned32(Be32(w)) == w % P32
    ensures Signed32(Be32(w)) == Wrap32(w)
  {
    Recompose(w, w / 256, w / P16, w / 0x100_0000);
  }

  lemma Recompose(w: int, q1: int, q2: int, q3: int)
    requires q1 == w / 256 && q2 == w / P16 && q3 == w / 0x100_0000
    ensures (((q3 % 256) * 256 + q2 % 256) * 256 + q1 % 256) * 256 + w % 256 == w % P32
  {
    assert q2 == q1 / 256;
    assert q3 == q2 / 256;
    var v := (((q3 % 256) * 256 + q2 % 256) * 256 + q1 % 256) * 256 + w % 256;
    Remainder(w, q3 / 256, v);
  }

  lemma Remainder(w: int, q: int, v: int)
    requires w == q * P32 + v && 0 <= v < P32
    ensures v == w % P32
  {
  }

  lemma Wrap32Same(w: int)
    requires -0x8000_0000 <= w < 0x8000_0000
    ensures Wrap32(w) == w
  {
  }

  lemma WordDecodes(n: nat)
    requires n < P32
    ensures Unsigned32(Be32(n)) == n && (n < 0x8000_0000 ==> Signed32(Be32(n)) == n)
  {
    Be32Decodes(n);
    Remainder(n, 0, n);
    if n < 0x8000_0000 {
      Wrap32Same(n);
    }
  }
}
