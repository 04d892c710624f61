/** Bit strings, bytes and the 32-bit bit buffer that the DEFLATE writer keeps. */
module Bits {

  type byte = b: int | 0 <= b < 256

  datatype Option<+T> = None | Some(value: T)

  function Pow2(n: nat): (p: nat)
    ensures p >= 1
  {
    if n == 0 then 1 else 2 * Pow2(n - 1)
  }

  function Digit(b: bool): (d: nat)
    ensures d <= 1
  {
    if b then 1 else 0
  }

  /** The low n bits of v, least significant bit first (the order of RFC 1951 integers). */
  function Lsb(v: nat, n: nat): (s: seq<bool>)
    ensures |s| == n
  {
    if n == 0 then [] else [v % 2 == 1] + Lsb(v / 2, n - 1)
  }

  /** The low n bits of v, most significant bit first (the order of RFC 1951 Huffman codes). */
  function Msb(v: nat, n: nat): (s: seq<bool>)
    ensures |s| == n
  {
    if n == 0 then [] else Msb(v / 2, n - 1) + [v % 2 == 1]
  }

  function FromLsb(s: seq<bool>): nat {
    if s == [] then 0 else Digit(s[0]) + 2 * FromLsb(s[1..])
  }

  function FromMsb(s: seq<bool>): nat {
    if s == [] then 0 else 2 * FromMsb(s[..|s| - 1]) + Digit(s[|s| - 1])
  }

  lemma {:induction false} LsbRoundTrip(v: nat, n: nat)
    requires v < Pow2(n)
    ensures FromLsb(Lsb(v, n)) == v
  {
    if n > 0 {
      LsbRoundTrip(v / 2, n - 1);
      assert Lsb(v, n)[1..] == Lsb(v / 2, n - 1);
    }
  }

  lemma {:induction false} MsbRoundTrip(v: nat, n: nat)
    requires v < Pow2(n)
    ensures FromMsb(Msb(v, n)) == v
  {
    if n > 0 {
      MsbRoundTrip(v / 2, n - 1);
      assert Msb(v, n)[..n - 1] == Msb(v / 2, n - 1);
    }
  }

  /** v >> k and v << k. */
  function Shr(v: nat, k: nat): nat {
    if k == 0 then v else Shr(v / 2, k - 1)
  }

  function Shl(v: nat, k: nat): nat {
    if k == 0 then v else 2 * Shl(v, k - 1)
  }

  lemma {:induction false} ShrNext(v: nat, k: nat)
    ensures Shr(v, k) / 2 == Shr(v, k + 1)
  {
    if k > 0 {
      ShrNext(v / 2, k - 1);
    }
  }

  lemma {:induction false} ShlBound(v: nat, n: nat, k: nat)
    requires v < Pow2(n)
    ensures Shl(v, k) + Pow2(k) <= Pow2(n + k)
  {
    if k > 0 {
      ShlBound(v, n, k - 1);
    }
  }

  /** Prepending view of Msb: the leading bit is bit n. */
  lemma {:induction false} MsbLeading(v: nat, n: nat)
    ensures Msb(v, n + 1) == [Shr(v, n) % 2 == 1] + Msb(v, n)
  {
    if n == 0 {
      assert Msb(v, 1) == Msb(v / 2, 0) + [v % 2 == 1];
    } else {
      MsbLeading(v / 2, n - 1);
    }
  }

  /** Reading n more bits than the first k: the integer splits at bit k. */
  lemma {:induction false} LsbSplit(low: nat, high: nat, k: nat, n: nat)
    requires low < Pow2(k)
    ensures Lsb(low + Shl(high, k), k + n) == Lsb(low, k) + Lsb(high, n)
  {
    if k > 0 {
      assert (low + Shl(high, k)) / 2 == low / 2 + Shl(high, k - 1);
      LsbSplit(low / 2, high, k - 1, n);
    }
  }

  /** Bitwise or of two naturals. */
  function Or(a: nat, b: nat): nat
  {
    if a == 0 then b
    else if b == 0 then a
    else 2 * Or(a / 2, b / 2) + (if a % 2 == 1 || b % 2 == 1 then 1 else 0)
  }

  /** Or-ing in bits above the ones already present is addition. */
  lemma {:induction false} OrDisjoint(low: nat, high: nat, k: nat)
    requires low < Pow2(k)
    ensures Or(low, Shl(high, k)) == low + Shl(high, k)
  {
    if low != 0 && Shl(high, k) != 0 {
      OrDisjoint(low / 2, high, k - 1);
    }
  }

  /** The bits of a byte string in transmission order: bytes in order, low bit of each byte first. */
  function BytesBits(s: seq<byte>): (r: seq<bool>)
    ensures |r| == 8 * |s|
  {
    if s == [] then [] else ByteBits(s[0]) + BytesBits(s[1..])
  }

  function ByteBits(b: byte): (r: seq<bool>)
    ensures |r| == 8
  {
    Lsb(b, 8)
  }

  lemma {:induction false} BytesBitsAppend(a: seq<byte>, b: seq<byte>)
    ensures BytesBits(a + b) == BytesBits(a) + BytesBits(b)
  {
    if a == [] {
      assert a + b == b;
    } else {
      BytesBitsAppend(a[1..], b);
      assert (a + b)[1..] == a[1..] + b;
    }
  }

  /** stbiw__zlib_bitrev: sends the bits of a code through an LSB-first writer in MSB-first order. */
  method BitRev(code: nat, codebits: nat) returns (res: nat)
    ensures Lsb(res, codebits) == Msb(code, codebits)
    ensures res < Pow2(codebits)
  {
    res := 0;
    var c, left := code, codebits;
    while left > 0
      invariant 0 <= left <= codebits
      invariant c == Shr(code, codebits - left)
      invariant Lsb(res, codebits - left) == Msb(code, codebits - left)
      invariant res < Pow2(codebits - left)
    {
      RevStep(code, res, codebits - left);
      left := left - 1;
      res := 2 * res + c % 2;
      c := c / 2;
    }
  }

  lemma RevStep(code: nat, res: nat, k: nat)
    requires Lsb(res, k) == Msb(code, k) && res < Pow2(k)
    ensures Shr(code, k) / 2 == Shr(code, k + 1)
    ensures var next := 2 * res + Shr(code, k) % 2;
            next < Pow2(k + 1) && Lsb(next, k + 1) == Msb(code, k + 1)
  {
    ShrNext(code, k);
    MsbLeading(code, k);
  }

  lemma EightShifts(v: nat, c: nat)
    ensures Shl(v, c + 8) == 256 * Shl(v, c) && Pow2(c + 8) == 256 * Pow2(c)
  {
    assert Shl(v, c + 4) == 2 * (2 * Shl(v, c + 2)) == 16 * Shl(v, c);
    assert Shl(v, c + 8) == 2 * (2 * Shl(v, c + 6)) == 16 * Shl(v, c + 4);
    assert Pow2(c + 4) == 2 * (2 * Pow2(c + 2)) == 16 * Pow2(c);
    assert Pow2(c + 8) == 2 * (2 * Pow2(c + 6)) == 16 * Pow2(c + 4);
  }

  /** The low byte of an accumulator and what lies above it. */
  lemma LowByte(buf: nat, count: nat)
    requires count >= 8 && buf < Pow2(count)
    ensures buf / 256 < Pow2(count - 8)
    ensures Lsb(buf, count) == ByteBits(buf % 256) + Lsb(buf / 256, count - 8)
  {
    EightShifts(buf / 256, 0);
    EightShifts(buf / 256, count - 8);
    LsbSplit(buf % 256, buf / 256, 8, count - 8);
  }

  /** Or-ing a shifted code into the accumulator appends its bits to the stream. */
  lemma OrShifted(out: seq<byte>, buf: nat, code: nat, count: nat, codebits: nat)
    requires buf < Pow2(count) && code < Pow2(codebits)
    ensures var next := Or(buf, Shl(code, count));
            next < Pow2(count + codebits)
            && BytesBits(out) + Lsb(next, count + codebits) == BytesBits(out) + Lsb(buf, count) + Lsb(code, codebits)
  {
    OrDisjoint(buf, code, count);
    LsbSplit(buf, code, count, codebits);
    ShlBound(code, codebits, count);
    assert codebits + count == count + codebits;
    assert BytesBits(out) + (Lsb(buf, count) + Lsb(code, codebits)) == BytesBits(out) + Lsb(buf, count) + Lsb(code, codebits);
  }

  /** One round of stbiw__zlib_flushf moves the low byte of the accumulator to the output. */
  lemma FlushByte(out: seq<byte>, buf: nat, count: nat)
    requires count >= 8 && buf < Pow2(count)
    ensures buf / 256 < Pow2(count - 8)
    ensures BytesBits(out + [buf % 256]) + Lsb(buf / 256, count - 8) == BytesBits(out) + Lsb(buf, count)
  {
    LowByte(buf, count);
    PushByte(out, buf % 256);
    assert (BytesBits(out) + ByteBits(buf % 256)) + Lsb(buf / 256, count - 8)
        == BytesBits(out) + (ByteBits(buf % 256) + Lsb(buf / 256, count - 8));
  }

  lemma PushByte(out: seq<byte>, b: byte)
    ensures BytesBits(out + [b]) == BytesBits(out) + ByteBits(b)
  {
    BytesBitsAppend(out, [b]);
    assert BytesBits([b]) == ByteBits(b) + BytesBits([]);
  }

  /** The output buffer with its bit accumulator: `out`, `bitbuf` and `bitcount`. */
  class BitWriter {
    var out: seq<byte>
    var bitbuf: nat
    var bitcount: nat

    ghost predicate Valid()
      reads this
    {
      bitcount < 8 && bitbuf < Pow2(bitcount)
    }

    /** Everything written so far, as the reader of the stream will see it. */
    ghost function Stream(): (s: seq<bool>)
      reads this
    {
      BytesBits(out) + Lsb(bitbuf, bitcount)
    }

    constructor ()
      ensures Valid() && out == [] && bitcount == 0 && Stream() == []
    {
      out, bitbuf, bitcount := [], 0, 0;
    }

    /** stbiw__sbpush on a byte boundary. */
    method Push(b: byte)
      requires Valid() && bitcount == 0
      modifies this
      ensures Valid() && bitcount == 0
      ensures out == old(out) + [b]
      ensures Stream() == old(Stream()) + ByteBits(b)
    {
      PushByte(out, b);
      out := out + [b];
    }

    /** stbiw__zlib_add followed by stbiw__zlib_flushf. The code fits the 32-bit accumulator. */
    method Add(code: nat, codebits: nat)
      requires Valid() && codebits <= 24 && code < Pow2(codebits)
      modifies this
      ensures Valid()
      ensures Stream() == old(Stream()) + Lsb(code, codebits)
      ensures old(out) <= out
      ensures bitcount == (old(bitcount) + codebits) % 8
      ensures |out| == |old(out)| + (old(bitcount) + codebits) / 8
    {
      OrShifted(out, bitbuf, code, bitcount, codebits);
      bitbuf := Or(bitbuf, Shl(code, bitcount));
      bitcount := bitcount + codebits;
      Flush();
    }

    /** stbiw__zlib_flushf: whole bytes leave the accumulator. */
    method Flush()
      requires bitbuf < Pow2(bitcount)
      modifies this
      ensures Valid() && Stream() == old(Stream())
      ensures old(out) <= out && |out| == |old(out)| + old(bitcount) / 8
      ensures bitcount == old(bitcount) % 8
    {
      while bitcount >= 8
        invariant bitbuf < Pow2(bitcount) && Stream() == old(Stream())
        invariant bitcount <= old(bitcount) && (old(bitcount) - bitcount) % 8 == 0
        invariant old(out) <= out && |out| == |old(out)| + (old(bitcount) - bitcount) / 8
      {
        FlushByte(out, bitbuf, bitcount);
        out := out + [bitbuf % 256];
        bitbuf := bitbuf / 256;
        bitcount := bitcount - 8;
      }
    }

    /** stbiw__zlib_huffa: a Huffman code, most significant bit first. */
    method AddCode(code: nat, codebits: nat)
      requires Valid() && codebits <= 24
      modifies this
      ensures Valid()
      ensures Stream() == old(Stream()) + Msb(code, codebits)
      ensures old(out) <= out
    {
      var r := BitRev(code, codebits);
      Add(r, codebits);
    }

    /** Zero bits up to the next byte boundary. */
    method Pad() returns (ghost zeros: seq<bool>)
      requires Valid()
      modifies this
      ensures Valid() && bitcount == 0
      ensures old(out) <= out
      ensures |zeros| < 8 && BytesBits(out) == old(Stream()) + zeros
    {
      zeros := [];
      while bitcount != 0
        invariant Valid() && old(out) <= out
        invariant Stream() == old(Stream()) + zeros
        invariant |zeros| + (if bitcount == 0 then 0 else 8 - bitcount) < 8
        decreases (8 - bitcount) % 8
      {
        Add(0, 1);
        zeros := zeros + Lsb(0, 1);
      }
    }
  }
}
