/** The reader's side of section 3.2 of RFC 1951 (stored blocks and fixed Huffman codes) and of RFC 1950. */
module Inflate {
  import opened Bits
  import opened Adler

  /** An n-bit integer, least significant bit first. */
  function TakeInt(s: seq<bool>, n: nat): Option<(nat, seq<bool>)> {
    if |s| < n then None else Some((FromLsb(s[..n]), s[n..]))
  }

  /** The fixed literal/length code of section 3.2.6: 7-, 8- and 9-bit codes, most significant bit first. */
  function TakeSymbol(s: seq<bool>): (r: Option<(nat, seq<bool>)>)
    ensures r.Some? ==> |r.value.1| < |s| && r.value.0 < 288
  {
    if |s| < 7 then None else
    var v7 := FromMsb(s[..7]);
    if v7 < 24 then Some((256 + v7, s[7..])) else
    if |s| < 8 then None else
    var v8 := FromMsb(s[..8]);
    if 48 <= v8 < 192 then Some((v8 - 48, s[8..]))
    else if 192 <= v8 < 200 then Some((280 + (v8 - 192), s[8..])) else
    if |s| < 9 then None else
    var v9 := FromMsb(s[..9]);
    if 400 <= v9 < 512 then Some((144 + (v9 - 400), s[9..])) else None
  }

  /**
   * Base lengths and extra bits of the symbols 257 + j (section 3.2.5): each class starts where the
   * one before it ends, and the last symbol is the length 258 on its own.
   */
  function LengthExtra(j: nat): nat {
    if j < 8 || j == 28 then 0 else (j - 4) / 4
  }

  function LengthBase(j: nat): (b: nat)
    ensures b >= 3
  {
    if j == 0 then 3 else if j == 28 then 258 else LengthBase(j - 1) + Pow2(LengthExtra(j - 1))
  }

  /** Base distances and extra bits of the distance codes (section 3.2.5). */
  function DistExtra(j: nat): nat {
    if j < 2 then 0 else (j - 2) / 2
  }

  function DistBase(j: nat): (b: nat)
    ensures b >= 1
  {
    if j == 0 then 1 else DistBase(j - 1) + Pow2(DistExtra(j - 1))
  }

  /** A base value plus an integer of `extra` bits. */
  function TakeField(base: nat, extra: nat, s: seq<bool>): (r: Option<(nat, seq<bool>)>)
    ensures r.Some? ==> |r.value.1| <= |s| && base <= r.value.0
  {
    match TakeInt(s, extra)
    case None => None
    case Some((x, rest)) => Some((base + x, rest))
  }

  /** Length of a match after its symbol: the base plus the extra bits. */
  function TakeLength(sym: nat, s: seq<bool>): (r: Option<(nat, seq<bool>)>)
    requires 257 <= sym
    ensures r.Some? ==> |r.value.1| <= |s| && 3 <= r.value.0
  {
    if sym > 285 then None else TakeField(LengthBase(sym - 257), LengthExtra(sym - 257), s)
  }

  /** A distance: five-bit fixed code, most significant bit first, then the extra bits. */
  function TakeDistance(s: seq<bool>): (r: Option<(nat, seq<bool>)>)
    ensures r.Some? ==> |r.value.1| <= |s|
  {
    if |s| < 5 then None else
    var code := FromMsb(s[..5]);
    if code > 29 then None else TakeField(DistBase(code), DistExtra(code), s[5..])
  }

  /** Copies `len` bytes from `dist` back, one at a time, so that a copy may overlap itself. */
  function CopyBack(acc: seq<byte>, dist: nat, len: nat): (r: seq<byte>)
    requires 1 <= dist <= |acc|
    ensures |r| == |acc| + len && acc <= r
    decreases len
  {
    if len == 0 then acc else CopyBack(acc + [acc[|acc| - dist]], dist, len - 1)
  }

  /**
   * The body of a fixed-Huffman block, after output `acc`: the new output and the unread bits.
   * A match may reach back at most `window` bytes.
   */
  function InflateSymbols(s: seq<bool>, acc: seq<byte>, window: nat): (r: Option<(seq<byte>, seq<bool>)>)
    ensures r.Some? ==> |r.value.1| < |s|
    decreases |s|
  {
    match TakeSymbol(s)
    case None => None
    case Some((sym, rest)) =>
      if sym < 256 then InflateSymbols(rest, acc + [sym], window)
      else if sym == 256 then Some((acc, rest))
      else match TakeLength(sym, rest)
        case None => None
        case Some((len, rest1)) =>
          match TakeDistance(rest1)
          case None => None
          case Some((dist, rest2)) =>
            if 1 <= dist <= |acc| && dist <= window then InflateSymbols(rest2, CopyBack(acc, dist, len), window)
            else None
  }

  /** The payload bytes of a stored block. */
  function TakeBytes(s: seq<bool>, n: nat): (r: seq<byte>)
    requires 8 * n <= |s|
    ensures |r| == n
  {
    if n == 0 then [] else [FromLsb(s[..8]) % 256] + TakeBytes(s[8..], n - 1)
  }

  /**
   * A sequence of blocks up to and including the final one. The whole stream is a whole number of
   * bytes, so the bits skipped before a stored block are |s| modulo 8.
   */
  function InflateBlocks(s: seq<bool>, acc: seq<byte>, window: nat): (r: Option<(seq<byte>, seq<bool>)>)
    ensures r.Some? ==> |r.value.1| < |s|
    decreases |s|
  {
    if |s| < 3 then None else
    var final, kind, body := s[0], FromLsb(s[1..3]), s[3..];
    var block :=
      if kind == 0 then StoredBlock(body[|body| % 8..], acc)
      else if kind == 1 then InflateSymbols(body, acc, window)
      else None;
    match block
    case None => None
    case Some((out, rest)) => if final then block else InflateBlocks(rest, out, window)
  }

  function StoredBlock(s: seq<bool>, acc: seq<byte>): (r: Option<(seq<byte>, seq<bool>)>)
    ensures r.Some? ==> |r.value.1| <= |s|
  {
    if |s| < 32 then None else
    var len, nlen := FromLsb(s[..16]), FromLsb(s[16..32]);
    if len + nlen != 65535 || |s| < 32 + 8 * len then None
    else Some((acc + TakeBytes(s[32..], len), s[32 + 8 * len..]))
  }

  /** A stream that decodes with a small window decodes to the same bytes with a larger one. */
  lemma {:induction false} SymbolsWindow(s: seq<bool>, acc: seq<byte>, small: nat, large: nat)
    requires small <= large && InflateSymbols(s, acc, small).Some?
    ensures InflateSymbols(s, acc, large) == InflateSymbols(s, acc, small)
    decreases |s|
  {
    var (sym, rest) := TakeSymbol(s).value;
    if sym < 256 {
      SymbolsWindow(rest, acc + [sym], small, large);
    } else if sym > 256 {
      var (len, rest1) := TakeLength(sym, rest).value;
      var (dist, rest2) := TakeDistance(rest1).value;
      SymbolsWindow(rest2, CopyBack(acc, dist, len), small, large);
    }
  }

  lemma {:induction false} BlocksWindow(s: seq<bool>, acc: seq<byte>, small: nat, large: nat)
    requires small <= large && InflateBlocks(s, acc, small).Some?
    ensures InflateBlocks(s, acc, large) == InflateBlocks(s, acc, small)
    decreases |s|
  {
    var final, kind, body := s[0], FromLsb(s[1..3]), s[3..];
    if kind == 1 {
      SymbolsWindow(body, acc, small, large);
    }
    var block := if kind == 0 then StoredBlock(body[|body| % 8..], acc) else InflateSymbols(body, acc, small);
    if !final {
      BlocksWindow(block.value.1, block.value.0, small, large);
    }
  }

  /**
   * RFC 1950: two header bytes, deflate blocks, padding to a byte, and a big-endian Adler-32.
   * The window may be smaller than the one the header announces.
   */
  function ZlibDecode(z: seq<byte>, window: nat): Option<seq<byte>> {
    if |z| < 2 || !HeaderOk(z[0], z[1], window) then None else
    match InflateBlocks(BytesBits(z[2..]), [], window)
    case None => None
    case Some((data, rest)) =>
      if |rest| / 8 != 4 || |z| < 6 then None else
      if BigEndian(z[|z| - 4..]) == Checksum(data) then Some(data) else None
  }

  /** CM = 8, CINFO at most 7, a window within the announced one, FCHECK, and no preset dictionary. */
  predicate HeaderOk(cmf: byte, flg: byte, window: nat) {
    && cmf % 16 == 8
    && cmf / 16 <= 7
    && window <= Pow2(cmf / 16 + 8)
    && (256 * (cmf as int) + flg) % 31 == 0
    && flg / 32 % 2 == 0
  }

  function BigEndian(s: seq<byte>): nat {
    if s == [] then 0 else 256 * BigEndian(s[..|s| - 1]) + s[|s| - 1]
  }
}
