/** stbi_zlib_compress as a whole: fixed-Huffman body, stored fallback, checksum trailer. */
module Zlib {
  import opened Bits
  import opened Adler
  import opened Inflate
  import opened Deflate

  /** Chains hold positions that have already been passed. */
  ghost predicate ChainsBefore(table: seq<seq<nat>>, i: nat) {
    forall h, p :: 0 <= h < |table| && p in table[h] ==> p < i
  }

  /** A full chain loses its older half. */
  function Trimmed(chain: seq<nat>, quality: nat): seq<nat> {
    if |chain| == 2 * quality then chain[quality..] else chain
  }

  /** The table after position i was looked up: its chain trimmed and extended. */
  function Visited(table: seq<seq<nat>>, data: seq<byte>, i: nat, quality: nat): seq<seq<nat>>
    requires |table| == HASH_SLOTS && i + 3 <= |data|
  {
    table[Slot(data, i) := Trimmed(table[Slot(data, i)], quality) + [i]]
  }

  /** The best earlier occurrence that the chain of position i holds, and its length. */
  ghost function Looked(table: seq<seq<nat>>, data: seq<byte>, i: nat): (nat, Option<nat>)
    requires |table| == HASH_SLOTS && i + 3 <= |data| && ChainsBefore(table, i)
  {
    var chain := table[Slot(data, i)];
    BestOf(data, i, chain, |chain|)
  }

  /** Looks up, trims and extends the chain of position i. */
  method VisitChain(table: array<seq<nat>>, data: seq<byte>, i: nat, quality: nat)
    returns (best: nat, bestloc: Option<nat>)
    requires table.Length == HASH_SLOTS && i + 3 < |data| && quality >= 5
    requires ChainsBefore(table[..], i)
    modifies table
    ensures ChainsBefore(table[..], i + 1)
    ensures (best, bestloc) == Looked(old(table[..]), data, i) && table[..] == Visited(old(table[..]), data, i, quality)
    ensures bestloc.Some? ==>
              bestloc.value < i && InWindow(bestloc.value, i) && best == MatchLength(data, bestloc.value, i) && best >= 3
  {
    var h := Slot(data, i);
    var chain := table[h];
    assert forall p :: p in chain ==> p in table[..][h];
    best, bestloc := BestMatch(data, i, chain);
    if |chain| == 2 * quality {
      chain := chain[quality..];
    }
    assert forall p :: p in chain ==> p in table[..][h];
    ChainsUpdate(table[..], i, h, chain + [i]);
    table[h] := chain + [i];
    assert table[..] == old(table[..])[h := chain + [i]];
  }

  lemma ChainsUpdate(table: seq<seq<nat>>, i: nat, h: nat, chain: seq<nat>)
    requires ChainsBefore(table, i) && h < |table|
    requires forall p :: p in chain ==> p <= i
    ensures ChainsBefore(table[h := chain], i + 1)
  {
  }

  lemma ChainsLater(table: seq<seq<nat>>, i: nat, j: nat)
    requires ChainsBefore(table, i) && i <= j
    ensures ChainsBefore(table, j)
  {
  }

  /** Lazy matching: consults the chain of the next position without extending it. */
  method LazyCheck(table: array<seq<nat>>, data: seq<byte>, i: nat, best: nat) returns (better: bool)
    requires table.Length == HASH_SLOTS && i + 3 < |data| && ChainsBefore(table[..], i + 1)
    ensures better <==> SomeLonger(data, table[Slot(data, i + 1)], i + 1, best)
  {
    var chain := table[Slot(data, i + 1)];
    assert forall p :: p in chain ==> p in table[..][Slot(data, i + 1)];
    better := BetterNext(data, i, chain, best);
  }

  /** One round of the main loop: a match, or a literal when there is none or the next byte does better. */
  method CompressStep(w: BitWriter, table: array<seq<nat>>, data: seq<byte>, i: nat, quality: nat)
    returns (next: nat, ghost bits: seq<bool>)
    requires w.Valid() && quality >= 5 && i + 3 < |data|
    requires table.Length == HASH_SLOTS && ChainsBefore(table[..], i)
    modifies w, table
    ensures w.Valid() && old(w.out) <= w.out && w.Stream() == old(w.Stream()) + bits
    ensures i < next <= |data| && ChainsBefore(table[..], i + 1)
    ensures Decodes(bits, data[..i], data[..next], WINDOW)
    ensures table[..] == Visited(old(table[..]), data, i, quality)
    ensures var (best, loc) := Looked(old(table[..]), data, i);
      if loc.Some? && !SomeLonger(data, table[Slot(data, i + 1)], i + 1, best) then next == i + best
      else next == i + 1 && bits == SymbolBits(data[i])
  {
    hide Decodes, Slot, ChainsBefore, SymbolBits, MatchLength, BytesBits, Lsb, Looked, Visited, SomeLonger;
    var best, bestloc := VisitChain(table, data, i, quality);
    if bestloc.Some? {
      var better := LazyCheck(table, data, i, best);
      if better {
        bestloc := None;
      }
    }
    if bestloc.Some? {
      bits := EmitMatch(w, best, i - bestloc.value, data[..i]);
      MatchExtends(data, bestloc.value, i);
      next := i + best;
    } else {
      bits := SymbolBits(data[i]);
      Huff(w, data[i]);
      LiteralExtends(data, i);
      next := i + 1;
    }
  }

  /** The loop over the data up to its last three bytes, then the remaining literals. */
  method CompressBody(w: BitWriter, data: seq<byte>, quality: nat) returns (ghost body: seq<bool>)
    requires w.Valid() && quality >= 5
    modifies w
    ensures w.Valid() && old(w.out) <= w.out
    ensures w.Stream() == old(w.Stream()) + body
    ensures Decodes(body, [], data, WINDOW)
  {
    hide Decodes, BytesBits, Lsb;
    var table := new seq<nat>[HASH_SLOTS](_ => []);
    assert ChainsBefore(table[..], 0);
    var i := 0;
    body := [];
    DecodesNothing([], WINDOW);
    assert data[..0] == [];
    while i < |data| - 3
      invariant 0 <= i <= |data| && w.Valid() && old(w.out) <= w.out
      invariant table.Length == HASH_SLOTS && ChainsBefore(table[..], i)
      invariant w.Stream() == old(w.Stream()) + body && Decodes(body, [], data[..i], WINDOW)
    {
      i, body := CompressNext(w, table, data, i, quality, old(w.Stream()), body);
    }
    ghost var rest := CompressTail(w, data, i);
    DecodesCompose(body, rest, [], data[..i], data, WINDOW);
    body := body + rest;
  }

  /** CompressStep, with its bits added to those written before. */
  method CompressNext(w: BitWriter, table: array<seq<nat>>, data: seq<byte>, i: nat, quality: nat,
                      ghost before: seq<bool>, ghost body: seq<bool>)
    returns (next: nat, ghost body': seq<bool>)
    requires w.Valid() && quality >= 5 && i + 3 < |data|
    requires table.Length == HASH_SLOTS && ChainsBefore(table[..], i)
    requires w.Stream() == before + body && Decodes(body, [], data[..i], WINDOW)
    modifies w, table
    ensures w.Valid() && old(w.out) <= w.out
    ensures w.Stream() == before + body'
    ensures i < next <= |data| && ChainsBefore(table[..], next)
    ensures Decodes(body', [], data[..next], WINDOW)
  {
    hide *;
    ghost var bits;
    next, bits := CompressStep(w, table, data, i, quality);
    ChainsLater(table[..], i + 1, next);
    DecodesCompose(body, bits, [], data[..i], data[..next], WINDOW);
    body' := body + bits;
    assert before + body + bits == before + body';
  }

  /** The last bytes go out as literals. */
  method CompressTail(w: BitWriter, data: seq<byte>, start: nat) returns (ghost bits: seq<bool>)
    requires w.Valid() && start <= |data|
    modifies w
    ensures w.Valid() && old(w.out) <= w.out && w.Stream() == old(w.Stream()) + bits
    ensures Decodes(bits, data[..start], data, WINDOW)
  {
    hide Decodes, SymbolBits, BytesBits, Lsb;
    var i := start;
    bits := [];
    DecodesNothing(data[..i], WINDOW);
    while i < |data|
      invariant start <= i <= |data| && w.Valid() && old(w.out) <= w.out
      invariant w.Stream() == old(w.Stream()) + bits && Decodes(bits, data[..start], data[..i], WINDOW)
    {
      LiteralExtends(data, i);
      DecodesCompose(bits, SymbolBits(data[i]), data[..start], data[..i], data[..i + 1], WINDOW);
      bits := bits + SymbolBits(data[i]);
      Huff(w, data[i]);
      i := i + 1;
    }
    assert data[..i] == data;
  }

  lemma LiteralExtends(data: seq<byte>, i: nat)
    requires i < |data|
    ensures Decodes(SymbolBits(data[i]), data[..i], data[..i + 1], WINDOW)
  {
    DecodesLiteral(data[i], data[..i], WINDOW);
    assert data[..i] + [data[i]] == data[..i + 1];
  }

  lemma MatchExtends(data: seq<byte>, loc: nat, i: nat)
    requires loc < i <= |data|
    ensures CopyBack(data[..i], i - loc, MatchLength(data, loc, i)) == data[..i + MatchLength(data, loc, i)]
  {
    CommonRepeats(data, loc, i, Min(|data| - i, MAX_MATCH));
    CopyBackRepeats(data, i, i - loc, MatchLength(data, loc, i));
  }

  // --- The two kinds of stream -----------------------------------------------------------

  /** A final fixed-Huffman block holding `body`, up to its end-of-block symbol. */
  function FixedBlock(body: seq<bool>): seq<bool> {
    Lsb(1, 1) + Lsb(1, 2) + body + SymbolBits(256)
  }

  lemma FixedBlockLength(body: seq<bool>)
    ensures |FixedBlock(body)| == 10 + |body|
  {
  }

  lemma BlockHeaderBits()
    ensures Lsb(1, 1) == [true] && Lsb(1, 2) == [true, false] && FromLsb([true, false]) == 1
  {
    assert Lsb(0, 1) == [false];
    assert FromLsb([false]) == 0;
    assert [true, false][1..] == [false];
  }

  lemma FixedBodyDecodes(body: seq<bool>, data: seq<byte>, tail: seq<bool>)
    requires Decodes(body, [], data, WINDOW)
    ensures InflateSymbols(body + (SymbolBits(256) + tail), [], WINDOW) == Some((data, tail))
  {
    SymbolRoundTrip(256, tail);
  }

  lemma FixedBlockDecodes(body: seq<bool>, data: seq<byte>, tail: seq<bool>)
    requires Decodes(body, [], data, WINDOW)
    ensures InflateBlocks(FixedBlock(body) + tail, [], WINDOW) == Some((data, tail))
  {
    hide Decodes, SymbolBits, InflateSymbols;
    var s := FixedBlock(body) + tail;
    BlockHeaderBits();
    FixedBodyDecodes(body, data, tail);
    var rest := body + (SymbolBits(256) + tail);
    assert s == [true] + ([true, false] + rest);
    assert s[1..3] == [true, false] && s[3..] == rest;
  }

  /** The fixed-Huffman stream, padded to a byte, after the two header bytes. */
  method CompressFixed(data: seq<byte>, quality: int) returns (out: seq<byte>, ghost body: seq<bool>, ghost zeros: seq<bool>)
    ensures |out| >= 4 && out[..2] == [0x78, 0x5e]
    ensures Decodes(body, [], data, WINDOW) && |zeros| < 8
    ensures BytesBits(out[2..]) == FixedBlock(body) + zeros
  {
    hide Decodes, SymbolBits, Lsb, Pow2;
    var w := new BitWriter();
    w.Push(0x78);
    w.Push(0x5e);
    assert w.out == [0x78, 0x5e];
    ghost var header := w.Stream();
    OneBit();
    w.Add(1, 1);
    w.Add(1, 2);
    body := CompressBody(w, data, if quality < 5 then 5 else quality);
    Huff(w, 256);
    ghost var block := w.Stream();
    assert block == header + FixedBlock(body);
    zeros := w.Pad();
    out := w.out;
    FixedBlockLength(body);
    SplitHeader(out, header, FixedBlock(body) + zeros);
  }

  lemma OneBit()
    ensures Pow2(1) == 2 && Pow2(2) == 4
  {
  }

  /** Dropping the two header bytes drops their bits. */
  lemma SplitHeader(out: seq<byte>, header: seq<bool>, rest: seq<bool>)
    requires [0x78, 0x5e] <= out && header == BytesBits([0x78, 0x5e]) && BytesBits(out) == header + rest
    ensures BytesBits(out[2..]) == rest && 8 * |out| == 16 + |rest|
  {
    assert out == [0x78, 0x5e] + out[2..];
    BytesBitsAppend([0x78, 0x5e], out[2..]);
    assert (header + BytesBits(out[2..]))[16..] == BytesBits(out[2..]);
    assert (header + rest)[16..] == rest;
  }

  /** A stored block: final flag, LEN, NLEN and the bytes themselves. */
  function StoredBytes(data: seq<byte>, j: nat): (s: seq<byte>)
    requires j <= |data|
    decreases |data| - j
  {
    if j == |data| then [] else
    var n := Min(|data| - j, 32767);
    StoredHeader(n, j + n == |data|) + data[j..j + n] + StoredBytes(data, j + n)
  }

  function StoredHeader(n: nat, final: bool): (s: seq<byte>)
    requires n <= 32767
    ensures |s| == 5
  {
    [if final then 1 else 0, n % 256, n / 256, 255 - n % 256, 255 - n / 256]
  }

  function StoredSize(n: nat): nat {
    n + 5 * ((n + 32766) / 32767)
  }

  lemma {:induction false} StoredLength(data: seq<byte>, j: nat)
    requires j <= |data|
    ensures |StoredBytes(data, j)| == StoredSize(|data| - j)
    decreases |data| - j
  {
    if j < |data| {
      var n := Min(|data| - j, 32767);
      StoredLength(data, j + n);
    }
  }

  /** The fallback loop. The blocks fit in the space of the longer stream that they replace. */
  method CompressStored(data: seq<byte>, header: seq<byte>, ghost capacity: nat) returns (out: seq<byte>)
    requires |header| + StoredSize(|data|) <= capacity
    ensures out == header + StoredBytes(data, 0)
  {
    out := header;
    var j := 0;
    while j < |data|
      invariant 0 <= j <= |data|
      invariant out + StoredBytes(data, j) == header + StoredBytes(data, 0)
    {
      var blocklen := |data| - j;
      if blocklen > 32767 { blocklen := 32767; }
      StoredRoom(data, j, out, header);
      var final := if |data| - j == blocklen then 1 else 0;
      out := out + [final, blocklen % 256, blocklen / 256 % 256, 255 - blocklen % 256, 255 - blocklen / 256 % 256];
      assert |out| + blocklen <= capacity;  // memcpy stays inside the buffer
      out := out + data[j..j + blocklen];
      j := j + blocklen;
    }
  }

  /** The rest of the stored stream: one block, and what is left of the announced size. */
  lemma StoredRoom(data: seq<byte>, j: nat, out: seq<byte>, header: seq<byte>)
    requires j < |data| && out + StoredBytes(data, j) == header + StoredBytes(data, 0)
    ensures var n := Min(|data| - j, 32767);
            && StoredHeader(n, |data| - j == n)
                 == [if |data| - j == n then 1 else 0, n % 256, n / 256 % 256, 255 - n % 256, 255 - n / 256 % 256]
            && out + StoredHeader(n, |data| - j == n) + data[j..j + n] + StoredBytes(data, j + n) == header + StoredBytes(data, 0)
            && |out| + 5 + n <= |header| + StoredSize(|data|)
  {
    var n := Min(|data| - j, 32767);
    StoredLength(data, 0);
    var h := StoredHeader(n, |data| - j == n);
    assert out + h + data[j..j + n] + StoredBytes(data, j + n) == out + (h + data[j..j + n] + StoredBytes(data, j + n));
    assert |out + StoredBytes(data, j)| == |header + StoredBytes(data, 0)|;
  }

  // --- Reading the stored stream -----------------------------------------------------------

  lemma {:induction false} FromLsbAppend(a: seq<bool>, b: seq<bool>)
    ensures FromLsb(a + b) == FromLsb(a) + Shl(FromLsb(b), |a|)
  {
    if a == [] {
      assert a + b == b;
    } else {
      assert (a + b)[1..] == a[1..] + b;
      FromLsbAppend(a[1..], b);
    }
  }

  lemma ByteValue(b: byte, tail: seq<bool>)
    ensures FromLsb(ByteBits(b)) == b
    ensures (ByteBits(b) + tail)[..8] == ByteBits(b) && (ByteBits(b) + tail)[8..] == tail
  {
    SmallPowers();
    LsbRoundTrip(b, 8);
  }

  lemma WordValue(lo: byte, hi: byte)
    ensures FromLsb(ByteBits(lo) + ByteBits(hi)) == lo + 256 * (hi as int)
  {
    hide ByteBits;
    FromLsbAppend(ByteBits(lo), ByteBits(hi));
    ByteValue(lo, []);
    ByteValue(hi, []);
    EightShifts(hi, 0);
  }

  lemma {:induction false} TakeBytesRoundTrip(payload: seq<byte>, tail: seq<bool>)
    ensures TakeBytes(BytesBits(payload) + tail, |payload|) == payload
  {
    hide ByteBits;
    if payload == [] {
    } else {
      var rest := BytesBits(payload[1..]) + tail;
      assert BytesBits(payload) + tail == ByteBits(payload[0]) + rest;
      ByteValue(payload[0], rest);
      TakeBytesRoundTrip(payload[1..], tail);
    }
  }

  /** The first byte of a stored block: the final flag and seven zero bits. */
  lemma FlagByte(final: bool)
    ensures ByteBits(if final then 1 else 0) == [final, false, false, false, false, false, false, false]
    ensures FromLsb([false, false]) == 0
  {
    assert Lsb(0, 3) == [false, false, false];
    assert Lsb(0, 7) == [false] + ([false] + ([false] + ([false] + Lsb(0, 3))));
    assert [false, false][1..] == [false];
    assert FromLsb([false]) == 0;
  }

  /** LEN and NLEN as bits. */
  function LengthFields(n: nat): (s: seq<bool>)
    requires n <= 32767
    ensures |s| == 32
  {
    (ByteBits(n % 256) + ByteBits(n / 256)) + (ByteBits(255 - n % 256) + ByteBits(255 - n / 256))
  }

  lemma FiveBytes(a: byte, b: byte, c: byte, d: byte, e: byte)
    ensures BytesBits([a, b, c, d, e]) == ByteBits(a) + ((ByteBits(b) + ByteBits(c)) + (ByteBits(d) + ByteBits(e)))
  {
    hide ByteBits, BytesBits;
    PushByte([], a);
    PushByte([a], b);
    PushByte([a, b], c);
    PushByte([a, b, c], d);
    PushByte([a, b, c, d], e);
    assert [] + [a] == [a] && [a] + [b] == [a, b] && [a, b] + [c] == [a, b, c] && [a, b, c] + [d] == [a, b, c, d];
    assert [a, b, c, d] + [e] == [a, b, c, d, e];
    assert BytesBits([]) == [];
  }

  lemma LengthFieldValues(n: nat, rest: seq<bool>)
    requires n <= 32767
    ensures FromLsb((LengthFields(n) + rest)[..16]) == n && FromLsb((LengthFields(n) + rest)[16..32]) == 65535 - n
    ensures (LengthFields(n) + rest)[32..] == rest
  {
    hide ByteBits;
    WordValue(n % 256, n / 256);
    WordValue(255 - n % 256, 255 - n / 256);
    assert (LengthFields(n) + rest)[..16] == ByteBits(n % 256) + ByteBits(n / 256);
    assert (LengthFields(n) + rest)[16..32] == ByteBits(255 - n % 256) + ByteBits(255 - n / 256);
  }

  /** The length fields and payload of one stored block. */
  lemma StoredPayload(payload: seq<byte>, acc: seq<byte>, tail: seq<bool>)
    requires |payload| <= 32767
    ensures StoredBlock(LengthFields(|payload|) + (BytesBits(payload) + tail), acc) == Some((acc + payload, tail))
  {
    hide LengthFields, BytesBits, FromLsb, TakeBytes, StoredBlock;
    var n, rest := |payload|, BytesBits(payload) + tail;
    LengthFieldValues(n, rest);
    StoredBlockValue(LengthFields(n) + rest, n, acc);
    TakeBytesRoundTrip(payload, tail);
    DropBoth(LengthFields(n), BytesBits(payload), tail);
  }

  lemma StoredBlockValue(s: seq<bool>, n: nat, acc: seq<byte>)
    requires n <= 65535 && |s| >= 32 + 8 * n && FromLsb(s[..16]) == n && FromLsb(s[16..32]) == 65535 - n
    ensures StoredBlock(s, acc) == Some((acc + TakeBytes(s[32..], n), s[32 + 8 * n..]))
  {
    hide FromLsb, TakeBytes;
  }

  lemma DropBoth(a: seq<bool>, b: seq<bool>, c: seq<bool>)
    ensures (a + (b + c))[|a| + |b|..] == c
  {
  }

  /** One stored block in front of a whole number of bytes. */
  lemma HeaderBits(n: nat, final: bool)
    requires n <= 32767
    ensures BytesBits(StoredHeader(n, final)) == ByteBits(if final then 1 else 0) + LengthFields(n)
  {
    hide ByteBits, BytesBits;
    FiveBytes(if final then 1 else 0, n % 256, n / 256, 255 - n % 256, 255 - n / 256);
  }

  lemma Regrouped(a: seq<bool>, b: seq<bool>, c: seq<bool>, d: seq<bool>)
    ensures (a + b) + c + d == a + (b + (c + d))
  {
  }

  /** The bits of a stored block: the flags, the length and its complement, the bytes. */
  lemma StoredBits(payload: seq<byte>, final: bool, tail: seq<bool>)
    requires |payload| <= 32767
    ensures BytesBits(StoredHeader(|payload|, final) + payload) + tail
         == ByteBits(if final then 1 else 0) + (LengthFields(|payload|) + (BytesBits(payload) + tail))
  {
    hide ByteBits, BytesBits, StoredHeader, LengthFields;
    var flag := ByteBits(if final then 1 else 0);
    HeaderBits(|payload|, final);
    BytesBitsAppend(StoredHeader(|payload|, final), payload);
    Regrouped(flag, LengthFields(|payload|), BytesBits(payload), tail);
  }

  /** A block whose flag byte says stored. */
  lemma FlaggedBlock(s: seq<bool>, final: bool, rest: seq<bool>, acc: seq<byte>)
    requires s == ByteBits(if final then 1 else 0) + rest && |rest| % 8 == 0
    ensures InflateBlocks(s, acc, WINDOW) == match StoredBlock(rest, acc)
      case None => None
      case Some((out, tail)) => if final then Some((out, tail)) else InflateBlocks(tail, out, WINDOW)
  {
    hide StoredBlock, ByteBits, InflateSymbols;
    FlagByte(final);
    assert s[1..3] == [false, false];
    assert s[3..][5..] == rest;
  }

  lemma StoredBlockDecodes(payload: seq<byte>, final: bool, acc: seq<byte>, tail: seq<bool>)
    requires |payload| <= 32767 && |tail| % 8 == 0
    ensures InflateBlocks(BytesBits(StoredHeader(|payload|, final) + payload) + tail, acc, WINDOW)
         == if final then Some((acc + payload, tail)) else InflateBlocks(tail, acc + payload, WINDOW)
  {
    hide StoredBlock, ByteBits, BytesBits, StoredHeader, LengthFields, InflateBlocks;
    var rest := LengthFields(|payload|) + (BytesBits(payload) + tail);
    StoredBits(payload, final, tail);
    StoredPayload(payload, acc, tail);
    FlaggedBlock(BytesBits(StoredHeader(|payload|, final) + payload) + tail, final, rest, acc);
  }

  lemma {:induction false} StoredDecodes(data: seq<byte>, j: nat, tail: seq<bool>)
    requires j < |data| && |tail| % 8 == 0
    ensures InflateBlocks(BytesBits(StoredBytes(data, j)) + tail, data[..j], WINDOW) == Some((data, tail))
    decreases |data| - j
  {
    hide StoredHeader, InflateBlocks, ByteBits, BytesBits;
    var n := Min(|data| - j, 32767);
    var payload, later := data[j..j + n], StoredBytes(data, j + n);
    var rest := BytesBits(later) + tail;
    var final := j + n == |data|;
    BytesBitsAppend(StoredHeader(n, final) + payload, later);
    assert BytesBits(StoredBytes(data, j)) + tail == BytesBits(StoredHeader(n, final) + payload) + rest;
    StoredBlockDecodes(payload, final, data[..j], rest);
    assert data[..j] + payload == data[..j + n];
    if final {
      assert BytesBits([]) == [];
      assert rest == tail;
      assert data[..j + n] == data;
    } else {
      StoredDecodes(data, j + n, tail);
    }
  }

  // --- The trailer and the whole stream -----------------------------------------------------

  /** The four big-endian bytes of the checksum. */
  function Trailer(s1: nat, s2: nat): (t: seq<byte>)
    requires s1 < BASE && s2 < BASE
    ensures |t| == 4
  {
    [s2 / 256 % 256, s2 % 256, s1 / 256 % 256, s1 % 256]
  }

  lemma TrailerValue(s1: nat, s2: nat)
    requires s1 < BASE && s2 < BASE
    ensures BigEndian(Trailer(s1, s2)) == 65536 * s2 + s1
  {
    var t := Trailer(s1, s2);
    assert t[..3] == [s2 / 256 % 256, s2 % 256, s1 / 256 % 256];
    assert t[..3][..2] == [s2 / 256 % 256, s2 % 256];
    assert t[..3][..2][..1] == [s2 / 256 % 256];
    assert BigEndian(t[..3][..2][..1]) == s2 / 256;
    assert BigEndian(t[..3][..2]) == s2;
  }

  /** Blocks that inflate to `data`, up to a partial byte, and its checksum: a zlib stream of `data`. */
  lemma StreamDecodes(blocks: seq<byte>, data: seq<byte>, zeros: seq<bool>)
    requires |zeros| < 8
    requires var t := Trailer(Sums(data).0, Sums(data).1);
             InflateBlocks(BytesBits(blocks) + BytesBits(t), [], WINDOW) == Some((data, zeros + BytesBits(t)))
    ensures ZlibDecode([0x78, 0x5e] + blocks + Trailer(Sums(data).0, Sums(data).1), WINDOW) == Some(data)
  {
    hide Sums, InflateBlocks, BytesBits;
    var t := Trailer(Sums(data).0, Sums(data).1);
    var z := [0x78, 0x5e] + blocks + t;
    assert z[2..] == blocks + t && z[|z| - 4..] == t;
    BytesBitsAppend(blocks, t);
    TrailerValue(Sums(data).0, Sums(data).1);
    HeaderAccepted();
  }

  lemma HeaderAccepted()
    ensures HeaderOk(0x78, 0x5e, WINDOW)
  {
    var seven := 7;
    EightShifts(0, seven);
    SmallPowers();
  }

  /** With no blocks at all, the trailer is read as a block and rejected: the stream of the empty string. */
  lemma EmptyStreamRejected()
    ensures ZlibDecode([0x78, 0x5e] + Trailer(1, 0), WINDOW) == None
  {
    var z := [0x78, 0x5e] + Trailer(1, 0);
    assert z[2..] == Trailer(1, 0);
    var s := BytesBits(z[2..]);
    assert s == ByteBits(0) + BytesBits(z[2..][1..]);
    FlagByte(false);
    assert s[0] == false && s[1..3] == [false, false];
  }

  lemma FixedStream(out: seq<byte>, data: seq<byte>, body: seq<bool>, zeros: seq<bool>)
    requires |out| >= 4 && out[..2] == [0x78, 0x5e] && |zeros| < 8
    requires Decodes(body, [], data, WINDOW) && BytesBits(out[2..]) == FixedBlock(body) + zeros
    ensures ZlibDecode(out + Trailer(Sums(data).0, Sums(data).1), WINDOW) == Some(data)
  {
    hide Sums, InflateBlocks, BytesBits, ZlibDecode, Decodes, FixedBlock, Trailer;
    var t := Trailer(Sums(data).0, Sums(data).1);
    assert out == [0x78, 0x5e] + out[2..];
    FixedBlockDecodes(body, data, zeros + BytesBits(t));
    assert FixedBlock(body) + zeros + BytesBits(t) == FixedBlock(body) + (zeros + BytesBits(t));
    StreamDecodes(out[2..], data, zeros);
  }

  lemma StoredStream(data: seq<byte>)
    requires |data| > 0
    ensures ZlibDecode([0x78, 0x5e] + StoredBytes(data, 0) + Trailer(Sums(data).0, Sums(data).1), WINDOW) == Some(data)
  {
    hide Sums, InflateBlocks, BytesBits, ZlibDecode, StoredBytes, Trailer;
    var t := Trailer(Sums(data).0, Sums(data).1);
    StoredDecodes(data, 0, BytesBits(t));
    assert data[..0] == [] && [] + BytesBits(t) == BytesBits(t);
    StreamDecodes(StoredBytes(data, 0), data, []);
  }

  /**
   * stbi_zlib_compress: the fixed-Huffman stream, or stored blocks when that is longer than they would be.
   * The output is a zlib stream of the data exactly when there is data, also for
   * a reader with a window of 32767 bytes, and exceeds it by 6 bytes and 5 bytes per 32767 at most.
   */
  method Compress(data: seq<byte>, quality: int) returns (z: seq<byte>, ghost fixed: seq<byte>)
    ensures ZlibDecode(fixed + Trailer(Sums(data).0, Sums(data).1), WINDOW) == Some(data)
    ensures z == (if |fixed| > 2 + StoredSize(|data|) then [0x78, 0x5e] + StoredBytes(data, 0) else fixed)
                 + Trailer(Sums(data).0, Sums(data).1)
    ensures ZlibDecode(z, WINDOW) == Some(data) <==> |data| > 0
    ensures |z| <= 2 + StoredSize(|data|) + 4
  {
    hide ZlibDecode, BytesBits, Sums, Decodes, FixedBlock, StoredBytes, Trailer;
    var out, body, zeros := CompressFixed(data, quality);
    fixed := out;
    var s1, s2 := ComputeAdler(data);
    StoredLength(data, 0);
    FixedStream(out, data, body, zeros);
    if |out| > 2 + StoredSize(|data|) {
      out := CompressStored(data, out[..2], |out|);
      if |data| > 0 {
        StoredStream(data);
      } else {
        EmptySums(data);
        assert out + Trailer(s1, s2) == [0x78, 0x5e] + Trailer(1, 0);
        EmptyStreamRejected();
      }
    }
    z := out + Trailer(s1, s2);
  }

  lemma EmptySums(data: seq<byte>)
    requires data == []
    ensures Sums(data) == (1, 0)
  {
  }

  /** The stream is accepted by every reader whose window the header announces. */
  lemma AnyWindow(z: seq<byte>, data: seq<byte>, window: nat)
    requires ZlibDecode(z, WINDOW) == Some(data)
    requires WINDOW <= window <= 32768 && HeaderOk(z[0], z[1], window)
    ensures ZlibDecode(z, window) == Some(data)
  {
    BlocksWindow(BytesBits(z[2..]), [], WINDOW, window);
  }
}
