/** stbi_zlib_compress: hash-chain matching, fixed Huffman codes, stored fallback, checksum. */
module Deflate {
  import opened Bits
  import opened Adler
  import opened Inflate

  // --- One symbol, one match -------------------------------------------------------------

  /** The code word that stbiw__zlib_huff sends for literal/length symbol n. */
  function SymbolBits(n: nat): seq<bool>
    requires n < 288
  {
    if n <= 143 then Msb(0x30 + n, 8)
    else if n <= 255 then Msb(0x190 + (n - 144), 9)
    else if n <= 279 then Msb(n - 256, 7)
    else Msb(0xc0 + (n - 280), 8)
  }

  lemma {:induction false} PrefixValue(v: nat, n: nat, k: nat, tail: seq<bool>)
    requires k <= n && v < Pow2(n)
    ensures FromMsb((Msb(v, n) + tail)[..k]) == Shr(v, n - k)
  {
    if k == n {
      assert (Msb(v, n) + tail)[..k] == Msb(v, n);
      MsbRoundTrip(v, n);
    } else {
      PrefixValue(v / 2, n - 1, k, [v % 2 == 1] + tail);
      assert Msb(v, n) + tail == Msb(v / 2, n - 1) + ([v % 2 == 1] + tail);
    }
  }

  /** Table facts: 2^5, 2^7, 2^8 and 2^9. */
  lemma SmallPowers()
    ensures Pow2(5) == 32 && Pow2(7) == 128 && Pow2(8) == 256 && Pow2(9) == 512
  {
    assert Pow2(5) == 32;
  }

  lemma SymbolRoundTrip(n: nat, tail: seq<bool>)
    requires n < 288
    ensures TakeSymbol(SymbolBits(n) + tail) == Some((n, tail))
  {
    SmallPowers();
    if n <= 143 {
      CodeOfLength(0x30 + n, 8, tail);
    } else if n <= 255 {
      CodeOfLength(0x190 + (n - 144), 9, tail);
    } else if n <= 279 {
      CodeOfLength(n - 256, 7, tail);
    } else {
      CodeOfLength(0xc0 + (n - 280), 8, tail);
    }
  }

  /** What the reader sees of a code word of 7 to 9 bits. */
  lemma CodeOfLength(v: nat, n: nat, tail: seq<bool>)
    requires 7 <= n <= 9 && v < Pow2(n)
    ensures var s := Msb(v, n) + tail;
            && FromMsb(s[..7]) == (if n == 7 then v else if n == 8 then v / 2 else v / 4)
            && (n >= 8 ==> FromMsb(s[..8]) == if n == 8 then v else v / 2)
            && (n == 9 ==> FromMsb(s[..9]) == v)
            && s[n..] == tail
  {
    PrefixValue(v, n, 7, tail);
    if n >= 8 {
      PrefixValue(v, n, 8, tail);
    }
    if n == 9 {
      PrefixValue(v, n, 9, tail);
    }
    assert Shr(v, 0) == v && Shr(v, 1) == v / 2;
    assert Shr(v, 2) == Shr(v / 2, 1) == Shr(v / 2 / 2, 0);
  }

  lemma IntRoundTrip(v: nat, n: nat, tail: seq<bool>)
    requires v < Pow2(n)
    ensures TakeInt(Lsb(v, n) + tail, n) == Some((v, tail))
  {
    LsbRoundTrip(v, n);
    assert (Lsb(v, n) + tail)[..n] == Lsb(v, n);
    assert (Lsb(v, n) + tail)[n..] == tail;
  }

  /** The tables `lengthc` and `distc` with the sentinels that stop the search loops. */
  function LengthC(j: nat): nat
    requires j <= 29
  {
    if j == 29 then 259 else LengthBase(j)
  }

  function DistC(j: nat): nat
    requires j <= 30
  {
    if j == 30 then 32768 else DistBase(j)
  }

  /** The literal tables of the writer, entry by entry. */
  lemma LengthTable()
    ensures [LengthC(0), LengthC(1), LengthC(2), LengthC(3), LengthC(4), LengthC(5), LengthC(6), LengthC(7), LengthC(8), LengthC(9)]
         == [3, 4, 5, 6, 7, 8, 9, 10, 11, 13]
    ensures [LengthC(10), LengthC(11), LengthC(12), LengthC(13), LengthC(14), LengthC(15), LengthC(16), LengthC(17), LengthC(18), LengthC(19)]
         == [15, 17, 19, 23, 27, 31, 35, 43, 51, 59]
  {
  }

  lemma LengthTableHigh(j: nat)
    requires j == 19
    ensures [LengthC(j + 1), LengthC(j + 2), LengthC(j + 3), LengthC(j + 4), LengthC(j + 5)] == [67, 83, 99, 115, 131]
    ensures [LengthC(j + 6), LengthC(j + 7), LengthC(j + 8), LengthC(j + 9), LengthC(j + 10)] == [163, 195, 227, 258, 259]
  {
    LengthTable();
    assert Pow2(3) == 8 && Pow2(4) == 16 && Pow2(5) == 32;
    assert LengthBase(j + 1) == 67;
    assert LengthBase(j + 2) == 83;
    assert LengthBase(j + 3) == 99;
    assert LengthBase(j + 4) == 115;
    assert LengthBase(j + 5) == 131;
    assert LengthBase(j + 6) == 163;
    assert LengthBase(j + 7) == 195;
  }

  /** Distance classes come in pairs with equally many extra bits. */
  lemma {:induction false} DistPair(h: nat)
    ensures DistBase(2 * h + 2) == 2 * Pow2(h) + 1 && DistBase(2 * h + 3) == 3 * Pow2(h) + 1
  {
    if h > 0 {
      DistPair(h - 1);
      assert DistExtra(2 * h + 1) == h - 1 && DistExtra(2 * h + 2) == h;
      assert DistBase(2 * h + 2) == DistBase(2 * h + 1) + Pow2(h - 1);
      assert DistBase(2 * h + 3) == DistBase(2 * h + 2) + Pow2(h);
    } else {
      assert DistBase(1) == 2;
      assert DistBase(2) == 3;
    }
  }

  lemma PowersTo13()
    ensures [Pow2(0), Pow2(1), Pow2(2), Pow2(3), Pow2(4), Pow2(5), Pow2(6)] == [1, 2, 4, 8, 16, 32, 64]
    ensures [Pow2(7), Pow2(8), Pow2(9), Pow2(10), Pow2(11), Pow2(12), Pow2(13)] == [128, 256, 512, 1024, 2048, 4096, 8192]
  {
    SmallPowers();
    assert Pow2(10) == 1024;
    assert Pow2(11) == 2048;
    assert Pow2(12) == 4096;
  }

  lemma DistPairC(h: nat)
    requires h <= 13
    ensures DistC(2 * h + 2) == 2 * Pow2(h) + 1 && DistC(2 * h + 3) == 3 * Pow2(h) + 1
  {
    DistPair(h);
    hide DistBase, Pow2;
  }

  lemma DistTable()
    ensures [DistC(0), DistC(1), DistC(2), DistC(3), DistC(4), DistC(5), DistC(6), DistC(7), DistC(8), DistC(9)]
         == [1, 2, 3, 4, 5, 7, 9, 13, 17, 25]
    ensures [DistC(10), DistC(11), DistC(12), DistC(13), DistC(14), DistC(15), DistC(16), DistC(17), DistC(18), DistC(19)]
         == [33, 49, 65, 97, 129, 193, 257, 385, 513, 769]
  {
    assert DistC(0) == 1 && DistC(1) == 2;
    hide DistC, DistBase, Pow2;
    PowersTo13();
    DistPairC(0);
    DistPairC(1);
    DistPairC(2);
    DistPairC(3);
    DistPairC(4);
    DistPairC(5);
    DistPairC(6);
    DistPairC(7);
    DistPairC(8);
  }

  lemma DistTableHigh()
    ensures [DistC(20), DistC(21), DistC(22), DistC(23), DistC(24), DistC(25), DistC(26), DistC(27), DistC(28), DistC(29), DistC(30)]
         == [1025, 1537, 2049, 3073, 4097, 6145, 8193, 12289, 16385, 24577, 32768]
  {
    hide DistC, DistBase, Pow2;
    PowersTo13();
    DistPairC(9);
    DistPairC(10);
    DistPairC(11);
    DistPairC(12);
    DistPairC(13);
    LastEntry(30);
  }

  lemma LastEntry(j: nat)
    requires j == 30
    ensures DistC(j) == 32768
  {
  }

  lemma FieldRoundTrip(base: nat, extra: nat, v: nat, tail: seq<bool>)
    requires base <= v < base + Pow2(extra)
    ensures TakeField(base, extra, Lsb(v - base, extra) + tail) == Some((v, tail))
  {
    IntRoundTrip(v - base, extra, tail);
  }

  /** A coded value: a base and extra bits after its code word. */
  datatype Coded = Coded(index: nat, base: nat, extra: nat, value: nat) {
    predicate Fits() {
      extra <= 13 && base <= value < base + Pow2(extra)
    }

    predicate IsLength() {
      Fits() && index < 29 && base == LengthBase(index) && extra == LengthExtra(index)
    }

    predicate IsDistance() {
      Fits() && index < 30 && base == DistBase(index) && extra == DistExtra(index)
    }

    function ExtraBits(): seq<bool>
      requires base <= value
    {
      Lsb(value - base, extra)
    }
  }

  lemma FiveBitCode(j: nat, tail: seq<bool>)
    requires j < 30
    ensures FromMsb((Msb(j, 5) + tail)[..5]) == j && (Msb(j, 5) + tail)[5..] == tail
  {
    SmallPowers();
    PrefixValue(j, 5, 5, tail);
  }

  /** In front of any continuation, `bits` is read as a match of `len` bytes. */
  ghost predicate ReadsLength(bits: seq<bool>, len: nat) {
    forall tail {:trigger bits + tail} :: ReadLength(bits + tail) == Some((len, tail))
  }

  ghost predicate ReadsDistance(bits: seq<bool>, dist: nat) {
    forall tail {:trigger bits + tail} :: TakeDistance(bits + tail) == Some((dist, tail))
  }

  /** A length symbol and its extra bits. */
  function ReadLength(s: seq<bool>): Option<(nat, seq<bool>)> {
    match TakeSymbol(s)
    case None => None
    case Some((sym, rest)) => if sym > 256 then TakeLength(sym, rest) else None
  }

  lemma LengthRoundTrip(l: Coded)
    requires l.IsLength()
    ensures ReadsLength(SymbolBits(l.index + 257) + l.ExtraBits(), l.value)
  {
    forall tail: seq<bool>
      ensures ReadLength(SymbolBits(l.index + 257) + l.ExtraBits() + tail) == Some((l.value, tail))
    {
      var rest := l.ExtraBits() + tail;
      assert SymbolBits(l.index + 257) + l.ExtraBits() + tail == SymbolBits(l.index + 257) + rest;
      SymbolRoundTrip(l.index + 257, rest);
      FieldRoundTrip(l.base, l.extra, l.value, tail);
    }
  }

  lemma DistanceRoundTrip(d: Coded)
    requires d.IsDistance()
    ensures ReadsDistance(Msb(d.index, 5) + d.ExtraBits(), d.value)
  {
    forall tail: seq<bool>
      ensures TakeDistance(Msb(d.index, 5) + d.ExtraBits() + tail) == Some((d.value, tail))
    {
      var rest := d.ExtraBits() + tail;
      assert Msb(d.index, 5) + d.ExtraBits() + tail == Msb(d.index, 5) + rest;
      FiveBitCode(d.index, rest);
      FieldRoundTrip(d.base, d.extra, d.value, tail);
    }
  }

  /**
   * Reading `bits` in front of any continuation turns output `from` into `to`
   * without reaching back more than `window` bytes.
   */
  ghost predicate Decodes(bits: seq<bool>, from: seq<byte>, to: seq<byte>, window: nat) {
    forall tail: seq<bool> {:trigger bits + tail} :: InflateSymbols(bits + tail, from, window) == InflateSymbols(tail, to, window)
  }

  lemma DecodesNothing(acc: seq<byte>, window: nat)
    ensures Decodes([], acc, acc, window)
  {
    forall tail: seq<bool>
      ensures InflateSymbols([] + tail, acc, window) == InflateSymbols(tail, acc, window)
    {
      assert [] + tail == tail;
    }
  }

  lemma DecodesCompose(a: seq<bool>, b: seq<bool>, x: seq<byte>, y: seq<byte>, z: seq<byte>, window: nat)
    requires Decodes(a, x, y, window) && Decodes(b, y, z, window)
    ensures Decodes(a + b, x, z, window)
  {
    forall tail: seq<bool>
      ensures InflateSymbols(a + b + tail, x, window) == InflateSymbols(tail, z, window)
    {
      assert a + b + tail == a + (b + tail);
    }
  }

  lemma DecodesLiteral(b: byte, acc: seq<byte>, window: nat)
    ensures Decodes(SymbolBits(b), acc, acc + [b], window)
  {
    forall tail: seq<bool>
      ensures InflateSymbols(SymbolBits(b) + tail, acc, window) == InflateSymbols(tail, acc + [b], window)
    {
      SymbolRoundTrip(b, tail);
    }
  }

  lemma DecodesMatch(lb: seq<bool>, len: nat, db: seq<bool>, dist: nat, acc: seq<byte>, window: nat)
    requires ReadsLength(lb, len) && ReadsDistance(db, dist)
    requires 1 <= dist <= |acc| && dist <= window
    ensures Decodes(lb + db, acc, CopyBack(acc, dist, len), window)
  {
    forall tail: seq<bool>
      ensures InflateSymbols(lb + db + tail, acc, window) == InflateSymbols(tail, CopyBack(acc, dist, len), window)
    {
      assert lb + db + tail == lb + (db + tail);
      assert ReadLength(lb + (db + tail)) == Some((len, db + tail));
    }
  }

  /** A copy from `dist` back reproduces data that repeats with that distance, overlapping or not. */
  lemma {:induction false} CopyBackRepeats(data: seq<byte>, i: nat, dist: nat, len: nat)
    requires 1 <= dist <= i && i + len <= |data|
    requires forall p :: i <= p < i + len ==> data[p] == data[p - dist]
    ensures CopyBack(data[..i], dist, len) == data[..i + len]
    decreases len
  {
    if len > 0 {
      assert data[i] == data[i - dist];
      assert data[..i] + [data[..i][i - dist]] == data[..i + 1];
      CopyBackRepeats(data, i + 1, dist, len - 1);
    }
  }

  // --- Match search ----------------------------------------------------------------------

  const MAX_MATCH: nat := 258
  const HASH_SLOTS: nat := 16384
  const WINDOW: nat := 32767

  /** Length of the common prefix of the data at a and at b, cut off at `limit`. */
  function Common(data: seq<byte>, a: nat, b: nat, limit: nat): (n: nat)
    requires a <= b && b + limit <= |data|
    ensures n <= limit
    decreases limit
  {
    if limit == 0 || data[a] != data[b] then 0
    else 1 + Common(data, a + 1, b + 1, limit - 1)
  }

  function Min(a: nat, b: nat): nat {
    if a <= b then a else b
  }

  /** The match length that the search assigns to candidate a for position b. */
  function MatchLength(data: seq<byte>, a: nat, b: nat): (n: nat)
    requires a <= b <= |data|
    ensures n <= MAX_MATCH && b + n <= |data|
  {
    Common(data, a, b, Min(|data| - b, MAX_MATCH))
  }

  lemma {:induction false} CommonRepeats(data: seq<byte>, a: nat, b: nat, limit: nat)
    requires a <= b && b + limit <= |data|
    ensures forall p :: b <= p < b + Common(data, a, b, limit) ==> data[p] == data[p - (b - a)]
    decreases limit
  {
    if limit != 0 && data[a] == data[b] {
      CommonRepeats(data, a + 1, b + 1, limit - 1);
    }
  }

  lemma {:induction false} CommonPrefix(data: seq<byte>, a: nat, b: nat, limit: nat, n: nat)
    requires a <= b && b + limit <= |data| && n <= limit
    requires forall p :: b <= p < b + n ==> data[p] == data[p - (b - a)]
    requires n == limit || data[a + n] != data[b + n]
    ensures Common(data, a, b, limit) == n
    decreases n
  {
    if n > 0 {
      assert data[b] == data[b - (b - a)];
      CommonPrefix(data, a + 1, b + 1, limit - 1, n - 1);
    }
  }

  /** stbiw__zlib_countm. */
  method CountMatch(data: seq<byte>, a: nat, b: nat) returns (i: nat)
    requires a <= b <= |data|
    ensures i == MatchLength(data, a, b)
  {
    var limit := |data| - b;
    i := 0;
    while i < limit && i < MAX_MATCH && data[a + i] == data[b + i]
      invariant 0 <= i <= Min(limit, MAX_MATCH)
      invariant forall p :: b <= p < b + i ==> data[p] == data[p - (b - a)]
    {
      i := i + 1;
    }
    CommonPrefix(data, a, b, Min(limit, MAX_MATCH), i);
  }

  /** stbiw__zhash of three bytes, in 32-bit arithmetic. */
  function Hash(a: byte, b: byte, c: byte): bv32 {
    var h0 := (a as bv32) + ((b as bv32) << 8) + ((c as bv32) << 16);
    var h1 := h0 ^ (h0 << 3);
    var h2 := h1 + (h1 >> 5);
    var h3 := h2 ^ (h2 << 4);
    var h4 := h3 + (h3 >> 17);
    var h5 := h4 ^ (h4 << 25);
    h5 + (h5 >> 6)
  }

  /** The hash chain of the three bytes at i. */
  function Slot(data: seq<byte>, i: nat): (h: nat)
    requires i + 3 <= |data|
    ensures h < HASH_SLOTS
  {
    (Hash(data[i], data[i + 1], data[i + 2]) as int) % HASH_SLOTS
  }

  /** Candidate p can serve position i: it lies before i and within the window. */
  predicate InWindow(p: nat, i: nat) {
    p <= i && i - p <= WINDOW
  }

  /** The first scan over the first k candidates: the last longest one of at least three bytes. */
  function BestOf(data: seq<byte>, i: nat, chain: seq<nat>, k: nat): (nat, Option<nat>)
    requires i <= |data| && k <= |chain| && forall p :: p in chain ==> p < i
  {
    if k == 0 then (3, None)
    else
      var (best, loc) := BestOf(data, i, chain, k - 1);
      assert chain[k - 1] in chain;
      if InWindow(chain[k - 1], i) && MatchLength(data, chain[k - 1], i) >= best
      then (MatchLength(data, chain[k - 1], i), Some(chain[k - 1])) else (best, loc)
  }

  /** First scan: the last longest candidate of at least three bytes. */
  method BestMatch(data: seq<byte>, i: nat, chain: seq<nat>) returns (best: nat, bestloc: Option<nat>)
    requires i <= |data| && forall p :: p in chain ==> p < i
    ensures (best, bestloc) == BestOf(data, i, chain, |chain|)
    ensures match bestloc
      case None =>
        best == 3 && forall p :: p in chain && InWindow(p, i) ==> MatchLength(data, p, i) < 3
      case Some(loc) =>
        && loc in chain && InWindow(loc, i) && best == MatchLength(data, loc, i) && best >= 3
        && forall p :: p in chain && InWindow(p, i) ==> MatchLength(data, p, i) <= best
  {
    best, bestloc := 3, None;
    var j := 0;
    while j < |chain|
      invariant 0 <= j <= |chain| && (best, bestloc) == BestOf(data, i, chain, j)
      invariant match bestloc
        case None => best == 3 && forall k :: 0 <= k < j && InWindow(chain[k], i) ==> MatchLength(data, chain[k], i) < 3
        case Some(loc) =>
          && loc in chain && InWindow(loc, i) && best == MatchLength(data, loc, i) && best >= 3
          && forall k :: 0 <= k < j && InWindow(chain[k], i) ==> MatchLength(data, chain[k], i) <= best
    {
      assert chain[j] in chain;
      if chain[j] > i - 32768 {
        var d := CountMatch(data, chain[j], i);
        if d >= best {
          best, bestloc := d, Some(chain[j]);
        }
      }
      j := j + 1;
    }
  }

  ghost predicate SomeLonger(data: seq<byte>, chain: seq<nat>, b: nat, best: nat)
    requires b <= |data|
  {
    exists p :: p in chain && InWindow(p, b) && MatchLength(data, p, b) > best
  }

  /** Second scan: some candidate for the next byte gives a longer match. */
  method BetterNext(data: seq<byte>, i: nat, chain: seq<nat>, best: nat) returns (better: bool)
    requires i + 1 <= |data| && forall p :: p in chain ==> p <= i
    ensures better <==> SomeLonger(data, chain, i + 1, best)
  {
    better := false;
    var j := 0;
    while j < |chain| && !better
      invariant 0 <= j <= |chain|
      invariant better ==> SomeLonger(data, chain, i + 1, best)
      invariant !better ==> forall k :: 0 <= k < j && InWindow(chain[k], i + 1) ==> MatchLength(data, chain[k], i + 1) <= best
    {
      assert chain[j] in chain;
      if chain[j] > i - 32767 {
        var e := CountMatch(data, chain[j], i + 1);
        if e > best {
          better := true;
        }
      }
      j := j + 1;
    }
  }

  // --- Emission --------------------------------------------------------------------------

  /** The stbiw__zlib_huff macro. */
  method Huff(w: BitWriter, n: nat)
    requires w.Valid() && n < 288
    modifies w
    ensures w.Valid() && w.Stream() == old(w.Stream()) + SymbolBits(n)
    ensures old(w.out) <= w.out
  {
    if n <= 143 {
      w.AddCode(0x30 + n, 8);
    } else if n <= 255 {
      w.AddCode(0x190 + (n - 144), 9);
    } else if n <= 279 {
      w.AddCode(n - 256, 7);
    } else {
      w.AddCode(0xc0 + (n - 280), 8);
    }
  }

  /** The class of a match length. */
  method LengthIndex(len: nat) returns (c: Coded)
    requires 3 <= len <= MAX_MATCH
    ensures c.value == len && c.IsLength()
  {
    var j := 0;
    while len > LengthC(j + 1) - 1
      invariant 0 <= j < 29 && LengthC(j) <= len
      decreases 29 - j
    {
      j := j + 1;
    }
    LengthTableHigh(19);
    SmallPowers();
    c := Coded(j, LengthC(j), LengthExtra(j), len);
  }

  /** The class of a distance. */
  method DistIndex(dist: nat) returns (c: Coded)
    requires 1 <= dist <= WINDOW
    ensures c.value == dist && c.IsDistance()
  {
    var j := 0;
    while dist > DistC(j + 1) - 1
      invariant 0 <= j < 30 && DistC(j) <= dist
      decreases 30 - j
    {
      j := j + 1;
    }
    if j == 29 {
      LastDistance(j);
    }
    c := Coded(j, DistC(j), DistExtra(j), dist);
  }

  lemma DistTop(j: nat)
    requires j == 29
    ensures DistBase(j) == 24577
  {
    DistPair(13);
    PowersTo13();
    hide DistBase, Pow2;
  }

  /** The last distance class ends at 32768. */
  lemma LastDistance(j: nat)
    requires j == 29
    ensures DistBase(j) + Pow2(DistExtra(j)) == 32769
  {
    DistTop(j);
    EightShifts(0, DistExtra(j) - 8);
    SmallPowers();
  }

  /** The extra bits; nothing is written when the class has none. */
  method EmitExtra(w: BitWriter, c: Coded)
    requires w.Valid() && c.Fits()
    modifies w
    ensures w.Valid() && old(w.out) <= w.out
    ensures w.Stream() == old(w.Stream()) + c.ExtraBits()
  {
    if c.extra != 0 {
      w.Add(c.value - c.base, c.extra);
    } else {
      assert c.ExtraBits() == [];
    }
  }

  method EmitLength(w: BitWriter, len: nat) returns (ghost bits: seq<bool>)
    requires w.Valid() && 3 <= len <= MAX_MATCH
    modifies w
    ensures w.Valid() && old(w.out) <= w.out
    ensures w.Stream() == old(w.Stream()) + bits && ReadsLength(bits, len)
  {
    var l := LengthIndex(len);
    LengthRoundTrip(l);
    bits := SymbolBits(l.index + 257) + l.ExtraBits();
    Huff(w, l.index + 257);
    EmitExtra(w, l);
  }

  method EmitDistance(w: BitWriter, dist: nat) returns (ghost bits: seq<bool>)
    requires w.Valid() && 1 <= dist <= WINDOW
    modifies w
    ensures w.Valid() && old(w.out) <= w.out
    ensures w.Stream() == old(w.Stream()) + bits && ReadsDistance(bits, dist)
  {
    hide ReadsDistance, Lsb, Msb, BytesBits;
    var d := DistIndex(dist);
    DistanceRoundTrip(d);
    bits := Msb(d.index, 5) + d.ExtraBits();
    w.AddCode(d.index, 5);
    EmitExtra(w, d);
  }

  /** Writes one match; any reader with a window of `dist` or more copies it back. */
  method EmitMatch(w: BitWriter, len: nat, dist: nat, ghost acc: seq<byte>) returns (ghost bits: seq<bool>)
    requires w.Valid() && 3 <= len <= MAX_MATCH && 1 <= dist <= WINDOW && dist <= |acc|
    modifies w
    ensures w.Valid() && old(w.out) <= w.out
    ensures w.Stream() == old(w.Stream()) + bits
    ensures Decodes(bits, acc, CopyBack(acc, dist, len), WINDOW)
  {
    ghost var lb := EmitLength(w, len);
    ghost var db := EmitDistance(w, dist);
    bits := lb + db;
    DecodesMatch(lb, len, db, dist, acc, WINDOW);
  }
}
