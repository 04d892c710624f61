/** The two-level bitset behind the descriptor allocator: header words over 64-bit leaf words. */
module Bitset {

  const WORD: nat := 64
  const NO_SLOT: nat := 0xFFFF_FFFF

  /** A 64-bit word, bit 0 first. */
  type Word = w: seq<bool> | |w| == WORD witness seq(WORD, _ => false)

  function CeilDiv(n: nat, d: nat): (q: nat)
    requires d > 0
    ensures n > 0 ==> (q - 1) * d < n <= q * d
    ensures n == 0 ==> q == 0
  {
    if n > 0 then (n - 1) / d + 1 else 0
  }

  predicate Full(w: Word) {
    forall b :: 0 <= b < WORD ==> w[b]
  }

  /** count_trailing_zeros(~w): the lowest clear bit. */
  method LowestClear(w: Word) returns (b: nat)
    requires !Full(w)
    ensures b < WORD && !w[b] && forall k :: 0 <= k < b ==> w[k]
  {
    b := 0;
    while w[b]
      invariant b < WORD && forall k :: 0 <= k < b ==> w[k]
      decreases WORD - b
    {
      if b == WORD - 1 {
        assert Full(w);
      }
      b := b + 1;
    }
  }

  /** w | (1 << b). */
  function SetBit(w: Word, b: nat): Word
    requires b < WORD
  {
    w[b := true]
  }

  /** w & ~(1 << b). */
  function ClearBit(w: Word, b: nat): Word
    requires b < WORD
  {
    w[b := false]
  }

  /** w | ~((1 << b) - 1). */
  function SetFrom(w: Word, b: nat): (r: Word)
    requires b < WORD
    ensures forall k :: 0 <= k < WORD ==> r[k] == (k >= b || w[k])
  {
    w[..b] + seq(WORD - b, _ => true)
  }

  function ClearBits(w: seq<bool>): nat {
    if w == [] then 0 else (if w[0] then 0 else 1) + ClearBits(w[1..])
  }

  lemma {:induction false} SetBitDecreases(w: seq<bool>, b: nat)
    requires b < |w| && !w[b]
    ensures ClearBits(w[b := true]) < ClearBits(w)
  {
    if b > 0 {
      SetBitDecreases(w[1..], b - 1);
      assert w[b := true][1..] == w[1..][b - 1 := true];
    } else {
      assert w[b := true][1..] == w[1..];
    }
  }

  class TwoLevelBitset {
    const size: nat
    const headers: nat
    const chunks: nat
    const data: array<Word>

    ghost predicate Shape() {
      && size < NO_SLOT
      && headers == CeilDiv(size, WORD * WORD) && chunks == CeilDiv(size, WORD)
      && data.Length == headers + chunks
      && chunks <= WORD * headers && (chunks > 0 ==> WORD * (headers - 1) < chunks)
      && size <= WORD * chunks
    }

    /** Leaf bit i. */
    ghost predicate Bit(i: int)
      requires Shape() && 0 <= i < WORD * chunks
      reads data
    {
      data[headers + i / WORD][i % WORD]
    }

    /** The header bit of chunk c. */
    ghost predicate Marked(c: int)
      requires Shape() && 0 <= c < WORD * headers
      reads data
    {
      data[c / WORD][c % WORD]
    }

    ghost predicate ChunkFull(c: int)
      requires Shape() && 0 <= c < chunks
      reads data
    {
      forall i :: WORD * c <= i < WORD * c + WORD ==> Bit(i)
    }

    /**
     * Bits at or above `size` and header bits at or above the chunk count are set, and a header bit
     * is set only over a full chunk.
     */
    ghost predicate Valid()
      reads data
    {
      && Shape()
      && (forall i :: size <= i < WORD * chunks ==> Bit(i))
      && (forall c :: chunks <= c < WORD * headers ==> Marked(c))
      && (forall c :: 0 <= c < chunks && Marked(c) ==> ChunkFull(c))
    }

    /** Conversely, every full chunk is marked in its header. */
    ghost predicate Exact()
      requires Shape()
      reads data
    {
      forall c :: 0 <= c < chunks && ChunkFull(c) ==> Marked(c)
    }

    /** The abstract value: the members below `size`. */
    ghost function Contents(): set<nat>
      requires Shape()
      reads data
    {
      set i: nat | 0 <= i < size && Bit(i)
    }

    /** The members and marks after a step that changes bit i only, to v. */
    twostate predicate BitStep(i: int, v: bool)
      requires Shape() && 0 <= i < WORD * chunks
      reads data
    {
      && (forall j :: 0 <= j < WORD * chunks ==> Bit(j) == if j == i then v else old(Bit(j)))
      && (forall c :: 0 <= c < WORD * headers ==> Marked(c) == old(Marked(c)))
    }

    /** The members and marks after a step that changes the mark of chunk c only, to v. */
    twostate predicate MarkStep(c: int, v: bool)
      requires Shape() && 0 <= c < WORD * headers
      reads data
    {
      && (forall j :: 0 <= j < WORD * chunks ==> Bit(j) == old(Bit(j)))
      && (forall k :: 0 <= k < WORD * headers ==> Marked(k) == if k == c then v else old(Marked(k)))
    }

    method WriteBit(i: nat, v: bool)
      requires Shape() && i < WORD * chunks
      modifies data
      ensures BitStep(i, v)
    {
      var at := headers + i / WORD;
      data[at] := if v then SetBit(data[at], i % WORD) else ClearBit(data[at], i % WORD);
    }

    method WriteMark(c: nat, v: bool)
      requires Shape() && c < WORD * headers
      modifies data
      ensures MarkStep(c, v)
    {
      var at := c / WORD;
      data[at] := if v then SetBit(data[at], c % WORD) else ClearBit(data[at], c % WORD);
    }

    /** Leaf word c is UINT64_MAX. */
    method LeafFull(c: nat) returns (full: bool)
      requires Shape() && c < chunks
      ensures full <==> ChunkFull(c)
    {
      full := Full(data[headers + c]);
      LeafBits(c);
    }

    lemma LeafBits(c: nat)
      requires Shape() && c < chunks
      ensures Full(data[headers + c]) <==> ChunkFull(c)
      ensures forall i :: WORD * c <= i < WORD * c + WORD ==> Bit(i) == data[headers + c][i - WORD * c]
    {
      var w := data[headers + c];
      if ChunkFull(c) {
        forall b | 0 <= b < WORD
          ensures w[b]
        {
          assert Bit(WORD * c + b);
        }
      }
    }

    lemma HeaderBits(h: nat)
      requires Shape() && h < headers
      ensures forall c :: WORD * h <= c < WORD * h + WORD ==> Marked(c) == data[h][c - WORD * h]
    {
    }

    constructor (n: nat)
      requires n < NO_SLOT
      ensures Valid() && Exact() && size == n && fresh(data) && Contents() == {}
    {
      size := n;
      headers := CeilDiv(n, WORD * WORD);
      chunks := CeilDiv(n, WORD);
      data := new Word[CeilDiv(n, WORD * WORD) + CeilDiv(n, WORD)](_ => seq(WORD, _ => false));
      new;
      if chunks != 0 {
        assert forall i :: 0 <= i < WORD * chunks ==> !Bit(i);
        assert forall c :: 0 <= c < WORD * headers ==> !Marked(c);
        ReserveBits();
        ReserveChunks();
        forall c | 0 <= c < chunks
          ensures !ChunkFull(c)
        {
          assert !Bit(WORD * c);
        }
      }
    }

    /** Leaf bits at or above `size` in the last leaf word. */
    method ReserveBits()
      requires Shape() && chunks != 0
      requires forall i :: 0 <= i < WORD * chunks ==> !Bit(i)
      modifies data
      ensures forall i :: 0 <= i < WORD * chunks ==> Bit(i) == (i >= size)
      ensures forall c :: 0 <= c < WORD * headers ==> Marked(c) == old(Marked(c))
    {
      var tail := size % WORD;
      var last := headers + chunks - 1;
      assert size == if tail == 0 then WORD * chunks else WORD * (chunks - 1) + tail;
      if tail != 0 {
        data[last] := SetFrom(data[last], tail);
      }
    }

    /** Header bits at or above the chunk count in the last header word. */
    method ReserveChunks()
      requires Shape() && chunks != 0
      requires forall c :: 0 <= c < WORD * headers ==> !Marked(c)
      modifies data
      ensures forall c :: 0 <= c < WORD * headers ==> Marked(c) == (c >= chunks)
      ensures forall i :: 0 <= i < WORD * chunks ==> Bit(i) == old(Bit(i))
    {
      var tailChunks := chunks % WORD;
      assert chunks == if tailChunks == 0 then WORD * headers else WORD * (headers - 1) + tailChunks;
      if tailChunks != 0 {
        var last := (chunks - 1) / WORD;
        assert last == headers - 1;
        data[last] := SetFrom(data[last], tailChunks);
        forall c | 0 <= c < WORD * headers
          ensures Marked(c) == (c >= chunks)
        {
          assert !old(Marked(c));
          assert c / WORD == last <==> c >= WORD * last;
        }
      }
    }

    /** The lowest clear bit of a chunk that has one becomes set; a chunk that fills up is marked. */
    method Take(chunk: nat) returns (slot: nat)
      requires Valid() && chunk < chunks && !ChunkFull(chunk)
      requires forall c :: 0 <= c < chunk ==> Marked(c)
      modifies data
      ensures Valid() && (old(Exact()) ==> Exact())
      ensures slot < size && slot !in old(Contents()) && Contents() == old(Contents()) + {slot}
      ensures forall i: nat :: i < slot ==> i in old(Contents())
    {
      LeafBits(chunk);
      var bit := LowestClear(data[headers + chunk]);
      slot := WORD * chunk + bit;
      assert !Bit(slot);
      ghost var before := Contents();
      forall i: nat | i < slot
        ensures i < size && i in before
      {
        if i / WORD < chunk {
          assert Marked(i / WORD);
          assert ChunkFull(i / WORD);
        }
        assert Bit(i);
      }
      WriteBit(slot, true);
      SameChunks(slot);
      var full := LeafFull(chunk);
      label written:
      if full {
        WriteMark(chunk, true);
        SameBits@written();
      }
    }

    /** Setting a bit keeps full chunks full, and fills no chunk but its own. */
    twostate lemma SameChunks(slot: nat)
      requires Shape() && slot < WORD * chunks && BitStep(slot, true)
      ensures forall c :: 0 <= c < chunks && c != slot / WORD ==> ChunkFull(c) == old(ChunkFull(c))
    {
      forall c | 0 <= c < chunks && c != slot / WORD
        ensures ChunkFull(c) == old(ChunkFull(c))
      {
        assert forall k :: WORD * c <= k < WORD * c + WORD ==> Bit(k) == old(Bit(k));
      }
    }

    /** Chunks are as full as before when no leaf bit changed. */
    twostate lemma SameBits()
      requires Shape() && forall j :: 0 <= j < WORD * chunks ==> Bit(j) == old(Bit(j))
      ensures forall c :: 0 <= c < chunks ==> ChunkFull(c) == old(ChunkFull(c))
    {
      forall c | 0 <= c < chunks
        ensures ChunkFull(c) == old(ChunkFull(c))
      {
        assert forall k :: WORD * c <= k < WORD * c + WORD ==> Bit(k) == old(Bit(k));
      }
    }

    /** The slot of the lowest clear bit, which becomes set; NO_SLOT when every bit is set. */
    method SetLeadingZero() returns (slot: nat)
      requires Valid()
      modifies data
      ensures Valid() && (old(Exact()) ==> Exact())
      ensures slot == NO_SLOT || slot < size
      ensures slot == NO_SLOT ==> Contents() == old(Contents()) && forall i: nat :: i < size ==> i in old(Contents())
      ensures slot < size ==>
                && slot !in old(Contents()) && Contents() == old(Contents()) + {slot}
                && forall i: nat :: i < slot ==> i in old(Contents())
    {
      var h := 0;
      while h < headers
        invariant 0 <= h <= headers && Valid() && (old(Exact()) ==> Exact())
        invariant Contents() == old(Contents())
        invariant forall c :: 0 <= c < WORD * h ==> Marked(c)
        decreases headers - h, if h < headers then ClearBits(data[h]) else 0
      {
        HeaderBits(h);
        if Full(data[h]) {
          h := h + 1;
          continue;
        }
        var pos := LowestClear(data[h]);
        var chunk := WORD * h + pos;
        assert !Marked(chunk);
        var full := LeafFull(chunk);
        if full {
          SetBitDecreases(data[h], pos);
          Remark(h, pos);
          continue;
        }
        slot := Take(chunk);
        return;
      }
      forall i: nat | i < size
        ensures i in Contents()
      {
        assert Marked(i / WORD);
        assert ChunkFull(i / WORD);
      }
      slot := NO_SLOT;
    }

    /** A full chunk that its header does not show yet: mark it. */
    method Remark(h: nat, pos: nat)
      requires Valid() && h < headers && pos < WORD && WORD * h + pos < chunks && ChunkFull(WORD * h + pos)
      modifies data
      ensures Valid() && (old(Exact()) ==> Exact()) && Contents() == old(Contents())
      ensures data[h] == SetBit(old(data[h]), pos)
      ensures forall c :: 0 <= c < WORD * headers ==> old(Marked(c)) ==> Marked(c)
    {
      data[h] := SetBit(data[h], pos);
      assert MarkStep(WORD * h + pos, true);
      SameBits();
    }

    /** Removes a member. */
    method Clear(i: nat)
      requires Valid() && i < size
      modifies data
      ensures Valid() && (old(Exact()) ==> Exact())
      ensures Contents() == old(Contents()) - {i}
    {
      WriteBit(i, false);
      WriteMark(i / WORD, false);
      assert !Bit(i);
      forall c | 0 <= c < chunks && ChunkFull(c)
        ensures c != i / WORD && old(ChunkFull(c))
      {
        forall k | WORD * c <= k < WORD * c + WORD
          ensures old(Bit(k))
        {
          assert Bit(k);
        }
      }
    }

    method IsSet(i: nat) returns (b: bool)
      requires Valid() && i < size
      ensures b <==> i in Contents()
    {
      b := data[headers + i / WORD][i % WORD];
    }
  }
}
