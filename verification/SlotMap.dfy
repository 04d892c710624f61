/** The generational slot map of containers.h: doubling segments, an intrusive free list, 64-bit handles. */
module SlotMaps {
  import opened Bits

  // --- Segment addressing -----------------------------------------------------------------

  /** int_log_2: the position of the highest set bit. */
  function Log2(x: nat): (k: nat)
    requires x >= 1
    ensures Pow2(k) <= x < 2 * Pow2(k)
  {
    if x == 1 then 0 else 1 + Log2(x / 2)
  }

  const SMALL: nat := 64
  const MAX_SEGMENTS: nat := 26

  function SlotsIn(segment: nat): (n: nat)
    ensures n >= SMALL
  {
    SMALL * Pow2(segment)
  }

  function CapacityFor(segments: nat): nat {
    SMALL * Pow2(segments) - SMALL
  }

  /** The segment of an index and the slot in it, as `get` computes them. */
  function SegmentOf(idx: nat): nat {
    Log2(idx / SMALL + 1)
  }

  function SlotOf(idx: nat): int {
    idx - CapacityFor(SegmentOf(idx))
  }

  /** Every index below the capacity of n segments has its own place inside them. */
  lemma AddressInRange(idx: nat, n: nat)
    requires idx < CapacityFor(n)
    ensures SegmentOf(idx) < n && 0 <= SlotOf(idx) < SlotsIn(SegmentOf(idx))
  {
    var s := SegmentOf(idx);
    if s >= n {
      Pow2Monotone(n, s);
    }
  }

  lemma {:induction false} Pow2Monotone(a: nat, b: nat)
    requires a <= b
    ensures Pow2(a) <= Pow2(b)
  {
    if a < b {
      Pow2Monotone(a, b - 1);
    }
  }

  lemma {:induction false} Pow2Strict(a: nat, b: nat)
    requires a < b
    ensures 2 * Pow2(a) <= Pow2(b)
  {
    Pow2Monotone(a + 1, b);
  }

  /** Every place is the place of exactly one index. */
  lemma AddressOfPlace(segment: nat, slot: nat)
    requires slot < SlotsIn(segment)
    ensures var idx := CapacityFor(segment) + slot;
            idx < CapacityFor(segment + 1) && SegmentOf(idx) == segment && SlotOf(idx) == slot
  {
    var idx := CapacityFor(segment) + slot;
    assert idx / SMALL + 1 == Pow2(segment) + slot / SMALL;
    LogUnique(idx / SMALL + 1, segment);
  }

  lemma LogUnique(x: nat, k: nat)
    requires Pow2(k) <= x < 2 * Pow2(k)
    ensures x >= 1 && Log2(x) == k
  {
    var l := Log2(x);
    if l < k {
      Pow2Strict(l, k);
    } else if k < l {
      Pow2Strict(k, l);
    }
  }

  /** Indices and places correspond one to one, and growing by a segment moves no earlier index. */
  lemma AddressBijection(i: nat, j: nat, n: nat)
    requires i < CapacityFor(n) && j < CapacityFor(n)
    ensures SegmentOf(i) == SegmentOf(j) && SlotOf(i) == SlotOf(j) <==> i == j
    ensures SegmentOf(i) < n && 0 <= SlotOf(i) < SlotsIn(SegmentOf(i))
    ensures CapacityFor(SegmentOf(i)) + SlotOf(i) == i
  {
    AddressInRange(i, n);
    AddressInRange(j, n);
  }

  // --- Handles ----------------------------------------------------------------------------

  const TWO31: nat := 0x8000_0000
  const TWO32: nat := 0x1_0000_0000
  const TWO63: nat := 0x8000_0000_0000_0000
  const TWO64: nat := 0x1_0000_0000_0000_0000

  /** create_handle: the flag in bit 63 is set before the shift and does not survive it. */
  function CreateHandle(idx: nat, gen: nat): (h: nat)
    requires idx < TWO32 && gen < TWO32
    ensures h == gen * TWO32 + idx < TWO64
  {
    (TWO63 + gen) * TWO32 % TWO64 + idx
  }

  function HandleIdx(h: nat): nat {
    h % TWO32
  }

  function HandleGen(h: nat): nat {
    h / TWO32 % TWO31
  }

  /** A handle decodes to what it was made of exactly while the generation stays below 2^31. */
  lemma HandleRoundTrip(idx: nat, gen: nat)
    requires idx < TWO32 && gen < TWO32
    ensures HandleIdx(CreateHandle(idx, gen)) == idx
    ensures HandleGen(CreateHandle(idx, gen)) == gen <==> gen < TWO31
    ensures CreateHandle(idx, gen) == 0 <==> idx == 0 && gen == 0
  {
  }

  /** The 64-bit values that decode to a pair: the handle itself, and the handle with bit 63 set. */
  lemma HandleValues(h: nat, idx: nat, gen: nat)
    requires h < TWO64 && idx < TWO32 && gen < TWO31
    ensures HandleIdx(h) == idx && HandleGen(h) == gen
       <==> h == CreateHandle(idx, gen) || h == CreateHandle(idx, gen) + TWO63
  {
  }

  // --- Entries ----------------------------------------------------------------------------

  const NOT_FREE: nat := 0xFFFF_FFFF
  const END: nat := 0xFFFF_FFFE

  /** `data` is raw memory (None) until a value is first placed in the slot. */
  datatype Entry<T> = Entry(data: Option<T>, next: nat, gen: nat)

  type Segments<T> = seq<seq<Entry<T>>>

  ghost predicate Sized<T>(s: Segments<T>) {
    |s| <= MAX_SEGMENTS && forall k :: 0 <= k < |s| ==> |s[k]| == SlotsIn(k)
  }

  function Capacity<T>(s: Segments<T>): nat {
    CapacityFor(|s|)
  }

  /** The entry of index i. */
  function At<T>(s: Segments<T>, i: nat): Entry<T>
    requires Sized(s) && i < Capacity(s)
  {
    AddressInRange(i, |s|);
    s[SegmentOf(i)][SlotOf(i)]
  }

  function Put<T>(s: Segments<T>, i: nat, e: Entry<T>): (r: Segments<T>)
    requires Sized(s) && i < Capacity(s)
    ensures Sized(r) && |r| == |s|
  {
    AddressInRange(i, |s|);
    s[SegmentOf(i) := s[SegmentOf(i)][SlotOf(i) := e]]
  }

  lemma PutAt<T>(s: Segments<T>, i: nat, e: Entry<T>, j: nat)
    requires Sized(s) && i < Capacity(s) && j < Capacity(s)
    ensures At(Put(s, i, e), j) == if i == j then e else At(s, j)
  {
    AddressBijection(i, j, |s|);
    AddressBijection(j, i, |s|);
    var row := s[SegmentOf(i)][SlotOf(i) := e];
    assert SegmentOf(i) == SegmentOf(j) ==> At(Put(s, i, e), j) == row[SlotOf(j)];
  }

  lemma PutAtAll<T>(s: Segments<T>, i: nat, e: Entry<T>)
    requires Sized(s) && i < Capacity(s)
    ensures forall j: nat :: j < Capacity(s) ==> At(Put(s, i, e), j) == if i == j then e else At(s, j)
  {
    forall j: nat | j < Capacity(s)
      ensures At(Put(s, i, e), j) == if i == j then e else At(s, j)
    {
      PutAt(s, i, e, j);
    }
  }

  /** A new segment changes no earlier entry, and its slots come next in index order. */
  lemma GrowAt<T>(s: Segments<T>, segment: seq<Entry<T>>, j: nat)
    requires Sized(s) && Sized(s + [segment]) && j < Capacity(s + [segment])
    ensures j < Capacity(s) ==> At(s + [segment], j) == At(s, j)
    ensures j >= Capacity(s) ==> j - Capacity(s) < |segment| && At(s + [segment], j) == segment[j - Capacity(s)]
  {
    if j < Capacity(s) {
      AddressInRange(j, |s|);
    } else {
      AddressOfPlace(|s|, j - Capacity(s));
    }
  }

  lemma CapacityBound(n: nat)
    requires n <= MAX_SEGMENTS
    ensures CapacityFor(n) < END
  {
    Pow2Monotone(n, MAX_SEGMENTS);
    EightShifts(0, 18);
    EightShifts(0, 10);
    EightShifts(0, 2);
  }

  // --- The free list ----------------------------------------------------------------------

  ghost predicate Distinct(s: seq<nat>) {
    forall i, j :: 0 <= i < j < |s| ==> s[i] != s[j]
  }

  /** `chain` is the list that starts at `head`: in range, without repetition, ending in END. */
  ghost predicate Linked<T>(s: Segments<T>, head: nat, chain: seq<nat>)
    requires Sized(s)
  {
    && Distinct(chain)
    && (forall k :: 0 <= k < |chain| ==> chain[k] < Capacity(s))
    && head == Link(chain, 0)
    && forall k :: 0 <= k < |chain| ==> At(s, chain[k]).next == Link(chain, k + 1)
  }

  function Link(chain: seq<nat>, k: nat): nat {
    if k < |chain| then chain[k] else END
  }

  /** Writing outside the list keeps the list. */
  lemma KeepChain<T>(s: Segments<T>, head: nat, chain: seq<nat>, i: nat, e: Entry<T>)
    requires Sized(s) && Linked(s, head, chain) && i < Capacity(s) && i !in chain
    ensures Linked(Put(s, i, e), head, chain)
  {
    PutAtAll(s, i, e);
  }

  /** The head is END exactly when no slot is free. */
  lemma EmptyAtEnd<T>(s: Segments<T>, head: nat, chain: seq<nat>)
    requires Sized(s) && Linked(s, head, chain)
    ensures head == END <==> chain == []
  {
    CapacityBound(|s|);
    if chain != [] {
      assert chain[0] < Capacity(s);
    }
  }

  lemma PopChain<T>(s: Segments<T>, head: nat, chain: seq<nat>, e: Entry<T>)
    requires Sized(s) && Linked(s, head, chain) && chain != []
    ensures head == chain[0] < Capacity(s) && head !in chain[1..]
    ensures Linked(Put(s, head, e), At(s, head).next, chain[1..])
  {
    var rest := chain[1..];
    PutAtAll(s, head, e);
    forall k | 0 <= k < |rest|
      ensures At(Put(s, head, e), rest[k]).next == Link(rest, k + 1)
    {
      assert rest[k] == chain[k + 1];
    }
  }

  lemma PushChain<T>(s: Segments<T>, head: nat, chain: seq<nat>, i: nat, e: Entry<T>)
    requires Sized(s) && Linked(s, head, chain) && i < Capacity(s) && i !in chain && e.next == head
    ensures Linked(Put(s, i, e), i, [i] + chain)
  {
    var longer := [i] + chain;
    PutAtAll(s, i, e);
    hide At, Put, Sized, CapacityFor;
    forall k | 0 <= k < |longer|
      ensures At(Put(s, i, e), longer[k]).next == Link(longer, k + 1)
    {
      if k > 0 {
        assert longer[k] == chain[k - 1];
      }
    }
  }

  /** The slots of a new segment at the front of the list, in index order. */
  function Fresh(first: nat, n: nat): (r: seq<nat>)
    ensures |r| == n
  {
    seq(n, k requires 0 <= k < n => first + k)
  }

  /** The free slots, in order, after a new segment was added where there was none. */
  function Avail<T>(s: Segments<T>, chain: seq<nat>): seq<nat> {
    if chain == [] then Fresh(Capacity(s), SlotsIn(|s|)) else chain
  }

  /** A new segment, linked from its first slot to its last and on to the old head. */
  ghost predicate FreshSegment<T>(segment: seq<Entry<T>>, first: nat, head: nat) {
    forall k :: 0 <= k < |segment| ==>
      segment[k] == Entry(None, if k + 1 < |segment| then first + k + 1 else head, 0)
  }

  lemma GrowSize<T>(s: Segments<T>, segment: seq<Entry<T>>)
    requires Sized(s) && |s| < MAX_SEGMENTS && |segment| == SlotsIn(|s|)
    ensures Sized(s + [segment]) && Capacity(s + [segment]) == Capacity(s) + |segment|
  {
    assert Pow2(|s| + 1) == 2 * Pow2(|s|);
  }

  lemma GrowAtAll<T>(s: Segments<T>, segment: seq<Entry<T>>)
    requires Sized(s) && Sized(s + [segment]) && Capacity(s + [segment]) == Capacity(s) + |segment|
    ensures forall j: nat :: j < Capacity(s) ==> At(s + [segment], j) == At(s, j)
    ensures forall j: nat :: Capacity(s) <= j < Capacity(s) + |segment| ==> At(s + [segment], j) == segment[j - Capacity(s)]
  {
    forall j: nat | j < Capacity(s) + |segment|
      ensures j < Capacity(s) ==> At(s + [segment], j) == At(s, j)
      ensures j >= Capacity(s) ==> At(s + [segment], j) == segment[j - Capacity(s)]
    {
      GrowAt(s, segment, j);
    }
  }

  lemma GrowChain<T>(s: Segments<T>, segment: seq<Entry<T>>)
    requires Sized(s) && |s| < MAX_SEGMENTS && |segment| == SlotsIn(|s|)
    requires FreshSegment(segment, Capacity(s), END)
    ensures Sized(s + [segment]) && Linked(s + [segment], Capacity(s), Fresh(Capacity(s), |segment|))
  {
    GrowSize(s, segment);
    GrowAtAll(s, segment);
    hide At;
    var chain := Fresh(Capacity(s), |segment|);
    forall k | 0 <= k < |chain|
      ensures At(s + [segment], chain[k]).next == Link(chain, k + 1)
    {
    }
  }

  /** The slots of the free list are exactly those not in use. */
  ghost predicate FreeExactly<T>(s: Segments<T>, chain: seq<nat>)
    requires Sized(s)
  {
    forall i: nat :: i < Capacity(s) ==> (i in chain <==> !InUse(s, i))
  }

  /** A slot in use holds a record. */
  ghost predicate Filled<T>(s: Segments<T>)
    requires Sized(s)
  {
    forall i: nat :: i < Capacity(s) && InUse(s, i) ==> At(s, i).data.Some?
  }

  /** 32-bit wrap-around. */
  function Wrap(n: nat): (w: nat)
    ensures w < TWO32 && (n < TWO32 ==> w == n)
  {
    n % TWO32
  }

  /** The stored generation of a slot is its bump count modulo 2^32. */
  ghost predicate Counted<T>(s: Segments<T>, bumps: seq<nat>)
    requires Sized(s)
  {
    |bumps| == Capacity(s) && forall i: nat :: i < Capacity(s) ==> At(s, i).gen == Wrap(bumps[i])
  }

  /** Everything but the record of dead handles. */
  ghost predicate WellFormed<T>(s: Segments<T>, head: nat, chain: seq<nat>, bumps: seq<nat>) {
    Sized(s) && Linked(s, head, chain) && FreeExactly(s, chain) && Filled(s) && Counted(s, bumps)
  }

  ghost predicate InUse<T>(s: Segments<T>, i: nat)
    requires Sized(s) && i < Capacity(s)
  {
    At(s, i).next == NOT_FREE
  }

  /** The stored record of every slot in use. */
  ghost function Records<T>(s: Segments<T>): map<nat, T>
    requires Sized(s) && Filled(s)
  {
    map i: nat | i < Capacity(s) && InUse(s, i) :: At(s, i).data.value
  }

  /** The record a handle resolves to. */
  ghost function Lookup<T>(s: Segments<T>, h: nat): Option<T>
    requires Sized(s)
  {
    var i := HandleIdx(h);
    if i < Capacity(s) && InUse(s, i) && At(s, i).gen == HandleGen(h) then At(s, i).data else None
  }

  function Zeros(n: nat): (z: seq<nat>)
    ensures |z| == n && forall k :: 0 <= k < n ==> z[k] == 0
  {
    seq(n, _ => 0)
  }

  lemma FreshRange(first: nat, n: nat)
    ensures forall i: nat :: i in Fresh(first, n) <==> first <= i < first + n
  {
    forall i: nat | first <= i < first + n
      ensures i in Fresh(first, n)
    {
      assert Fresh(first, n)[i - first] == i;
    }
  }

  /** Growing an exhausted map: every old entry is in use and stays, every new one is free. */
  lemma GrowUse<T>(s: Segments<T>, segment: seq<Entry<T>>)
    requires Sized(s) && FreeExactly(s, []) && |s| < MAX_SEGMENTS && |segment| == SlotsIn(|s|)
    requires FreshSegment(segment, Capacity(s), END)
    ensures Sized(s + [segment]) && Capacity(s + [segment]) == Capacity(s) + |segment|
    ensures forall j: nat :: j < Capacity(s) ==> At(s + [segment], j) == At(s, j) && InUse(s, j)
    ensures forall j: nat :: Capacity(s) <= j < Capacity(s) + |segment| ==>
      At(s + [segment], j).next != NOT_FREE && At(s + [segment], j).gen == 0
  {
    GrowSize(s, segment);
    GrowAtAll(s, segment);
    CapacityBound(|s| + 1);
    hide At, SlotsIn, CapacityFor;
  }

  lemma GrowFree<T>(s: Segments<T>, segment: seq<Entry<T>>)
    requires Sized(s) && FreeExactly(s, []) && |s| < MAX_SEGMENTS && |segment| == SlotsIn(|s|)
    requires FreshSegment(segment, Capacity(s), END)
    ensures Sized(s + [segment]) && FreeExactly(s + [segment], Fresh(Capacity(s), |segment|))
  {
    GrowUse(s, segment);
    FreshRange(Capacity(s), |segment|);
    hide At, SlotsIn, CapacityFor, Fresh, FreshSegment;
  }

  lemma GrowCounted<T>(s: Segments<T>, bumps: seq<nat>, segment: seq<Entry<T>>)
    requires Sized(s) && FreeExactly(s, []) && |s| < MAX_SEGMENTS && |segment| == SlotsIn(|s|)
    requires FreshSegment(segment, Capacity(s), END) && Counted(s, bumps)
    ensures Sized(s + [segment]) && Counted(s + [segment], bumps + Zeros(|segment|))
  {
    GrowUse(s, segment);
    hide At, SlotsIn, CapacityFor, FreshSegment, Zeros, Wrap, FreeExactly;
  }

  lemma GrowRecords<T>(s: Segments<T>, segment: seq<Entry<T>>)
    requires Sized(s) && Filled(s) && FreeExactly(s, []) && |s| < MAX_SEGMENTS && |segment| == SlotsIn(|s|)
    requires FreshSegment(segment, Capacity(s), END)
    ensures Sized(s + [segment]) && Filled(s + [segment]) && Records(s + [segment]) == Records(s)
    ensures forall h: nat :: Lookup(s + [segment], h) == Lookup(s, h)
  {
    GrowUse(s, segment);
    hide At, SlotsIn, CapacityFor, HandleIdx, HandleGen, FreshSegment;
  }

  lemma Grow<T>(s: Segments<T>, head: nat, bumps: seq<nat>, segment: seq<Entry<T>>)
    requires WellFormed(s, head, [], bumps) && |s| < MAX_SEGMENTS && |segment| == SlotsIn(|s|)
    requires FreshSegment(segment, Capacity(s), END)
    ensures WellFormed(s + [segment], Capacity(s), Fresh(Capacity(s), |segment|), bumps + Zeros(|segment|))
    ensures Records(s + [segment]) == Records(s)
    ensures forall h: nat :: Lookup(s + [segment], h) == Lookup(s, h)
  {
    GrowChain(s, segment);
    GrowFree(s, segment);
    GrowCounted(s, bumps, segment);
    GrowRecords(s, segment);
    hide Linked, FreeExactly, Filled, Counted, Records, Lookup, Fresh, FreshSegment, SlotsIn, Zeros, Sized;
  }

  // --- Single-entry updates ---------------------------------------------------------------

  function Bump(bumps: seq<nat>, i: nat): (r: seq<nat>)
    requires i < |bumps|
    ensures |r| == |bumps| && forall j :: 0 <= j < |bumps| ==> r[j] == if j == i then bumps[i] + 1 else bumps[j]
  {
    bumps[i := bumps[i] + 1]
  }

  lemma WrapStep(n: nat)
    ensures Wrap(Wrap(n) + 1) == Wrap(n + 1) && (n < TWO32 ==> Wrap(n + TWO32) == n)
  {
  }

  lemma PutCounted<T>(s: Segments<T>, bumps: seq<nat>, i: nat, e: Entry<T>)
    requires Sized(s) && Counted(s, bumps) && i < Capacity(s) && e.gen == Wrap(At(s, i).gen + 1)
    ensures Counted(Put(s, i, e), Bump(bumps, i))
  {
    PutAtAll(s, i, e);
    WrapStep(bumps[i]);
    hide At, Put, Wrap, CapacityFor;
  }

  lemma PutLookup<T>(s: Segments<T>, i: nat, e: Entry<T>)
    requires Sized(s) && i < Capacity(s)
    ensures forall h: nat :: HandleIdx(h) != i ==> Lookup(Put(s, i, e), h) == Lookup(s, h)
    ensures forall h: nat :: HandleIdx(h) == i ==>
      Lookup(Put(s, i, e), h) == if e.next == NOT_FREE && e.gen == HandleGen(h) then e.data else None
  {
    PutAtAll(s, i, e);
    hide At, Put, HandleIdx, HandleGen, CapacityFor;
  }

  lemma TailMembers(chain: seq<nat>)
    requires chain != []
    ensures forall i: nat :: i in chain <==> i == chain[0] || i in chain[1..]
  {
    assert chain == [chain[0]] + chain[1..];
  }

  lemma PopFree<T>(s: Segments<T>, head: nat, chain: seq<nat>, e: Entry<T>)
    requires Sized(s) && Linked(s, head, chain) && FreeExactly(s, chain) && chain != [] && e.next == NOT_FREE
    ensures head < Capacity(s) && FreeExactly(Put(s, head, e), chain[1..])
  {
    PopChain(s, head, chain, e);
    PutAtAll(s, head, e);
    TailMembers(chain);
    hide At, Put, Linked, Link, CapacityFor, Sized;
  }

  lemma PutRecords<T>(s: Segments<T>, i: nat, e: Entry<T>)
    requires Sized(s) && Filled(s) && i < Capacity(s) && (e.next == NOT_FREE ==> e.data.Some?)
    ensures Filled(Put(s, i, e))
    ensures Records(Put(s, i, e)) == if e.next == NOT_FREE then Records(s)[i := e.data.value] else Records(s) - {i}
  {
    PutAtAll(s, i, e);
    hide At, Put, CapacityFor, Sized;
  }

  /** The slot at the head of the list is taken for a value. */
  lemma Emplaced<T>(s: Segments<T>, head: nat, chain: seq<nat>, bumps: seq<nat>, e: Entry<T>)
    requires WellFormed(s, head, chain, bumps) && chain != []
    requires head < Capacity(s) ==> e.gen == Wrap(At(s, head).gen + 1)
    requires e.data.Some? && e.next == NOT_FREE
    ensures head < Capacity(s) && WellFormed(Put(s, head, e), At(s, head).next, chain[1..], Bump(bumps, head))
    ensures head !in Records(s) && Records(Put(s, head, e)) == Records(s)[head := e.data.value]
  {
    PopChain(s, head, chain, e);
    PopFree(s, head, chain, e);
    PutCounted(s, bumps, head, e);
    PutRecords(s, head, e);
    assert head in chain && !InUse(s, head);
    hide At, Put, Linked, FreeExactly, Counted, CapacityFor, Sized, Wrap, Bump;
  }

  lemma PushFree<T>(s: Segments<T>, chain: seq<nat>, i: nat, e: Entry<T>)
    requires Sized(s) && FreeExactly(s, chain) && i < Capacity(s) && e.next != NOT_FREE
    ensures FreeExactly(Put(s, i, e), [i] + chain)
  {
    PutAtAll(s, i, e);
    hide At, Put, CapacityFor, Sized;
  }

  /** A slot in use goes back to the head of the list. */
  lemma Erased<T>(s: Segments<T>, head: nat, chain: seq<nat>, bumps: seq<nat>, i: nat, e: Entry<T>)
    requires WellFormed(s, head, chain, bumps) && i < Capacity(s) && InUse(s, i)
    requires e.gen == Wrap(At(s, i).gen + 1) && e.next == head
    ensures WellFormed(Put(s, i, e), i, [i] + chain, Bump(bumps, i))
    ensures i in Records(s) && Records(Put(s, i, e)) == Records(s) - {i}
  {
    HeadNotInUse(s, head, chain);
    PushFree(s, chain, i, e);
    PushChain(s, head, chain, i, e);
    PutCounted(s, bumps, i, e);
    PutRecords(s, i, e);
    hide At, Put, Linked, FreeExactly, Counted, CapacityFor, Sized, Wrap, Bump;
  }

  lemma HeadNotInUse<T>(s: Segments<T>, head: nat, chain: seq<nat>)
    requires Sized(s) && Linked(s, head, chain)
    ensures head != NOT_FREE
  {
    CapacityBound(|s|);
  }

  /** A slot in use gets a new generation and nothing else. */
  lemma Invalidated<T>(s: Segments<T>, head: nat, chain: seq<nat>, bumps: seq<nat>, i: nat, e: Entry<T>)
    requires WellFormed(s, head, chain, bumps) && i < Capacity(s) && InUse(s, i)
    requires e == At(s, i).(gen := Wrap(At(s, i).gen + 1))
    ensures WellFormed(Put(s, i, e), head, chain, Bump(bumps, i)) && Records(Put(s, i, e)) == Records(s)
  {
    KeepChain(s, head, chain, i, e);
    PutAtAll(s, i, e);
    PutCounted(s, bumps, i, e);
    hide At, Put, Linked, Counted, CapacityFor, Wrap, Bump, Sized;
  }

  /**
   * Which of the 64-bit values resolve to the record of a slot in use: the handle with the current
   * generation (and its twin with the ignored bit 63) while that generation is below 2^31, else none.
   */
  lemma ResolvingHandles<T>(s: Segments<T>, i: nat, h: nat)
    requires Sized(s) && Filled(s) && i < Capacity(s) && InUse(s, i) && At(s, i).gen < TWO32 && h < TWO64
    ensures i < TWO32
    ensures Lookup(s, h).Some? && HandleIdx(h) == i <==>
      var g := At(s, i).gen;
      g < TWO31 && (h == CreateHandle(i, g) || h == CreateHandle(i, g) + TWO63)
  {
    CapacityBound(|s|);
    var g := At(s, i).gen;
    if g < TWO31 {
      HandleValues(h, i, g);
    }
    hide At, CreateHandle, CapacityFor, HandleIdx;
  }

  /** Every handle recorded as dead carries an earlier bump count of its slot. */
  ghost predicate DeadBefore(dead: set<(nat, nat)>, bumps: seq<nat>) {
    forall d :: d in dead ==> d.0 < |bumps| && d.1 < bumps[d.0]
  }

  /**
   * How far generations get: a slot is only released through a handle that resolves, which none does once the
   * generation is 2^31 or more.
   */
  ghost predicate Bounded<T>(s: Segments<T>, bumps: seq<nat>)
    requires Sized(s)
  {
    forall i: nat :: i < Capacity(s) && i < |bumps| ==> bumps[i] <= if InUse(s, i) then TWO31 + 1 else TWO31
  }

  lemma PutBounded<T>(s: Segments<T>, bumps: seq<nat>, i: nat, e: Entry<T>)
    requires Sized(s) && Bounded(s, bumps) && i < Capacity(s) && i < |bumps|
    requires bumps[i] < if e.next == NOT_FREE then TWO31 + 1 else TWO31
    ensures Bounded(Put(s, i, e), Bump(bumps, i))
  {
    PutAtAll(s, i, e);
    hide At, Put, CapacityFor, Sized;
  }

  lemma GrowBounded<T>(s: Segments<T>, bumps: seq<nat>, segment: seq<Entry<T>>)
    requires Sized(s) && FreeExactly(s, []) && |s| < MAX_SEGMENTS && |segment| == SlotsIn(|s|)
    requires FreshSegment(segment, Capacity(s), END) && Counted(s, bumps) && Bounded(s, bumps)
    ensures Sized(s + [segment]) && Bounded(s + [segment], bumps + Zeros(|segment|))
  {
    GrowUse(s, segment);
    hide At, SlotsIn, CapacityFor, FreshSegment, Zeros, Wrap, FreeExactly;
  }

  /** A slot whose handle resolves has a generation below 2^31. */
  lemma ResolvedYoung<T>(s: Segments<T>, bumps: seq<nat>, h: nat)
    requires Sized(s) && Counted(s, bumps) && Bounded(s, bumps) && Lookup(s, h).Some?
    ensures HandleIdx(h) < Capacity(s) && HandleIdx(h) < |bumps| && InUse(s, HandleIdx(h)) && bumps[HandleIdx(h)] < TWO31
  {
    hide At, CapacityFor;
  }

  lemma FreeYoung<T>(s: Segments<T>, head: nat, chain: seq<nat>, bumps: seq<nat>)
    requires WellFormed(s, head, chain, bumps) && Bounded(s, bumps) && chain != []
    ensures head == chain[0] && head < Capacity(s) && head < |bumps| && bumps[head] <= TWO31
  {
    assert head in chain && !InUse(s, head);
    hide At, CapacityFor;
  }

  /**
   * When a handle whose slot has been bumped since resolves again: exactly when the slot is in use and its
   * generation, which wraps at 2^32, is what the handle decodes to, which wraps at 2^31.
   */
  lemma StaleIs<T>(s: Segments<T>, bumps: seq<nat>, i: nat, g: nat)
    requires Sized(s) && Filled(s) && Counted(s, bumps) && i < |bumps| && g < bumps[i]
    ensures i < TWO32
    ensures Lookup(s, CreateHandle(i, Wrap(g))).Some? <==> InUse(s, i) && Wrap(bumps[i]) == Wrap(g) % TWO31
  {
    CapacityBound(|s|);
    HandleRoundTrip(i, Wrap(g));
    assert HandleGen(CreateHandle(i, Wrap(g))) == Wrap(g) % TWO31;
    hide At, CreateHandle, CapacityFor, HandleIdx, HandleGen;
  }

  /** After 2^32 bumps it would: the comparison alone does not keep a handle dead. */
  lemma DeadReturns<T>(s: Segments<T>, bumps: seq<nat>, i: nat, g: nat)
    requires Sized(s) && Filled(s) && Counted(s, bumps) && i < |bumps| && InUse(s, i)
    requires g < TWO31 && bumps[i] == g + TWO32
    ensures i < TWO32 && Lookup(s, CreateHandle(i, g)).Some?
  {
    hide Counted, Filled, Lookup, Sized, CreateHandle;
    StaleIs(s, bumps, i, g);
    WrapStep(g);
  }

  /** And not before. */
  lemma StaleUntil<T>(s: Segments<T>, bumps: seq<nat>, i: nat, g: nat)
    requires Sized(s) && Filled(s) && Counted(s, bumps) && i < |bumps| && g < bumps[i] < TWO32
    ensures i < TWO32 && Lookup(s, CreateHandle(i, Wrap(g))) == None
  {
    hide Counted, Filled, Lookup, Sized, CreateHandle, Wrap;
    StaleIs(s, bumps, i, g);
    NotYetWrapped(bumps[i], g);
  }

  lemma NotYetWrapped(b: nat, g: nat)
    requires g < b < TWO32
    ensures Wrap(b) != Wrap(g) % TWO31
  {
  }

  lemma DeadStays(dead: set<(nat, nat)>, bumps: seq<nat>, more: seq<nat>)
    requires DeadBefore(dead, bumps)
    ensures DeadBefore(dead, bumps + more)
  {
  }

  lemma DeadBumped(dead: set<(nat, nat)>, bumps: seq<nat>, i: nat)
    requires DeadBefore(dead, bumps) && i < |bumps|
    ensures DeadBefore(dead, Bump(bumps, i)) && DeadBefore(dead + {(i, bumps[i])}, Bump(bumps, i))
  {
  }

  lemma NextGeneration<T>(s: Segments<T>, bumps: seq<nat>, i: nat)
    requires Sized(s) && Counted(s, bumps) && i < Capacity(s)
    ensures i < TWO32 && var g := Wrap(At(s, i).gen + 1);
      && g == Wrap(bumps[i] + 1) && HandleIdx(CreateHandle(i, g)) == i
      && (HandleGen(CreateHandle(i, g)) == g <==> g < TWO31) && (g > 0 ==> CreateHandle(i, g) != 0)
  {
    CapacityBound(|s|);
    WrapStep(bumps[i]);
    HandleRoundTrip(i, Wrap(bumps[i] + 1));
    hide At, CapacityFor;
  }

  /** What placing `val` in a free slot of s does, h being the new handle. */
  ghost predicate EmplaceEffect<T>(s: Segments<T>, bumps: seq<nat>, t: Segments<T>, after: seq<nat>, val: T, h: nat)
    requires Sized(s) && Filled(s) && Sized(t) && Filled(t)
  {
    var i := HandleIdx(h);
    && i < |bumps| && after == Bump(bumps, i) && h == CreateHandle(i, Wrap(after[i]))
    && i !in Records(s) && Records(t) == Records(s)[i := val]
    && (forall g: nat :: HandleIdx(g) != i ==> Lookup(t, g) == Lookup(s, g))
    && Lookup(t, h) == (if Wrap(after[i]) < TWO31 then Some(val) else None) && (Wrap(after[i]) > 0 ==> h != 0)
  }

  lemma EffectOf<T>(s: Segments<T>, bumps: seq<nat>, i: nat, e: Entry<T>, h: nat)
    requires Sized(s) && Filled(s) && Counted(s, bumps) && i < Capacity(s) && i < |bumps| && !InUse(s, i)
    requires e.next == NOT_FREE && e.data.Some? && e.gen == Wrap(At(s, i).gen + 1)
    requires i < TWO32 && h == CreateHandle(i, e.gen)
    ensures Filled(Put(s, i, e)) && EmplaceEffect(s, bumps, Put(s, i, e), Bump(bumps, i), e.data.value, h)
  {
    NextGeneration(s, bumps, i);
    PutRecords(s, i, e);
    PutLookup(s, i, e);
    hide At, Put, CreateHandle, HandleIdx, HandleGen, CapacityFor, Sized, Wrap, Counted, Lookup;
  }

  lemma Taken<T>(s: Segments<T>, head: nat, chain: seq<nat>, bumps: seq<nat>, val: T)
    requires WellFormed(s, head, chain, bumps) && chain != []
    ensures head < Capacity(s) && head < |bumps| && head < TWO32
    ensures var gen := Wrap(At(s, head).gen + 1);
      var t := Put(s, head, Entry(Some(val), NOT_FREE, gen));
      && WellFormed(t, At(s, head).next, chain[1..], Bump(bumps, head))
      && EmplaceEffect(s, bumps, t, Bump(bumps, head), val, CreateHandle(head, gen))
  {
    PopChain(s, head, chain, At(s, chain[0]));
    CapacityBound(|s|);
    assert head in chain && !InUse(s, head);
    var e := Entry(Some(val), NOT_FREE, Wrap(At(s, head).gen + 1));
    Emplaced(s, head, chain, bumps, e);
    EffectOf(s, bumps, head, e, CreateHandle(head, e.gen));
    hide *;
  }

  /**
   * emplace has placed `val` in the free slot that h names: its generation is the next one (1 in a new
   * segment), and h, which is never null, resolves to the record exactly while generations are below 2^31.
   */
  ghost predicate Emplacement<T>(s: Segments<T>, bumps: seq<nat>, t: Segments<T>, after: seq<nat>, val: T, h: nat)
    requires Sized(s) && Filled(s) && Sized(t) && Filled(t)
  {
    var i := HandleIdx(h);
    && i < |after| && |bumps| <= |after| && after[i] == (if i < |bumps| then bumps[i] + 1 else 1) <= TWO31 + 1
    && (forall j: nat :: j < |bumps| && j != i ==> after[j] == bumps[j])
    && h == CreateHandle(i, after[i]) != 0
    && i !in Records(s) && Records(t) == Records(s)[i := val]
    && (forall g: nat :: HandleIdx(g) != i ==> Lookup(t, g) == Lookup(s, g))
    && Lookup(t, h) == if after[i] < TWO31 then Some(val) else None
  }

  lemma EffectEmplaces<T>(s: Segments<T>, bumps: seq<nat>, t: Segments<T>, after: seq<nat>, val: T, h: nat)
    requires Sized(s) && Filled(s) && Sized(t) && Filled(t) && EmplaceEffect(s, bumps, t, after, val, h)
    requires bumps[HandleIdx(h)] <= TWO31
    ensures Emplacement(s, bumps, t, after, val, h)
  {
    hide Sized, Filled, Records, Lookup, CreateHandle, HandleIdx;
  }

  /** Growing first makes no difference. */
  lemma GrownEmplacement<T>(s: Segments<T>, bumps: seq<nat>, grown: Segments<T>, more: seq<nat>, t: Segments<T>,
                            after: seq<nat>, val: T, h: nat)
    requires Sized(s) && Filled(s) && Sized(grown) && Filled(grown) && Sized(t) && Filled(t)
    requires Emplacement(grown, more, t, after, val, h)
    requires Records(grown) == Records(s) && forall g: nat :: Lookup(grown, g) == Lookup(s, g)
    requires |bumps| <= |more| && more[..|bumps|] == bumps && forall j :: |bumps| <= j < |more| ==> more[j] == 0
    ensures Emplacement(s, bumps, t, after, val, h)
  {
    hide Sized, Filled, Records, Lookup, CreateHandle, HandleIdx;
    forall j: nat | j < |bumps|
      ensures more[j] == bumps[j]
    {
      assert more[..|bumps|][j] == bumps[j];
    }
  }

  /** The entry in the given place of the given segment. */
  lemma RowAt<T>(s: Segments<T>, segment: nat, slot: nat)
    requires Sized(s) && segment < |s| && slot < SlotsIn(segment)
    ensures var i := CapacityFor(segment) + slot; i < Capacity(s) < END && At(s, i) == s[segment][slot]
  {
    AddressOfPlace(segment, slot);
    Pow2Monotone(segment + 1, |s|);
    CapacityBound(|s|);
  }

  lemma GenBound<T>(s: Segments<T>, bumps: seq<nat>, i: nat)
    requires Sized(s) && Counted(s, bumps) && i < Capacity(s)
    ensures At(s, i).gen == Wrap(bumps[i])
  {
  }

  ghost predicate Ascending(s: seq<nat>) {
    forall a, b :: 0 <= a < b < |s| ==> s[a] < s[b]
  }

  /** `done` lists the slots in use below n, in increasing order. */
  ghost predicate Swept<T>(s: Segments<T>, done: seq<nat>, n: nat)
    requires Sized(s)
  {
    && Ascending(done) && (forall i: nat :: i in done <==> i < n && i < Capacity(s) && InUse(s, i))
  }

  lemma SweepStep<T>(s: Segments<T>, done: seq<nat>, n: nat)
    requires Sized(s) && Swept(s, done, n) && n < Capacity(s)
    ensures Swept(s, if InUse(s, n) then done + [n] else done, n + 1)
  {
    if InUse(s, n) {
      forall i | 0 <= i < |done| ensures done[i] < n {
        assert done[i] in done;
      }
      forall i: nat ensures i in done + [n] <==> i in done || i == n {
        assert (done + [n])[|done|] == n;
      }
    }
  }

  lemma NothingSwept<T>(s: Segments<T>)
    requires Sized(s)
    ensures Swept(s, [], CapacityFor(0))
  {
  }

  lemma NextCapacity(k: nat)
    ensures CapacityFor(k + 1) == CapacityFor(k) + SlotsIn(k)
  {
  }

  lemma SweepSlot<T>(s: Segments<T>, k: nat, j: nat, done: seq<nat>)
    requires Sized(s) && k < |s| && j < |s[k]| && Swept(s, done, CapacityFor(k) + j)
    ensures Swept(s, if s[k][j].next == NOT_FREE then done + [CapacityFor(k) + j] else done, CapacityFor(k) + j + 1)
  {
    hide At, Swept, CapacityFor, SlotsIn;
    RowAt(s, k, j);
    SweepStep(s, done, CapacityFor(k) + j);
  }

  lemma SweptAll<T>(s: Segments<T>, done: seq<nat>)
    requires Sized(s) && Filled(s) && Swept(s, done, Capacity(s))
    ensures forall i: nat :: i in done <==> i in Records(s)
  {
    hide At, CapacityFor;
  }

  predicate Stored<T>(s: Segments<T>, segment: nat, slot: nat)
    requires Sized(s)
  {
    segment < |s| && slot < SlotsIn(segment) && s[segment][slot].next == NOT_FREE
  }

  /** The handle find_handle owes for an address, which names a segment and a slot. */
  ghost function Found<T>(s: Segments<T>, segment: nat, slot: nat): nat
    requires Sized(s)
  {
    if Stored(s, segment, slot) && s[segment][slot].gen < TWO32 then
      RowAt(s, segment, slot);
      CreateHandle(CapacityFor(segment) + slot, s[segment][slot].gen)
    else 0
  }

  lemma FoundResolves<T>(s: Segments<T>, bumps: seq<nat>, segment: nat, slot: nat)
    requires Sized(s) && Filled(s) && Counted(s, bumps) && Stored(s, segment, slot)
    ensures var i := CapacityFor(segment) + slot;
      && i in Records(s) && i < |bumps| && i < TWO32 && Found(s, segment, slot) == CreateHandle(i, Wrap(bumps[i]))
      && (bumps[i] < TWO31 ==> Lookup(s, Found(s, segment, slot)) == Some(Records(s)[i]))
  {
    var i := CapacityFor(segment) + slot;
    RowAt(s, segment, slot);
    HandleRoundTrip(i, Wrap(bumps[i]));
    hide At, CreateHandle, CapacityFor, HandleIdx, HandleGen, SlotsIn;
  }

  // --- Whole maps -------------------------------------------------------------------------

  /** All of a map at one moment. */
  datatype Moment<T> = Moment(segments: Segments<T>, head: nat, chain: seq<nat>, bumps: seq<nat>, dead: set<(nat, nat)>)

  ghost predicate Ok<T>(m: Moment<T>) {
    match m
    case Moment(s, head, chain, bumps, dead) =>
      WellFormed(s, head, chain, bumps) && DeadBefore(dead, bumps) && Bounded(s, bumps)
  }

  /** add_segment, where no slot is free. */
  ghost function Grown<T>(m: Moment<T>, segment: seq<Entry<T>>): Moment<T> {
    var first := Capacity(m.segments);
    Moment(m.segments + [segment], first, Fresh(first, |segment|), m.bumps + Zeros(|segment|), m.dead)
  }

  lemma GrownOk<T>(m: Moment<T>, segment: seq<Entry<T>>)
    requires Ok(m) && m.chain == [] && |m.segments| < MAX_SEGMENTS && |segment| == SlotsIn(|m.segments|)
    requires FreshSegment(segment, Capacity(m.segments), END)
    ensures Ok(Grown(m, segment)) && Grown(m, segment).chain != []
    ensures Records(Grown(m, segment).segments) == Records(m.segments)
    ensures forall h: nat :: Lookup(Grown(m, segment).segments, h) == Lookup(m.segments, h)
  {
    Grow(m.segments, m.head, m.bumps, segment);
    GrowBounded(m.segments, m.bumps, segment);
    DeadStays(m.dead, m.bumps, Zeros(|segment|));
    hide Linked, FreeExactly, Filled, Counted, Records, Lookup, Zeros, DeadBefore, CapacityFor, Bounded, FreshSegment;
  }

  /** The next generation of the slot at the head of the list. */
  ghost function NextGen<T>(m: Moment<T>): (gen: nat)
    requires Ok(m) && m.chain != []
    ensures gen < TWO32 && m.head < Capacity(m.segments) && m.head < |m.bumps| && m.head < TWO32
  {
    FreeYoung(m.segments, m.head, m.chain, m.bumps);
    CapacityBound(|m.segments|);
    Wrap(At(m.segments, m.head).gen + 1)
  }

  /** emplace, where a slot is free. */
  ghost function TakenFrom<T>(m: Moment<T>, val: T): Moment<T>
    requires Ok(m) && m.chain != []
  {
    Moment(Put(m.segments, m.head, Entry(Some(val), NOT_FREE, NextGen(m))), At(m.segments, m.head).next, m.chain[1..],
           Bump(m.bumps, m.head), m.dead)
  }

  ghost function TakenHandle<T>(m: Moment<T>): nat
    requires Ok(m) && m.chain != []
  {
    CreateHandle(m.head, NextGen(m))
  }

  /** emplace has turned m into n: the first free slot is taken, after a new segment if there was none. */
  ghost predicate EmplaceDone<T>(m: Moment<T>, n: Moment<T>, val: T, h: nat)
    requires Ok(m) && Ok(n)
  {
    match m
    case Moment(s, _, chain, bumps, dead) =>
      && Emplacement(s, bumps, n.segments, n.bumps, val, h) && n.dead == dead
      && Avail(s, chain) == [HandleIdx(h)] + n.chain
  }

  lemma TakenIs<T>(m: Moment<T>, val: T)
    requires Ok(m) && m.chain != []
    ensures var n := TakenFrom(m, val);
      && WellFormed(n.segments, n.head, n.chain, n.bumps)
      && EmplaceEffect(m.segments, m.bumps, n.segments, n.bumps, val, TakenHandle(m))
  {
    hide WellFormed, Bounded, DeadBefore, EmplaceEffect, At, Put, CapacityFor, CreateHandle, HandleIdx, Wrap, Bump, Sized;
    var gen := NextGen(m);
    Taken(m.segments, m.head, m.chain, m.bumps, val);
  }

  lemma TakenBounded<T>(m: Moment<T>, val: T)
    requires Ok(m) && m.chain != []
    ensures var n := TakenFrom(m, val);
      DeadBefore(n.dead, n.bumps) && Sized(n.segments) && Bounded(n.segments, n.bumps)
  {
    FreeYoung(m.segments, m.head, m.chain, m.bumps);
    DeadBumped(m.dead, m.bumps, m.head);
    PutBounded(m.segments, m.bumps, m.head, Entry(Some(val), NOT_FREE, NextGen(m)));
    hide WellFormed, Bounded, DeadBefore, At, Put, CapacityFor, Wrap, Bump, Sized;
  }

  lemma TakenHeadIs<T>(m: Moment<T>)
    requires Ok(m) && m.chain != []
    ensures HandleIdx(TakenHandle(m)) == m.head && m.chain == [m.head] + m.chain[1..] && m.bumps[m.head] <= TWO31
  {
    FreeYoung(m.segments, m.head, m.chain, m.bumps);
    HandleRoundTrip(m.head, NextGen(m));
    hide WellFormed, Bounded, DeadBefore, At, CapacityFor, Wrap, CreateHandle, HandleIdx;
  }

  lemma TakenFromOk<T>(m: Moment<T>, val: T)
    requires Ok(m) && m.chain != []
    ensures Ok(TakenFrom(m, val)) && EmplaceDone(m, TakenFrom(m, val), val, TakenHandle(m))
  {
    TakenIs(m, val);
    TakenBounded(m, val);
    TakenHeadIs(m);
    var n := TakenFrom(m, val);
    assert Filled(m.segments) && Filled(n.segments);
    hide WellFormed, Bounded, DeadBefore, Emplacement, EmplaceEffect, Sized, Filled, CapacityFor, HandleIdx, TakenHandle, Bump, Put;
    EffectEmplaces(m.segments, m.bumps, n.segments, n.bumps, val, TakenHandle(m));
  }

  lemma GrownTaken<T>(m: Moment<T>, segment: seq<Entry<T>>, val: T)
    requires Ok(m) && m.chain == [] && |m.segments| < MAX_SEGMENTS && |segment| == SlotsIn(|m.segments|)
    requires FreshSegment(segment, Capacity(m.segments), END)
    requires Ok(Grown(m, segment)) && Grown(m, segment).chain != []
    ensures var g := Grown(m, segment);
      Ok(TakenFrom(g, val)) && EmplaceDone(m, TakenFrom(g, val), val, TakenHandle(g))
  {
    var g := Grown(m, segment);
    GrownOk(m, segment);
    TakenFromOk(g, val);
    hide WellFormed, Bounded, DeadBefore, Emplacement, CapacityFor, TakenFrom, TakenHandle, Zeros, Records, Lookup, HandleIdx;
    hide FreshSegment, SlotsIn, Fresh;
    GrownEmplacement(m.segments, m.bumps, g.segments, g.bumps, TakenFrom(g, val).segments, TakenFrom(g, val).bumps, val, TakenHandle(g));
  }

  /** The linking loop of add_segment, last slot first. */
  method LinkSegment<T>(size: nat, first: nat, head: nat) returns (segment: seq<Entry<T>>, newHead: nat)
    ensures |segment| == size && FreshSegment(segment, first, head)
    ensures newHead == if size == 0 then head else first
  {
    segment := seq(size, _ => Entry(None, head, 0));
    newHead := head;
    var i := size;
    while i > 0
      invariant 0 <= i <= size && |segment| == size
      invariant newHead == if i == size then head else first + i
      invariant forall k :: i <= k < size ==>
        segment[k] == Entry(None, if k + 1 < size then first + k + 1 else head, 0)
    {
      segment := segment[i - 1 := Entry(None, newHead, 0)];
      newHead := first + (i - 1);
      i := i - 1;
    }
  }

  /** clear's loop over one segment: its slots in use are destroyed in order. */
  method SweepSegment<T>(s: Segments<T>, k: nat, before: seq<nat>) returns (destroyed: seq<nat>)
    requires Sized(s) && k < |s| && |s[k]| == SlotsIn(k) && Swept(s, before, CapacityFor(k))
    ensures Swept(s, destroyed, CapacityFor(k + 1))
  {
    destroyed := before;
    NextCapacity(k);
    hide Sized, Swept, CapacityFor, SlotsIn;
    var j, row, offset := 0, s[k], CapacityFor(k);
    while j < |row|
      invariant j <= |row| && Swept(s, destroyed, offset + j)
    {
      SweepSlot(s, k, j, destroyed);
      if row[j].next == NOT_FREE {
        destroyed := destroyed + [offset + j];
      }
      j := j + 1;
    }
  }

  class SlotMap<T(==)> {
    var segments: Segments<T>
    var head: nat
    /** The free list, front first. */
    ghost var chain: seq<nat>
    /** How often each slot's generation was bumped since its segment was added. */
    ghost var bumps: seq<nat>
    /** Slot and bump count of every handle that was erased or invalidated since the last clear. */
    ghost var dead: set<(nat, nat)>

    ghost function Now(): Moment<T>
      reads this
    {
      Moment(segments, head, chain, bumps, dead)
    }

    ghost predicate Valid()
      reads this
    {
      Ok(Now())
    }

    /** The abstract value: the stored record of every slot in use. */
    ghost function Live(): map<nat, T>
      requires Valid()
      reads this
    {
      Records(segments)
    }

    /** The record a handle resolves to. */
    ghost function Resolve(h: nat): Option<T>
      requires Valid()
      reads this
    {
      Lookup(segments, h)
    }

    constructor ()
      ensures Valid() && Live() == map[] && Now() == Moment([], END, [], [], {})
    {
      segments, head, chain, bumps, dead := [], END, [], [], {};
    }

    /** try_get. */
    method TryGet(h: nat) returns (r: Option<T>)
      requires Valid()
      ensures r == Resolve(h)
    {
      var i := HandleIdx(h);
      if i < Capacity(segments) {
        var e := At(segments, i);
        if e.next == NOT_FREE && e.gen == HandleGen(h) {
          return e.data;
        }
      }
      return None;
    }

    /** Links a new segment into the free list; false when the allocation fails, and nothing changes. */
    method AddSegment(granted: bool) returns (ok: bool, ghost segment: seq<Entry<T>>)
      requires Valid() && chain == []
      requires granted ==> |segments| < MAX_SEGMENTS
      modifies this
      ensures Valid() && ok == granted && Live() == old(Live()) && forall h: nat :: Resolve(h) == old(Resolve(h))
      ensures !ok ==> Now() == old(Now())
      ensures ok ==> |segment| == SlotsIn(|old(segments)|) && FreshSegment(segment, Capacity(old(segments)), END)
      ensures ok ==> Now() == Grown(old(Now()), segment) && chain != []
    {
      hide Ok, CapacityFor, Records, Lookup, FreshSegment, SlotsIn, Grown;
      ghost var m := Now();
      segment := [];
      ok := granted;
      if granted {
        segment := Extend();
        GrownOk(m, segment);
      }
    }

    /** The part of add_segment after the allocation. */
    method Extend() returns (ghost segment: seq<Entry<T>>)
      requires Valid() && chain == [] && |segments| < MAX_SEGMENTS
      modifies this
      ensures |segment| == SlotsIn(|old(segments)|) && FreshSegment(segment, Capacity(old(segments)), END)
      ensures Now() == Grown(old(Now()), segment)
    {
      EmptyAtEnd(segments, head, chain);
      hide Ok, CapacityFor, Fresh, Zeros, FreshSegment, SlotsIn;
      var size, first := SlotsIn(|segments|), Capacity(segments);
      var row, newHead := LinkSegment<T>(size, first, head);
      segments, head := segments + [row], newHead;
      chain, bumps := Fresh(first, size), bumps + Zeros(size);
      segment := row;
    }

    /** emplace: the null handle 0, and an unchanged map, exactly when no slot can be had. */
    method Emplace(val: T, granted: bool) returns (h: nat)
      requires Valid()
      requires granted && chain == [] ==> |segments| < MAX_SEGMENTS
      modifies this
      ensures Valid()
      ensures old(chain) == [] && !granted ==> h == 0 && Now() == old(Now())
      ensures old(chain) != [] || granted ==> EmplaceDone(old(Now()), Now(), val, h)
    {
      EmptyAtEnd(segments, head, chain);
      hide WellFormed, Bounded, DeadBefore, CapacityFor, Records, Lookup, EmplaceDone, TakenFrom, TakenHandle, Grown;
      hide FreshSegment, SlotsIn;
      ghost var m := Now();
      h := 0;
      if head == END {
        var ok, segment := AddSegment(granted);
        if ok {
          GrownTaken(m, segment, val);
          h := TakeHead(val);
        }
      } else {
        TakenFromOk(m, val);
        h := TakeHead(val);
      }
    }

    /** The part of emplace after the free list is known not to be empty. */
    method TakeHead(val: T) returns (h: nat)
      requires Valid() && chain != []
      modifies this
      ensures Now() == TakenFrom(old(Now()), val) && h == TakenHandle(old(Now()))
    {
      assert Sized(segments);
      hide WellFormed, Bounded, DeadBefore, CreateHandle, Put, Sized, CapacityFor, Wrap, Bump;
      ghost var m, gen := Now(), NextGen(Now());
      var idx := head;
      var e := Entry(Some(val), NOT_FREE, Wrap(At(segments, idx).gen + 1));
      h := CreateHandle(idx, e.gen);
      head, segments := At(segments, idx).next, Put(segments, idx, e);
      chain, bumps := chain[1..], Bump(bumps, idx);
    }

    /** erase: destroys the record (returned) and frees the slot, exactly when the handle resolves. */
    method Erase(h: nat) returns (ok: bool, destroyed: Option<T>)
      requires Valid()
      modifies this
      ensures Valid() && destroyed == old(Resolve(h)) && ok == destroyed.Some?
      ensures !ok ==> segments == old(segments) && bumps == old(bumps) && dead == old(dead)
      ensures ok ==>
        var i := HandleIdx(h);
        && i < |old(bumps)| && bumps == Bump(old(bumps), i) && dead == old(dead) + {(i, old(bumps)[i])}
        && i in old(Live()) && Live() == old(Live()) - {i} && chain == [i] + old(chain)
        && (forall g: nat :: HandleIdx(g) != i ==> Resolve(g) == old(Resolve(g)))
    {
      destroyed := TryGet(h);
      if destroyed == None {
        return false, None;
      }
      var idx := HandleIdx(h);
      var e := Entry(None, head, Wrap(At(segments, idx).gen + 1));
      ResolvedYoung(segments, bumps, h);
      PutBounded(segments, bumps, idx, e);
      Erased(segments, head, chain, bumps, idx, e);
      PutLookup(segments, idx, e);
      DeadBumped(dead, bumps, idx);
      hide *;
      segments, head := Put(segments, idx, e), idx;
      chain, dead, bumps := [idx] + chain, dead + {(idx, bumps[idx])}, Bump(bumps, idx);
      ok := true;
    }

    /** invalidate: the handle stops resolving; record and slot stay. */
    method Invalidate(h: nat) returns (ok: bool)
      requires Valid()
      modifies this
      ensures Valid() && ok == old(Resolve(h)).Some? && Live() == old(Live()) && chain == old(chain)
      ensures !ok ==> segments == old(segments) && bumps == old(bumps) && dead == old(dead)
      ensures ok ==>
        var i := HandleIdx(h);
        && i < |old(bumps)| && bumps == Bump(old(bumps), i) && dead == old(dead) + {(i, old(bumps)[i])}
        && (forall g: nat :: HandleIdx(g) != i ==> Resolve(g) == old(Resolve(g)))
    {
      var found := TryGet(h);
      if found == None {
        return false;
      }
      var idx := HandleIdx(h);
      var e := At(segments, idx).(gen := Wrap(At(segments, idx).gen + 1));
      ResolvedYoung(segments, bumps, h);
      PutBounded(segments, bumps, idx, e);
      Invalidated(segments, head, chain, bumps, idx, e);
      PutLookup(segments, idx, e);
      DeadBumped(dead, bumps, idx);
      hide *;
      segments := Put(segments, idx, e);
      dead, bumps := dead + {(idx, bumps[idx])}, Bump(bumps, idx);
      ok := true;
    }

    /**
     * find_handle, for the address of the given slot of the given segment: the handle with the current
     * generation when the slot is in use, and 0 for every other address.
     */
    method FindHandle(segment: nat, slot: nat) returns (h: nat)
      requires Valid()
      ensures !Stored(segments, segment, slot) ==> h == 0
      ensures Stored(segments, segment, slot) ==>
        var i := CapacityFor(segment) + slot;
        && i in Live() && i < |bumps| && i < TWO32 && h == CreateHandle(i, Wrap(bumps[i]))
        && (bumps[i] < TWO31 ==> Resolve(h) == Some(Live()[i]))
    {
      ghost var found := Found(segments, segment, slot);
      if Stored(segments, segment, slot) {
        FoundResolves(segments, bumps, segment, slot);
      }
      hide CreateHandle, Records, Lookup, At, Linked, FreeExactly, Counted, DeadBefore;
      h := 0;
      var k := 0;
      while k < |segments|
        invariant k <= |segments| && h == (if segment < k then found else 0)
      {
        var j, size, offset := 0, SlotsIn(k), CapacityFor(k);
        while j < size
          invariant j <= size && h == if k == segment && slot < j then found else 0
        {
          if segments[k][j].next == NOT_FREE && k == segment && j == slot {
            RowAt(segments, k, j);
            GenBound(segments, bumps, CapacityFor(k) + j);
            h := CreateHandle(offset + j, segments[k][j].gen);
            break;
          }
          j := j + 1;
        }
        if h != 0 {
          break;
        }
        k := k + 1;
      }
    }

    /** The destructor loop of clear: every stored record is destroyed once, in index order. */
    method DestroyAll() returns (destroyed: seq<nat>)
      requires Valid()
      ensures Ascending(destroyed)
      ensures forall i: nat :: i in destroyed <==> i in Live()
    {
      assert CapacityFor(0) == 0 && Sized(segments) && Filled(segments);
      hide At, CapacityFor, SlotsIn, Ok, WellFormed, DeadBefore, Records, Bounded, Filled, Swept;
      NothingSwept(segments);
      destroyed := [];
      var k := 0;
      while k < |segments|
        invariant k <= |segments| && Swept(segments, destroyed, CapacityFor(k))
      {
        destroyed := SweepSegment(segments, k, destroyed);
        k := k + 1;
      }
      SweptAll(segments, destroyed);
    }

    /** clear: nothing is left of segments, free list and generations, nor of which handles were dead. */
    method Clear() returns (destroyed: seq<nat>)
      requires Valid()
      modifies this
      ensures Valid() && Live() == map[] && segments == [] && dead == {} && bumps == []
      ensures Ascending(destroyed)
      ensures forall i: nat :: i in destroyed <==> i in old(Live())
    {
      destroyed := DestroyAll();
      segments, head, chain, bumps, dead := [], END, [], [], {};
    }

    /** Between clears a dead handle never resolves, whatever its slot is used for. */
    lemma DeadNeverResolves(i: nat, g: nat)
      requires Valid() && (i, g) in dead
      ensures i < TWO32 && g < TWO32 && Resolve(CreateHandle(i, g)) == None
    {
      assert bumps[i] <= TWO31 + 1;
      StaleUntil(segments, bumps, i, g);
      hide CreateHandle, CapacityFor, Linked;
    }

    /**
     * What that takes is that generations stop: a record that is stored with a generation of 2^31 or more
     * is resolved to by no handle, so its slot is never released, and 2^31 + 1 is as far as it gets.
     */
    lemma WornOut(i: nat, h: nat)
      requires Valid() && i < |bumps| && bumps[i] >= TWO31
      ensures i < TWO32 && bumps[i] <= if i in Live() then TWO31 + 1 else TWO31
      ensures Resolve(h).Some? ==> HandleIdx(h) != i
    {
      CapacityBound(|segments|);
      if Resolve(h).Some? {
        ResolvedYoung(segments, bumps, h);
      }
      hide CapacityFor, Linked, HandleIdx, HandleGen;
    }

    /** The handle with a live slot's current generation resolves to its record. */
    lemma CurrentResolves(i: nat)
      requires Valid() && i in Live() && i < |bumps| && bumps[i] < TWO31
      ensures i < TWO32 && Resolve(CreateHandle(i, bumps[i])) == Some(Live()[i])
    {
      CapacityBound(|segments|);
      HandleRoundTrip(i, bumps[i]);
      hide CreateHandle, HandleIdx, HandleGen, CapacityFor, Linked;
      assert At(segments, i).gen == bumps[i];
    }

    /** How many slots there are; the records are in them. */
    method Size() returns (n: nat)
      requires Valid()
      ensures n == |bumps| && forall i :: i in Live() ==> i < n
    {
      n := Capacity(segments);
    }

    /** The record in a slot. */
    method Peek(i: nat) returns (r: Option<T>)
      requires Valid() && i < |bumps|
      ensures r == if i in Live() then Some(Live()[i]) else None
    {
      var e := At(segments, i);
      r := if e.next == NOT_FREE then e.data else None;
    }

    /** What find_handle owes for a live slot resolves exactly while the generation is below 2^31. */
    lemma WornOutOr(i: nat, h: nat)
      requires Valid() && i in Live() && i < |bumps| && i < TWO32 && h == CreateHandle(i, Wrap(bumps[i]))
      ensures HandleIdx(h) == i && Resolve(h) == if bumps[i] < TWO31 then Some(Live()[i]) else None
    {
      HandleRoundTrip(i, Wrap(bumps[i]));
      if bumps[i] < TWO31 {
        CurrentResolves(i);
      } else {
        WornOut(i, h);
      }
      hide Ok, CreateHandle, HandleIdx;
    }

    /** Where find_handle finds the record of a live slot. */
    lemma Addressed(i: nat)
      requires Valid() && i in Live()
      ensures i < |bumps| && SlotOf(i) >= 0 && CapacityFor(SegmentOf(i)) + SlotOf(i) == i
      ensures Stored(segments, SegmentOf(i), SlotOf(i))
    {
      AddressInRange(i, |segments|);
    }

    /** What a handle resolves to is the record of its slot. */
    lemma ResolvesInSlot(h: nat)
      requires Valid()
      ensures Resolve(h).Some? ==> HandleIdx(h) in Live() && Resolve(h) == Some(Live()[HandleIdx(h)])
    {
      hide At, CapacityFor, Linked, HandleIdx, HandleGen;
    }

    /** Of the 64-bit values, a live slot is resolved to by one handle (bit 63 is ignored). */
    lemma OneHandlePerSlot(i: nat, h: nat)
      requires Valid() && i in Live() && h < TWO64
      ensures i < |bumps| && i < TWO32
      ensures Resolve(h).Some? && HandleIdx(h) == i <==>
        var g := Wrap(bumps[i]);
        g < TWO31 && (h == CreateHandle(i, g) || h == CreateHandle(i, g) + TWO63)
    {
      ResolvingHandles(segments, i, h);
    }
  }

  /**
   * A slot that wears out: after 2^30 records in turn it holds one that no handle resolves to, not even the
   * handle that its creation returned.
   */
  method WearOut<T(==)>(val: T) returns (m: SlotMap<T>, h: nat)
    ensures fresh(m) && m.Valid() && h != 0
    ensures HandleIdx(h) in m.Live() && HandleIdx(h) < |m.bumps| && m.bumps[HandleIdx(h)] == TWO31 + 1
    ensures forall g: nat :: m.Resolve(g).Some? ==> HandleIdx(g) != HandleIdx(h)
  {
    hide Ok, Records, Lookup, CapacityFor, HandleIdx, CreateHandle, Emplacement, EmplaceDone, Fresh, SlotsIn;
    m := new SlotMap();
    ghost var before := m.Now();
    h := m.Emplace(val, true);
    Issued(before, m.Now(), val, h);
    ghost var i := HandleIdx(h);
    var n := 0;
    while n < TWO31 / 2
      invariant n <= TWO31 / 2 && fresh(m) && m.Valid() && HandleIdx(h) == i && i < |m.bumps| && i in m.Live()
      invariant m.bumps[i] == 2 * n + 1 && i < TWO32 && h == CreateHandle(i, 2 * n + 1) && h != 0
    {
      m.CurrentResolves(i);
      var ok, gone := m.Erase(h);
      before := m.Now();
      assert Avail(before.segments, before.chain)[0] == i;
      h := m.Emplace(val, false);
      Issued(before, m.Now(), val, h);
      n := n + 1;
    }
    forall g: nat
      ensures m.Resolve(g).Some? ==> HandleIdx(g) != i
    {
      m.WornOut(i, g);
    }
  }

  /** What emplace says of the slot it took. */
  lemma Issued<T>(m: Moment<T>, n: Moment<T>, val: T, h: nat)
    requires Ok(m) && Ok(n) && EmplaceDone(m, n, val, h)
    ensures var i := HandleIdx(h);
      && Avail(m.segments, m.chain) == [i] + n.chain && i < |n.bumps| && i < TWO32 && i in Records(n.segments)
      && n.bumps[i] == (if i < |m.bumps| then m.bumps[i] + 1 else 1) < TWO32 && h == CreateHandle(i, n.bumps[i]) != 0
  {
    hide WellFormed, Records, Lookup, CapacityFor, Fresh, SlotsIn, CreateHandle, Bounded, DeadBefore;
  }
}
