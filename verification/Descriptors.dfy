/** Descriptor slots of resources.cpp: handles, the slot state machine, and the region that owns the slots. */
module Descriptors {
  import opened Bits
  import opened Bitset

  // --- Handles ----------------------------------------------------------------------------

  const GENS: nat := 0x1_0000
  const SLOTS: nat := 0x1_0000_0000
  const TYPES: nat := 0x100

  /** encode_desc_handle: slot in bits 0..31, generation in 32..47, type in 48..55. */
  function EncodeHandle(slot: nat, gen: nat, kind: nat): nat {
    slot + gen * SLOTS + kind * (SLOTS * GENS)
  }

  /** decode_desc_handle: slot and generation of a handle of the expected type. */
  function DecodeHandle(h: nat, expected: nat): Option<(nat, nat)> {
    if h / (SLOTS * GENS) % TYPES != expected then None
    else Some((h % SLOTS, h / SLOTS % GENS))
  }

  /** A handle decodes to what it was made of for its own type, and to nothing for any other. */
  lemma HandleRoundTrip(slot: nat, gen: nat, kind: nat, expected: nat)
    requires slot < SLOTS && gen < GENS && kind < TYPES
    ensures DecodeHandle(EncodeHandle(slot, gen, kind), expected) == if kind == expected then Some((slot, gen)) else None
  {
    var h := EncodeHandle(slot, gen, kind);
    assert h / SLOTS == gen + kind * GENS;
    assert h / (SLOTS * GENS) == kind;
  }

  /** h is the handle of a slot with a generation, with anything in the ignored top byte. */
  predicate Names(h: nat, slot: nat, gen: nat, kind: nat) {
    h % (SLOTS * GENS * TYPES) == EncodeHandle(slot, gen, kind)
  }

  /** What decodes to a slot and a generation: exactly the values that name them. */
  lemma HandleValues(h: nat, kind: nat, slot: nat, gen: nat)
    requires slot < SLOTS && gen < GENS && kind < TYPES
    ensures DecodeHandle(h, kind) == Some((slot, gen)) <==> Names(h, slot, gen, kind)
    ensures Names(h, slot, gen, kind) <==>
      h % 0x100_0000_0000_0000 == slot + gen * 0x1_0000_0000 + kind * 0x1_0000_0000_0000
  {
    var low, top := h % (SLOTS * GENS * TYPES), h / (SLOTS * GENS * TYPES);
    DropTop(low, top);
    Fields(low);
    if Names(h, slot, gen, kind) {
      HandleRoundTrip(slot, gen, kind, kind);
    }
  }

  lemma DropTop(low: nat, top: nat)
    ensures var h := low + top * (SLOTS * GENS * TYPES);
      && h % SLOTS == low % SLOTS && h / SLOTS % GENS == low / SLOTS % GENS
      && h / (SLOTS * GENS) % TYPES == low / (SLOTS * GENS) % TYPES
  {
    var h := low + top * (SLOTS * GENS * TYPES);
    assert h / SLOTS == low / SLOTS + top * (GENS * TYPES);
    assert h / (SLOTS * GENS) == low / (SLOTS * GENS) + top * TYPES;
  }

  lemma Fields(low: nat)
    requires low < SLOTS * GENS * TYPES
    ensures low == low % SLOTS + low / SLOTS % GENS * SLOTS + low / (SLOTS * GENS) % TYPES * (SLOTS * GENS)
  {
    assert low / SLOTS == low / (SLOTS * GENS) * GENS + low / SLOTS % GENS;
  }

  // --- The slot state machine -------------------------------------------------------------

  datatype SlotState = Free | Allocated | Retiring

  /** `owner` is the texture record the descriptor keeps alive; samplers have none. */
  datatype Slot<O> = Slot(state: SlotState, gen: nat, owner: Option<O>)

  type Table<O> = seq<Slot<O>>

  /** A 16-bit increment. */
  function NextGen(gen: nat): nat {
    (gen + 1) % GENS
  }

  function Allocate<O>(t: Table<O>, i: nat, owner: Option<O>): Table<O>
    requires i < |t|
  {
    t[i := Slot(Allocated, NextGen(t[i].gen), owner)]
  }

  /** Undoes an allocation whose native descriptor could not be written; also the end of a retirement. */
  function Release<O>(t: Table<O>, i: nat): Table<O>
    requires i < |t|
  {
    t[i := Slot(Free, t[i].gen, None)]
  }

  /** The guard of desc_free_accept. */
  predicate Accepts<O>(t: Table<O>, i: nat, gen: nat) {
    i < |t| && t[i].state == Allocated && t[i].gen == gen
  }

  function Accept<O>(t: Table<O>, i: nat): Table<O>
    requires i < |t|
  {
    t[i := Slot(Retiring, NextGen(t[i].gen), t[i].owner)]
  }

  /** The guard of desc_retire_slot. */
  predicate Retires<O>(t: Table<O>, i: nat, gen: nat) {
    i < |t| && t[i].state == Retiring && t[i].gen == gen
  }

  /** A free accepted once is not accepted again, in whatever order frees and retirements arrive. */
  lemma FreedOnce<O>(t: Table<O>, i: nat, gen: nat)
    requires Accepts(t, i, gen) && gen < GENS
    ensures !Accepts(Accept(t, i), i, gen) && Retires(Accept(t, i), i, NextGen(gen))
    ensures !Accepts(Release(Accept(t, i), i), i, gen) && !Retires(Release(Accept(t, i), i), i, NextGen(gen))
    ensures forall o :: !Accepts(Allocate(Release(Accept(t, i), i), i, o), i, gen)
    ensures forall o, g :: !Retires(Allocate(Release(Accept(t, i), i), i, o), i, g)
  {
  }

  /** 16 bits of a bump count. */
  function Low16(n: nat): (g: nat)
    ensures g < GENS && NextGen(g) == (n + 1) % GENS
  {
    n % GENS
  }

  lemma WithinWrap(a: nat, b: nat)
    requires a < b <= a + GENS
    ensures Low16(a) == Low16(b) <==> b == a + GENS
  {
  }

  /** Slots, their bump counts and the members of their bitset fit together. */
  ghost predicate Consistent<O>(t: Table<O>, bumps: seq<nat>, members: set<nat>) {
    && |bumps| == |t| < SLOTS
    && (forall i :: 0 <= i < |t| ==> t[i].gen == Low16(bumps[i]))
    && (|t| > 0 ==> t[0].state == Free)
    && (forall i: nat :: i < |t| ==> (i in members <==> i == 0 || t[i].state != Free))
  }

  lemma Taken<O>(t: Table<O>, bumps: seq<nat>, members: set<nat>, i: nat, owner: Option<O>)
    requires Consistent(t, bumps, members) && i < |t| && i !in members
    ensures Consistent(Allocate(t, i, owner), bumps[i := bumps[i] + 1], members + {i})
  {
    assert Low16(bumps[i] + 1) == NextGen(t[i].gen);
  }

  lemma Released<O>(t: Table<O>, bumps: seq<nat>, members: set<nat>, i: nat)
    requires Consistent(t, bumps, members) && 0 < i < |t|
    ensures Consistent(Release(t, i), bumps, members - {i})
  {
  }

  lemma Accepted<O>(t: Table<O>, bumps: seq<nat>, members: set<nat>, i: nat)
    requires Consistent(t, bumps, members) && i < |t| && t[i].state == SlotState.Allocated
    ensures Consistent(Accept(t, i), bumps[i := bumps[i] + 1], members)
  {
    assert Low16(bumps[i] + 1) == NextGen(t[i].gen);
  }

  /** h is the handle of an allocated slot (with anything in its ignored top byte). */
  ghost predicate Outstanding<O>(t: Table<O>, kind: nat, h: nat) {
    exists i: nat :: i < |t| && t[i].state == SlotState.Allocated && Names(h, i, t[i].gen, kind)
  }

  /** desc_free_accept's tests of a handle. */
  predicate Acceptable<O>(t: Table<O>, kind: nat, h: nat) {
    var d := DecodeHandle(h, kind);
    d.Some? && Accepts(t, d.value.0, d.value.1)
  }

  /** The tests pass exactly for the one outstanding handle of an allocated slot. */
  lemma OutstandingIs<O>(t: Table<O>, bumps: seq<nat>, members: set<nat>, kind: nat, h: nat)
    requires Consistent(t, bumps, members) && kind < TYPES
    ensures Outstanding(t, kind, h) <==> Acceptable(t, kind, h)
  {
    forall i: nat | i < |t|
      ensures DecodeHandle(h, kind) == Some((i, t[i].gen)) <==> Names(h, i, t[i].gen, kind)
    {
      HandleValues(h, kind, i, t[i].gen);
    }
    hide Names, DecodeHandle;
  }

  /**
   * A handle made at a slot's b-th bump stays rejected until the slot was bumped 2^16 times more, and
   * is accepted again then if the slot is allocated.
   */
  lemma StaleHandle<O>(t: Table<O>, bumps: seq<nat>, members: set<nat>, kind: nat, slot: nat, b: nat)
    requires Consistent(t, bumps, members) && kind < TYPES && slot < |t| && b < bumps[slot] <= b + GENS
    ensures Acceptable(t, kind, EncodeHandle(slot, Low16(b), kind))
       <==> bumps[slot] == b + GENS && t[slot].state == SlotState.Allocated
  {
    HandleRoundTrip(slot, Low16(b), kind, kind);
    WithinWrap(b, bumps[slot]);
    hide EncodeHandle, DecodeHandle, Low16;
  }

  /** One descriptor region: its bitset and its slots. Slot 0 is the reserved null descriptor. */
  class Region<O> {
    const kind: nat
    const bits: TwoLevelBitset
    var slots: Table<O>
    /** How often each slot's generation was bumped, without the 16-bit wrap. */
    ghost var bumps: seq<nat>

    ghost predicate Valid()
      reads this, bits.data
    {
      && bits.Valid() && kind < TYPES
      && |slots| == bits.size && Consistent(slots, bumps, bits.Contents())
    }

    constructor (capacity: nat, kind: nat)
      requires capacity < NO_SLOT && kind < TYPES
      ensures Valid() && fresh(bits) && fresh(bits.data) && this.kind == kind
      ensures |slots| == capacity && forall i :: 0 <= i < capacity ==> slots[i] == Slot(Free, 0, None)
    {
      this.kind := kind;
      var b := new TwoLevelBitset(capacity);
      ghost var before := b.Contents();
      var taken := b.SetLeadingZero();
      assert capacity > 0 ==> 0 !in before;
      bits := b;
      slots := seq(capacity, _ => Slot(Free, 0, None));
      bumps := seq(capacity, _ => 0);
    }

    /**
     * desc_allocate_image_view and create_sampler, on the least free slot above 0 (NO_SLOT if there is none).
     * The new handle names that slot; 0 comes back, and no slot is taken, exactly when there is none or the
     * native write fails.
     */
    method Create(owner: Option<O>, written: bool) returns (h: nat, slot: nat)
      requires Valid()
      modifies this, bits.data
      ensures Valid()
      ensures slot == NO_SLOT <==> forall i :: 0 < i < |old(slots)| ==> old(slots)[i].state != Free
      ensures slot != NO_SLOT ==> LeastSlot(old(slots), slot)
      ensures slots == Served(old(slots), slot, owner, written)
      ensures h == 0 <==> !written || slot == NO_SLOT
      ensures h != 0 ==> Issued(old(slots), slots, owner, kind, h, slot)
    {
      ghost var members := bits.Contents();
      slot := bits.SetLeadingZero();
      hide EncodeHandle, Consistent, Low16, NextGen;
      h := 0;
      if slot == NO_SLOT {
        AllTaken(slots, bumps, members);
        return;
      }
      LeastFree(slots, bumps, members, slot);
      Taken(slots, bumps, members, slot, owner);
      slots := Allocate(slots, slot, owner);
      bumps := bumps[slot := bumps[slot] + 1];
      if !written {
        Released(slots, bumps, members + {slot}, slot);
        slots := Release(slots, slot);
        bits.Clear(slot);
        return;
      }
      h := EncodeHandle(slot, slots[slot].gen, kind);
      NotNull(slot, slots[slot].gen, kind);
    }

    /** desc_free_accept: slot and new generation when the free is accepted. */
    method FreeAccept(h: nat) returns (r: Option<(nat, nat)>)
      requires Valid()
      modifies this
      ensures Valid()
      ensures r.Some? <==> Outstanding(old(slots), kind, h)
      ensures r.Some? ==>
        && r.value.0 == h % SLOTS < |old(slots)|
        && slots == Accept(old(slots), r.value.0) && r.value.1 == slots[r.value.0].gen
        && bumps == old(bumps)[r.value.0 := old(bumps)[r.value.0] + 1]
      ensures r == None ==> slots == old(slots) && bumps == old(bumps)
    {
      OutstandingIs(slots, bumps, bits.Contents(), kind, h);
      var decoded := DecodeHandle(h, kind);
      hide Outstanding, EncodeHandle, Names, Consistent, Low16, NextGen;
      if decoded == None {
        return None;
      }
      var (slot, gen) := decoded.value;
      if !Accepts(slots, slot, gen) {
        return None;
      }
      Accepted(slots, bumps, bits.Contents(), slot);
      slots := Accept(slots, slot);
      bumps := bumps[slot := bumps[slot] + 1];
      r := Some((slot, slots[slot].gen));
    }

    /** NO_SLOT is no slot of the region. */
    lemma Few()
      requires Valid()
      ensures |slots| < NO_SLOT
    {
    }

    /** What is accepted is a decoded slot that is allocated with the decoded generation. */
    lemma Acceptance(h: nat)
      requires Valid()
      ensures Outstanding(slots, kind, h) <==> Acceptable(slots, kind, h)
      ensures DecodeHandle(h, kind).Some? ==> DecodeHandle(h, kind).value.0 == h % SLOTS
    {
      OutstandingIs(slots, bumps, bits.Contents(), kind, h);
      hide Outstanding, Consistent;
    }

    /** desc_retire_slot: a no-op unless the slot is still Retiring with the given generation. */
    method RetireSlot(slot: nat, gen: nat) returns (owner: Option<O>)
      requires Valid()
      modifies this, bits.data
      ensures Valid() && bumps == old(bumps)
      ensures Retires(old(slots), slot, gen) ==> slots == Release(old(slots), slot) && owner == old(slots)[slot].owner
      ensures !Retires(old(slots), slot, gen) ==> slots == old(slots) && owner == None
    {
      owner := None;
      if Retires(slots, slot, gen) {
        NotNullSlot(slots, bumps, bits.Contents(), slot);
        Released(slots, bumps, bits.Contents(), slot);
        hide Consistent;
        owner := slots[slot].owner;
        slots := Release(slots, slot);
        bits.Clear(slot);
      }
    }
  }

  /** The least free slot above 0. */
  ghost predicate LeastSlot<O>(t: Table<O>, i: nat) {
    0 < i < |t| && t[i].state == Free && forall k :: 0 < k < i ==> t[k].state != Free
  }

  /** The slots after an allocation that gets slot i; a failing native write gives it back. */
  ghost function Served<O>(t: Table<O>, i: nat, owner: Option<O>, written: bool): Table<O> {
    if i >= |t| then t
    else if written then Allocate(t, i, owner)
    else Release(Allocate(t, i, owner), i)
  }

  /** Handle h was made for slot i, the least free one above 0. */
  ghost predicate Issued<O>(before: Table<O>, after: Table<O>, owner: Option<O>, kind: nat, h: nat, i: nat) {
    && LeastSlot(before, i) && after == Allocate(before, i, owner)
    && h == EncodeHandle(i, after[i].gen, kind)
  }

  lemma NotNull(slot: nat, gen: nat, kind: nat)
    requires slot > 0
    ensures EncodeHandle(slot, gen, kind) != 0
  {
  }

  lemma NotNullSlot<O>(t: Table<O>, bumps: seq<nat>, members: set<nat>, i: nat)
    requires Consistent(t, bumps, members) && i < |t| && t[i].state != Free
    ensures i > 0
  {
  }

  lemma AllTaken<O>(t: Table<O>, bumps: seq<nat>, members: set<nat>)
    requires Consistent(t, bumps, members) && forall i: nat :: i < |t| ==> i in members
    ensures forall i :: 0 < i < |t| ==> t[i].state != Free
  {
  }

  lemma LeastFree<O>(t: Table<O>, bumps: seq<nat>, members: set<nat>, slot: nat)
    requires Consistent(t, bumps, members) && slot < |t| && slot !in members
    requires forall i: nat :: i < slot ==> i in members
    ensures slot > 0 && t[slot].state == Free && forall k :: 0 < k < slot ==> t[k].state != Free
  {
    assert 0 in members;
  }
}
