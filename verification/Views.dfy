/**
 * Descriptor views: a descriptor region, with its bitset, put under the device. The slot that the protocol is
 * given is the one that the region serves, and a view's 64-bit handle is what its free is accepted by.
 */
module Views {
  import opened Bits
  import opened Bitset
  import opened Records
  import opened RetireQueues
  import opened Lifetime
  import opened LifetimeRecording
  import opened LifetimeRetirement
  import Runs = LifetimeRuns
  import Devices
  import D = Descriptors

  // --- What a drain does to slots ---------------------------------------------------------

  /** A slot stays as it is, or its retirement is over. */
  predicate Settled(before: D.Slot<Res>, after: D.Slot<Res>) {
    after == before || (before.state == D.SlotState.Retiring && after == D.Slot(D.SlotState.Free, before.gen, None))
  }

  lemma {:induction false} ProcessedSlots(s: State, items: seq<Item<Res>>, i: nat)
    requires i < |s.slots|
    ensures |ProcessedAll(s, items).slots| == |s.slots| && Settled(s.slots[i], ProcessedAll(s, items).slots[i])
    decreases items
  {
    hide Release, Unpublished;
    if items != [] {
      ProcessedSlots(Processed(s, items[0]), items[1..], i);
    }
  }

  lemma DrainedSlots(s: State)
    ensures |Drained(s).slots| == |s.slots|
    ensures forall i :: 0 <= i < |s.slots| ==> Settled(s.slots[i], Drained(s).slots[i])
  {
    var n := DueCount(s.queue, s.completed);
    var t := s.(queue := s.queue[n..]);
    ProcessedLength(t, Flat(s.queue[..n]));
    forall i | 0 <= i < |s.slots|
      ensures Settled(s.slots[i], Drained(s).slots[i])
    {
      ProcessedSlots(t, Flat(s.queue[..n]), i);
    }
    hide Settled;
  }

  lemma {:induction false} ProcessedLength(s: State, items: seq<Item<Res>>)
    ensures |ProcessedAll(s, items).slots| == |s.slots|
    decreases items
  {
    hide Release, Unpublished;
    if items != [] {
      ProcessedLength(Processed(s, items[0]), items[1..]);
    }
  }

  // --- What a creation does ---------------------------------------------------------------

  /**
   * From s to t a view was made in the given slot. There is no slot, and nothing happens, exactly when the
   * owner's handle does not resolve or no slot above 0 is free; otherwise it is the least free one. The
   * handle names it, or is 0 when the native write fails.
   */
  ghost predicate Made(s: State, t: State, kind: nat, owner: Option<Res>, written: bool, h: nat, slot: nat) {
    if slot == NO_SLOT then
      && h == 0 && t == s
      && ((owner.Some? && owner.value !in s.handles) || forall i :: 0 < i < |s.slots| ==> s.slots[i].state != D.SlotState.Free)
    else
      && (owner.Some? ==> owner.value in s.handles) && D.LeastSlot(s.slots, slot) && t == ViewCreated(s, slot, owner, written)
      && if written then h != 0 && D.Issued(s.slots, t.slots, owner, kind, h, slot) else h == 0
  }

  lemma MadeStale(s: State, kind: nat, owner: Option<Res>, written: bool)
    requires owner.Some? && owner.value !in s.handles
    ensures Made(s, s, kind, owner, written, 0, NO_SLOT)
  {
  }

  /** The region's answer is the protocol's slot. */
  lemma MadeServed(s: State, kind: nat, owner: Option<Res>, written: bool, h: nat, slot: nat, after: D.Table<Res>)
    requires Inv(s) && |s.slots| < NO_SLOT && (owner.Some? ==> owner.value in s.handles)
    requires slot == NO_SLOT <==> forall i :: 0 < i < |s.slots| ==> s.slots[i].state != D.SlotState.Free
    requires slot != NO_SLOT ==> D.LeastSlot(s.slots, slot)
    requires after == D.Served(s.slots, slot, owner, written) && (h == 0 <==> !written || slot == NO_SLOT)
    requires h != 0 ==> D.Issued(s.slots, after, owner, kind, h, slot)
    ensures slot != NO_SLOT ==> slot < |s.slots|
    ensures var t := if slot == NO_SLOT then s else ViewCreated(s, slot, owner, written);
      Made(s, t, kind, owner, written, h, slot) && t.slots == after && Inv(t)
  {
    HandlesLive(s);
    if slot != NO_SLOT {
      ViewCreatedInv(s, slot, owner, written);
    }
    hide Inv, D.EncodeHandle, Retain;
  }

  // --- The device with its region ---------------------------------------------------------

  class Views {
    const device: Devices.Device
    const region: D.Region<Res>

    ghost predicate Valid()
      reads this, device, device.retire, region, region.bits, region.bits.data
    {
      Inv(device.State()) && region.Valid() && region.slots == device.slots
    }

    constructor (poolCount: nat, slotCount: nat, kind: nat)
      requires slotCount < NO_SLOT && kind < D.TYPES
      ensures Valid() && Runs.Initial(device.State()) && fresh(device) && fresh(device.retire)
      ensures fresh(region) && fresh(region.bits) && fresh(region.bits.data) && region.kind == kind
    {
      device := new Devices.Device(poolCount, slotCount);
      region := new D.Region(slotCount, kind);
      new;
      Runs.InitialInv(device.State());
    }

    /** desc_allocate_image_view and create_sampler: the protocol step, on the least free slot. */
    method CreateView(owner: Option<Res>, written: bool) returns (h: nat, slot: nat)
      requires Valid()
      modifies device, region, region.bits.data
      ensures Valid() && Made(old(device.State()), device.State(), region.kind, owner, written, h, slot)
    {
      hide Inv, D.Region.Valid, Made, ViewCreated, D.Issued, D.LeastSlot, D.Served, D.EncodeHandle, D.Allocate, D.Release;
      ghost var s := device.State();
      h, slot := 0, NO_SLOT;
      HandlesLive(s);
      region.Few();
      if owner.Some? && owner.value !in device.handles {
        MadeStale(s, region.kind, owner, written);
      } else {
        h, slot := region.Create(owner, written);
        MadeServed(s, region.kind, owner, written, h, slot, region.slots);
        if slot != NO_SLOT {
          device.CreateView(slot, owner, written);
        }
      }
    }

    /** desc_free_accept and the retirement of what it accepts, at the value of the token. */
    method FreeView(h: nat, token: Option<nat>, st: Storage)
      requires Valid() && Genuine(device.State(), token)
      modifies device, device.retire, region
      ensures Valid()
      ensures device.State() == match D.DecodeHandle(h, region.kind)
        case None => old(device.State())
        case Some((i, gen)) => ViewFreed(old(device.State()), i, gen, token, st)
    {
      hide Inv, Sorted, Available, Enqueued, D.DecodeHandle, D.Region.Valid, D.Outstanding;
      ghost var s := device.State();
      region.Acceptance(h);
      QueueSorted(s);
      var r := region.FreeAccept(h);
      var d := D.DecodeHandle(h, region.kind);
      if d.Some? {
        ViewFreedInv(s, d.value.0, d.value.1, token, st);
        if r.Some? {
          device.FreeView(d.value.0, d.value.1, token, st);
        }
      }
    }

    /** queue_process_events, with the slots whose retirement it ends. */
    method Drain()
      requires Valid()
      modifies device, device.retire, region, region.bits.data
      ensures Valid() && device.State() == Drained(old(device.State()))
    {
      hide Inv, Drained, D.Region.Valid;
      ghost var s := device.State();
      DrainedInv(s);
      DrainedSlots(s);
      device.Drain();
      var i := 0;
      while i < |device.slots|
        invariant i <= |device.slots| == |region.slots| == |s.slots| && region.Valid() && device.State() == Drained(s)
        invariant forall k :: 0 <= k < i ==> region.slots[k] == device.slots[k]
        invariant forall k :: i <= k < |s.slots| ==> region.slots[k] == s.slots[k]
      {
        if region.slots[i] != device.slots[i] {
          var owner := region.RetireSlot(i, region.slots[i].gen);
        }
        i := i + 1;
      }
    }
  }

  lemma HandlesLive(s: State)
    requires Inv(s)
    ensures forall r :: r in s.handles ==> r in s.store.records
  {
    forall r | r in s.handles
      ensures r in s.store.records
    {
      HandleResolves(s, r);
    }
    hide Inv;
  }

  lemma QueueSorted(s: State)
    requires Inv(s)
    ensures Sorted(s.queue)
  {
    hide Held, RefInv, PoolInv, TextureInv, SlotInv, Sorted;
  }
}
