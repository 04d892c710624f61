/** The device object whose methods the lifetime protocol is made of; each is proved to take its protocol step. */
module Devices {
  import opened Bits
  import opened Records
  import opened CommandPools
  import opened RetireQueues
  import opened Lifetime
  import opened LifetimeRecording
  import opened LifetimeRetirement
  import opened Submission
  import Runs = LifetimeRuns
  import D = Descriptors

  // --- Sequences of updates ---------------------------------------------------------------

  lemma {:induction false} ReleaseAppend(c: Store, a: seq<Res>, b: seq<Res>)
    ensures ReleaseAll(c, a + b) == ReleaseAll(ReleaseAll(c, a), b)
    decreases a
  {
    if a == [] {
      assert a + b == b;
    } else {
      assert (a + b)[1..] == a[1..] + b;
      ReleaseAppend(Release(c, a[0]), a[1..], b);
    }
  }

  lemma {:induction false} WithInitAppend(c: Store, a: seq<Res>, x: Res, i: Init)
    ensures WithInit(c, a + [x], i) == WithInit(c, a, i) + (if x in c.records && InitOf(c, x) == i then [x] else [])
  {
    if a == [] {
      assert a + [x] == [x];
    } else {
      assert (a + [x])[1..] == a[1..] + [x];
      WithInitAppend(c, a[1..], x, i);
    }
  }

  lemma {:induction false} RetainedByAppend(pools: seq<Pool>, a: seq<nat>, p: nat)
    requires p < |pools| && forall q :: q in a ==> q < |pools|
    ensures RetainedBy(pools, a + [p]) == RetainedBy(pools, a) + pools[p].recording.All()
  {
    if a == [] {
      assert a + [p] == [p];
      assert [p][1..] == [];
    } else {
      assert (a + [p])[1..] == a[1..] + [p];
      assert forall q :: q in a[1..] ==> q in a;
      RetainedByAppend(pools, a[1..], p);
    }
  }

  lemma PushedTwice(q: Queue<Res>, k: nat, a: seq<Item<Res>>, b: seq<Item<Res>>)
    requires k < |q|
    ensures Pushed(Pushed(q, k, a), k, b) == Pushed(q, k, a + b)
  {
    assert q[k].items + a + b == q[k].items + (a + b);
  }

  class Device {
    var records: map<Res, Rec>
    var pending: seq<Res>
    /** Public handles and pointers that resolve. */
    var handles: multiset<Res>
    var pools: seq<Pool>
    const retire: RetireQueue<Res>
    var slots: D.Table<Res>
    var timeline: nat
    /** The GPU's timeline counter. */
    var completed: nat
    /** The compiler worker's queue. */
    var jobs: multiset<Res>
    ghost var destroyed: set<Res>
    ghost var kept: multiset<Res>
    ghost var keptSlots: set<nat>
    ghost var freedAt: map<nat, nat>
    ghost var log: seq<Submitted>

    ghost function Stored(): Store
      reads this
    {
      Store(records, pending, destroyed)
    }

    ghost function State(): Lifetime.State
      reads this, retire
    {
      Lifetime.State(Stored(), handles, pools, retire.batches, slots, timeline, completed, jobs, kept, keptSlots, freedAt, log)
    }

    constructor (poolCount: nat, slotCount: nat)
      ensures Runs.Initial(State()) && fresh(retire) && |pools| == poolCount && |slots| == slotCount
    {
      records, pending, handles := map[], [], multiset{};
      pools := seq(poolCount, _ => UNUSED);
      slots := seq(slotCount, _ => D.Slot(D.SlotState.Free, 0, None));
      retire := new RetireQueue();
      timeline, completed, jobs := 0, 0, multiset{};
      destroyed, kept, keptSlots, freedAt, log := {}, multiset{}, {}, map[], [];
    }

    // --- References -----------------------------------------------------------------------

    /** The init-list removal of release_texture_ref. */
    method Unlist(r: Res)
      modifies `pending
      ensures pending == Without(old(pending), r)
    {
      var i := 0;
      while i < |pending|
        invariant i <= |pending| && pending == old(pending)
        invariant Without(pending, r) == pending[..i] + Without(pending[i..], r)
      {
        WithoutStep(pending, i, r);
        hide Without;
        if pending[i] == r {
          pending := pending[..i] + pending[i + 1..];
          return;
        }
        i := i + 1;
      }
      assert pending[..i] + Without(pending[i..], r) == pending;
    }

    /** release_buffer_ref, release_texture_ref and release_pipeline_ref, on a record that is still there. */
    method ReleaseRef(r: Res)
      requires r in records && records[r].refs >= 1
      modifies `records, `pending, `destroyed
      ensures Stored() == Release(old(Stored()), r)
    {
      var rec := records[r];
      if rec.refs == 1 {
        if r.Tex? {
          Unlist(r);
        }
        records := records - {r};
        destroyed := destroyed + {r};
      } else {
        records := records[r := rec.(refs := rec.refs - 1)];
      }
    }

    /** Gives back a list of references; `holders` are those that stay. No record is released twice. */
    method ReleaseList(list: seq<Res>, ghost holders: multiset<Res>)
      requires StoreOk(Stored()) && Balanced(Stored(), holders + multiset(list))
      modifies `records, `pending, `destroyed
      ensures Stored() == ReleaseAll(old(Stored()), list)
      ensures StoreOk(Stored()) && Balanced(Stored(), holders)
    {
      var i := 0;
      while i < |list|
        invariant i <= |list|
        invariant StoreOk(Stored()) && Balanced(Stored(), holders + multiset(list[i..]))
        invariant ReleaseAll(Stored(), list[i..]) == ReleaseAll(old(Stored()), list)
      {
        NextHeld(Stored(), list, i, holders);
        hide Release, StoreOk, Balanced;
        ReleaseRef(list[i]);
        i := i + 1;
      }
      assert list[i..] == [];
      assert holders + multiset([]) == holders;
    }

    /** remove_uninitialized_texture: marks a texture whose free was accepted. */
    method MarkReleased(r: Res)
      requires r in records
      modifies `records
      ensures Stored() == Unpublished(old(Stored()), r)
    {
      if r.Tex? {
        records := records[r := records[r].(init := Released)];
      }
    }

    // --- Creating records -----------------------------------------------------------------

    /** malloc and create_texture, r being the new record. */
    method Create(r: Res)
      requires Inv(State()) && Runs.Enabled(State(), Runs.Create(r))
      modifies this
      ensures State() == Created(old(State()), r)
    {
      records := records[r := Rec(1, NeedsTransition)];
      handles := handles + multiset{r};
      if r.Tex? {
        pending := pending + [r];
      }
    }

    /** request_*_pipeline: `hit` says that the dedup map has the record already. */
    method RequestPipeline(r: Res, hit: bool)
      requires Inv(State())
      requires Runs.Enabled(State(), if hit then Runs.RequestHit(r) else Runs.RequestMiss(r))
      modifies this
      ensures State() == if hit then HitPipeline(old(State()), r) else NewPipeline(old(State()), r)
    {
      if hit {
        records := records[r := records[r].(refs := records[r].refs + 1)];
      } else {
        records := records[r := Rec(2, NeedsTransition)];
        jobs := jobs + multiset{r};
      }
      handles := handles + multiset{r};
    }

    /** The compiler worker is done with a job. */
    method FinishJob(r: Res)
      requires Inv(State()) && Runs.Enabled(State(), Runs.FinishJob(r))
      modifies this
      ensures State() == JobDone(old(State()), r)
    {
      hide Inv, Release;
      JobLive(State(), r);
      jobs := jobs - multiset{r};
      ReleaseRef(r);
    }

    // --- free and free_after --------------------------------------------------------------

    /** The handle stops resolving and its reference is given back. */
    method FreeHandle(r: Res)
      requires r in records && records[r].refs >= 1
      modifies `records, `pending, `destroyed, `handles
      ensures Stored() == Release(Unpublished(old(Stored()), r), r) && handles == old(handles) - multiset{r}
    {
      UnpublishedLive(Stored(), r);
      hide Release, Unpublished;
      Withdraw(r);
      ReleaseRef(r);
    }

    /** The handle stops resolving and a texture is marked Released. */
    method Withdraw(r: Res)
      requires r in records
      modifies `records, `handles
      ensures Stored() == Unpublished(old(Stored()), r) && handles == old(handles) - multiset{r}
    {
      MarkReleased(r);
      handles := handles - multiset{r};
    }

    /** free: a no-op for a handle that does not resolve. */
    method Free(r: Res)
      requires Inv(State())
      modifies this
      ensures State() == Freed(old(State()), r)
    {
      hide Inv, Release, Unpublished;
      if r in handles {
        HandleHolds(State(), r);
        FreeHandle(r);
      }
    }

    /** Queues the reference of a withdrawn handle, or keeps it for good when there is no storage. */
    method Defer(r: Res, value: nat, st: Storage)
      requires Sorted(retire.batches)
      modifies retire, `kept
      ensures Available(old(retire.batches), value, st) ==>
        retire.batches == Enqueued(old(retire.batches), value, Ref(r)) && kept == old(kept)
      ensures !Available(old(retire.batches), value, st) ==>
        retire.batches == old(retire.batches) && kept == old(kept) + multiset{r}
    {
      hide Available, Enqueued, Sorted;
      var ok := retire.Enqueue(value, Ref(r), st);
      if !ok {
        kept := kept + multiset{r};
      }
    }

    /** free_after: the handle's reference moves into the retirement queue. */
    method FreeAfter(r: Res, token: Option<nat>, st: Storage)
      requires Inv(State()) && Genuine(State(), token)
      modifies this, retire
      ensures State() == FreedAfter(old(State()), r, token, st)
    {
      hide Inv, Available, Enqueued, Sorted, Unpublished, FreedAfter;
      FreedAfterIs(State(), r, token, st);
      if r in handles {
        HandleHolds(State(), r);
        Withdraw(r);
        Defer(r, match token case Some(v) => v case None => timeline, st);
      }
    }

    // --- Recording ------------------------------------------------------------------------

    /** get_command_pool's search. */
    method PickPool() returns (k: nat)
      ensures k == Pick(pools, completed)
    {
      k := 0;
      while k < |pools| && (pools[k].outstanding != 0 || (pools[k].created && pools[k].retireValue > completed))
        invariant k <= |pools|
        invariant forall i :: 0 <= i < k ==> !Usable(pools[i], completed)
      {
        k := k + 1;
      }
    }

    /** queue_start_command_recording; the pool of the buffer, if there is one. */
    method StartRecording(n: Native) returns (k: Option<nat>)
      requires PoolsOk(pools) && StoreOk(Stored())
      modifies this
      ensures State() == StartedRecording(old(State()), n)
      ensures k == StartedPool(old(pools), completed, n)
    {
      hide Tidy, StoreOk;
      var p := PickPool();
      if p == |pools| {
        return None;
      }
      if !pools[p].created {
        if !n.create {
          assert pools[p := pools[p]] == pools;
          return None;
        }
        pools := pools[p := Pool(true, false, 0, 0, pools[p].recording)];
      } else {
        // The release loop of reset_command_pool finds nothing: no buffer of the pool is out.
        assert pools[p].recording.All() == [];
        pools := pools[p := pools[p].(recording := pools[p].recording.Emptied())];
      }
      if !pools[p].hasBuffer && !n.allocate {
        return None;
      }
      pools := pools[p := pools[p].(hasBuffer := true, outstanding := pools[p].outstanding + 1)];
      if !n.begin {
        return None;
      }
      pools := pools[p := pools[p].(recording := pools[p].recording.(failed := false))];
      k := Some(p);
    }

    /** A recording fails; the buffer will be rejected at submission. */
    method FailRecording(p: nat)
      requires p < |pools|
      modifies `pools
      ensures pools == old(pools)[p := old(pools)[p].(recording := old(pools)[p].recording.(failed := true))]
    {
      pools := pools[p := pools[p].(recording := pools[p].recording.(failed := true))];
    }

    /** One more reference, held by the buffer out of pool p. */
    method RetainRecord(p: nat, r: Res)
      requires p < |pools| && r in records
      modifies `records, `pools
      ensures Stored() == Records.Retain(old(Stored()), r)
      ensures pools == old(pools)[p := old(pools)[p].(recording := old(pools)[p].recording.With(r))]
    {
      records := records[r := records[r].(refs := records[r].refs + 1)];
      pools := pools[p := pools[p].(recording := pools[p].recording.With(r))];
    }

    /** retain_texture, retain_buffer and cmd_set_pipeline for the buffer out of pool p. */
    method Retain(p: nat, r: Res)
      requires p < |pools| && pools[p].outstanding > 0 && Inv(State())
      modifies this
      ensures State() == RetainedIn(old(State()), p, r)
    {
      hide Inv;
      if r in handles {
        HandleHolds(State(), r);
      }
      if r !in handles {
        if !r.Pipe? {
          FailRecording(p);
        }
      } else if !pools[p].recording.Has(r) {
        RetainRecord(p, r);
      }
    }

    // --- Views ----------------------------------------------------------------------------

    /** desc_allocate_image_view and create_sampler, i being the slot that the bitset yields. */
    method CreateView(i: nat, owner: Option<Res>, written: bool)
      requires i < |slots| && forall r :: r in handles ==> r in records
      modifies `slots, `records
      ensures State() == ViewCreated(old(State()), i, owner, written)
    {
      if owner.Some? {
        if owner.value !in handles {
          return;
        }
        records := records[owner.value := records[owner.value].(refs := records[owner.value].refs + 1)];
      }
      slots := D.Allocate(slots, i, owner);
      if !written {
        slots := D.Release(slots, i);
        if owner.Some? {
          records := records[owner.value := records[owner.value].(refs := records[owner.value].refs - 1)];
        }
      }
    }

    /** free_texture_view and its kin: accepted once, then queued for retirement. */
    method FreeView(i: nat, gen: nat, token: Option<nat>, st: Storage)
      requires Sorted(retire.batches)
      modifies this, retire
      ensures State() == ViewFreed(old(State()), i, gen, token, st)
    {
      if D.Accepts(slots, i, gen) {
        hide Available, Enqueued, Sorted;
        var value := match token case Some(v) => v case None => timeline;
        slots := D.Accept(slots, i);
        freedAt := freedAt[i := value];
        var ok := retire.Enqueue(value, SlotItem(i, slots[i].gen), st);
        if !ok {
          keptSlots := keptSlots + {i};
        }
      }
    }

    // --- Draining -------------------------------------------------------------------------

    /** desc_retire_slot: the slot, and with it its owner's reference. */
    method RetireSlot(i: nat, g: nat, ghost rest: seq<Item<Res>>)
      requires Midway(State(), [SlotItem(i, g)] + rest)
      modifies `slots, `records, `pending, `destroyed
      ensures State() == Processed(old(State()), SlotItem(i, g))
    {
      OwnerLive(State(), i, g, rest);
      hide Midway, Release, D.Release;
      if D.Retires(slots, i, g) {
        var owner := slots[i].owner;
        slots := D.Release(slots, i);
        if owner.Some? {
          ReleaseRef(owner.value);
        }
      }
    }

    /** One item of process_retire_batch. What it names is still there. */
    method ProcessItem(item: Item<Res>, ghost rest: seq<Item<Res>>)
      requires Midway(State(), [item] + rest)
      modifies `slots, `records, `pending, `destroyed
      ensures State() == Processed(old(State()), item)
      ensures Midway(State(), rest)
    {
      MidwayOne(State(), item, rest);
      hide Midway, Processed;
      match item {
        case Ref(r) => ProcessRef(r, rest);
        case SlotItem(i, g) => RetireSlot(i, g, rest);
      }
    }

    method ProcessRef(r: Res, ghost rest: seq<Item<Res>>)
      requires Midway(State(), [Ref(r)] + rest)
      modifies `records, `pending, `destroyed
      ensures State() == Processed(old(State()), Ref(r))
    {
      RefLive(State(), r, rest);
      UnpublishedLive(Stored(), r);
      hide Midway, Release, Unpublished;
      MarkReleased(r);
      ReleaseRef(r);
    }

    /** process_retire_batch. */
    method ProcessBatch(items: seq<Item<Res>>, ghost rest: seq<Item<Res>>)
      requires Midway(State(), items + rest)
      modifies `slots, `records, `pending, `destroyed
      ensures State() == ProcessedAll(old(State()), items) && Midway(State(), rest)
    {
      hide Midway, Processed;
      var i := 0;
      assert items[0..] == items;
      while i < |items|
        invariant i <= |items|
        invariant Midway(State(), items[i..] + rest)
        invariant ProcessedAll(State(), items[i..]) == ProcessedAll(old(State()), items)
      {
        assert items[i..][1..] == items[i + 1..] && items[i..][0] == items[i];
        assert items[i..] + rest == [items[i]] + (items[i + 1..] + rest);
        ProcessItem(items[i], items[i + 1..] + rest);
        i := i + 1;
      }
      assert items[i..] == [] && [] + rest == rest;
    }

    /** queue_process_events: every due batch is taken off the queue and processed, in order. */
    method Drain()
      requires Inv(State())
      modifies this, retire
      ensures State() == Drained(old(State()))
    {
      ghost var s := State();
      DrainStart(s);
      SortedNow(s);
      hide Inv, Midway, Sorted;
      var due := retire.TakeDue(completed);
      ghost var t := State();
      var j := 0;
      assert due[0..] == due;
      while j < |due|
        invariant j <= |due|
        invariant Midway(State(), Flat(due[j..]))
        invariant ProcessedAll(State(), Flat(due[j..])) == ProcessedAll(t, Flat(due))
      {
        FlatStep(due, j);
        ProcessedAppend(State(), due[j].items, Flat(due[j + 1..]));
        ProcessBatch(due[j].items, Flat(due[j + 1..]));
        j := j + 1;
      }
      assert Flat(due[j..]) == [];
    }

    // --- Submission -----------------------------------------------------------------------

    /** queue_submit's search for a buffer with a recording error. */
    method FindFailed(cbs: seq<nat>) returns (failed: bool)
      requires forall p :: p in cbs ==> p < |pools|
      ensures failed <==> AnyFailed(pools, cbs)
    {
      var i := 0;
      while i < |cbs|
        invariant i <= |cbs| && forall p :: p in cbs[..i] ==> p < |pools| && !pools[p].recording.failed
      {
        assert cbs[i] in cbs && cbs[..i + 1] == cbs[..i] + [cbs[i]];
        if pools[cbs[i]].recording.failed {
          return true;
        }
        i := i + 1;
      }
      assert cbs[..i] == cbs;
      failed := false;
    }

    /** Checks buffers in that will not be submitted. */
    method CheckInAll(all: seq<nat>)
      requires DistinctPools(pools, all)
      modifies `pools
      ensures |pools| == |old(pools)|
      ensures forall p :: 0 <= p < |pools| ==> pools[p] == if p in all then CheckedIn(old(pools)[p]) else old(pools)[p]
    {
      var i := 0;
      while i < |all|
        invariant i <= |all| && |pools| == |old(pools)|
        invariant forall p :: 0 <= p < |pools| ==>
          pools[p] == if p in all[..i] then CheckedIn(old(pools)[p]) else old(pools)[p]
      {
        assert all[i] in all && all[i] !in all[..i];
        assert all[..i + 1] == all[..i] + [all[i]];
        if pools[all[i]].outstanding > 0 {
          pools := pools[all[i] := pools[all[i]].(outstanding := pools[all[i]].outstanding - 1)];
        }
        i := i + 1;
      }
      assert all[..i] == all;
    }

    /** Gives back what the recordings of buffers that will not be submitted retained, and empties them. */
    method AbandonAll(all: seq<nat>, ghost holders: multiset<Res>)
      requires DistinctPools(pools, all)
      requires StoreOk(Stored()) && Balanced(Stored(), holders + multiset(RetainedBy(pools, all)))
      modifies `pools, `records, `pending, `destroyed
      ensures Stored() == ReleaseAll(old(Stored()), RetainedBy(old(pools), all))
      ensures |pools| == |old(pools)|
      ensures forall p :: 0 <= p < |pools| ==>
        pools[p] == if p in all then old(pools)[p].(recording := old(pools)[p].recording.Emptied()) else old(pools)[p]
    {
      ghost var before, c := pools, Stored();
      var i := 0;
      assert all[0..] == all;
      while i < |all|
        invariant i <= |all| && |pools| == |before|
        invariant forall p :: 0 <= p < |pools| ==>
          pools[p] == if p in all[..i] then before[p].(recording := before[p].recording.Emptied()) else before[p]
        invariant Within(|before|, all[i..])
        invariant StoreOk(Stored()) && Balanced(Stored(), holders + multiset(RetainedBy(before, all[i..])))
        invariant ReleaseAll(Stored(), RetainedBy(before, all[i..])) == ReleaseAll(c, RetainedBy(before, all))
      {
        NextAbandoned(before, all, i, Stored(), holders);
        hide StoreOk, Balanced, ReleaseAll, RetainedBy, Release;
        var p := all[i];
        assert pools[p] == before[p];
        ReleaseList(pools[p].recording.All(), holders + multiset(RetainedBy(before, all[i + 1..])));
        pools := pools[p := pools[p].(recording := pools[p].recording.Emptied())];
        i := i + 1;
      }
      assert all[..i] == all && RetainedBy(before, all[i..]) == [];
    }

    /** The rollback of buffers: checked in, what they retained given back. */
    method DropBuffers(all: seq<nat>)
      requires Inv(State()) && DistinctPools(pools, all)
      modifies this
      ensures State() == Dropped(old(State()), all)
    {
      hide Inv, StoreOk, Balanced, RetainedBy, ReleaseAll, Held, Update, Dropped;
      ghost var s := State();
      DropStart(s, all);
      CheckInAll(all);
      ghost var mid := pools;
      SameRecordings(s.pools, mid, all);
      AbandonAll(all, Held(Dropped(s, all)));
      InTwoSteps(s, mid, pools, all);
      DroppedIs(s, all);
    }

    /** Takes the list of uninitialised textures, with a reference to each for the preparation. */
    method ClaimPending() returns (list: seq<Res>)
      requires StoreOk(Stored())
      modifies `records, `pending
      ensures list == old(pending) && Stored() == Claimed(old(Stored()))
    {
      list := pending;
      pending := [];
      ghost var c := Stored();
      var i := 0;
      assert list[0..] == list;
      while i < |list|
        invariant i <= |list| && pending == [] && records.Keys == c.records.Keys
        invariant RetainAll(Stored(), list[i..]) == RetainAll(c, list)
      {
        assert list[i] in list;
        assert list[i..][1..] == list[i + 1..];
        records := records[list[i] := records[list[i]].(refs := records[list[i]].refs + 1)];
        i := i + 1;
      }
      assert list[i..] == [];
    }

    /** Moves the listed textures from one state to another. */
    method SetStates(list: seq<Res>, from: Init, to: Init)
      requires from != to && forall t :: t in list ==> t in records
      modifies `records
      ensures Stored() == SetInits(old(Stored()), list, from, to)
    {
      ghost var c := Stored();
      var i := 0;
      while i < |list|
        invariant i <= |list| && records.Keys == c.records.Keys
        invariant forall r :: r in c.records ==>
          records[r] == if r in list[..i] && c.records[r].init == from then c.records[r].(init := to) else c.records[r]
      {
        assert list[i] in list && list[..i + 1] == list[..i] + [list[i]];
        if records[list[i]].init == from {
          records := records[list[i] := records[list[i]].(init := to)];
        }
        i := i + 1;
      }
      assert list[..i] == list;
    }

    /** The listed textures in state i go back in the list, awaiting their transition. */
    method RequeueIn(list: seq<Res>, i: Init)
      requires pending == [] && Distinct(list) && forall t :: t in list ==> t in records
      requires i == NeedsTransition || i == TransitionQueued
      modifies `records, `pending
      ensures i == TransitionQueued ==> Stored() == Requeued(old(Stored()), list)
      ensures i == NeedsTransition ==> Stored() == old(Stored()).(pending := WithInit(old(Stored()), list, i))
    {
      ghost var c := Stored();
      var k := 0;
      while k < |list|
        invariant k <= |list| && pending == WithInit(c, list[..k], i) && records.Keys == c.records.Keys
        invariant forall r :: r in c.records ==>
          records[r] == if r in list[..k] && c.records[r].init == i then c.records[r].(init := NeedsTransition) else c.records[r]
      {
        assert list[k] in list && list[k] !in list[..k];
        assert list[..k + 1] == list[..k] + [list[k]];
        WithInitAppend(c, list[..k], list[k], i);
        hide WithInit;
        if records[list[k]].init == i {
          records := records[list[k] := records[list[k]].(init := NeedsTransition)];
          pending := pending + [list[k]];
        }
        k := k + 1;
      }
      assert list[..k] == list;
      assert i == NeedsTransition ==> records == c.records;
    }

    /** No internal command buffer: the textures go back and their preparation references are given back. */
    method Unclaim(list: seq<Res>)
      requires Underway(State(), list, NeedsTransition)
      modifies `records, `pending, `destroyed
      ensures State() == Unclaimed(old(State()), list)
    {
      hide Underway, WithInit, ReleaseAll, StoreOk, Balanced, Held;
      ghost var s := State();
      UnclaimStart(s, list);
      RequeueIn(list, NeedsTransition);
      ReleaseList(list, Held(s));
    }

    /** The rollback of a failed submission. */
    method Rollback(list: seq<Res>, all: seq<nat>)
      requires Underway(State(), list, TransitionQueued) && DistinctPools(pools, all)
      modifies this
      ensures State() == RolledBack(old(State()), list, all)
    {
      hide Underway, Requeued, ReleaseAll, StoreOk, Balanced, Held, Dropped, Inv;
      ghost var s := State();
      RollbackStart(s, list);
      RequeueIn(list, TransitionQueued);
      ReleaseList(list, Held(s));
      DropBuffers(all);
    }

    /** Adds references to the reserved batch, one at a time; the reservation always suffices. */
    method PushAll(at: nat, list: seq<Res>)
      requires Sorted(retire.batches) && at < |retire.batches|
      requires |retire.batches[at].items| + |list| <= retire.batches[at].room
      modifies retire
      ensures retire.batches == Pushed(old(retire.batches), at, ItemsFor(list)) && Sorted(retire.batches)
    {
      ghost var q := retire.batches;
      var i := 0;
      assert ItemsFor(list)[..0] == [];
      PushedNone(q, at);
      while i < |list|
        invariant i <= |list| && Sorted(retire.batches)
        invariant retire.batches == Pushed(q, at, ItemsFor(list)[..i])
      {
        PushedTwice(q, at, ItemsFor(list)[..i], [Ref(list[i])]);
        assert ItemsFor(list)[..i + 1] == ItemsFor(list)[..i] + [Ref(list[i])];
        hide Sorted;
        retire.Push(at, Ref(list[i]));
        i := i + 1;
      }
      assert ItemsFor(list)[..i] == ItemsFor(list);
    }

    /** commit_cb for each buffer: pool accounting, and what it retained moves into the batch. */
    method CommitBuffers(all: seq<nat>, at: nat, v: nat)
      requires DistinctPools(pools, all) && Sorted(retire.batches) && at < |retire.batches|
      requires |retire.batches[at].items| + |RetainedBy(pools, all)| <= retire.batches[at].room
      modifies `pools, retire
      ensures retire.batches == Pushed(old(retire.batches), at, ItemsFor(RetainedBy(old(pools), all)))
      ensures pools == Update(old(pools), all, Committer(v))
    {
      ghost var before, q := pools, retire.batches;
      var i := 0;
      PushedNone(q, at);
      assert all[..0] == [] && ItemsFor([]) == [];
      while i < |all|
        invariant i <= |all| && |pools| == |before| && Within(|before|, all[..i])
        invariant forall p :: 0 <= p < |pools| ==> pools[p] == if p in all[..i] then Committed(before[p], v) else before[p]
        invariant Sorted(retire.batches)
        invariant retire.batches == Pushed(q, at, ItemsFor(RetainedBy(before, all[..i])))
      {
        NextCommitted(before, all, i, q, at);
        hide RetainedBy, Sorted;
        var p := all[i];
        assert pools[p] == before[p];
        if pools[p].outstanding > 0 {
          pools := pools[p := pools[p].(outstanding := pools[p].outstanding - 1,
                                        retireValue := if pools[p].retireValue < v then v else pools[p].retireValue)];
        }
        PushAll(at, pools[p].recording.All());
        pools := pools[p := pools[p].(recording := pools[p].recording.Emptied())];
        assert pools[p] == Committed(before[p], v);
        hide Committed, Pushed, ItemsFor;
        i := i + 1;
      }
      assert all[..i] == all;
    }

    /** The number of references the buffers retain. */
    method CountRetained(all: seq<nat>) returns (n: nat)
      requires DistinctPools(pools, all)
      ensures n == |RetainedBy(pools, all)|
    {
      n := 0;
      var i := 0;
      assert all[..0] == [];
      while i < |all|
        invariant i <= |all| && Within(|pools|, all[..i]) && n == |RetainedBy(pools, all[..i])|
      {
        assert all[i] in all && all[..i + 1] == all[..i] + [all[i]];
        RetainedByAppend(pools, all[..i], all[i]);
        hide RetainedBy;
        var recording := pools[all[i]].recording;
        n := n + |recording.pipelines| + |recording.textures| + |recording.buffers|;
        i := i + 1;
      }
      assert all[..i] == all;
    }

    /** The commit of a successful native submit: it publishes the value and cannot fail. */
    method Commit(list: seq<Res>, all: seq<nat>, at: nat)
      requires DistinctPools(pools, all) && forall t :: t in list ==> t in records
      requires Sorted(retire.batches) && at < |retire.batches|
      requires |retire.batches[at].items| + |list| + |RetainedBy(pools, all)| <= retire.batches[at].room
      modifies `records, `pools, `timeline, `log, retire
      ensures Stored() == SetInits(old(Stored()), list, TransitionQueued, Initialized)
      ensures pools == Update(old(pools), all, Committer(timeline)) && timeline == old(timeline) + 1
      ensures retire.batches == Pushed(old(retire.batches), at, ItemsFor(list + RetainedBy(old(pools), all)))
      ensures var named := RetainedBy(old(pools), all);
        log == old(log) + [Submitted(named, list, all, Unfreed(named, handles))]
    {
      ghost var named, q := RetainedBy(pools, all), retire.batches;
      PushedTwice(q, at, ItemsFor(list), ItemsFor(named));
      assert ItemsFor(list) + ItemsFor(named) == ItemsFor(list + named);
      hide RetainedBy, Sorted, Update, SetInits, Unfreed;
      timeline := timeline + 1;
      SetStates(list, TransitionQueued, Initialized);
      PushAll(at, list);
      CommitBuffers(all, at, timeline);
      log := log + [Submitted(named, list, all, Unfreed(named, handles))];
    }

    /** From the claim to the outcome, the transitions being recorded. */
    method Attempt(list: seq<Res>, all: seq<nat>, a: Submission.Attempt) returns (ok: bool)
      requires Underway(State(), list, TransitionQueued) && Ready(pools, all)
      modifies this, retire
      ensures State() == Attempted(old(State()), list, all, a) && ok == (timeline == old(timeline) + 1)
      ensures ok <==> !a.overflow && Available(old(State()).queue, old(timeline) + 1, a.storage) && a.accepted
    {
      hide Underway, Available, Prepared, RolledBack, Sorted, RetainedBy, Before, Sent;
      ghost var s := State();
      AttemptStart(s, list, all);
      if a.overflow {
        Rollback(list, all);
        RolledBackIs(s, list, all);
        return false;
      }
      var retained := CountRetained(all);
      var at := retire.Prepare(timeline + 1, |list| + retained, a.storage);
      if at == None {
        Rollback(list, all);
        RolledBackIs(s, list, all);
        return false;
      }
      if !a.accepted {
        ghost var t := State();
        Rollback(list, all);
        RolledBackIs(t, list, all);
        return false;
      }
      SentIs(s, list, all);
      Commit(list, all, at.value);
      ok := true;
    }

    /** queue_submit. */
    method Submit(cbs: seq<nat>, a: Submission.Attempt) returns (ok: bool)
      requires Inv(State()) && Ready(pools, cbs)
      modifies this, retire
      ensures State() == Submission.Submit(old(State()), cbs, a) && (ok <==> Succeeds(old(State()), cbs, a))
    {
      hide Underway, Inv, Dropped, Claimed, Attempted, Unclaimed, Started, StartedPool, SetInits, Succeeds;
      ghost var s := State();
      SubmitStart(s, cbs, a);
      SucceedsExactly(s, cbs, a);
      if !a.scratch {
        return false;
      }
      var failed := FindFailed(cbs);
      if failed {
        DropBuffers(cbs);
        DroppedIs(s, cbs);
        return false;
      }
      if !a.valid || a.forced {
        return false;
      }
      var list := ClaimPending();
      if list == [] {
        ok := Attempt(list, cbs, a);
        return;
      }
      var k := StartRecording(a.native);
      if k == None {
        Unclaim(list);
        UnclaimedIs(StartedRecording(ClaimedState(s), a.native), list);
        return false;
      }
      SetStates(list, NeedsTransition, TransitionQueued);
      ok := Attempt(list, [k.value] + cbs, a);
    }
  }

  lemma NextHeld(c: Store, list: seq<Res>, i: nat, holders: multiset<Res>)
    requires StoreOk(c) && i < |list| && Balanced(c, holders + multiset(list[i..]))
    ensures var r, rest := list[i], list[i + 1..];
      && r in c.records && c.records[r].refs >= 1
      && StoreOk(Release(c, r)) && Balanced(Release(c, r), holders + multiset(rest))
      && ReleaseAll(c, list[i..]) == ReleaseAll(Release(c, r), rest)
  {
    var r, rest := list[i], list[i + 1..];
    assert list[i..] == [r] + rest;
    assert multiset(list[i..]) == multiset{r} + multiset(rest);
    ReleaseOne(c, r, holders + multiset(list[i..]));
    assert holders + multiset(list[i..]) - multiset{r} == holders + multiset(rest);
    hide Balanced, Release;
  }

  lemma HandleHolds(s: Lifetime.State, r: Res)
    requires Inv(s) && r in s.handles
    ensures r in s.store.records && s.store.records[r].refs >= 1 && Sorted(s.queue)
  {
    HandleResolves(s, r);
    hide Held, PoolInv, SlotInv, TextureInv, Balanced;
  }

  lemma JobLive(s: Lifetime.State, r: Res)
    requires Inv(s) && r in s.jobs
    ensures r in s.store.records && s.store.records[r].refs >= 1
  {
    Runs.HandleLive(s, r);
    hide Held, PoolInv, SlotInv, TextureInv, QueueInv, Balanced;
  }

  lemma WithoutStep(s: seq<Res>, i: nat, r: Res)
    requires i < |s|
    ensures s[i] == r ==> s[..i] + Without(s[i..], r) == s[..i] + s[i + 1..]
    ensures s[i] != r ==> s[..i] + Without(s[i..], r) == s[..i + 1] + Without(s[i + 1..], r)
  {
    assert s[i..][1..] == s[i + 1..];
    assert s[..i + 1] == s[..i] + [s[i]];
  }

  lemma UnpublishedLive(c: Store, r: Res)
    requires r in c.records && c.records[r].refs >= 1
    ensures r in Unpublished(c, r).records && Unpublished(c, r).records[r].refs >= 1
  {
  }

  lemma SortedNow(s: Lifetime.State)
    requires Inv(s)
    ensures Sorted(s.queue)
  {
    hide Held, RefInv, PoolInv, SlotInv, TextureInv;
  }

  lemma FlatStep(q: Queue<Res>, j: nat)
    requires j < |q|
    ensures Flat(q[j..]) == q[j].items + Flat(q[j + 1..])
  {
    assert q[j..][1..] == q[j + 1..];
  }

  lemma {:induction false} ProcessedAppend(s: Lifetime.State, a: seq<Item<Res>>, b: seq<Item<Res>>)
    ensures ProcessedAll(s, a + b) == ProcessedAll(ProcessedAll(s, a), b)
    decreases a
  {
    hide Processed;
    if a == [] {
      assert a + b == b;
    } else {
      assert (a + b)[1..] == a[1..] + b;
      ProcessedAppend(Processed(s, a[0]), a[1..], b);
    }
  }

  lemma MidwayOne(s: Lifetime.State, item: Item<Res>, rest: seq<Item<Res>>)
    requires Midway(s, [item] + rest)
    ensures Midway(Processed(s, item), rest)
  {
    var items := [item] + rest;
    assert items[1..] == rest;
    hide Midway, Processed;
    if item.Ref? {
      MidwayRef(s, items);
    } else {
      MidwaySlot(s, items);
    }
  }

  /** A queued reference names a record that is still there. */
  lemma RefLive(s: Lifetime.State, r: Res, rest: seq<Item<Res>>)
    requires Midway(s, [Ref(r)] + rest)
    ensures r in s.store.records && s.store.records[r].refs >= 1
  {
    var items := [Ref(r)] + rest;
    assert items[1..] == rest;
    assert RefsOf(items) == multiset{r} + RefsOf(rest);
    hide Held, PoolInv, QueueInv, TextureTodo, SlotTodo;
    assert Count(s.store, r) > 0;
  }

  /** So does the owner of a slot that retires. */
  lemma OwnerLive(s: Lifetime.State, i: nat, g: nat, rest: seq<Item<Res>>)
    requires Midway(s, [SlotItem(i, g)] + rest)
    ensures D.Retires(s.slots, i, g)
    ensures s.slots[i].owner.Some? ==>
      s.slots[i].owner.value in s.store.records && s.store.records[s.slots[i].owner.value].refs >= 1
  {
    var items := [SlotItem(i, g)] + rest;
    HeadItem(items);
    assert items[1..] == rest;
    ProcessedSlots(s, i, g, multiset(items), multiset(rest));
    if s.slots[i].owner.Some? {
      Runs.OwnedIn(s.slots, i, s.slots[i].owner.value);
      hide Retained, Queued, Owners, RefsOf, PoolInv, QueueInv, TextureTodo, SlotTodo;
      assert Held(s)[s.slots[i].owner.value] > 0;
      assert Count(s.store, s.slots[i].owner.value) > 0;
    }
  }

  ghost predicate Within(n: nat, ps: seq<nat>) {
    forall p :: p in ps ==> p < n
  }

  lemma WithinTail(n: nat, ps: seq<nat>, i: nat)
    requires i <= |ps| && Within(n, ps)
    ensures Within(n, ps[i..])
  {
    var tail := ps[i..];
    assert forall p :: p in tail ==> p in ps;
  }

  lemma NextAbandoned(pools: seq<Pool>, all: seq<nat>, i: nat, c: Store, holders: multiset<Res>)
    requires DistinctPools(pools, all) && i < |all| && Within(|pools|, all[i..])
    requires Balanced(c, holders + multiset(RetainedBy(pools, all[i..])))
    ensures all[i] in all && all[i] !in all[..i] && all[i] < |pools| && all[..i + 1] == all[..i] + [all[i]]
    ensures Within(|pools|, all[i + 1..])
    ensures var list, rest := pools[all[i]].recording.All(), RetainedBy(pools, all[i + 1..]);
      && Balanced(c, holders + multiset(rest) + multiset(list))
      && ReleaseAll(c, RetainedBy(pools, all[i..])) == ReleaseAll(ReleaseAll(c, list), rest)
  {
    assert all[i] in all;
    assert all[i..][1..] == all[i + 1..] && all[i..][0] == all[i];
    WithinTail(|pools|, all, i + 1);
    var list, rest := pools[all[i]].recording.All(), RetainedBy(pools, all[i + 1..]);
    assert RetainedBy(pools, all[i..]) == list + rest;
    ReleaseAppend(c, list, rest);
    hide Balanced, ReleaseAll, RetainedBy;
    assert holders + multiset(list + rest) == holders + multiset(rest) + multiset(list);
  }

  lemma DropStart(s: Lifetime.State, all: seq<nat>)
    requires Inv(s) && DistinctPools(s.pools, all)
    ensures StoreOk(s.store) && Balanced(s.store, Held(Dropped(s, all)) + multiset(RetainedBy(s.pools, all)))
  {
    DroppedUndone(s, all);
    hide Held, Dropped, RetainedBy, PoolInv, QueueInv, SlotInv, TextureInv, StoreOk, Balanced, Pending;
  }

  lemma {:induction false} SameRecordings(before: seq<Pool>, after: seq<Pool>, all: seq<nat>)
    requires |after| == |before| && forall p :: p in all ==> p < |before|
    requires forall p :: 0 <= p < |before| ==> after[p].recording == before[p].recording
    ensures RetainedBy(after, all) == RetainedBy(before, all)
  {
    if all != [] {
      assert all[0] in all && forall p :: p in all[1..] ==> p in all;
      SameRecordings(before, after, all[1..]);
    }
  }

  lemma InTwoSteps(s: Lifetime.State, mid: seq<Pool>, after: seq<Pool>, all: seq<nat>)
    requires |mid| == |s.pools| == |after|
    requires forall p :: 0 <= p < |mid| ==> mid[p] == if p in all then CheckedIn(s.pools[p]) else s.pools[p]
    requires forall p :: 0 <= p < |mid| ==>
      after[p] == if p in all then mid[p].(recording := mid[p].recording.Emptied()) else mid[p]
    ensures after == Update(s.pools, all, Abandoner())
  {
  }

  lemma DroppedIs(s: Lifetime.State, all: seq<nat>)
    requires forall p :: p in all ==> p < |s.pools|
    ensures Dropped(s, all)
      == s.(pools := Update(s.pools, all, Abandoner()), store := ReleaseAll(s.store, RetainedBy(s.pools, all)))
  {
  }

  lemma FreedAfterIs(s: Lifetime.State, r: Res, token: Option<nat>, st: Storage)
    ensures r !in s.handles ==> FreedAfter(s, r, token, st) == s
    ensures r in s.handles ==>
      var v, c, h := RetireValue(s, token), Unpublished(s.store, r), s.handles - multiset{r};
      && (Available(s.queue, v, st) ==>
           FreedAfter(s, r, token, st) == s.(store := c, handles := h, queue := Enqueued(s.queue, v, Ref(r))))
      && (!Available(s.queue, v, st) ==>
           FreedAfter(s, r, token, st) == s.(store := c, handles := h, kept := s.kept + multiset{r}))
  {
    hide Unpublished, Available, Enqueued;
  }

  lemma UnderwayStore(s: Lifetime.State, list: seq<Res>, i: Init)
    requires Underway(s, list, i)
    ensures s.store.pending == [] && Distinct(list) && forall t :: t in list ==> t.Tex? && t in s.store.records
    ensures StoreOk(s.store) && Balanced(s.store, Held(s) + multiset(list))
  {
    hide Held, PoolInv, QueueInv, SlotInv, StoreOk, Balanced, BarriersOk, CoveredOk, QueuedTextures, Barriered;
  }

  lemma UnclaimStart(s: Lifetime.State, list: seq<Res>)
    requires Underway(s, list, NeedsTransition)
    ensures s.store.pending == [] && Distinct(list) && forall t :: t in list ==> t in s.store.records
    ensures var c := s.store.(pending := WithInit(s.store, list, NeedsTransition));
      StoreOk(c) && Balanced(c, Held(s) + multiset(list))
  {
    UnderwayStore(s, list, NeedsTransition);
    RequeuedIs(s.store, list);
    hide Underway, Held, WithInit, StoreOk, Balanced, Restored;
    RestoredStore(s.store, s.store.(pending := WithInit(s.store, list, NeedsTransition)), list, NeedsTransition, Held(s) + multiset(list));
  }

  lemma RollbackStart(s: Lifetime.State, list: seq<Res>)
    requires Underway(s, list, TransitionQueued)
    ensures s.store.pending == [] && Distinct(list) && forall t :: t in list ==> t in s.store.records
    ensures StoreOk(Requeued(s.store, list)) && Balanced(Requeued(s.store, list), Held(s) + multiset(list))
    ensures Inv(s.(store := ReleaseAll(Requeued(s.store, list), list)))
  {
    UnderwayStore(s, list, TransitionQueued);
    RequeuedIs(s.store, list);
    hide Underway, Held, Requeued, StoreOk, Balanced, Restored, Inv, ReleaseAll;
    RestoredStore(s.store, Requeued(s.store, list), list, TransitionQueued, Held(s) + multiset(list));
    RestoredInv(s, Requeued(s.store, list), list, TransitionQueued);
  }

  lemma PushedNone(q: Queue<Res>, k: nat)
    requires k < |q|
    ensures Pushed(q, k, []) == q
  {
    assert q[k].items + [] == q[k].items;
  }

  lemma NextCommitted(pools: seq<Pool>, all: seq<nat>, i: nat, q: Queue<Res>, at: nat)
    requires DistinctPools(pools, all) && i < |all| && Within(|pools|, all[..i]) && at < |q|
    requires |q[at].items| + |RetainedBy(pools, all)| <= q[at].room
    ensures all[i] in all && all[i] !in all[..i] && all[..i + 1] == all[..i] + [all[i]] && Within(|pools|, all[..i + 1])
    ensures var list, before := pools[all[i]].recording.All(), RetainedBy(pools, all[..i]);
      && RetainedBy(pools, all[..i + 1]) == before + list
      && |q[at].items| + |before| + |list| <= q[at].room
      && Pushed(Pushed(q, at, ItemsFor(before)), at, ItemsFor(list)) == Pushed(q, at, ItemsFor(before + list))
  {
    assert all[i] in all;
    var list, before := pools[all[i]].recording.All(), RetainedBy(pools, all[..i]);
    assert all[..i + 1] == all[..i] + [all[i]];
    RetainedByAppend(pools, all[..i], all[i]);
    RetainedPrefix(pools, all, i + 1);
    PushedTwice(q, at, ItemsFor(before), ItemsFor(list));
    assert ItemsFor(before) + ItemsFor(list) == ItemsFor(before + list);
  }

  lemma {:induction false} RetainedPrefix(pools: seq<Pool>, all: seq<nat>, i: nat)
    requires Within(|pools|, all) && i <= |all| && Within(|pools|, all[..i])
    ensures |RetainedBy(pools, all[..i])| <= |RetainedBy(pools, all)|
  {
    if i > 0 {
      assert all[..i][1..] == all[1..][..i - 1];
      WithinTail(|pools|, all, 1);
      WithinTail(|pools|, all[..i], 1);
      RetainedPrefix(pools, all[1..], i - 1);
    }
  }

  lemma UnderwaySorted(s: Lifetime.State, list: seq<Res>)
    requires Underway(s, list, TransitionQueued)
    ensures Sorted(s.queue)
  {
    hide Held, RefInv, PoolInv, SlotInv, TextureClaim, InFlight, QueueValues;
  }

  /** What an attempt needs to know of the state it starts in. */
  lemma AttemptStart(s: Lifetime.State, list: seq<Res>, all: seq<nat>)
    requires Underway(s, list, TransitionQueued) && Ready(s.pools, all)
    ensures Sorted(s.queue) && forall t :: t in list ==> t in s.store.records
    ensures var q := Prepared(s.queue, s.timeline + 1, |list| + |RetainedBy(s.pools, all)|);
      Sorted(q) && Underway(s.(queue := q), list, TransitionQueued)
  {
    hide Underway, Prepared, Sorted, Held;
    var n := |list| + |RetainedBy(s.pools, all)|;
    UnderwayStore(s, list, TransitionQueued);
    PreparedUnderway(s, list, n);
    UnderwaySorted(s, list);
    UnderwaySorted(s.(queue := Prepared(s.queue, s.timeline + 1, n)), list);
  }

  lemma UnclaimedIs(s: Lifetime.State, list: seq<Res>)
    ensures Unclaimed(s, list).timeline == s.timeline
  {
    hide WithInit, ReleaseAll;
  }

  lemma SentIs(s: Lifetime.State, list: seq<Res>, all: seq<nat>)
    requires forall p :: p in all ==> p < |s.pools|
    ensures var v, named := s.timeline + 1, RetainedBy(s.pools, all);
      var moved := list + named;
      var q := Prepared(s.queue, v, |moved|);
      && Before(s.queue, v) < |q|
      && Sent(s, list, all) == s.(
           store := SetInits(s.store, list, TransitionQueued, Initialized),
           pools := Update(s.pools, all, Committer(v)),
           queue := Pushed(q, Before(s.queue, v), ItemsFor(moved)),
           timeline := v,
           log := s.log + [Submitted(named, list, all, Unfreed(named, s.handles))])
  {
    hide SetInits, Update, RetainedBy, Pushed, Unfreed;
  }

  /** What a submission needs to know at each point where it may end. */
  lemma SubmitStart(s: Lifetime.State, cbs: seq<nat>, a: Submission.Attempt)
    requires Inv(s) && Ready(s.pools, cbs)
    ensures PoolsOk(s.pools) && StoreOk(s.store) && StoreOk(Claimed(s.store))
    ensures var list, c := s.store.pending, ClaimedState(s);
      && (list == [] ==> Underway(c, list, TransitionQueued))
      && (list != [] ==>
           var t, k := StartedRecording(c, a.native), StartedPool(s.pools, s.completed, a.native);
           && Underway(t, list, NeedsTransition)
           && Underway(QueuedState(t, list), list, TransitionQueued)
           && (forall x :: x in list ==> x in t.store.records)
           && (k.Some? ==> Ready(t.pools, [k.value] + cbs)))
  {
    var list, c := s.store.pending, ClaimedState(s);
    ClaimInv(s);
    UnderwayStore(c, list, NeedsTransition);
    if list == [] {
      NoneClaimed(c);
    } else {
      StartedUnderway(c, list, a.native);
      QueuedInv(StartedRecording(c, a.native), list);
      if StartedPool(s.pools, s.completed, a.native).Some? {
        StartedReady(s.pools, s.completed, a.native, cbs);
      }
    }
    hide Underway, Held, QueueInv, SlotInv, TextureInv, Claimed, Started, StartedPool, QueuedState, Balanced;
  }
}
