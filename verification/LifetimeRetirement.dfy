/** Descriptor views, their deferred frees, and the draining of due retirements (resources.cpp, commands.cpp, device.cpp). */
module LifetimeRetirement {
  import opened Bits
  import opened Records
  import opened CommandPools
  import opened RetireQueues
  import opened Lifetime
  import opened LifetimeRecording
  import D = Descriptors

  // --- Views ------------------------------------------------------------------------------

  /** A texture that a descriptor is to own must have a public handle; samplers own none. */
  predicate OwnerValid(s: State, owner: Option<Res>) {
    owner.Some? ==> owner.value in s.handles && owner.value in s.store.records
  }

  /** desc_allocate_image_view and create_sampler, i being the slot the bitset yields. */
  function ViewCreated(s: State, i: nat, owner: Option<Res>, written: bool): State
    requires i < |s.slots|
  {
    if !OwnerValid(s, owner) then s
    else if !written then s.(slots := D.Release(D.Allocate(s.slots, i, owner), i))
    else s.(slots := D.Allocate(s.slots, i, owner),
            store := if owner.Some? then Retain(s.store, owner.value) else s.store)
  }

  lemma OwnersChange(slots: D.Table<Res>, i: nat, slot: D.Slot<Res>)
    requires i < |slots| && slots[i].owner == None
    ensures Owners(slots[i := slot]) == Owners(slots) + OwnerOf(slot)
  {
    OwnersAt(slots, i, slot);
  }

  lemma HeldOwner(s: State, t: State, more: multiset<Res>)
    requires t.handles == s.handles && t.pools == s.pools && t.queue == s.queue && Owners(t.slots) == Owners(s.slots) + more
    requires t.jobs == s.jobs && t.kept == s.kept
    ensures Held(t) == Held(s) + more
  {
    hide Retained, Queued, Owners;
  }

  /** A free slot that comes into use owes no retirement. */
  lemma SlotTaken(s: State, i: nat, slot: D.Slot<Res>)
    requires SlotInv(s.queue, s.slots, s.keptSlots, s.freedAt, s.completed)
    requires i < |s.slots| && s.slots[i].state == D.SlotState.Free
    requires slot.state == D.SlotState.Allocated || (slot.state == D.SlotState.Free && slot.owner == None)
    ensures SlotInv(s.queue, s.slots[i := slot], s.keptSlots, s.freedAt, s.completed)
  {
    hide Pending, DueAt;
  }

  lemma ViewHolders(s: State, i: nat, owner: Option<Res>, written: bool)
    requires SlotInv(s.queue, s.slots, s.keptSlots, s.freedAt, s.completed) && OwnerValid(s, owner)
    requires i < |s.slots| && s.slots[i].state == D.SlotState.Free
    ensures var t := ViewCreated(s, i, owner, written);
      && SlotInv(t.queue, t.slots, t.keptSlots, t.freedAt, t.completed)
      && Held(t) == Held(s) + if written && owner.Some? then multiset{owner.value} else multiset{}
  {
    var t := ViewCreated(s, i, owner, written);
    assert t.slots == s.slots[i := t.slots[i]];
    SlotTaken(s, i, t.slots[i]);
    OwnersChange(s.slots, i, t.slots[i]);
    hide Held, Owners, SlotInv, Retain;
    HeldOwner(s, t, OwnerOf(t.slots[i]));
  }

  lemma ViewCreatedInv(s: State, i: nat, owner: Option<Res>, written: bool)
    requires Inv(s) && i < |s.slots| && s.slots[i].state == D.SlotState.Free
    ensures Inv(ViewCreated(s, i, owner, written))
  {
    if OwnerValid(s, owner) {
      var t := ViewCreated(s, i, owner, written);
      hide Held, PoolInv, QueueInv, SlotInv, TextureInv, RefInv, Retain;
      ViewHolders(s, i, owner, written);
      if written && owner.Some? {
        RetainedTextures(s.store, s.handles, s.queue, s.log, owner.value);
        RetainInv(s.store, Held(s), s.handles, owner.value, Held(t));
      } else {
        assert Held(t) == Held(s);
      }
    }
  }

  /** A free of the view with the given slot and generation. */
  function ViewFreed(s: State, i: nat, gen: nat, token: Option<nat>, st: Storage): State {
    if !D.Accepts(s.slots, i, gen) then s
    else
      var v := RetireValue(s, token);
      var t := s.(slots := D.Accept(s.slots, i), freedAt := s.freedAt[i := v]);
      if Available(s.queue, v, st) then t.(queue := Enqueued(s.queue, v, SlotItem(i, t.slots[i].gen)))
      else t.(keptSlots := s.keptSlots + {i})
  }

  lemma NotOwed(s: State, i: nat, v: int, g: nat)
    requires SlotInv(s.queue, s.slots, s.keptSlots, s.freedAt, s.completed)
    requires i < |s.slots| && s.slots[i].state != D.SlotState.Retiring
    ensures i !in s.keptSlots && !DueAt(s.queue, v, SlotItem(i, g))
  {
    DueIsQueued(s.queue, SlotItem(i, g));
    assert Owed(s.slots, s.keptSlots, i, g) == 0;
    hide DueAt, Flat;
  }

  lemma AcceptedItems(s: State, i: nat, q: Queue<Res>, kept: set<nat>)
    requires SlotInv(s.queue, s.slots, s.keptSlots, s.freedAt, s.completed)
    requires i < |s.slots| && s.slots[i].state == D.SlotState.Allocated
    requires var item: Item<Res> := SlotItem(i, D.NextGen(s.slots[i].gen));
      || (Pending(q) == Pending(s.queue) + multiset{item} && kept == s.keptSlots)
      || (q == s.queue && kept == s.keptSlots + {i})
    ensures SlotItems(q, D.Accept(s.slots, i), kept)
  {
    hide DueAt, Pending, D.NextGen;
  }

  lemma AcceptedValues(s: State, i: nat, v: nat, q: Queue<Res>)
    requires SlotInv(s.queue, s.slots, s.keptSlots, s.freedAt, s.completed)
    requires i < |s.slots| && s.slots[i].state == D.SlotState.Allocated
    requires forall w, j: nat, g: nat :: DueAt(q, w, SlotItem(j, g)) ==> DueAt(s.queue, w, SlotItem(j, g)) || (w == v && j == i)
    ensures SlotValues(q, D.Accept(s.slots, i), s.freedAt[i := v], s.completed)
  {
    forall w, j: nat, g: nat | DueAt(q, w, SlotItem(j, g))
      ensures j < |s.slots| && j in s.freedAt[i := v] && w == s.freedAt[i := v][j]
    {
      NotOwed(s, i, w, g);
    }
    hide DueAt, Pending;
  }

  lemma SameRefs(c: Store, handles: multiset<Res>, q: Queue<Res>, log: seq<Submitted>, p: Queue<Res>, i: nat, g: nat)
    requires TextureInv(c, handles, q, log) && Pending(p) == Pending(q) + multiset{SlotItem(i, g)}
    ensures TextureInv(c, handles, p, log) && Queued(p) == Queued(q)
  {
    var items: seq<Item<Res>> := [SlotItem(i, g)];
    RefsSum(Flat(p), Flat(q), items);
    assert items[1..] == [];
    hide TexturesOk, BarriersOk, CoveredOk, Barriered, Flat;
  }

  lemma OwnersSame(slots: D.Table<Res>, i: nat, slot: D.Slot<Res>)
    requires i < |slots| && slot.owner == slots[i].owner
    ensures Owners(slots[i := slot]) == Owners(slots)
  {
    OwnersAt(slots, i, slot);
    Cancel(Owners(slots[i := slot]), Owners(slots), OwnerOf(slot), multiset{});
  }

  lemma EnqueuedSlot(s: State, v: nat, item: Item<Res>)
    requires QueueInv(s.queue, s.log, s.timeline, s.completed) && v <= s.timeline
    ensures var q := Enqueued(s.queue, v, item);
      && QueueInv(q, s.log, s.timeline, s.completed) && Pending(q) == Pending(s.queue) + multiset{item}
      && forall w, x :: DueAt(q, w, x) ==> DueAt(s.queue, w, x) || (w == v && x == item)
  {
    var q := Enqueued(s.queue, v, item);
    EnqueuedKeeps(s.queue, v, item);
    hide DueAt, Pending, Enqueued, Sorted;
    assert forall w, x :: DueAt(q, w, x) ==> DueAt(s.queue, w, x) || w <= s.timeline;
    assert forall w, x :: DueAt(s.queue, w, x) ==> DueAt(q, w, x);
    GrownQueue(s.queue, q, s.log, s.timeline, s.completed);
  }

  lemma ViewFreedInv(s: State, i: nat, gen: nat, token: Option<nat>, st: Storage)
    requires Inv(s) && Genuine(s, token)
    ensures Inv(ViewFreed(s, i, gen, token, st))
  {
    if D.Accepts(s.slots, i, gen) {
      var t, v := ViewFreed(s, i, gen, token, st), RetireValue(s, token);
      OwnersSame(s.slots, i, t.slots[i]);
      var item: Item<Res> := SlotItem(i, D.NextGen(s.slots[i].gen));
      hide Held, Owners, PoolInv, QueueInv, SlotValues, SlotItems, TextureInv, RefInv, Enqueued, Pending, Queued, DueAt, D.NextGen;
      if Available(s.queue, v, st) {
        EnqueuedSlot(s, v, item);
        SameRefs(s.store, s.handles, s.queue, s.log, t.queue, i, D.NextGen(s.slots[i].gen));
      }
      AcceptedItems(s, i, t.queue, t.keptSlots);
      AcceptedValues(s, i, v, t.queue);
      SameHeld(s, t);
    }
  }

  // --- Draining ---------------------------------------------------------------------------

  /** One item of process_retire_batch: a reference is given back, a slot retired with its owner's. */
  function Processed(s: State, item: Item<Res>): State {
    match item
    case Ref(r) => s.(store := Release(Unpublished(s.store, r), r))
    case SlotItem(i, g) =>
      if !D.Retires(s.slots, i, g) then s
      else
        var owner := s.slots[i].owner;
        s.(slots := D.Release(s.slots, i), store := if owner.Some? then Release(s.store, owner.value) else s.store)
  }

  function ProcessedAll(s: State, items: seq<Item<Res>>): State
    decreases items
  {
    if items == [] then s else ProcessedAll(Processed(s, items[0]), items[1..])
  }

  /** queue_process_events. */
  function Drained(s: State): State {
    var n := DueCount(s.queue, s.completed);
    ProcessedAll(s.(queue := s.queue[n..]), Flat(s.queue[..n]))
  }

  /** The slots' retirements are in the queue or among the items still to be processed. */
  ghost predicate SlotTodo(s: State, todo: multiset<Item<Res>>) {
    && (forall i: nat, g: nat :: Pending(s.queue)[SlotItem(i, g)] + todo[SlotItem(i, g)] == Owed(s.slots, s.keptSlots, i, g))
    && (forall i :: i in s.keptSlots ==> i < |s.slots| && s.slots[i].state == D.SlotState.Retiring)
    && SlotValues(s.queue, s.slots, s.freedAt, s.completed)
    && (forall i: nat, g: nat :: SlotItem(i, g) in todo ==> i in s.freedAt && s.freedAt[i] <= s.completed)
  }

  /** No texture among the items still to be processed awaits its transition. */
  ghost predicate TextureTodo(s: State, todo: multiset<Item<Res>>) {
    && TextureInv(s.store, s.handles, s.queue, s.log)
    && (forall t: Res :: t.Tex? && Ref(t) in todo && t in s.handles ==> Barriered(s.log, t))
  }

  /** Where processing stands, the given items being left. */
  ghost predicate Midway(s: State, todo: seq<Item<Res>>) {
    && RefInv(s.store, Held(s) + RefsOf(todo), s.handles)
    && PoolInv(s.pools, s.log)
    && QueueInv(s.queue, s.log, s.timeline, s.completed)
    && TextureTodo(s, multiset(todo))
    && SlotTodo(s, multiset(todo))
  }

  lemma UnpublishedQueued(c: Store, handles: multiset<Res>, q: Queue<Res>, log: seq<Submitted>, r: Res)
    requires StoreOk(c) && TextureInv(c, handles, q, log) && (r.Tex? && r in handles ==> Barriered(log, r))
    ensures TextureInv(Unpublished(c, r), handles, q, log)
  {
    hide Barriered, CoveredOk, Pending;
  }

  lemma ProcessedRef(s: State, r: Res, rest: seq<Item<Res>>)
    requires RefInv(s.store, Held(s) + (multiset{r} + RefsOf(rest)), s.handles)
    requires TextureInv(s.store, s.handles, s.queue, s.log) && (r.Tex? && r in s.handles ==> Barriered(s.log, r))
    ensures var c := Release(Unpublished(s.store, r), r);
      RefInv(c, Held(s) + RefsOf(rest), s.handles) && TextureInv(c, s.handles, s.queue, s.log)
  {
    var c := Unpublished(s.store, r);
    UnpublishedQueued(s.store, s.handles, s.queue, s.log, r);
    UnpublishedStore(s.store, r, Held(s) + (multiset{r} + RefsOf(rest)));
    ReleaseIs(c, r);
    assert multiset([r]) == multiset{r};
    HandlesHeld(s);
    hide Held, Balanced, StoreOk, Unpublished, TextureInv, Release, ReleaseAll, RefsOf;
    assert Held(s) + (multiset{r} + RefsOf(rest)) == Held(s) + RefsOf(rest) + multiset([r]);
    ReleaseMany(c, [r], Held(s) + RefsOf(rest));
    ShrunkTextures(c, ReleaseAll(c, [r]), Held(s) + RefsOf(rest), s.handles, s.queue, s.log);
  }

  lemma ProcessedSlots(s: State, i: nat, g: nat, todo: multiset<Item<Res>>, rest: multiset<Item<Res>>)
    requires SlotTodo(s, todo) && todo == multiset{SlotItem(i, g)} + rest
    ensures D.Retires(s.slots, i, g)
    ensures SlotTodo(s.(slots := D.Release(s.slots, i)), rest)
  {
    assert Owed(s.slots, s.keptSlots, i, g) >= 1;
    SlotDone(s, i, g, todo, rest);
  }

  lemma SlotDone(s: State, i: nat, g: nat, todo: multiset<Item<Res>>, rest: multiset<Item<Res>>)
    requires SlotTodo(s, todo) && todo == multiset{SlotItem(i, g)} + rest && D.Retires(s.slots, i, g) && i !in s.keptSlots
    ensures SlotTodo(s.(slots := D.Release(s.slots, i)), rest)
  {
    var slots := D.Release(s.slots, i);
    forall j: nat, h: nat
      ensures Pending(s.queue)[SlotItem(j, h)] + rest[SlotItem(j, h)] == Owed(slots, s.keptSlots, j, h)
    {
      assert Pending(s.queue)[SlotItem(j, h)] + todo[SlotItem(j, h)] == Owed(s.slots, s.keptSlots, j, h);
    }
    hide Pending, DueAt;
  }

  lemma HeldRetired(s: State, i: nat)
    requires i < |s.slots|
    ensures Held(s) == Held(s.(slots := D.Release(s.slots, i))) + OwnerOf(s.slots[i])
  {
    var slots := D.Release(s.slots, i);
    OwnersAt(s.slots, i, slots[i]);
    hide Owners, Retained, Queued;
    assert Owners(slots) + OwnerOf(s.slots[i]) == Owners(s.slots);
  }

  lemma ProcessedOwner(s: State, c: Store, o: Option<Res>, rest: multiset<Res>)
    requires RefInv(c, Held(s) + (if o.Some? then multiset{o.value} else multiset{}) + rest, s.handles)
    requires TextureInv(c, s.handles, s.queue, s.log)
    ensures var d := if o.Some? then Release(c, o.value) else c;
      RefInv(d, Held(s) + rest, s.handles) && TextureInv(d, s.handles, s.queue, s.log)
  {
    if o.Some? {
      ReleaseIs(c, o.value);
      assert multiset([o.value]) == multiset{o.value};
      HandlesHeld(s);
      hide Held, Balanced, StoreOk, TextureInv, Release, ReleaseAll;
      assert Held(s) + multiset{o.value} + rest == Held(s) + rest + multiset([o.value]);
      ReleaseMany(c, [o.value], Held(s) + rest);
      ShrunkTextures(c, ReleaseAll(c, [o.value]), Held(s) + rest, s.handles, s.queue, s.log);
    } else {
      assert Held(s) + multiset{} + rest == Held(s) + rest;
    }
  }

  lemma HeadItem(items: seq<Item<Res>>)
    requires items != []
    ensures multiset(items) == multiset{items[0]} + multiset(items[1..])
  {
    assert items == [items[0]] + items[1..];
  }

  lemma FewerTodo(s: State, item: Item<Res>, rest: multiset<Item<Res>>, store: Store)
    requires TextureTodo(s, multiset{item} + rest) && TextureInv(store, s.handles, s.queue, s.log)
    ensures TextureTodo(s.(store := store), rest)
  {
    hide TextureInv, Barriered;
  }

  lemma RefTodo(s: State, r: Res, rest: multiset<Item<Res>>)
    requires SlotTodo(s, multiset{Ref(r)} + rest)
    ensures SlotTodo(s, rest)
  {
    forall i: nat, g: nat
      ensures Pending(s.queue)[SlotItem(i, g)] + rest[SlotItem(i, g)] == Owed(s.slots, s.keptSlots, i, g)
    {
      assert (multiset{Ref(r)} + rest)[SlotItem(i, g)] == rest[SlotItem(i, g)];
    }
    hide Pending, DueAt, Owed;
  }

  lemma MidwayRef(s: State, items: seq<Item<Res>>)
    requires items != [] && items[0].Ref? && Midway(s, items)
    ensures Midway(Processed(s, items[0]), items[1..])
  {
    var r, rest := items[0].res, items[1..];
    HeadItem(items);
    assert RefsOf(items) == multiset{r} + RefsOf(rest);
    hide Held, RefInv, PoolInv, QueueInv, SlotTodo, TextureInv, Unpublished, Release, RefsOf;
    ProcessedRef(s, r, rest);
    RefTodo(s, r, multiset(rest));
    FewerTodo(s, items[0], multiset(rest), Processed(s, items[0]).store);
    SameTodo(s, Processed(s, items[0]), multiset(rest));
    HeldStore(s, Processed(s, items[0]));
  }

  lemma SameTodo(s: State, t: State, rest: multiset<Item<Res>>)
    requires t == s.(store := t.store) && SlotTodo(s, rest)
    ensures SlotTodo(t, rest)
  {
    hide Pending, DueAt, Owed;
  }

  lemma MidwaySlot(s: State, items: seq<Item<Res>>)
    requires items != [] && items[0].SlotItem? && Midway(s, items)
    ensures Midway(Processed(s, items[0]), items[1..])
  {
    var i, g, rest := items[0].slot, items[0].gen, items[1..];
    HeadItem(items);
    assert RefsOf(items) == RefsOf(rest);
    var mid, t := s.(slots := D.Release(s.slots, i)), Processed(s, items[0]);
    hide Held, RefInv, PoolInv, QueueInv, SlotTodo, TextureInv, Release, RefsOf;
    ProcessedSlots(s, i, g, multiset(items), multiset(rest));
    HeldRetired(s, i);
    ProcessedOwner(mid, s.store, s.slots[i].owner, RefsOf(rest));
    FewerTodo(s, items[0], multiset(rest), t.store);
    SameTodo(mid, t, multiset(rest));
    HeldStore(mid, t);
  }

  /** Processing in order gives back exactly what the items hold and retires exactly their slots. */
  lemma {:induction false} MidwayAll(s: State, items: seq<Item<Res>>)
    requires Midway(s, items)
    ensures Midway(ProcessedAll(s, items), [])
    decreases items
  {
    hide Midway, Processed;
    if items != [] {
      if items[0].Ref? {
        MidwayRef(s, items);
      } else {
        MidwaySlot(s, items);
      }
      MidwayAll(Processed(s, items[0]), items[1..]);
    }
  }

  lemma MidwayEnd(s: State)
    requires Midway(s, [])
    ensures Inv(s)
  {
    assert Held(s) + RefsOf([]) == Held(s);
    hide Held, RefInv, PoolInv, QueueInv, TextureInv, DueAt, Pending, Owed;
  }

  lemma SplitHeld(s: State, due: Queue<Res>, rest: Queue<Res>)
    requires Pending(s.queue) == Pending(due) + Pending(rest)
    ensures Held(s) == Held(s.(queue := rest)) + RefsOf(Flat(due))
  {
    RefsSum(Flat(s.queue), Flat(due), Flat(rest));
    hide Retained, Owners, Flat, RefsOf;
  }

  /** A slot retirement among the due items is due at the value of the slot's last free. */
  lemma SplitDue(s: State, due: Queue<Res>, i: nat, g: nat)
    requires SlotValues(s.queue, s.slots, s.freedAt, s.completed)
    requires forall v, x :: DueAt(due, v, x) ==> DueAt(s.queue, v, x) && v <= s.completed
    requires SlotItem(i, g) in multiset(Flat(due))
    ensures i in s.freedAt && s.freedAt[i] <= s.completed
  {
    var item: Item<Res> := SlotItem(i, g);
    DueIsQueued(due, item);
    hide DueAt, Flat;
    var v :| DueAt(due, v, item);
    assert DueAt(s.queue, v, item);
  }

  /** The retirements owed are split between the queue that is left and the due items. */
  lemma SplitOwed(s: State, due: Queue<Res>, rest: Queue<Res>, i: nat, g: nat)
    requires SlotItems(s.queue, s.slots, s.keptSlots) && Pending(s.queue) == Pending(due) + Pending(rest)
    ensures Pending(rest)[SlotItem(i, g)] + multiset(Flat(due))[SlotItem(i, g)] == Owed(s.slots, s.keptSlots, i, g)
  {
    hide Flat, Owed;
    assert Pending(s.queue)[SlotItem(i, g)] == Owed(s.slots, s.keptSlots, i, g);
  }

  lemma SplitValues(s: State, rest: Queue<Res>)
    requires SlotValues(s.queue, s.slots, s.freedAt, s.completed)
    requires forall v, x :: DueAt(rest, v, x) ==> DueAt(s.queue, v, x)
    ensures SlotValues(rest, s.slots, s.freedAt, s.completed)
  {
    hide DueAt;
    assert forall v, i: nat, g: nat :: DueAt(rest, v, SlotItem(i, g)) ==> DueAt(s.queue, v, SlotItem(i, g));
  }

  lemma SplitSlots(s: State, due: Queue<Res>, rest: Queue<Res>)
    requires SlotInv(s.queue, s.slots, s.keptSlots, s.freedAt, s.completed)
    requires Pending(s.queue) == Pending(due) + Pending(rest)
    requires forall v, x :: DueAt(rest, v, x) ==> DueAt(s.queue, v, x)
    requires forall v, x :: DueAt(due, v, x) ==> DueAt(s.queue, v, x) && v <= s.completed
    ensures SlotTodo(s.(queue := rest), multiset(Flat(due)))
  {
    SplitValues(s, rest);
    hide Flat, DueAt, Owed, Pending, SlotValues;
    forall i: nat, g: nat
      ensures Pending(rest)[SlotItem(i, g)] + multiset(Flat(due))[SlotItem(i, g)] == Owed(s.slots, s.keptSlots, i, g)
    {
      SplitOwed(s, due, rest, i, g);
    }
    forall i: nat, g: nat | SlotItem(i, g) in multiset(Flat(due))
      ensures i in s.freedAt && s.freedAt[i] <= s.completed
    {
      SplitDue(s, due, i, g);
    }
  }

  lemma SplitTextures(s: State, due: Queue<Res>, rest: Queue<Res>)
    requires TextureInv(s.store, s.handles, s.queue, s.log)
    requires Pending(s.queue) == Pending(due) + Pending(rest)
    ensures TextureTodo(s.(queue := rest), multiset(Flat(due)))
  {
    forall t: Res | t.Tex? && t in s.handles && (Ref(t) in Pending(rest) || Ref(t) in multiset(Flat(due)))
      ensures Barriered(s.log, t)
    {
      assert Ref(t) in Pending(s.queue);
    }
    hide TexturesOk, BarriersOk, CoveredOk, Barriered, Flat;
  }

  lemma SplitQueue(q: Queue<Res>, rest: Queue<Res>, log: seq<Submitted>, timeline: nat, completed: nat)
    requires QueueInv(q, log, timeline, completed) && Sorted(rest)
    requires forall v, x :: DueAt(rest, v, x) <==> DueAt(q, v, x) && v > completed
    ensures QueueInv(rest, log, timeline, completed)
  {
    forall i, r | completed <= i < |log| && (r in log[i].named || r in log[i].barrier)
      ensures DueAt(rest, i + 1, Ref(r))
    {
      assert DueAt(q, i + 1, Ref(r));
    }
    hide DueAt, Sorted;
  }

  /** Taking the due batches off the queue leaves processing their items as all there is to do. */
  lemma DrainStart(s: State)
    requires Inv(s)
    ensures var n := DueCount(s.queue, s.completed);
      Midway(s.(queue := s.queue[n..]), Flat(s.queue[..n]))
  {
    var n := DueCount(s.queue, s.completed);
    var due, rest := s.queue[..n], s.queue[n..];
    DrainedKeeps(s.queue, s.completed);
    hide DueAt, Pending, Sorted, Held, DueCount;
    hide PoolInv, TextureInv, TextureTodo, SlotTodo, Flat;
    assert forall v, x :: DueAt(rest, v, x) ==> DueAt(s.queue, v, x);
    assert forall v, x :: DueAt(due, v, x) ==> DueAt(s.queue, v, x) && v <= s.completed;
    SplitHeld(s, due, rest);
    SplitSlots(s, due, rest);
    SplitTextures(s, due, rest);
    SplitQueue(s.queue, rest, s.log, s.timeline, s.completed);
  }

  lemma DrainedInv(s: State)
    requires Inv(s)
    ensures Inv(Drained(s))
  {
    var n := DueCount(s.queue, s.completed);
    DrainStart(s);
    hide Midway, Flat, DueCount, Inv;
    MidwayAll(s.(queue := s.queue[n..]), Flat(s.queue[..n]));
    MidwayEnd(Drained(s));
  }
}
