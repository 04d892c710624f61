/**
 * The lifetime protocol of one queue: records and their holders, recording, transactional submission,
 * the GPU's progress, retirement (commands.cpp, resources.cpp, device.cpp).
 */
module Lifetime {
  import opened Bits
  import opened Records
  import opened CommandPools
  import opened RetireQueues
  import D = Descriptors

  /**
   * A successful submission: what its buffers retained, the textures of its layout barrier, the pools of
   * its buffers, and which of the named textures had not been freed.
   */
  datatype Submitted = Submitted(named: seq<Res>, barrier: seq<Res>, pools: seq<nat>, unfreed: set<Res>)

  /**
   * `handles`: public handles and pointers that resolve. `completed`: the GPU's timeline counter.
   * `jobs`: the compiler worker's references. `kept`, `keptSlots`: what stays until shutdown because no
   * storage for its retirement was to be had. `freedAt`: the value each slot's last free retires at.
   */
  datatype State = State(
    store: Store, handles: multiset<Res>, pools: seq<Pool>, queue: Queue<Res>, slots: D.Table<Res>,
    timeline: nat, completed: nat, jobs: multiset<Res>, kept: multiset<Res>, keptSlots: set<nat>,
    freedAt: map<nat, nat>, log: seq<Submitted>)

  // --- Holders ----------------------------------------------------------------------------

  function RefsOf(items: seq<Item<Res>>): multiset<Res> {
    if items == [] then multiset{}
    else (if items[0].Ref? then multiset{items[0].res} else multiset{}) + RefsOf(items[1..])
  }

  function Queued(q: Queue<Res>): multiset<Res> {
    RefsOf(Flat(q))
  }

  function Owners(slots: D.Table<Res>): multiset<Res> {
    if slots == [] then multiset{}
    else (if slots[0].owner.Some? then multiset{slots[0].owner.value} else multiset{}) + Owners(slots[1..])
  }

  /** Every reference that is held, by whom ever. */
  function Held(s: State): multiset<Res> {
    s.handles + Retained(s.pools) + Queued(s.queue) + Owners(s.slots) + s.jobs + s.kept
  }

  lemma {:induction false} RefsCount(items: seq<Item<Res>>, r: Res)
    ensures RefsOf(items)[r] == multiset(items)[Ref(r)]
  {
    if items != [] {
      RefsCount(items[1..], r);
      assert items == [items[0]] + items[1..];
    }
  }

  lemma RefsSum(a: seq<Item<Res>>, b: seq<Item<Res>>, c: seq<Item<Res>>)
    requires multiset(a) == multiset(b) + multiset(c)
    ensures RefsOf(a) == RefsOf(b) + RefsOf(c)
  {
    forall r
      ensures RefsOf(a)[r] == (RefsOf(b) + RefsOf(c))[r]
    {
      RefsCount(a, r);
      RefsCount(b, r);
      RefsCount(c, r);
    }
  }

  /** The retire items of a list of references. */
  function ItemsFor(list: seq<Res>): (items: seq<Item<Res>>)
    ensures |items| == |list| && forall i :: 0 <= i < |list| ==> items[i] == Ref(list[i])
  {
    seq(|list|, i requires 0 <= i < |list| => Ref(list[i]))
  }

  lemma {:induction false} RefsOfItems(list: seq<Res>)
    ensures RefsOf(ItemsFor(list)) == multiset(list)
  {
    if list != [] {
      RefsOfItems(list[1..]);
      assert ItemsFor(list)[1..] == ItemsFor(list[1..]);
      assert list == [list[0]] + list[1..];
    } else {
      assert ItemsFor(list) == [];
    }
  }

  function OwnerOf(slot: D.Slot<Res>): multiset<Res> {
    if slot.owner.Some? then multiset{slot.owner.value} else multiset{}
  }

  lemma {:induction false} OwnersAt(slots: D.Table<Res>, k: nat, slot: D.Slot<Res>)
    requires k < |slots|
    ensures Owners(slots[k := slot]) + OwnerOf(slots[k]) == Owners(slots) + OwnerOf(slot)
  {
    if k == 0 {
      assert slots[0 := slot][1..] == slots[1..];
    } else {
      var rest := slots[1..];
      OwnersAt(rest, k - 1, slot);
      assert slots[k := slot][1..] == rest[k - 1 := slot];
      AddLeft(OwnerOf(slots[0]), Owners(rest[k - 1 := slot]), Owners(rest), OwnerOf(slots[k]), OwnerOf(slot));
    }
  }

  // --- The invariant ----------------------------------------------------------------------

  ghost predicate Barriered(log: seq<Submitted>, t: Res) {
    exists i :: 0 <= i < |log| && t in log[i].barrier
  }

  /** Buffers and textures have one public handle, pipelines one per request. */
  ghost predicate HandlesOk(handles: multiset<Res>) {
    forall r :: r in handles && !r.Pipe? ==> handles[r] == 1
  }

  function InitOf(c: Store, t: Res): Init
    requires t in c.records
  {
    c.records[t].init
  }

  /**
   * Textures await their transition exactly while none was submitted: an unfreed texture is either in
   * the list, never barriered, or was barriered once.
   */
  ghost predicate TexturesOk(c: Store, handles: multiset<Res>, log: seq<Submitted>) {
    && (forall t :: t in c.pending ==> !Barriered(log, t))
    && (forall t :: t in c.pending && t in c.records ==> InitOf(c, t) == (if t in handles then NeedsTransition else Released))
    && (forall t :: t in c.records && t.Tex? && InitOf(c, t) == NeedsTransition ==> t in c.pending)
    && (forall t :: t in c.records && t.Tex? ==> InitOf(c, t) != TransitionQueued)
    && (forall t :: t in handles && t.Tex? ==> t in c.pending || Barriered(log, t))
  }

  /** A layout barrier is in one submission at most, and concerns a record that was created. */
  ghost predicate BarriersOk(c: Store, log: seq<Submitted>) {
    && (forall i, j, t :: 0 <= i < j < |log| && t in log[i].barrier ==> t !in log[j].barrier)
    && (forall i :: 0 <= i < |log| ==> Distinct(log[i].barrier))
    && (forall i, t :: 0 <= i < |log| && t in log[i].barrier ==> t in c.records || t in c.destroyed)
  }

  /** A submission's unfreed textures had their barrier in it or before it. */
  ghost predicate CoveredOk(log: seq<Submitted>) {
    forall i, t :: 0 <= i < |log| && t in log[i].unfreed ==> Barriered(log[..i + 1], t)
  }

  /** A queued texture reference belongs to a freed texture or to one that was barriered. */
  ghost predicate QueuedTextures(q: Queue<Res>, handles: multiset<Res>, log: seq<Submitted>) {
    forall t: Res :: t.Tex? && Ref(t) in Pending(q) && t in handles ==> Barriered(log, t)
  }

  /** What an incomplete submission named or transitions is due at its value. */
  ghost predicate InFlight(q: Queue<Res>, log: seq<Submitted>, completed: nat) {
    forall i, r :: completed <= i < |log| && (r in log[i].named || r in log[i].barrier) ==> DueAt(q, i + 1, Ref(r))
  }

  /** No item is due later than the last published value. */
  ghost predicate QueueValues(q: Queue<Res>, timeline: nat) {
    forall v, item :: DueAt(q, v, item) ==> v <= timeline
  }

  /** The queued retirements owed for a slot and a generation. */
  function Owed(slots: D.Table<Res>, keptSlots: set<nat>, i: nat, g: nat): nat {
    if D.Retires(slots, i, g) && i !in keptSlots then 1 else 0
  }

  /** A slot has one queued retirement exactly while it is retiring, due at the value of its last free. */
  ghost predicate SlotItems(q: Queue<Res>, slots: D.Table<Res>, keptSlots: set<nat>) {
    && (forall i: nat, g: nat :: Pending(q)[SlotItem(i, g)] == Owed(slots, keptSlots, i, g))
    && (forall i :: i in keptSlots ==> i < |slots| && slots[i].state == D.SlotState.Retiring)
  }

  ghost predicate SlotValues(q: Queue<Res>, slots: D.Table<Res>, freedAt: map<nat, nat>, completed: nat) {
    && (forall v, i: nat, g: nat :: DueAt(q, v, SlotItem(i, g)) ==> i < |slots| && i in freedAt && v == freedAt[i])
    && (forall i: nat :: i < |slots| && slots[i].state == D.SlotState.Free ==> slots[i].owner == None)
    && (forall i: nat :: i < |slots| && slots[i].state == D.SlotState.Free && i in freedAt ==> freedAt[i] <= completed)
  }

  /** Submissions from a pool complete no later than the pool's retire value. */
  ghost predicate PoolLog(pools: seq<Pool>, log: seq<Submitted>) {
    forall i, p: nat {:trigger p in log[i].pools} :: 0 <= i < |log| && p in log[i].pools ==> p < |pools| && i < pools[p].retireValue
  }

  /** A pool's retire value is the value of a submission from it, the last one, or 0. */
  ghost predicate PoolDates(pools: seq<Pool>, log: seq<Submitted>) {
    forall p: nat :: p < |pools| && pools[p].retireValue > 0 ==>
      pools[p].retireValue <= |log| && p in log[pools[p].retireValue - 1].pools
  }

  ghost predicate RefInv(c: Store, holders: multiset<Res>, handles: multiset<Res>) {
    StoreOk(c) && Balanced(c, holders) && HandlesOk(handles)
  }

  ghost predicate PoolInv(pools: seq<Pool>, log: seq<Submitted>) {
    PoolsOk(pools) && PoolLog(pools, log) && PoolDates(pools, log)
  }

  ghost predicate QueueInv(q: Queue<Res>, log: seq<Submitted>, timeline: nat, completed: nat) {
    && Sorted(q) && QueueValues(q, timeline) && InFlight(q, log, completed)
    && completed <= timeline == |log|
  }

  ghost predicate TextureInv(c: Store, handles: multiset<Res>, q: Queue<Res>, log: seq<Submitted>) {
    TexturesOk(c, handles, log) && BarriersOk(c, log) && CoveredOk(log) && QueuedTextures(q, handles, log)
  }

  ghost predicate SlotInv(q: Queue<Res>, slots: D.Table<Res>, keptSlots: set<nat>, freedAt: map<nat, nat>, completed: nat) {
    SlotItems(q, slots, keptSlots) && SlotValues(q, slots, freedAt, completed)
  }

  /** What holds between any two calls. */
  ghost predicate Inv(s: State) {
    && RefInv(s.store, Held(s), s.handles)
    && PoolInv(s.pools, s.log)
    && QueueInv(s.queue, s.log, s.timeline, s.completed)
    && TextureInv(s.store, s.handles, s.queue, s.log)
    && SlotInv(s.queue, s.slots, s.keptSlots, s.freedAt, s.completed)
  }

  /** A record nobody holds is not in the queue. */
  lemma NotQueued(s: State, r: Res)
    requires RefInv(s.store, Held(s), s.handles) && r !in s.store.records
    ensures Held(s)[r] == 0 && s.handles[r] == 0 && Ref(r) !in Pending(s.queue)
  {
    assert Count(s.store, r) == 0;
    RefsCount(Flat(s.queue), r);
  }

  lemma HeldStore(s: State, t: State)
    requires t == s.(store := t.store)
    ensures Held(t) == Held(s)
  {
    hide Retained, Queued, Owners;
  }

  // --- Creating records -------------------------------------------------------------------

  function NewRecord(c: Store, r: Res, n: nat): Store {
    Store(c.records[r := Rec(n, NeedsTransition)], if r.Tex? then c.pending + [r] else c.pending, c.destroyed)
  }

  /** malloc and create_texture. */
  function Created(s: State, r: Res): State {
    s.(store := NewRecord(s.store, r, 1), handles := s.handles + multiset{r})
  }

  lemma NewRecordStore(c: Store, r: Res, n: nat, holders: multiset<Res>)
    requires StoreOk(c) && Balanced(c, holders) && r !in c.records && r !in c.destroyed && n > 0
    ensures StoreOk(NewRecord(c, r, n)) && Balanced(NewRecord(c, r, n), holders[r := n])
  {
    assert holders[r] == Count(c, r) == 0;
  }

  lemma NewRecordTextures(c: Store, handles: multiset<Res>, log: seq<Submitted>, r: Res, n: nat)
    requires StoreOk(c) && TexturesOk(c, handles, log) && BarriersOk(c, log)
    requires r !in c.records && r !in c.destroyed && r !in handles
    ensures TexturesOk(NewRecord(c, r, n), handles + multiset{r}, log) && BarriersOk(NewRecord(c, r, n), log)
  {
    assert !Barriered(log, r);
    assert r !in c.pending;
    hide Barriered;
  }

  lemma NewRecordTextureInv(c: Store, handles: multiset<Res>, q: Queue<Res>, log: seq<Submitted>, r: Res, n: nat)
    requires StoreOk(c) && TextureInv(c, handles, q, log)
    requires r !in c.records && r !in c.destroyed && r !in handles && Ref(r) !in Pending(q)
    ensures TextureInv(NewRecord(c, r, n), handles + multiset{r}, q, log)
  {
    NewRecordTextures(c, handles, log, r, n);
    hide TexturesOk, BarriersOk, CoveredOk, Pending, Barriered, NewRecord, StoreOk;
  }

  lemma NewRecordRefInv(c: Store, holders: multiset<Res>, handles: multiset<Res>, r: Res, n: nat, after: multiset<Res>)
    requires RefInv(c, holders, handles) && r !in c.records && r !in c.destroyed && r !in handles && n > 0
    requires after == holders[r := n]
    ensures RefInv(NewRecord(c, r, n), after, handles + multiset{r})
  {
    NewRecordStore(c, r, n, holders);
    hide StoreOk, Balanced, NewRecord;
  }

  lemma CreatedInv(s: State, r: Res)
    requires Inv(s) && !r.Pipe? && r !in s.store.records && r !in s.store.destroyed
    ensures Inv(Created(s, r))
  {
    var t := Created(s, r);
    NotQueued(s, r);
    HeldCreated(s, t, r);
    hide Held, Retained, Queued, Owners, PoolInv, QueueInv, SlotInv, Pending, TextureInv, NewRecord;
    NewRecordRefInv(s.store, Held(s), s.handles, r, 1, Held(t));
    NewRecordTextureInv(s.store, s.handles, s.queue, s.log, r, 1);
  }

  lemma HeldCreated(s: State, t: State, r: Res)
    requires Held(s)[r] == 0 && t.handles == s.handles + multiset{r}
    requires t.pools == s.pools && t.queue == s.queue && t.slots == s.slots && t.jobs == s.jobs && t.kept == s.kept
    ensures Held(t) == Held(s)[r := 1]
  {
    hide Retained, Queued, Owners;
  }

  /** A pipeline request that misses the dedup map: one reference for the handle, one for the worker. */
  function NewPipeline(s: State, r: Res): State {
    s.(store := NewRecord(s.store, r, 2), handles := s.handles + multiset{r}, jobs := s.jobs + multiset{r})
  }

  lemma NewPipelineInv(s: State, r: Res)
    requires Inv(s) && r.Pipe? && r !in s.store.records && r !in s.store.destroyed
    ensures Inv(NewPipeline(s, r))
  {
    var t := NewPipeline(s, r);
    NotQueued(s, r);
    HeldNewPipeline(s, t, r);
    hide Held, Retained, Queued, Owners, PoolInv, QueueInv, SlotInv, Pending, TextureInv, NewRecord;
    NewRecordRefInv(s.store, Held(s), s.handles, r, 2, Held(t));
    NewRecordTextureInv(s.store, s.handles, s.queue, s.log, r, 2);
  }

  lemma HeldNewPipeline(s: State, t: State, r: Res)
    requires Held(s)[r] == 0 && t.handles == s.handles + multiset{r} && t.jobs == s.jobs + multiset{r}
    requires t.pools == s.pools && t.queue == s.queue && t.slots == s.slots && t.kept == s.kept
    ensures Held(t) == Held(s)[r := 2]
  {
    hide Retained, Queued, Owners;
  }

  // --- Taking and giving back a reference -------------------------------------------------

  lemma RetainedTextures(c: Store, handles: multiset<Res>, q: Queue<Res>, log: seq<Submitted>, r: Res)
    requires TextureInv(c, handles, q, log) && r in c.records
    ensures TextureInv(Retain(c, r), handles, q, log)
  {
    hide Barriered, CoveredOk, Pending;
  }

  lemma RetainInv(c: Store, holders: multiset<Res>, handles: multiset<Res>, r: Res, after: multiset<Res>)
    requires RefInv(c, holders, handles) && r in c.records && after == holders + multiset{r}
    ensures RefInv(Retain(c, r), after, handles)
  {
    RetainOne(c, r, holders);
    hide StoreOk, Balanced, Retain;
  }

  lemma ShrunkBarriers(c: Store, d: Store, log: seq<Submitted>)
    requires BarriersOk(c, log) && d.records.Keys + d.destroyed == c.records.Keys + c.destroyed
    ensures BarriersOk(d, log)
  {
    forall i, t | 0 <= i < |log| && t in log[i].barrier
      ensures t in d.records || t in d.destroyed
    {
      assert t in c.records.Keys + c.destroyed;
    }
    hide Distinct;
  }

  lemma ShrunkPending(c: Store, d: Store, handles: multiset<Res>, log: seq<Submitted>)
    requires TexturesOk(c, handles, log) && StoreOk(c) && Shrunk(c, d)
    requires forall t :: t in handles ==> t in d.records
    ensures TexturesOk(d, handles, log)
  {
    AliveMembers(c.pending, d.records);
    hide Barriered, Alive, Distinct;
  }

  /** Records go only when nobody holds them, so the textures with a handle stay as they were. */
  lemma ShrunkTextures(c: Store, d: Store, holders: multiset<Res>, handles: multiset<Res>, q: Queue<Res>, log: seq<Submitted>)
    requires TextureInv(c, handles, q, log) && StoreOk(c) && Shrunk(c, d)
    requires Balanced(d, holders) && handles <= holders
    ensures TextureInv(d, handles, q, log)
  {
    forall t | t in handles
      ensures t in d.records
    {
      assert Count(d, t) > 0;
    }
    hide TexturesOk, BarriersOk, CoveredOk, Pending, Barriered, Alive, Balanced, StoreOk;
    ShrunkPending(c, d, handles, log);
    ShrunkBarriers(c, d, log);
  }

  lemma HandlesHeld(s: State)
    ensures s.handles <= Held(s) && s.jobs <= Held(s)
    ensures forall r :: r in s.handles ==> r in Held(s)
    ensures forall r :: r in s.jobs ==> r in Held(s)
  {
    hide Retained, Queued, Owners;
  }

  /** Giving back a list of references that no holder of t accounts for any more. */
  lemma ReleaseInv(s: State, c: Store, list: seq<Res>)
    requires StoreOk(c) && Balanced(c, Held(s) + multiset(list)) && HandlesOk(s.handles)
    requires TextureInv(c, s.handles, s.queue, s.log)
    ensures RefInv(ReleaseAll(c, list), Held(s), s.handles)
    ensures TextureInv(ReleaseAll(c, list), s.handles, s.queue, s.log) && Shrunk(c, ReleaseAll(c, list))
  {
    HandlesHeld(s);
    ReleaseMany(c, list, Held(s));
    hide StoreOk, Balanced, Held, ReleaseAll, TextureInv, Shrunk;
    ShrunkTextures(c, ReleaseAll(c, list), Held(s), s.handles, s.queue, s.log);
  }

  lemma ReleaseIs(c: Store, r: Res)
    ensures ReleaseAll(c, [r]) == Release(c, r)
  {
    assert [r][1..] == [];
  }

  /** A request that hits the dedup map. */
  function HitPipeline(s: State, r: Res): State
    requires r in s.store.records
  {
    s.(store := Retain(s.store, r), handles := s.handles + multiset{r})
  }

  lemma HitPipelineInv(s: State, r: Res)
    requires Inv(s) && r.Pipe? && r in s.store.records
    ensures Inv(HitPipeline(s, r))
  {
    var t := HitPipeline(s, r);
    HeldHandle(s, t, r);
    RetainedTextures(s.store, s.handles, s.queue, s.log, r);
    PipelineHandle(Retain(s.store, r), s.handles, s.queue, s.log, r);
    hide Held, Retained, Queued, Owners, PoolInv, QueueInv, SlotInv, TextureInv, Retain;
    RetainInv(s.store, Held(s), s.handles, r, Held(t));
    assert HandlesOk(t.handles);
  }

  lemma PipelineHandle(c: Store, handles: multiset<Res>, q: Queue<Res>, log: seq<Submitted>, r: Res)
    requires TextureInv(c, handles, q, log) && r.Pipe? && StoreOk(c)
    ensures TextureInv(c, handles + multiset{r}, q, log)
  {
    hide Barriered, CoveredOk, Pending, BarriersOk;
  }

  lemma HeldHandle(s: State, t: State, r: Res)
    requires t.handles == s.handles + multiset{r} && t.jobs == s.jobs
    requires t.pools == s.pools && t.queue == s.queue && t.slots == s.slots && t.kept == s.kept
    ensures Held(t) == Held(s) + multiset{r}
  {
    hide Retained, Queued, Owners;
  }

  lemma HeldJob(s: State, t: State, r: Res)
    requires t.handles == s.handles && t.jobs == s.jobs + multiset{r}
    requires t.pools == s.pools && t.queue == s.queue && t.slots == s.slots && t.kept == s.kept
    ensures Held(t) == Held(s) + multiset{r}
  {
    hide Retained, Queued, Owners;
  }

  /** A job for the worker retains its base pipeline. */
  function JobQueued(s: State, r: Res): State
    requires r in s.store.records
  {
    s.(store := Retain(s.store, r), jobs := s.jobs + multiset{r})
  }

  lemma JobQueuedInv(s: State, r: Res)
    requires Inv(s) && r in s.store.records
    ensures Inv(JobQueued(s, r))
  {
    var t := JobQueued(s, r);
    HeldJob(s, t, r);
    RetainedTextures(s.store, s.handles, s.queue, s.log, r);
    hide Held, Retained, Queued, Owners, PoolInv, QueueInv, SlotInv, TextureInv, Retain;
    RetainInv(s.store, Held(s), s.handles, r, Held(t));
  }

  /** The worker gives back a job's reference. */
  function JobDone(s: State, r: Res): State {
    s.(store := Release(s.store, r), jobs := s.jobs - multiset{r})
  }

  lemma JobDoneInv(s: State, r: Res)
    requires Inv(s) && r in s.jobs
    ensures Inv(JobDone(s, r))
  {
    var t := JobDone(s, r);
    HeldJob(t, s, r);
    ReleaseIs(s.store, r);
    assert multiset([r]) == multiset{r};
    hide Held, Retained, Queued, Owners, PoolInv, QueueInv, SlotInv, TextureInv, Release, ReleaseAll, StoreOk, Balanced, HandlesOk;
    ReleaseInv(t, s.store, [r]);
  }

  // --- free and free_after ----------------------------------------------------------------

  /** remove_uninitialized_texture: a freed texture is Released; it stays in the list. */
  function Unpublished(c: Store, r: Res): Store {
    if r.Tex? && r in c.records then SetInit(c, r, Released) else c
  }

  function Freed(s: State, r: Res): State {
    if r !in s.handles then s
    else s.(store := Release(Unpublished(s.store, r), r), handles := s.handles - multiset{r})
  }

  lemma UnpublishedTextures(c: Store, handles: multiset<Res>, q: Queue<Res>, log: seq<Submitted>, r: Res)
    requires StoreOk(c) && HandlesOk(handles) && TextureInv(c, handles, q, log) && r in handles
    ensures TextureInv(Unpublished(c, r), handles - multiset{r}, q, log)
  {
    assert r.Tex? ==> r !in handles - multiset{r};
    hide Barriered, CoveredOk, Pending, HandlesOk;
  }

  lemma UnpublishedStore(c: Store, r: Res, holders: multiset<Res>)
    requires StoreOk(c) && Balanced(c, holders)
    ensures StoreOk(Unpublished(c, r)) && Balanced(Unpublished(c, r), holders)
  {
  }

  lemma FreedInv(s: State, r: Res)
    requires Inv(s)
    ensures Inv(Freed(s, r))
  {
    if r in s.handles {
      var t := Freed(s, r);
      HeldHandle(t, s, r);
      UnpublishedStore(s.store, r, Held(s));
      UnpublishedTextures(s.store, s.handles, s.queue, s.log, r);
      ReleaseIs(Unpublished(s.store, r), r);
      assert multiset([r]) == multiset{r};
      FewerHandles(s.handles, r);
      hide Held, Retained, Queued, Owners, PoolInv, QueueInv, SlotInv, TextureInv, Release, ReleaseAll, StoreOk, Balanced, HandlesOk, Unpublished;
      ReleaseInv(t, Unpublished(s.store, r), [r]);
    }
  }

  lemma FewerHandles(handles: multiset<Res>, r: Res)
    requires HandlesOk(handles)
    ensures HandlesOk(handles - multiset{r})
  {
  }

  /** The value an object is retired at: the given submission's, or the last published one. */
  function RetireValue(s: State, token: Option<nat>): nat {
    match token case Some(v) => v case None => s.timeline
  }

  function FreedAfter(s: State, r: Res, token: Option<nat>, st: Storage): State {
    if r !in s.handles then s
    else
      var t := s.(store := Unpublished(s.store, r), handles := s.handles - multiset{r});
      var v := RetireValue(s, token);
      if Available(s.queue, v, st) then t.(queue := Enqueued(s.queue, v, Ref(r)))
      else t.(kept := s.kept + multiset{r})
  }

  /** A token is genuine when its value was published. */
  predicate Genuine(s: State, token: Option<nat>) {
    token.Some? ==> token.value <= s.timeline
  }

  lemma EnqueuedHeld(q: Queue<Res>, p: Queue<Res>, r: Res)
    requires Pending(p) == Pending(q) + multiset{Ref(r)}
    ensures Queued(p) == Queued(q) + multiset{r}
  {
    RefsSum(Flat(p), Flat(q), [Ref(r)]);
    assert [Ref(r)][1..] == [];
  }

  /** More due items at published values. */
  lemma GrownQueue(q: Queue<Res>, p: Queue<Res>, log: seq<Submitted>, timeline: nat, completed: nat)
    requires QueueInv(q, log, timeline, completed) && Sorted(p)
    requires forall v, x :: DueAt(p, v, x) ==> DueAt(q, v, x) || v <= timeline
    requires forall v, x :: DueAt(q, v, x) ==> DueAt(p, v, x)
    ensures QueueInv(p, log, timeline, completed)
  {
    hide DueAt, Sorted;
  }

  lemma SameSlotItems(q: Queue<Res>, p: Queue<Res>, slots: D.Table<Res>, keptSlots: set<nat>, freedAt: map<nat, nat>, completed: nat)
    requires SlotInv(q, slots, keptSlots, freedAt, completed)
    requires forall i: nat, g: nat :: Pending(p)[SlotItem(i, g)] == Pending(q)[SlotItem(i, g)]
    requires forall v, i: nat, g: nat :: DueAt(p, v, SlotItem(i, g)) ==> DueAt(q, v, SlotItem(i, g))
    ensures SlotInv(p, slots, keptSlots, freedAt, completed)
  {
    hide DueAt, Pending, D.Retires;
  }

  lemma EnqueuedRef(s: State, v: nat, r: Res)
    requires QueueInv(s.queue, s.log, s.timeline, s.completed) && v <= s.timeline
    requires SlotInv(s.queue, s.slots, s.keptSlots, s.freedAt, s.completed)
    ensures var q := Enqueued(s.queue, v, Ref(r));
      && Pending(q) == Pending(s.queue) + multiset{Ref(r)}
      && QueueInv(q, s.log, s.timeline, s.completed)
      && SlotInv(q, s.slots, s.keptSlots, s.freedAt, s.completed)
  {
    var q := Enqueued(s.queue, v, Ref(r));
    EnqueuedKeeps(s.queue, v, Ref(r));
    hide DueAt, Pending, Enqueued, Sorted, SlotInv;
    assert forall w, x :: DueAt(q, w, x) <==> DueAt(s.queue, w, x) || (w == v && x == Ref(r));
    assert forall w, x :: DueAt(q, w, x) ==> DueAt(s.queue, w, x) || w <= s.timeline;
    assert forall w, x :: DueAt(s.queue, w, x) ==> DueAt(q, w, x);
    GrownQueue(s.queue, q, s.log, s.timeline, s.completed);
    SameSlotItems(s.queue, q, s.slots, s.keptSlots, s.freedAt, s.completed);
  }

  lemma QueuedFreed(c: Store, handles: multiset<Res>, q: Queue<Res>, log: seq<Submitted>, p: Queue<Res>, r: Res)
    requires TextureInv(c, handles, q, log) && Pending(p) == Pending(q) + multiset{Ref(r)}
    requires r.Tex? ==> r !in handles
    ensures TextureInv(c, handles, p, log)
  {
    hide TexturesOk, BarriersOk, CoveredOk, Barriered, Pending;
  }

  lemma WithdrawnInv(s: State, r: Res)
    requires Inv(s) && r in s.handles
    ensures var c, h := Unpublished(s.store, r), s.handles - multiset{r};
      && RefInv(c, Held(s), h) && TextureInv(c, h, s.queue, s.log) && (r.Tex? ==> r !in h)
  {
    UnpublishedStore(s.store, r, Held(s));
    UnpublishedTextures(s.store, s.handles, s.queue, s.log, r);
    FewerHandles(s.handles, r);
    assert r.Tex? ==> r !in s.handles - multiset{r};
    hide Held, TextureInv, StoreOk, Balanced, Unpublished;
  }

  lemma HeldFreedAfter(s: State, t: State, r: Res)
    requires r in s.handles && t.handles == s.handles - multiset{r} && t.jobs == s.jobs
    requires t.pools == s.pools && t.slots == s.slots
    requires (t.kept == s.kept && Queued(t.queue) == Queued(s.queue) + multiset{r})
          || (t.kept == s.kept + multiset{r} && t.queue == s.queue)
    ensures Held(t) == Held(s)
  {
    hide Retained, Queued, Owners;
  }

  lemma FreedAfterInv(s: State, r: Res, token: Option<nat>, st: Storage)
    requires Inv(s) && Genuine(s, token)
    ensures Inv(FreedAfter(s, r, token, st))
  {
    if r in s.handles {
      var t, v := FreedAfter(s, r, token, st), RetireValue(s, token);
      WithdrawnInv(s, r);
      hide Held, PoolInv, QueueInv, SlotInv, TextureInv, RefInv, Unpublished, Enqueued, Pending, Queued;
      if Available(s.queue, v, st) {
        EnqueuedRef(s, v, r);
        EnqueuedHeld(s.queue, t.queue, r);
        QueuedFreed(t.store, t.handles, s.queue, s.log, t.queue, r);
      }
      HeldFreedAfter(s, t, r);
    }
  }
}
