/** queue_submit as a transaction: claim, reserve, submit, and commit or roll back (commands.cpp). */
module Submission {
  import opened Bits
  import opened Records
  import opened CommandPools
  import opened RetireQueues
  import opened Lifetime
  import opened LifetimeRecording

  /**
   * What a submission meets: the thread's scratch arena, valid semaphores and waits, the injected-failure hook,
   * the native calls of the internal command buffer, scratch overflow, retirement storage, and the native submit.
   */
  datatype Attempt = Attempt(
    scratch: bool, valid: bool, forced: bool, native: Native, overflow: bool, storage: Storage, accepted: bool)

  predicate AnyFailed(pools: seq<Pool>, cbs: seq<nat>)
    requires forall p :: p in cbs ==> p < |pools|
  {
    exists p :: p in cbs && pools[p].recording.failed
  }

  // --- Texture states ---------------------------------------------------------------------

  /** The listed textures in a given state, in order. */
  function WithInit(c: Store, list: seq<Res>, i: Init): seq<Res> {
    if list == [] then []
    else (if list[0] in c.records && InitOf(c, list[0]) == i then [list[0]] else []) + WithInit(c, list[1..], i)
  }

  /** The listed textures move from one state to another. */
  function SetInits(c: Store, list: seq<Res>, from: Init, to: Init): Store {
    c.(records := map r | r in c.records ::
      if r in list && c.records[r].init == from then c.records[r].(init := to) else c.records[r])
  }

  /** The pending list is taken, each texture with a reference for the preparation. */
  function Claimed(c: Store): Store {
    RetainAll(c.(pending := []), c.pending)
  }

  /** The claimed textures that still await their transition go back in the list. */
  function Requeued(c: Store, list: seq<Res>): Store {
    SetInits(c.(pending := WithInit(c, list, TransitionQueued)), list, TransitionQueued, NeedsTransition)
  }

  // --- The outcomes -----------------------------------------------------------------------

  function Abandoner(): Pool -> Pool {
    Abandoned
  }

  function Committer(v: nat): Pool -> Pool {
    p => Committed(p, v)
  }

  /** Buffers that are not submitted: checked in, what they retained given back. */
  function Dropped(s: State, all: seq<nat>): State
    requires forall p :: p in all ==> p < |s.pools|
  {
    s.(pools := Update(s.pools, all, Abandoner()), store := ReleaseAll(s.store, RetainedBy(s.pools, all)))
  }

  /** No internal command buffer could be started: the claim is undone. */
  function Unclaimed(s: State, list: seq<Res>): State {
    s.(store := ReleaseAll(s.store.(pending := WithInit(s.store, list, NeedsTransition)), list))
  }

  function RolledBack(s: State, list: seq<Res>, all: seq<nat>): State
    requires forall p :: p in all ==> p < |s.pools|
  {
    Dropped(s.(store := ReleaseAll(Requeued(s.store, list), list)), all)
  }

  /** Every reference that a commit moves into the retirement batch. */
  function Moved(s: State, list: seq<Res>, all: seq<nat>): seq<Res>
    requires forall p :: p in all ==> p < |s.pools|
  {
    list + RetainedBy(s.pools, all)
  }

  function Unfreed(named: seq<Res>, handles: multiset<Res>): set<Res> {
    set t | t in named && t.Tex? && t in handles
  }

  function Sent(s: State, list: seq<Res>, all: seq<nat>): State
    requires forall p :: p in all ==> p < |s.pools|
  {
    var v, named := s.timeline + 1, RetainedBy(s.pools, all);
    var items := ItemsFor(Moved(s, list, all));
    PreparedAt(s.queue, v, |items|);
    s.(store := SetInits(s.store, list, TransitionQueued, Initialized),
       pools := Update(s.pools, all, Committer(v)),
       queue := Pushed(Prepared(s.queue, v, |items|), Before(s.queue, v), items),
       timeline := v,
       log := s.log + [Submitted(named, list, all, Unfreed(named, s.handles))])
  }

  /** From the claim on: `all` are the internal command buffer's pool, if any, and the caller's. */
  function Attempted(s: State, list: seq<Res>, all: seq<nat>, a: Attempt): State
    requires forall p :: p in all ==> p < |s.pools|
  {
    var v := s.timeline + 1;
    if a.overflow || !Available(s.queue, v, a.storage) then RolledBack(s, list, all)
    else if !a.accepted then
      RolledBack(s.(queue := Prepared(s.queue, v, |Moved(s, list, all)|)), list, all)
    else Sent(s, list, all)
  }

  function ClaimedState(s: State): State {
    s.(store := Claimed(s.store))
  }

  function QueuedState(s: State, list: seq<Res>): State {
    s.(store := SetInits(s.store, list, NeedsTransition, TransitionQueued))
  }

  /** queue_submit. */
  function Submit(s: State, cbs: seq<nat>, a: Attempt): State
    requires forall p :: p in cbs ==> p < |s.pools|
  {
    if !a.scratch then s
    else if AnyFailed(s.pools, cbs) then Dropped(s, cbs)
    else if !a.valid || a.forced then s
    else
      var list := s.store.pending;
      if list == [] then Attempted(ClaimedState(s), list, cbs, a)
      else
        var t := StartedRecording(ClaimedState(s), a.native);
        var k := StartedPool(s.pools, s.completed, a.native);
        if k == None then Unclaimed(t, list)
        else Attempted(QueuedState(t, list), list, [k.value] + cbs, a)
  }

  // --- After the claim --------------------------------------------------------------------

  /** The textures between claim and outcome; `i` is the state of those not freed. */
  ghost predicate TextureClaim(c: Store, handles: multiset<Res>, q: Queue<Res>, log: seq<Submitted>, list: seq<Res>, i: Init) {
    && c.pending == [] && Distinct(list)
    && (forall t :: t in list ==> t.Tex? && t in c.records && !Barriered(log, t))
    && (forall t :: t in list && t in c.records ==> InitOf(c, t) == if t in handles then i else Released)
    && (forall t :: t in c.records && t.Tex? && t !in list ==> InitOf(c, t) != NeedsTransition && InitOf(c, t) != TransitionQueued)
    && (forall t :: t in handles && t.Tex? ==> t in list || Barriered(log, t))
    && BarriersOk(c, log) && CoveredOk(log) && QueuedTextures(q, handles, log)
  }

  /** Everything between claim and outcome. */
  ghost predicate Underway(s: State, list: seq<Res>, i: Init) {
    && RefInv(s.store, Held(s) + multiset(list), s.handles)
    && PoolInv(s.pools, s.log)
    && QueueInv(s.queue, s.log, s.timeline, s.completed)
    && TextureClaim(s.store, s.handles, s.queue, s.log, list, i)
    && SlotInv(s.queue, s.slots, s.keptSlots, s.freedAt, s.completed)
  }

  lemma ClaimTextures(c: Store, d: Store, handles: multiset<Res>, q: Queue<Res>, log: seq<Submitted>)
    requires StoreOk(c) && TextureInv(c, handles, q, log)
    requires d.pending == [] && d.destroyed == c.destroyed && d.records.Keys == c.records.Keys
    requires forall r :: r in c.records ==> r in d.records && d.records[r].init == c.records[r].init
    ensures TextureClaim(d, handles, q, log, c.pending, NeedsTransition)
  {
    hide Barriered, CoveredOk, Pending, QueuedTextures, Distinct;
  }

  lemma ClaimStore(c: Store, holders: multiset<Res>)
    requires StoreOk(c) && Balanced(c, holders)
    ensures StoreOk(Claimed(c)) && Balanced(Claimed(c), holders + multiset(c.pending))
    ensures Claimed(c).pending == [] && Claimed(c).destroyed == c.destroyed && Claimed(c).records.Keys == c.records.Keys
    ensures forall r :: r in c.records ==> r in Claimed(c).records && Claimed(c).records[r].init == c.records[r].init
  {
    RetainMany(c.(pending := []), c.pending, holders);
    hide RetainAll;
  }

  lemma ClaimInv(s: State)
    requires Inv(s)
    ensures Underway(ClaimedState(s), s.store.pending, NeedsTransition)
  {
    var t := ClaimedState(s);
    hide Held, PoolInv, QueueInv, SlotInv, TextureInv, TextureClaim, StoreOk, Balanced, HandlesOk, Claimed;
    ClaimStore(s.store, Held(s));
    ClaimTextures(s.store, t.store, s.handles, s.queue, s.log);
    HeldStore(s, t);
  }

  lemma InitsStore(c: Store, list: seq<Res>, from: Init, to: Init, holders: multiset<Res>)
    requires StoreOk(c) && Balanced(c, holders)
    ensures StoreOk(SetInits(c, list, from, to)) && Balanced(SetInits(c, list, from, to), holders)
    ensures SetInits(c, list, from, to).records.Keys == c.records.Keys
  {
    var d := SetInits(c, list, from, to);
    assert forall r :: Count(d, r) == Count(c, r);
  }

  lemma QueuedTextureClaim(c: Store, handles: multiset<Res>, q: Queue<Res>, log: seq<Submitted>, list: seq<Res>)
    requires TextureClaim(c, handles, q, log, list, NeedsTransition)
    ensures TextureClaim(SetInits(c, list, NeedsTransition, TransitionQueued), handles, q, log, list, TransitionQueued)
  {
    hide Barriered, CoveredOk, Pending, QueuedTextures, Distinct;
  }

  lemma QueuedInv(s: State, list: seq<Res>)
    requires Underway(s, list, NeedsTransition)
    ensures Underway(QueuedState(s, list), list, TransitionQueued)
  {
    InitsStore(s.store, list, NeedsTransition, TransitionQueued, Held(s) + multiset(list));
    QueuedTextureClaim(s.store, s.handles, s.queue, s.log, list);
    HeldStore(s, QueuedState(s, list));
    hide Held, PoolInv, QueueInv, SlotInv, TextureClaim, StoreOk, Balanced, SetInits;
  }

  // --- Rolling back -----------------------------------------------------------------------

  lemma {:induction false} WithInitMembers(c: Store, list: seq<Res>, i: Init)
    ensures forall t :: t in WithInit(c, list, i) <==> t in list && t in c.records && InitOf(c, t) == i
    ensures Distinct(list) ==> Distinct(WithInit(c, list, i))
  {
    if list != [] {
      WithInitMembers(c, list[1..], i);
      assert list == [list[0]] + list[1..];
      WithInitDistinct(c, list, i);
    }
  }

  lemma WithInitDistinct(c: Store, list: seq<Res>, i: Init)
    requires list != [] && forall t :: t in WithInit(c, list[1..], i) ==> t in list[1..]
    requires Distinct(list[1..]) ==> Distinct(WithInit(c, list[1..], i))
    ensures Distinct(list) ==> Distinct(WithInit(c, list, i))
  {
    if Distinct(list) {
      var rest, tail := list[1..], WithInit(c, list[1..], i);
      assert forall k :: 0 <= k < |rest| ==> rest[k] != list[0];
      assert forall k :: 0 <= k < |tail| ==> tail[k] in tail;
    }
  }

  /** The requeued textures are the unfreed ones, in order. */
  ghost predicate Restored(c: Store, d: Store, list: seq<Res>, i: Init) {
    && d.pending == WithInit(c, list, i)
    && d.destroyed == c.destroyed && d.records.Keys == c.records.Keys
    && (forall r :: r in c.records ==> r in d.records && d.records[r].refs == c.records[r].refs)
    && (forall r :: r in c.records && r in d.records ==>
         InitOf(d, r) == if r in list && InitOf(c, r) == i then NeedsTransition else InitOf(c, r))
  }

  lemma RestoredStore(c: Store, d: Store, list: seq<Res>, i: Init, holders: multiset<Res>)
    requires StoreOk(c) && Balanced(c, holders) && Restored(c, d, list, i) && Distinct(list)
    requires forall t :: t in list ==> t.Tex?
    ensures StoreOk(d) && Balanced(d, holders)
  {
    WithInitMembers(c, list, i);
    assert forall r :: Count(d, r) == Count(c, r);
    hide WithInit;
  }

  lemma RestoredTextures(c: Store, d: Store, handles: multiset<Res>, q: Queue<Res>, log: seq<Submitted>, list: seq<Res>, i: Init)
    requires TextureClaim(c, handles, q, log, list, i) && Restored(c, d, list, i)
    requires i == NeedsTransition || i == TransitionQueued
    ensures TextureInv(d, handles, q, log)
  {
    WithInitMembers(c, list, i);
    RestoredList(c, d, handles, q, log, list, i);
    hide Barriered, CoveredOk, Pending, QueuedTextures, Distinct, WithInit, TexturesOk;
    assert BarriersOk(d, log);
  }

  lemma RestoredList(c: Store, d: Store, handles: multiset<Res>, q: Queue<Res>, log: seq<Submitted>, list: seq<Res>, i: Init)
    requires TextureClaim(c, handles, q, log, list, i) && Restored(c, d, list, i)
    requires i == NeedsTransition || i == TransitionQueued
    ensures TexturesOk(d, handles, log)
  {
    WithInitMembers(c, list, i);
    hide Barriered, CoveredOk, Pending, QueuedTextures, Distinct, WithInit, BarriersOk;
  }

  /** The preparation references are given back and the list is as it was, without the freed textures. */
  lemma RestoredInv(s: State, c: Store, list: seq<Res>, i: Init)
    requires Underway(s, list, i) && Restored(s.store, c, list, i)
    requires i == NeedsTransition || i == TransitionQueued
    ensures Inv(s.(store := ReleaseAll(c, list))) && Shrunk(c, ReleaseAll(c, list))
  {
    RestoredStore(s.store, c, list, i, Held(s) + multiset(list));
    RestoredTextures(s.store, c, s.handles, s.queue, s.log, list, i);
    HeldStore(s, s.(store := ReleaseAll(c, list)));
    hide Held, PoolInv, QueueInv, SlotInv, TextureInv, TextureClaim, StoreOk, Balanced, HandlesOk, ReleaseAll, Restored;
    ReleaseInv(s, c, list);
  }

  lemma RequeuedIs(c: Store, list: seq<Res>)
    ensures Restored(c, Requeued(c, list), list, TransitionQueued)
    ensures Restored(c, c.(pending := WithInit(c, list, NeedsTransition)), list, NeedsTransition)
  {
    hide WithInit;
  }

  lemma UnclaimedInv(s: State, list: seq<Res>)
    requires Underway(s, list, NeedsTransition)
    ensures Inv(Unclaimed(s, list))
  {
    RequeuedIs(s.store, list);
    hide Underway, Restored, WithInit, Inv, ReleaseAll;
    RestoredInv(s, s.store.(pending := WithInit(s.store, list, NeedsTransition)), list, NeedsTransition);
  }

  lemma DroppedPools(pools: seq<Pool>, log: seq<Submitted>, all: seq<nat>)
    requires PoolInv(pools, log)
    ensures PoolInv(Update(pools, all, Abandoner()), log)
  {
    var after := Update(pools, all, Abandoner());
    forall i, k: nat | 0 <= i < |log| && k in log[i].pools
      ensures k < |after| && i < after[k].retireValue
    {
      assert i < pools[k].retireValue;
    }
  }

  lemma HeldPools(s: State, t: State, list: seq<Res>)
    requires t.handles == s.handles && Retained(t.pools) + multiset(list) == Retained(s.pools) && t.queue == s.queue
    requires t.slots == s.slots && t.jobs == s.jobs && t.kept == s.kept
    ensures Held(s) == Held(t) + multiset(list)
  {
    hide Retained, Queued, Owners;
  }

  lemma DroppedInv(s: State, all: seq<nat>)
    requires Inv(s) && DistinctPools(s.pools, all)
    ensures Inv(Dropped(s, all)) && Shrunk(s.store, Dropped(s, all).store)
  {
    var t, list := Dropped(s, all), RetainedBy(s.pools, all);
    UpdateRetained(s.pools, all, Abandoner());
    DroppedPools(s.pools, s.log, all);
    HeldPools(s, t, list);
    hide Held, PoolInv, QueueInv, SlotInv, TextureInv, StoreOk, Balanced, HandlesOk, ReleaseAll, Update, RetainedBy;
    ReleaseInv(t, s.store, list);
  }

  lemma RolledBackInv(s: State, list: seq<Res>, all: seq<nat>)
    requires Underway(s, list, TransitionQueued) && DistinctPools(s.pools, all)
    ensures Inv(RolledBack(s, list, all))
  {
    RequeuedIs(s.store, list);
    hide Underway, Restored, Inv, ReleaseAll, DistinctPools, Dropped, Requeued;
    RestoredInv(s, Requeued(s.store, list), list, TransitionQueued);
    DroppedInv(s.(store := ReleaseAll(Requeued(s.store, list), list)), all);
  }

  // --- Committing -------------------------------------------------------------------------

  lemma NextEntry(log: seq<Submitted>, e: Submitted, t: Res)
    ensures Barriered(log + [e], t) <==> Barriered(log, t) || t in e.barrier
  {
    var more := log + [e];
    if t in e.barrier {
      assert t in more[|log|].barrier;
    }
    if i :| 0 <= i < |log| && t in log[i].barrier {
      assert t in more[i].barrier;
    }
  }

  /** The transition states and barrier ledger after the commit. */
  lemma CommitTextures(c: Store, handles: multiset<Res>, q: Queue<Res>, log: seq<Submitted>, list: seq<Res>, e: Submitted)
    requires TextureClaim(c, handles, q, log, list, TransitionQueued) && e.barrier == list
    ensures TexturesOk(SetInits(c, list, TransitionQueued, Initialized), handles, log + [e])
  {
    forall t
      ensures Barriered(log + [e], t) <==> Barriered(log, t) || t in list
    {
      NextEntry(log, e, t);
    }
    hide Barriered, CoveredOk, Pending, QueuedTextures, Distinct, BarriersOk;
  }

  lemma CommitBarriers(c: Store, d: Store, handles: multiset<Res>, q: Queue<Res>, log: seq<Submitted>, list: seq<Res>, e: Submitted)
    requires TextureClaim(c, handles, q, log, list, TransitionQueued) && e.barrier == list
    requires d.records.Keys == c.records.Keys && d.destroyed == c.destroyed
    ensures BarriersOk(d, log + [e])
  {
    var more := log + [e];
    forall i, t | 0 <= i < |more| && t in more[i].barrier
      ensures t in d.records || t in d.destroyed
    {
      assert i < |log| ==> t in log[i].barrier;
    }
    forall i, j, t | 0 <= i < j < |more| && t in more[i].barrier
      ensures t !in more[j].barrier
    {
      assert t in log[i].barrier;
    }
    hide CoveredOk, Pending, QueuedTextures, Distinct;
  }

  lemma CommitCovered(log: seq<Submitted>, handles: multiset<Res>, e: Submitted)
    requires CoveredOk(log)
    requires forall t :: t in e.unfreed ==> Barriered(log, t) || t in e.barrier
    ensures CoveredOk(log + [e])
  {
    var more := log + [e];
    forall i, t | 0 <= i < |more| && t in more[i].unfreed
      ensures Barriered(more[..i + 1], t)
    {
      if i < |log| {
        assert more[..i + 1] == log[..i + 1];
        assert t in log[i].unfreed;
      } else {
        assert more[..i + 1] == more;
        NextEntry(log, e, t);
      }
    }
    hide Barriered;
  }

  lemma CommitQueued(q: Queue<Res>, p: Queue<Res>, handles: multiset<Res>, log: seq<Submitted>, e: Submitted, moved: seq<Res>)
    requires QueuedTextures(q, handles, log) && Pending(p) == Pending(q) + multiset(ItemsFor(moved))
    requires forall t: Res :: t in moved && t.Tex? && t in handles ==> Barriered(log, t) || t in e.barrier
    ensures QueuedTextures(p, handles, log + [e])
  {
    forall t: Res | t.Tex? && Ref(t) in Pending(p) && t in handles
      ensures Barriered(log + [e], t)
    {
      NextEntry(log, e, t);
      if Ref(t) !in Pending(q) {
        assert Ref(t) in ItemsFor(moved);
      }
    }
    hide Pending, Barriered;
  }

  lemma CommitTextureInv(s: State, list: seq<Res>, all: seq<nat>)
    requires Underway(s, list, TransitionQueued) && DistinctPools(s.pools, all)
    requires Pending(Sent(s, list, all).queue) == Pending(s.queue) + multiset(ItemsFor(Moved(s, list, all)))
    ensures var t := Sent(s, list, all); TextureInv(t.store, t.handles, t.queue, t.log)
  {
    var t, moved, named := Sent(s, list, all), Moved(s, list, all), RetainedBy(s.pools, all);
    var e := Submitted(named, list, all, Unfreed(named, s.handles));
    assert t.log == s.log + [e];
    assert forall r: Res :: r in moved && r.Tex? && r in s.handles ==> Barriered(s.log, r) || r in list;
    hide Barriered, Pending, Update, RetainedBy, PoolInv, QueueInv, SlotInv, TexturesOk, BarriersOk, CoveredOk, QueuedTextures, RefInv;
    CommitTextures(s.store, s.handles, s.queue, s.log, list, e);
    CommitBarriers(s.store, t.store, s.handles, s.queue, s.log, list, e);
    CommitCovered(s.log, s.handles, e);
    CommitQueued(s.queue, t.queue, s.handles, s.log, e, moved);
  }

  /** The batch has room for every reference the commit moves; they are due at the new value. */
  lemma SentQueue(s: State, moved: seq<Res>)
    requires QueueInv(s.queue, s.log, s.timeline, s.completed)
    ensures var v, n := s.timeline + 1, |moved|;
      var p, k := Prepared(s.queue, v, n), Before(s.queue, v);
      && k < |p| && p[k].value == v && |p[k].items| + n <= p[k].room
      && var q := Pushed(p, k, ItemsFor(moved));
         && Sorted(q) && Pending(q) == Pending(s.queue) + multiset(ItemsFor(moved))
         && (forall w, x :: DueAt(q, w, x) <==> DueAt(s.queue, w, x) || (w == v && x in ItemsFor(moved)))
  {
    var v, n := s.timeline + 1, |moved|;
    PreparedAt(s.queue, v, n);
    PreparedKeeps(s.queue, v, n);
    hide DueAt, Pending, Sorted, Prepared, Before, InFlight, QueueValues, ItemsFor;
    PushedKeeps(Prepared(s.queue, v, n), Before(s.queue, v), ItemsFor(moved));
  }

  lemma SentQueueInv(s: State, q: Queue<Res>, e: Submitted, moved: seq<Res>)
    requires QueueInv(s.queue, s.log, s.timeline, s.completed) && Sorted(q)
    requires forall w, x :: DueAt(q, w, x) <==> DueAt(s.queue, w, x) || (w == s.timeline + 1 && x in ItemsFor(moved))
    requires moved == e.barrier + e.named
    ensures QueueInv(q, s.log + [e], s.timeline + 1, s.completed)
  {
    var more := s.log + [e];
    forall i, r | s.completed <= i < |more| && (r in more[i].named || r in more[i].barrier)
      ensures DueAt(q, i + 1, Ref(r))
    {
      if i < |s.log| {
        assert r in s.log[i].named || r in s.log[i].barrier;
        assert DueAt(s.queue, i + 1, Ref(r));
      } else {
        assert r in moved;
        var k :| 0 <= k < |moved| && moved[k] == r;
        assert ItemsFor(moved)[k] == Ref(r);
      }
    }
    hide DueAt, Sorted, ItemsFor;
  }

  lemma SentSlots(s: State, q: Queue<Res>, moved: seq<Res>)
    requires SlotInv(s.queue, s.slots, s.keptSlots, s.freedAt, s.completed)
    requires Pending(q) == Pending(s.queue) + multiset(ItemsFor(moved))
    requires forall w, x :: DueAt(q, w, x) <==> DueAt(s.queue, w, x) || (w == s.timeline + 1 && x in ItemsFor(moved))
    ensures SlotInv(q, s.slots, s.keptSlots, s.freedAt, s.completed)
  {
    var items := ItemsFor(moved);
    assert forall i: nat, g: nat :: SlotItem(i, g) !in items;
    assert forall i: nat, g: nat :: multiset(items)[SlotItem(i, g)] == 0;
    hide DueAt, Pending, ItemsFor, SlotInv;
    assert forall w, i: nat, g: nat :: DueAt(q, w, SlotItem(i, g)) ==> DueAt(s.queue, w, SlotItem(i, g));
    SameSlotItems(s.queue, q, s.slots, s.keptSlots, s.freedAt, s.completed);
  }

  lemma SentPools(s: State, all: seq<nat>, e: Submitted)
    requires PoolInv(s.pools, s.log) && DistinctPools(s.pools, all) && e.pools == all && s.timeline == |s.log|
    requires forall p :: p in all ==> s.pools[p].outstanding > 0
    ensures PoolInv(Update(s.pools, all, Committer(s.timeline + 1)), s.log + [e])
  {
    var after, more := Update(s.pools, all, Committer(s.timeline + 1)), s.log + [e];
    forall i, k: nat | 0 <= i < |more| && k in more[i].pools
      ensures k < |after| && i < after[k].retireValue
    {
      if i < |s.log| {
        assert k in s.log[i].pools;
      }
    }
  }

  lemma HeldSent(s: State, t: State, moved: multiset<Res>, named: multiset<Res>, list: multiset<Res>)
    requires t.handles == s.handles && Retained(t.pools) + named == Retained(s.pools)
    requires Queued(t.queue) == Queued(s.queue) + moved && moved == list + named
    requires t.slots == s.slots && t.jobs == s.jobs && t.kept == s.kept
    ensures Held(t) == Held(s) + list
  {
    hide Retained, Queued, Owners;
    forall r
      ensures Held(t)[r] == (Held(s) + list)[r]
    {
      assert (Retained(t.pools) + named)[r] == Retained(s.pools)[r];
      assert Queued(t.queue)[r] == (Queued(s.queue) + moved)[r];
    }
  }

  lemma QueuedMoved(q: Queue<Res>, p: Queue<Res>, moved: seq<Res>)
    requires Pending(p) == Pending(q) + multiset(ItemsFor(moved))
    ensures Queued(p) == Queued(q) + multiset(moved)
  {
    RefsSum(Flat(p), Flat(q), ItemsFor(moved));
    RefsOfItems(moved);
    hide Flat, RefsOf, ItemsFor;
  }

  lemma SentHeld(s: State, list: seq<Res>, all: seq<nat>)
    requires DistinctPools(s.pools, all)
    requires Pending(Sent(s, list, all).queue) == Pending(s.queue) + multiset(ItemsFor(Moved(s, list, all)))
    ensures Held(Sent(s, list, all)) == Held(s) + multiset(list)
  {
    hide Held, Retained, RetainedBy, Update, Pending, Queued, ItemsFor, SetInits, Prepared, Pushed, Before;
    var t, moved, named := Sent(s, list, all), Moved(s, list, all), RetainedBy(s.pools, all);
    UpdateRetained(s.pools, all, Committer(s.timeline + 1));
    QueuedMoved(s.queue, t.queue, moved);
    assert multiset(moved) == multiset(list) + multiset(named);
    HeldSent(s, t, multiset(moved), multiset(named), multiset(list));
  }

  lemma SentInv(s: State, list: seq<Res>, all: seq<nat>)
    requires Underway(s, list, TransitionQueued) && DistinctPools(s.pools, all)
    requires forall p :: p in all ==> s.pools[p].outstanding > 0
    ensures Inv(Sent(s, list, all))
  {
    var t, moved, named := Sent(s, list, all), Moved(s, list, all), RetainedBy(s.pools, all);
    var e := Submitted(named, list, all, Unfreed(named, s.handles));
    SentQueue(s, moved);
    hide Held, PoolInv, SlotInv, TextureClaim, TextureInv, StoreOk, Balanced, HandlesOk, SetInits, Update, RetainedBy;
    hide Prepared, Pushed, Before, Pending, DueAt, Sorted, ItemsFor, InFlight, QueueValues;
    SentQueueInv(s, t.queue, e, moved);
    SentSlots(s, t.queue, moved);
    SentPools(s, all, e);
    SentHeld(s, list, all);
    CommitTextureInv(s, list, all);
    InitsStore(s.store, list, TransitionQueued, Initialized, Held(s) + multiset(list));
  }

  // --- The whole submission ---------------------------------------------------------------

  lemma PreparedTextures(s: State, list: seq<Res>, q: Queue<Res>)
    requires TextureClaim(s.store, s.handles, s.queue, s.log, list, TransitionQueued) && Pending(q) == Pending(s.queue)
    ensures TextureClaim(s.store, s.handles, q, s.log, list, TransitionQueued)
  {
    hide Pending, BarriersOk, CoveredOk, Barriered, Distinct;
  }

  lemma PreparedHeld(s: State, q: Queue<Res>)
    requires Pending(q) == Pending(s.queue)
    ensures Held(s.(queue := q)) == Held(s)
  {
    assert ItemsFor([]) == [];
    QueuedMoved(s.queue, q, []);
    hide Pending, Queued;
    SameHeld(s, s.(queue := q));
  }

  lemma PreparedUnderway(s: State, list: seq<Res>, n: nat)
    requires Underway(s, list, TransitionQueued)
    ensures Underway(s.(queue := Prepared(s.queue, s.timeline + 1, n)), list, TransitionQueued)
  {
    hide Held, PoolInv, SlotInv, RefInv, TextureClaim, Prepared, Pending, DueAt, Sorted, InFlight, QueueValues;
    var q := Prepared(s.queue, s.timeline + 1, n);
    forall v, x
      ensures DueAt(q, v, x) <==> DueAt(s.queue, v, x)
    {
      PreparedKeeps(s.queue, s.timeline + 1, n);
      assert DueAt(q, v, x) <==> DueAt(s.queue, v, x);
    }
    PreparedKeeps(s.queue, s.timeline + 1, n);
    SamePrepared(s, q);
    PreparedHeld(s, q);
    PreparedTextures(s, list, q);
  }

  lemma SamePrepared(s: State, q: Queue<Res>)
    requires QueueInv(s.queue, s.log, s.timeline, s.completed) && Sorted(q)
    requires SlotInv(s.queue, s.slots, s.keptSlots, s.freedAt, s.completed)
    requires Pending(q) == Pending(s.queue)
    requires forall v, item :: DueAt(q, v, item) <==> DueAt(s.queue, v, item)
    ensures QueueInv(q, s.log, s.timeline, s.completed) && SlotInv(q, s.slots, s.keptSlots, s.freedAt, s.completed)
  {
    hide DueAt, Pending, Sorted;
    assert forall w, x :: DueAt(q, w, x) ==> DueAt(s.queue, w, x) || w <= s.timeline;
    assert forall w, x :: DueAt(s.queue, w, x) ==> DueAt(q, w, x);
    assert forall w, i: nat, g: nat :: DueAt(q, w, SlotItem(i, g)) ==> DueAt(s.queue, w, SlotItem(i, g));
    hide SlotInv, QueueInv;
    GrownQueue(s.queue, q, s.log, s.timeline, s.completed);
    SameSlotItems(s.queue, q, s.slots, s.keptSlots, s.freedAt, s.completed);
  }

  ghost predicate Ready(pools: seq<Pool>, all: seq<nat>) {
    DistinctPools(pools, all) && forall p :: p in all ==> pools[p].outstanding > 0
  }

  lemma AttemptedInv(s: State, list: seq<Res>, all: seq<nat>, a: Attempt)
    requires Underway(s, list, TransitionQueued) && Ready(s.pools, all)
    ensures Inv(Attempted(s, list, all, a))
  {
    hide Underway, Inv, RolledBack, Sent, Prepared, Available, RetainedBy;
    if a.overflow || !Available(s.queue, s.timeline + 1, a.storage) {
      RolledBackInv(s, list, all);
    } else if !a.accepted {
      var n := |Moved(s, list, all)|;
      PreparedUnderway(s, list, n);
      RolledBackInv(s.(queue := Prepared(s.queue, s.timeline + 1, n)), list, all);
    } else {
      SentInv(s, list, all);
    }
  }

  lemma StartedUnderway(s: State, list: seq<Res>, n: Native)
    requires Underway(s, list, NeedsTransition)
    ensures Underway(StartedRecording(s, n), list, NeedsTransition)
  {
    var t := StartedRecording(s, n);
    StartKeeps(s.pools, s.completed, n);
    StartedLog(s, n);
    hide Held, Retained, Queued, Owners, PoolsOk, PoolLog, PoolDates, QueueInv, SlotInv, TextureClaim, RefInv, Started;
    SameHeld(s, t);
  }

  /** The internal command buffer comes from a pool of its own. */
  lemma StartedReady(pools: seq<Pool>, completed: nat, n: Native, cbs: seq<nat>)
    requires Ready(pools, cbs) && StartedPool(pools, completed, n).Some?
    ensures Ready(Started(pools, completed, n), [StartedPool(pools, completed, n).value] + cbs)
  {
    var k := StartedPool(pools, completed, n).value;
    var after, all := Started(pools, completed, n), [k] + cbs;
    assert k !in cbs;
    forall p | p in all
      ensures p < |after| && after[p].outstanding > 0
    {
      assert p == k || p in cbs;
    }
  }

  lemma NoneClaimed(s: State)
    requires Underway(s, [], NeedsTransition)
    ensures Underway(s, [], TransitionQueued)
  {
    hide Held, PoolInv, QueueInv, SlotInv, RefInv, BarriersOk, CoveredOk, QueuedTextures, Barriered;
  }

  /** Every outcome of a submission keeps the invariant. */
  lemma SubmitInv(s: State, cbs: seq<nat>, a: Attempt)
    requires Inv(s) && Ready(s.pools, cbs)
    ensures Inv(Submit(s, cbs, a))
  {
    var list := s.store.pending;
    hide Underway, Inv, Dropped, Attempted, Unclaimed, Claimed, Started, StartedPool, QueuedState;
    if AnyFailed(s.pools, cbs) {
      DroppedInv(s, cbs);
    } else if Claims(s, cbs, a) {
      ClaimInv(s);
      if list == [] {
        NoneClaimed(ClaimedState(s));
        AttemptedInv(ClaimedState(s), list, cbs, a);
      } else {
        StartedUnderway(ClaimedState(s), list, a.native);
        SubmitStarted(s, cbs, a);
      }
    }
  }

  lemma SubmitStarted(s: State, cbs: seq<nat>, a: Attempt)
    requires Ready(s.pools, cbs) && Underway(StartedRecording(ClaimedState(s), a.native), s.store.pending, NeedsTransition)
    requires s.store.pending != [] && Claims(s, cbs, a)
    ensures Inv(Submit(s, cbs, a))
  {
    var list, t := s.store.pending, StartedRecording(ClaimedState(s), a.native);
    var k := StartedPool(s.pools, s.completed, a.native);
    hide Underway, Inv, DistinctPools, Attempted, Unclaimed, Claimed, Started, StartedPool;
    if k == None {
      UnclaimedInv(t, list);
    } else {
      StartedReady(s.pools, s.completed, a.native, cbs);
      QueuedInv(t, list);
      hide QueuedState;
      AttemptedInv(QueuedState(t, list), list, [k.value] + cbs, a);
    }
  }

  // --- What a submission does and does not change -----------------------------------------

  predicate Claims(s: State, cbs: seq<nat>, a: Attempt)
    requires forall p :: p in cbs ==> p < |s.pools|
  {
    a.scratch && !AnyFailed(s.pools, cbs) && a.valid && !a.forced
  }

  /** The textures of a list that were not freed, in order. */
  function NotFreed(list: seq<Res>, handles: multiset<Res>): seq<Res> {
    if list == [] then []
    else (if list[0] in handles then [list[0]] else []) + NotFreed(list[1..], handles)
  }

  /** t is s but for records, pools and reserved room, and holds less by what the list names. */
  ghost predicate Undone(s: State, t: State, list: multiset<Res>) {
    && t == s.(store := t.store, pools := t.pools, queue := t.queue)
    && Pending(t.queue) == Pending(s.queue)
    && Held(s) == Held(t) + list
  }

  lemma DroppedUndone(s: State, all: seq<nat>)
    requires DistinctPools(s.pools, all)
    ensures Undone(s, Dropped(s, all), multiset(RetainedBy(s.pools, all)))
  {
    UpdateRetained(s.pools, all, Abandoner());
    hide Held, Update, RetainedBy, ReleaseAll, Retained, Pending;
    HeldPools(s, Dropped(s, all), RetainedBy(s.pools, all));
  }

  lemma RolledBackUndone(s: State, list: seq<Res>, all: seq<nat>)
    requires DistinctPools(s.pools, all)
    ensures Undone(s, RolledBack(s, list, all), multiset(RetainedBy(s.pools, all)))
  {
    var mid := s.(store := ReleaseAll(Requeued(s.store, list), list));
    HeldStore(s, mid);
    DroppedUndone(mid, all);
    hide Held, RetainedBy, ReleaseAll, Pending, Requeued, Dropped;
  }

  lemma AttemptedUndone(s: State, list: seq<Res>, all: seq<nat>, a: Attempt)
    requires Underway(s, list, TransitionQueued) && Ready(s.pools, all)
    ensures var t := Attempted(s, list, all, a);
      t.timeline == s.timeline ==> Undone(s, t, multiset(RetainedBy(s.pools, all)))
    ensures var t := Attempted(s, list, all, a);
      t.timeline == s.timeline + 1 || t.timeline == s.timeline
  {
    hide RetainedBy, RolledBack, Prepared, Held, Available, Pending;
    if a.overflow || !Available(s.queue, s.timeline + 1, a.storage) {
      RolledBackUndone(s, list, all);
    } else if !a.accepted {
      var n := |Moved(s, list, all)|;
      var q := Prepared(s.queue, s.timeline + 1, n);
      PreparedKeeps(s.queue, s.timeline + 1, n);
      PreparedHeld(s, q);
      RolledBackUndone(s.(queue := q), list, all);
    }
  }

  /** Textures with a handle survive whatever is given back. */
  lemma HandlesSurvive(s: State, list: seq<Res>)
    requires Inv(s) && forall t :: t in list ==> t in s.handles
    ensures Alive(list, s.store.records) == list
  {
    forall t | t in list
      ensures t in s.store.records
    {
      HandleResolves(s, t);
    }
    AliveAll(list, s.store.records);
  }

  lemma {:induction false} NotFreedMembers(list: seq<Res>, handles: multiset<Res>)
    ensures forall t :: t in NotFreed(list, handles) <==> t in list && t in handles
  {
    if list != [] {
      NotFreedMembers(list[1..], handles);
      assert list == [list[0]] + list[1..];
    }
  }

  lemma {:induction false} WithInitIs(c: Store, list: seq<Res>, i: Init, handles: multiset<Res>)
    requires forall t :: t in list ==> t in c.records && (InitOf(c, t) == i <==> t in handles)
    ensures WithInit(c, list, i) == NotFreed(list, handles)
  {
    if list != [] {
      assert list[0] in list && forall t :: t in list[1..] ==> t in list;
      WithInitIs(c, list[1..], i, handles);
    }
  }

  lemma RestoredPending(s: State, c: Store, list: seq<Res>, i: Init)
    requires Underway(s, list, i) && Restored(s.store, c, list, i)
    requires i == NeedsTransition || i == TransitionQueued
    ensures Inv(s.(store := ReleaseAll(c, list))) && ReleaseAll(c, list).pending == NotFreed(list, s.handles)
  {
    RestoredInv(s, c, list, i);
    NotFreedMembers(list, s.handles);
    WithInitIs(s.store, list, i, s.handles);
    hide Inv, ReleaseAll, WithInit, NotFreed, Alive, QueueInv, PoolInv, SlotInv, RefInv;
    HandlesSurvive(s.(store := ReleaseAll(c, list)), NotFreed(list, s.handles));
  }

  lemma DroppedPending(s: State, all: seq<nat>)
    requires Inv(s) && DistinctPools(s.pools, all) && forall t :: t in s.store.pending ==> t in s.handles
    ensures Dropped(s, all).store.pending == s.store.pending
  {
    DroppedInv(s, all);
    hide Inv, ReleaseAll, Alive, RetainedBy;
    HandlesSurvive(Dropped(s, all), s.store.pending);
  }

  lemma RolledBackPending(s: State, list: seq<Res>, all: seq<nat>)
    requires Underway(s, list, TransitionQueued) && DistinctPools(s.pools, all)
    ensures RolledBack(s, list, all).store.pending == NotFreed(list, s.handles)
  {
    RequeuedIs(s.store, list);
    NotFreedMembers(list, s.handles);
    hide Underway, Restored, Inv, ReleaseAll, DistinctPools, Dropped, Requeued, NotFreed;
    RestoredPending(s, Requeued(s.store, list), list, TransitionQueued);
    DroppedPending(s.(store := ReleaseAll(Requeued(s.store, list), list)), all);
  }

  lemma AttemptedPending(s: State, list: seq<Res>, all: seq<nat>, a: Attempt)
    requires Underway(s, list, TransitionQueued) && Ready(s.pools, all)
    ensures var t := Attempted(s, list, all, a);
      t.store.pending == if t.timeline == s.timeline then NotFreed(list, s.handles) else []
  {
    hide RetainedBy, Requeued, ReleaseAll, Update, Sent, Prepared, Held, Available, Pending, Underway, NotFreed;
    if a.overflow || !Available(s.queue, s.timeline + 1, a.storage) {
      RolledBackPending(s, list, all);
    } else if !a.accepted {
      var n := |Moved(s, list, all)|;
      PreparedUnderway(s, list, n);
      RolledBackPending(s.(queue := Prepared(s.queue, s.timeline + 1, n)), list, all);
    } else {
      SentPending(s, list, all);
    }
  }

  lemma SentPending(s: State, list: seq<Res>, all: seq<nat>)
    requires Underway(s, list, TransitionQueued) && DistinctPools(s.pools, all)
    ensures Sent(s, list, all).store.pending == [] && Sent(s, list, all).timeline == s.timeline + 1
  {
    hide Held, QueueInv, PoolInv, SlotInv, RefInv, BarriersOk, CoveredOk, QueuedTextures, RetainedBy, Update;
  }

  lemma StartedRetains(pools: seq<Pool>, completed: nat, n: Native, cbs: seq<nat>)
    requires PoolsOk(pools) && Ready(pools, cbs) && StartedPool(pools, completed, n).Some?
    ensures var k := StartedPool(pools, completed, n).value;
      RetainedBy(Started(pools, completed, n), [k] + cbs) == RetainedBy(pools, cbs)
  {
    var k := StartedPool(pools, completed, n).value;
    var after := Started(pools, completed, n);
    assert k !in cbs;
    RetainedByOther(pools, k, after[k], cbs);
    assert ([k] + cbs)[1..] == cbs;
    assert after[k].recording.All() == [];
    assert after == pools[k := after[k]];
    StartedReady(pools, completed, n, cbs);
    assert RetainedBy(after, [k] + cbs) == after[k].recording.All() + RetainedBy(after, cbs);
    assert [] + RetainedBy(after, cbs) == RetainedBy(after, cbs);
  }

  lemma HeldStarted(s: State, n: Native)
    requires PoolsOk(s.pools)
    ensures Held(StartedRecording(s, n)) == Held(s)
  {
    StartKeeps(s.pools, s.completed, n);
    hide Held, Retained, Queued, Owners, Started;
    SameHeld(s, StartedRecording(s, n));
  }

  /**
   * A submission either publishes exactly the next value, or undoes everything: timeline, log, handles,
   * slots and every queued retirement stay, what the buffers retained is given back and nothing else.
   */
  lemma SubmitUndone(s: State, cbs: seq<nat>, a: Attempt)
    requires Inv(s) && Ready(s.pools, cbs)
    ensures var t := Submit(s, cbs, a);
      && (t.timeline == s.timeline || t.timeline == s.timeline + 1)
      && (t.timeline == s.timeline && t != s ==> Undone(s, t, multiset(SubmitLoss(s, cbs, a))))
  {
    var list := s.store.pending;
    if AnyFailed(s.pools, cbs) {
      DroppedUndone(s, cbs);
    } else if Claims(s, cbs, a) {
      ClaimInv(s);
      HeldStore(s, ClaimedState(s));
      if list == [] {
        NoneClaimed(ClaimedState(s));
        AttemptedUndone(ClaimedState(s), list, cbs, a);
      } else {
        UndoneStarted(s, cbs, a);
      }
    }
    hide RetainedBy, Held, Pending, Attempted, Dropped, Underway;
  }

  /** What a failed submission gives back: nothing when no internal command buffer could be started. */
  function SubmitLoss(s: State, cbs: seq<nat>, a: Attempt): seq<Res>
    requires forall p :: p in cbs ==> p < |s.pools|
  {
    if Claims(s, cbs, a) && s.store.pending != [] && StartedPool(s.pools, s.completed, a.native) == None then []
    else RetainedBy(s.pools, cbs)
  }

  lemma UndoneStarted(s: State, cbs: seq<nat>, a: Attempt)
    requires Inv(s) && Ready(s.pools, cbs) && Claims(s, cbs, a) && s.store.pending != []
    requires Underway(ClaimedState(s), s.store.pending, NeedsTransition)
    ensures var t := Submit(s, cbs, a);
      && (t.timeline == s.timeline || t.timeline == s.timeline + 1)
      && (t.timeline == s.timeline ==> Undone(s, t, multiset(SubmitLoss(s, cbs, a))))
  {
    var list, c := s.store.pending, ClaimedState(s);
    var t, k := StartedRecording(c, a.native), StartedPool(s.pools, s.completed, a.native);
    StartedUnderway(c, list, a.native);
    HeldStarted(c, a.native);
    HeldStore(s, c);
    if k == None {
      HeldStore(t, Unclaimed(t, list));
    } else {
      StartedReady(s.pools, s.completed, a.native, cbs);
      StartedRetains(s.pools, s.completed, a.native, cbs);
      QueuedInv(t, list);
      HeldStore(t, QueuedState(t, list));
      hide Underway, Inv, Attempted, Claimed, Started, StartedPool, SetInits, Held, Pending, RetainedBy;
      AttemptedUndone(QueuedState(t, list), list, [k.value] + cbs, a);
    }
    hide Underway, Inv, Attempted, Claimed, Started, StartedPool, Held, Pending, RetainedBy;
  }

  // --- Which submissions succeed ------------------------------------------------------------

  /** No buffer of the pool is out and every submission of one has completed. */
  ghost predicate Reusable(s: State, k: nat)
    requires k < |s.pools|
  {
    s.pools[k].outstanding == 0 && forall i :: 0 <= i < |s.log| && k in s.log[i].pools ==> i < s.completed
  }

  /** There is a first reusable pool, and the native calls it needs for a buffer succeed. */
  ghost predicate InternalStarts(s: State, n: Native) {
    exists k: nat :: k < |s.pools| && Reusable(s, k) && (forall j: nat :: j < k ==> !Reusable(s, j))
      && (s.pools[k].created || n.create) && ((s.pools[k].created && s.pools[k].hasBuffer) || n.allocate) && n.begin
  }

  /** What a submission needs in order to succeed. */
  ghost predicate Succeeds(s: State, cbs: seq<nat>, a: Attempt) {
    && a.scratch && (forall p :: p in cbs ==> p < |s.pools| && !s.pools[p].recording.failed) && a.valid && !a.forced
    && (s.store.pending == [] || InternalStarts(s, a.native))
    && !a.overflow && Storable(s.queue, s.timeline + 1, a.storage) && a.accepted
  }

  /** A pool is taken for a check-out as soon as it may be: by its retire value exactly when it is reusable. */
  lemma UsableIs(s: State, k: nat)
    requires Inv(s) && k < |s.pools|
    ensures Usable(s.pools[k], s.completed) <==> Reusable(s, k)
  {
    hide Held, RefInv, SlotInv, TextureInv, QueueInv, Tidy;
    var v := s.pools[k].retireValue;
    if Usable(s.pools[k], s.completed) {
      forall i | 0 <= i < |s.log| && k in s.log[i].pools
        ensures i < s.completed
      {
        assert i < v;
      }
    }
    if Reusable(s, k) && v > 0 {
      assert k in s.log[v - 1].pools;
    }
  }

  lemma StartsIs(s: State, n: Native)
    requires Inv(s)
    ensures StartedPool(s.pools, s.completed, n).Some? <==> InternalStarts(s, n)
  {
    hide Inv, Reusable, Usable;
    forall k: nat | k < |s.pools|
      ensures Usable(s.pools[k], s.completed) <==> Reusable(s, k)
    {
      UsableIs(s, k);
    }
    var k := Pick(s.pools, s.completed);
    assert k < |s.pools| ==> forall j: nat :: j < k ==> !Reusable(s, j);
    hide Pick;
  }

  lemma AttemptedSucceeds(s: State, list: seq<Res>, all: seq<nat>, a: Attempt)
    requires forall p :: p in all ==> p < |s.pools|
    ensures var t := Attempted(s, list, all, a);
      t.timeline == s.timeline + 1 <==> !a.overflow && Available(s.queue, s.timeline + 1, a.storage) && a.accepted
  {
    hide Requeued, ReleaseAll, Update, Prepared, Available, RetainedBy, SetInits, Before;
  }

  lemma QueueNow(s: State)
    requires Inv(s)
    ensures QueueInv(s.queue, s.log, s.timeline, s.completed) && PoolsOk(s.pools) && Sorted(s.queue)
  {
    hide Held, RefInv, SlotInv, TextureInv, PoolsOk, Sorted, QueueValues, InFlight;
  }

  /** A submission publishes the next value exactly when everything that it needs is there and goes well. */
  lemma SucceedsExactly(s: State, cbs: seq<nat>, a: Attempt)
    requires Inv(s) && Ready(s.pools, cbs)
    ensures Submit(s, cbs, a).timeline == s.timeline + 1 <==> Succeeds(s, cbs, a)
  {
    hide Inv, InternalStarts, Available, Storable, Submit;
    QueueNow(s);
    AvailableIs(s.queue, s.timeline + 1, a.storage);
    StartsIs(s, a.native);
    SubmitSucceeds(s, cbs, a);
  }

  lemma SubmitSucceeds(s: State, cbs: seq<nat>, a: Attempt)
    requires Ready(s.pools, cbs)
    ensures Submit(s, cbs, a).timeline == s.timeline + 1 <==>
      && Claims(s, cbs, a) && (s.store.pending == [] || StartedPool(s.pools, s.completed, a.native).Some?)
      && !a.overflow && Available(s.queue, s.timeline + 1, a.storage) && a.accepted
  {
    hide RetainedBy, Attempted, ReleaseAll, WithInit, Claimed, SetInits, Started, StartedPool, Available;
    var list, c := s.store.pending, ClaimedState(s);
    if Claims(s, cbs, a) {
      if list == [] {
        AttemptedSucceeds(c, list, cbs, a);
      } else {
        var t, k := StartedRecording(c, a.native), StartedPool(s.pools, s.completed, a.native);
        if k.Some? {
          StartedReady(s.pools, s.completed, a.native, cbs);
          AttemptedSucceeds(QueuedState(t, list), list, [k.value] + cbs, a);
        }
      }
    }
  }

  /**
   * The pending list after a submission that got past validation: empty when it succeeded; when it
   * failed, what it was in the same order, less the textures that were freed while they waited.
   */
  lemma SubmitPending(s: State, cbs: seq<nat>, a: Attempt)
    requires Inv(s) && Ready(s.pools, cbs) && Claims(s, cbs, a)
    ensures var t := Submit(s, cbs, a);
      t.store.pending == if t.timeline == s.timeline then NotFreed(s.store.pending, s.handles) else []
  {
    var list, c := s.store.pending, ClaimedState(s);
    ClaimInv(s);
    if list == [] {
      NoneClaimed(c);
      hide Underway, Inv, Attempted, Claimed, NotFreed;
      AttemptedPending(c, list, cbs, a);
    } else {
      var t, k := StartedRecording(c, a.native), StartedPool(s.pools, s.completed, a.native);
      StartedUnderway(c, list, a.native);
      hide Underway, Inv, Attempted, Claimed, Started, StartedPool, SetInits, NotFreed, ReleaseAll, WithInit;
      if k == None {
        RequeuedIs(t.store, list);
        hide Restored;
        RestoredPending(t, t.store.(pending := WithInit(t.store, list, NeedsTransition)), list, NeedsTransition);
      } else {
        StartedReady(s.pools, s.completed, a.native, cbs);
        QueuedInv(t, list);
        AttemptedPending(QueuedState(t, list), list, [k.value] + cbs, a);
      }
    }
  }

  /** Counts after a failed submission: every record's count falls by exactly what was given back. */
  lemma FailedCounts(s: State, cbs: seq<nat>, a: Attempt, r: Res)
    requires Inv(s) && Ready(s.pools, cbs)
    ensures var t := Submit(s, cbs, a);
      t.timeline == s.timeline && t != s ==> Count(t.store, r) + multiset(SubmitLoss(s, cbs, a))[r] == Count(s.store, r)
  {
    var t := Submit(s, cbs, a);
    SubmitInv(s, cbs, a);
    SubmitUndone(s, cbs, a);
    assert Count(t.store, r) == Held(t)[r];
    assert Count(s.store, r) == Held(s)[r];
    hide Held, Submit, SubmitLoss, Pending;
  }

  /**
   * The pool of a buffer that was checked in: nothing out and nothing retained, and if it was submitted, to be
   * reset when that value has completed.
   */
  ghost function Returned(p: Pool, sent: bool, v: nat): Pool {
    p.(outstanding := 0, retireValue := if sent then v else p.retireValue, recording := Recording([], [], [], p.recording.failed))
  }

  lemma AttemptedReturns(s: State, list: seq<Res>, all: seq<nat>, a: Attempt, p: nat)
    requires (forall q :: q in all ==> q < |s.pools|) && p in all
    requires s.pools[p].outstanding == 1 && s.pools[p].retireValue <= s.timeline
    ensures var t := Attempted(s, list, all, a);
      p < |t.pools| && t.pools[p] == Returned(s.pools[p], t.timeline == s.timeline + 1, s.timeline + 1)
  {
    hide Requeued, ReleaseAll, RetainedBy, Prepared, Available, SetInits, Before, WithInit;
  }

  /** Which submissions check the submitted buffers in again: those that got to a recording error or past the claim. */
  ghost predicate ChecksIn(s: State, cbs: seq<nat>, a: Attempt)
    requires forall p :: p in cbs ==> p < |s.pools|
  {
    a.scratch && ((exists p :: p in cbs && s.pools[p].recording.failed) ||
                  (a.valid && !a.forced && (s.store.pending == [] || InternalStarts(s, a.native))))
  }

  lemma PoolNow(s: State, p: nat)
    requires Inv(s) && p < |s.pools|
    ensures s.pools[p].outstanding <= 1 && s.pools[p].retireValue <= s.timeline
  {
    hide Held, RefInv, SlotInv, TextureInv, Sorted, QueueValues, InFlight, Tidy;
  }

  /** A submitted buffer is checked in again, retaining nothing, exactly then; otherwise nothing of it changes. */
  lemma GivesBack(s: State, cbs: seq<nat>, a: Attempt, p: nat)
    requires Inv(s) && Ready(s.pools, cbs) && p in cbs
    ensures p < |Submit(s, cbs, a).pools|
    ensures Submit(s, cbs, a).pools[p] ==
      if ChecksIn(s, cbs, a) then Returned(s.pools[p], Succeeds(s, cbs, a), s.timeline + 1) else s.pools[p]
  {
    hide Inv, Attempted, ReleaseAll, RetainedBy, Claimed, WithInit, InternalStarts, Succeeds, Returned, SetInits;
    PoolNow(s, p);
    StartsIs(s, a.native);
    SucceedsExactly(s, cbs, a);
    if !Claims(s, cbs, a) {
      DroppedReturns(s, cbs, p);
    } else if s.store.pending == [] {
      AttemptedReturns(ClaimedState(s), [], cbs, a, p);
    } else {
      StartedReturns(s, cbs, a, p);
    }
  }

  lemma DroppedReturns(s: State, cbs: seq<nat>, p: nat)
    requires (forall q :: q in cbs ==> q < |s.pools|) && p in cbs && s.pools[p].outstanding == 1
    ensures p < |Dropped(s, cbs).pools| && Dropped(s, cbs).pools[p] == Returned(s.pools[p], false, s.timeline + 1)
  {
    hide ReleaseAll, RetainedBy;
  }

  lemma StartedReturns(s: State, cbs: seq<nat>, a: Attempt, p: nat)
    requires Ready(s.pools, cbs) && p in cbs && Claims(s, cbs, a) && s.store.pending != []
    requires s.pools[p].outstanding == 1 && s.pools[p].retireValue <= s.timeline
    ensures var t, k := Submit(s, cbs, a), StartedPool(s.pools, s.completed, a.native);
      p < |t.pools| && t.pools[p] == if k.Some? then Returned(s.pools[p], t.timeline == s.timeline + 1, s.timeline + 1) else s.pools[p]
  {
    hide Attempted, ReleaseAll, RetainedBy, Claimed, WithInit, Returned, SetInits, Started, StartedPool;
    var list, c := s.store.pending, ClaimedState(s);
    var t, k := StartedRecording(c, a.native), StartedPool(s.pools, s.completed, a.native);
    OthersStayOut(s.pools, s.completed, a.native, p);
    if k.Some? {
      StartedReady(s.pools, s.completed, a.native, cbs);
      AttemptedReturns(QueuedState(t, list), list, [k.value] + cbs, a, p);
    }
  }

  /** A check-out touches only a pool with nothing out. */
  lemma OthersStayOut(pools: seq<Pool>, completed: nat, n: Native, p: nat)
    requires p < |pools| && pools[p].outstanding > 0
    ensures |Started(pools, completed, n)| == |pools| && Started(pools, completed, n)[p] == pools[p]
  {
  }

  lemma AttemptedOthers(s: State, list: seq<Res>, all: seq<nat>, a: Attempt, p: nat)
    requires (forall q :: q in all ==> q < |s.pools|) && p !in all && p < |s.pools|
    ensures p < |Attempted(s, list, all, a).pools| && Attempted(s, list, all, a).pools[p] == s.pools[p]
  {
    hide Requeued, ReleaseAll, RetainedBy, Prepared, Available, SetInits, Before, WithInit;
  }

  /** The pool that the internal command buffer comes from. */
  ghost predicate FirstReusable(s: State, p: nat) {
    p < |s.pools| && Reusable(s, p) && forall j: nat :: j < p ==> !Reusable(s, j)
  }

  /** A pool whose buffer is not submitted is not touched, unless the internal command buffer comes from it. */
  lemma OthersKept(s: State, cbs: seq<nat>, a: Attempt, p: nat)
    requires Inv(s) && Ready(s.pools, cbs) && p !in cbs && p < |s.pools| && !FirstReusable(s, p)
    ensures p < |Submit(s, cbs, a).pools| && Submit(s, cbs, a).pools[p] == s.pools[p]
  {
    hide Inv, Attempted, ReleaseAll, RetainedBy, SetInits, Claimed, WithInit, AnyFailed, Reusable;
    NotPicked(s, a.native, p);
    var list, c := s.store.pending, ClaimedState(s);
    if Claims(s, cbs, a) {
      if list == [] {
        AttemptedOthers(c, list, cbs, a, p);
      } else {
        StartedOthers(s, cbs, a, p);
      }
    }
  }

  lemma StartedOthers(s: State, cbs: seq<nat>, a: Attempt, p: nat)
    requires Ready(s.pools, cbs) && p !in cbs && p < |s.pools| && p != Pick(s.pools, s.completed)
    requires Claims(s, cbs, a) && s.store.pending != []
    ensures p < |Submit(s, cbs, a).pools| && Submit(s, cbs, a).pools[p] == s.pools[p]
  {
    hide Attempted, ReleaseAll, RetainedBy, SetInits, Claimed, WithInit, AnyFailed, Pick;
    var list, c := s.store.pending, ClaimedState(s);
    var t, k := StartedRecording(c, a.native), StartedPool(s.pools, s.completed, a.native);
    if k.Some? {
      StartedReady(s.pools, s.completed, a.native, cbs);
      AttemptedOthers(QueuedState(t, list), list, [k.value] + cbs, a, p);
    }
  }

  lemma PickFirst(s: State, k: nat)
    requires Inv(s) && FirstReusable(s, k)
    ensures Pick(s.pools, s.completed) == k && s.pools[k].outstanding == 0
  {
    hide Inv, Usable;
    UsableIs(s, k);
    var i := Pick(s.pools, s.completed);
    if i < |s.pools| {
      UsableIs(s, i);
    }
  }

  /** Whether the native calls give a buffer out of a pool. */
  predicate Obtains(p: Pool, n: Native) {
    (p.created || n.create) && ((p.created && p.hasBuffer) || n.allocate)
  }

  /**
   * The pool of the internal command buffer after a submission that got past the claim with textures to transition:
   * it retains nothing, and nothing is out unless the begin call failed; it waits for the submission if that succeeded.
   */
  lemma InternalReturned(s: State, cbs: seq<nat>, a: Attempt, k: nat)
    requires Inv(s) && Ready(s.pools, cbs) && Claims(s, cbs, a) && s.store.pending != [] && FirstReusable(s, k)
    ensures k < |Submit(s, cbs, a).pools|
    ensures var q := Submit(s, cbs, a).pools[k];
      && q.outstanding == (if Obtains(s.pools[k], a.native) && !a.native.begin then 1 else 0) && q.recording.All() == []
      && q.retireValue == if Succeeds(s, cbs, a) then s.timeline + 1 else s.pools[k].retireValue
  {
    hide Inv, Attempted, ReleaseAll, RetainedBy, Claimed, WithInit, Succeeds, SetInits, Pick, Tidy, Usable, Reusable;
    PickFirst(s, k);
    PoolNow(s, k);
    EmptyPool(s, k);
    SucceedsExactly(s, cbs, a);
    CheckedOutKeeps(s.pools[k], a.native);
    var list, c := s.store.pending, ClaimedState(s);
    var t := StartedRecording(c, a.native);
    if StartedPool(s.pools, s.completed, a.native).Some? {
      StartedReady(s.pools, s.completed, a.native, cbs);
      AttemptedReturns(QueuedState(t, list), list, [k] + cbs, a, k);
    }
  }

  lemma EmptyPool(s: State, k: nat)
    requires Inv(s) && k < |s.pools| && s.pools[k].outstanding == 0
    ensures s.pools[k].recording.All() == [] && (!s.pools[k].created ==> s.pools[k].retireValue == 0)
  {
    hide Held, RefInv, SlotInv, TextureInv, QueueInv, PoolLog, PoolDates, Tidy;
  }

  lemma NotPicked(s: State, n: Native, p: nat)
    requires Inv(s) && p < |s.pools| && !FirstReusable(s, p)
    ensures p != Pick(s.pools, s.completed)
  {
    hide Inv, Usable;
    if p == Pick(s.pools, s.completed) {
      UsableIs(s, p);
      forall j: nat | j < p
        ensures !Reusable(s, j)
      {
        UsableIs(s, j);
      }
    }
  }

  lemma AttemptedLog(s: State, list: seq<Res>, all: seq<nat>, a: Attempt)
    requires forall p :: p in all ==> p < |s.pools|
    ensures var t, named := Attempted(s, list, all, a), RetainedBy(s.pools, all);
      t.timeline == s.timeline + 1 ==> t.log == s.log + [Submitted(named, list, all, Unfreed(named, s.handles))]
  {
    hide Requeued, ReleaseAll, Update, Prepared, Available, RetainedBy, SetInits, Before;
  }

  /** A successful submission's entry names what its buffers retained and transitions the whole pending list. */
  lemma SubmitLog(s: State, cbs: seq<nat>, a: Attempt)
    requires Inv(s) && Ready(s.pools, cbs)
    ensures var t, named := Submit(s, cbs, a), RetainedBy(s.pools, cbs);
      t.timeline == s.timeline + 1 ==>
        && Claims(s, cbs, a) && |t.log| == |s.log| + 1 && t.log[..|s.log|] == s.log
        && t.log[|s.log|].named == named && t.log[|s.log|].barrier == s.store.pending
        && t.log[|s.log|].unfreed == Unfreed(named, s.handles)
  {
    var list, c := s.store.pending, ClaimedState(s);
    if Claims(s, cbs, a) {
      if list == [] {
        AttemptedLog(c, list, cbs, a);
      } else {
        var t, k := StartedRecording(c, a.native), StartedPool(s.pools, s.completed, a.native);
        if k.Some? {
          StartedReady(s.pools, s.completed, a.native, cbs);
          StartedRetains(s.pools, s.completed, a.native, cbs);
          AttemptedLog(QueuedState(t, list), list, [k.value] + cbs, a);
        }
      }
    }
    hide Inv, RetainedBy, Attempted, ReleaseAll, WithInit, Claimed, SetInits, Started, StartedPool, Unfreed;
  }

  // --- What a submission puts in the retirement queue ------------------------------------------

  /** The items due after a call: those due before it, and the given references at a value. */
  ghost predicate DueToo(q: Queue<Res>, p: Queue<Res>, v: nat, more: seq<Res>) {
    forall w, x :: DueAt(p, w, x) <==> DueAt(q, w, x) || (w == v && x.Ref? && x.res in more)
  }

  lemma RolledBackDue(s: State, list: seq<Res>, all: seq<nat>, q: Queue<Res>)
    requires (forall p :: p in all ==> p < |s.pools|) && forall w, x :: DueAt(q, w, x) <==> DueAt(s.queue, w, x)
    ensures DueToo(s.queue, RolledBack(s.(queue := q), list, all).queue, s.timeline + 1, [])
  {
    hide DueAt, Requeued, ReleaseAll, Update, RetainedBy;
  }

  lemma SentDue(s: State, list: seq<Res>, all: seq<nat>)
    requires QueueInv(s.queue, s.log, s.timeline, s.completed) && forall p :: p in all ==> p < |s.pools|
    ensures DueToo(s.queue, Sent(s, list, all).queue, s.timeline + 1, list + RetainedBy(s.pools, all))
  {
    hide DueAt, RetainedBy, Update, SetInits, Prepared, Pushed, Before, Sorted, InFlight, QueueValues;
    var moved, q := list + RetainedBy(s.pools, all), Sent(s, list, all).queue;
    SentQueue(s, moved);
    forall w, x
      ensures DueAt(q, w, x) <==> DueAt(s.queue, w, x) || (w == s.timeline + 1 && x.Ref? && x.res in moved)
    {
      ItemsOf(moved, x);
      assert DueAt(q, w, x) <==> DueAt(s.queue, w, x) || (w == s.timeline + 1 && x in ItemsFor(moved));
    }
  }

  lemma ItemsOf(list: seq<Res>, x: Item<Res>)
    ensures x in ItemsFor(list) <==> x.Ref? && x.res in list
  {
    if x.Ref? && x.res in list {
      var k :| 0 <= k < |list| && list[k] == x.res;
      assert ItemsFor(list)[k] == x;
    }
  }

  lemma AttemptedDue(s: State, list: seq<Res>, all: seq<nat>, a: Attempt)
    requires QueueInv(s.queue, s.log, s.timeline, s.completed) && forall p :: p in all ==> p < |s.pools|
    ensures var t := Attempted(s, list, all, a);
      DueToo(s.queue, t.queue, s.timeline + 1,
             if t.timeline == s.timeline + 1 then list + RetainedBy(s.pools, all) else [])
  {
    hide DueToo, RolledBack, Sent, Prepared, Available, RetainedBy, DueAt, QueueInv, Moved;
    AttemptedSucceeds(s, list, all, a);
    if a.overflow || !Available(s.queue, s.timeline + 1, a.storage) {
      RolledBackDue(s, list, all, s.queue);
      assert s.(queue := s.queue) == s;
    } else if !a.accepted {
      PreparedBackDue(s, list, all);
    } else {
      SentDue(s, list, all);
    }
  }

  lemma PreparedBackDue(s: State, list: seq<Res>, all: seq<nat>)
    requires QueueInv(s.queue, s.log, s.timeline, s.completed) && forall p :: p in all ==> p < |s.pools|
    ensures var q := Prepared(s.queue, s.timeline + 1, |Moved(s, list, all)|);
      DueToo(s.queue, RolledBack(s.(queue := q), list, all).queue, s.timeline + 1, [])
  {
    hide DueToo, RolledBack, Prepared, RetainedBy, Pending, QueueValues, InFlight;
    hide DueAt, Sorted, Moved;
    var n := |Moved(s, list, all)|;
    var q := Prepared(s.queue, s.timeline + 1, n);
    forall w, x
      ensures DueAt(q, w, x) <==> DueAt(s.queue, w, x)
    {
      PreparedKeeps(s.queue, s.timeline + 1, n);
      assert DueAt(q, w, x) <==> DueAt(s.queue, w, x);
    }
    RolledBackDue(s, list, all, q);
  }

  /**
   * What is due after a submission: what was, and after a successful one, at its value, what the submitted
   * buffers retained and the textures whose barrier it carries.
   */
  lemma SubmitDue(s: State, cbs: seq<nat>, a: Attempt)
    requires Inv(s) && Ready(s.pools, cbs)
    ensures DueToo(s.queue, Submit(s, cbs, a).queue, s.timeline + 1,
                   if Succeeds(s, cbs, a) then s.store.pending + RetainedBy(s.pools, cbs) else [])
  {
    hide Inv, QueueInv, Succeeds, RetainedBy, Attempted, ReleaseAll, Claimed, StartedPool, DueToo, PoolsOk, Unclaimed;
    var list, c := s.store.pending, ClaimedState(s);
    SucceedsExactly(s, cbs, a);
    QueueNow(s);
    if !Claims(s, cbs, a) {
      DueSame(s.queue, s.timeline + 1);
    } else if list == [] {
      AttemptedDue(c, list, cbs, a);
      assert [] + RetainedBy(s.pools, cbs) == RetainedBy(s.pools, cbs);
    } else {
      StartedDue(s, cbs, a);
    }
  }

  lemma StartedDue(s: State, cbs: seq<nat>, a: Attempt)
    requires QueueInv(s.queue, s.log, s.timeline, s.completed) && PoolsOk(s.pools) && Ready(s.pools, cbs)
    requires Claims(s, cbs, a) && s.store.pending != []
    ensures var t := Submit(s, cbs, a);
      DueToo(s.queue, t.queue, s.timeline + 1,
             if t.timeline == s.timeline + 1 then s.store.pending + RetainedBy(s.pools, cbs) else [])
  {
    hide QueueInv, RetainedBy, Attempted, ReleaseAll, Claimed, SetInits, Started, StartedPool, DueToo, PoolsOk, WithInit;
    var list, c := s.store.pending, ClaimedState(s);
    var t, k := StartedRecording(c, a.native), StartedPool(s.pools, s.completed, a.native);
    if k.Some? {
      StartedReady(s.pools, s.completed, a.native, cbs);
      StartedRetains(s.pools, s.completed, a.native, cbs);
      AttemptedDue(QueuedState(t, list), list, [k.value] + cbs, a);
    } else {
      DueSame(s.queue, s.timeline + 1);
    }
  }

  lemma DueSame(q: Queue<Res>, v: nat)
    ensures DueToo(q, q, v, [])
  {
    hide DueAt;
  }

  /** t is s but for records, pools, queue and one more submission, and holds more by what the list names. */
  ghost predicate Done(s: State, t: State, list: multiset<Res>) {
    && t == s.(store := t.store, pools := t.pools, queue := t.queue, timeline := s.timeline + 1, log := t.log)
    && Held(t) == Held(s) + list
  }

  lemma AttemptedDone(s: State, list: seq<Res>, all: seq<nat>, a: Attempt)
    requires QueueInv(s.queue, s.log, s.timeline, s.completed) && DistinctPools(s.pools, all)
    ensures var t := Attempted(s, list, all, a);
      t.timeline == s.timeline + 1 ==> Done(s, t, multiset(list))
  {
    hide RetainedBy, RolledBack, Prepared, Held, Available, Pending, SetInits, Update, Pushed, Before, QueueInv, ItemsFor;
    AttemptedSucceeds(s, list, all, a);
    RolledBackIs(s, list, all);
    RolledBackIs(s.(queue := Prepared(s.queue, s.timeline + 1, |Moved(s, list, all)|)), list, all);
    SentQueue(s, Moved(s, list, all));
    SentHeld(s, list, all);
  }

  lemma RolledBackIs(s: State, list: seq<Res>, all: seq<nat>)
    requires forall p :: p in all ==> p < |s.pools|
    ensures RolledBack(s, list, all).timeline == s.timeline
  {
    hide Requeued, ReleaseAll, Update, RetainedBy;
  }

  /**
   * A successful submission gives nothing back and takes one reference for each texture of its barrier:
   * what the buffers retained is held by the queue instead.
   */
  lemma SubmitDone(s: State, cbs: seq<nat>, a: Attempt)
    requires Inv(s) && Ready(s.pools, cbs) && Succeeds(s, cbs, a)
    ensures Done(s, Submit(s, cbs, a), multiset(s.store.pending))
  {
    hide Inv, QueueInv, Succeeds, RetainedBy, Attempted, ReleaseAll, Claimed, StartedPool, PoolsOk, Unclaimed, Held, Started, SetInits;
    var list, c := s.store.pending, ClaimedState(s);
    SucceedsExactly(s, cbs, a);
    SubmitSucceeds(s, cbs, a);
    QueueNow(s);
    HeldStore(s, c);
    if list == [] {
      AttemptedDone(c, list, cbs, a);
    } else {
      var t, k := StartedRecording(c, a.native), StartedPool(s.pools, s.completed, a.native);
      StartedReady(s.pools, s.completed, a.native, cbs);
      HeldStarted(c, a.native);
      HeldStore(t, QueuedState(t, list));
      AttemptedDone(QueuedState(t, list), list, [k.value] + cbs, a);
    }
  }

  /** Counts after a successful submission. */
  lemma SucceededCounts(s: State, cbs: seq<nat>, a: Attempt, r: Res)
    requires Inv(s) && Ready(s.pools, cbs) && Succeeds(s, cbs, a)
    ensures Count(Submit(s, cbs, a).store, r) == Count(s.store, r) + multiset(s.store.pending)[r]
  {
    var t := Submit(s, cbs, a);
    SubmitInv(s, cbs, a);
    SubmitDone(s, cbs, a);
    assert Count(t.store, r) == Held(t)[r];
    assert Count(s.store, r) == Held(s)[r];
    hide Held, Submit, Succeeds;
  }

  /**
   * When a texture has had its layout barrier after a successful submission: exactly when it had it
   * before, or awaited it. For a texture that was not freed this always holds.
   */
  lemma SubmitBarrier(s: State, cbs: seq<nat>, a: Attempt, x: Res)
    requires Inv(s) && Ready(s.pools, cbs) && Submit(s, cbs, a).timeline == s.timeline + 1
    ensures Barriered(Submit(s, cbs, a).log, x) <==> Barriered(s.log, x) || x in s.store.pending
    ensures x.Tex? && x in s.handles ==> Barriered(Submit(s, cbs, a).log, x)
  {
    hide Submit, Barriered, Inv, RetainedBy, Unfreed, Claims;
    AwaitsOrHad(s, x);
    SubmitLog(s, cbs, a);
    LogGrown(s.log, Submit(s, cbs, a).log, x);
  }

  lemma LogGrown(log: seq<Submitted>, more: seq<Submitted>, x: Res)
    requires |more| == |log| + 1 && more[..|log|] == log
    ensures Barriered(more, x) <==> Barriered(log, x) || x in more[|log|].barrier
  {
    assert more == log + [more[|log|]];
    NextEntry(log, more[|log|], x);
  }

  lemma AwaitsOrHad(s: State, x: Res)
    requires Inv(s)
    ensures x.Tex? && x in s.handles ==> x in s.store.pending || Barriered(s.log, x)
    ensures x in s.store.pending ==> !Barriered(s.log, x)
  {
    hide Barriered, RefInv, PoolInv, QueueInv, SlotInv, Held, BarriersOk, CoveredOk, QueuedTextures;
  }

  /**
   * A texture freed while it awaits its transition and still retained by a recording loses its barrier
   * when an unrelated submission fails: the rollback does not requeue it, and the submission that then
   * uses it has no barrier for it, in it or before it.
   */
  lemma LostBarrier(s: State, cbs: seq<nat>, a: Attempt, later: seq<nat>, b: Attempt, x: Res)
    requires Inv(s) && Ready(s.pools, cbs) && Claims(s, cbs, a) && Submit(s, cbs, a).timeline == s.timeline
    requires x in s.store.pending && x !in s.handles
    requires var t := Submit(s, cbs, a);
      Ready(t.pools, later) && x in RetainedBy(t.pools, later) && Submit(t, later, b).timeline == t.timeline + 1
    ensures var t := Submit(s, cbs, a);
      var u := Submit(t, later, b);
      |u.log| > 0 && x in u.log[|u.log| - 1].named && !Barriered(u.log, x)
  {
    var t := Submit(s, cbs, a);
    SubmitInv(s, cbs, a);
    SubmitPending(s, cbs, a);
    NotFreedMembers(s.store.pending, s.handles);
    SubmitUndone(s, cbs, a);
    SubmitLog(t, later, b);
    SubmitBarrier(t, later, b, x);
    AwaitsOrHad(s, x);
    hide Submit, Barriered, RefInv, PoolInv, QueueInv, SlotInv, Held, Pending, RetainedBy, NotFreed;
  }
}
