/** What a call does in terms of its inputs, and what then holds for the rest of a run. */
module LifetimeEffects {
  import opened Bits
  import opened Records
  import opened CommandPools
  import opened RetireQueues
  import opened Lifetime
  import opened LifetimeRecording
  import opened LifetimeRetirement
  import opened LifetimeRuns
  import S = Submission
  import D = Descriptors

  // --- Deferred frees ---------------------------------------------------------------------

  /** The value that a free is to retire at: that of the given submission, else the last published one. */
  ghost predicate RetiresAt(s: State, token: Option<nat>, v: nat) {
    token == Some(v) || (token == None && v == s.timeline)
  }

  lemma CountHeld(s: State, r: Res)
    requires Inv(s)
    ensures Count(s.store, r) == Held(s)[r]
  {
    hide Held, PoolInv, QueueInv, SlotInv, TextureInv;
  }

  /** One more item is due, at one value. */
  ghost predicate DueOne(q: Queue<Res>, p: Queue<Res>, v: nat, item: Item<Res>) {
    forall w, x :: DueAt(p, w, x) <==> DueAt(q, w, x) || (w == v && x == item)
  }

  lemma EnqueuedOne(q: Queue<Res>, v: nat, item: Item<Res>)
    requires Sorted(q)
    ensures DueOne(q, Enqueued(q, v, item), v, item)
  {
    hide DueAt, Enqueued, Pending, Sorted;
    var p := Enqueued(q, v, item);
    forall w, x
      ensures DueAt(p, w, x) <==> DueAt(q, w, x) || (w == v && x == item)
    {
      EnqueuedKeeps(q, v, item);
      assert DueAt(p, w, x) <==> DueAt(q, w, x) || (w == v && x == item);
    }
  }

  lemma UnpublishedCounts(c: Store, r: Res)
    ensures forall x :: Count(Unpublished(c, r), x) == Count(c, x)
  {
  }

  /**
   * free_after on a handle: it stops resolving at once, no count changes, and the reference falls due at
   * the value; when that cannot be stored it is kept for good.
   */
  lemma FreeAfterDefers(s: State, r: Res, token: Option<nat>, v: nat, st: Storage)
    requires Inv(s) && Genuine(s, token) && RetiresAt(s, token, v) && r in s.handles
    ensures var t := FreedAfter(s, r, token, st);
      && t == s.(store := t.store, handles := s.handles - multiset{r}, queue := t.queue, kept := t.kept)
      && (forall x :: Count(t.store, x) == Count(s.store, x))
      && (Storable(s.queue, v, st) ==> t.kept == s.kept && DueOne(s.queue, t.queue, v, Ref(r)))
      && (!Storable(s.queue, v, st) ==> t.kept == s.kept + multiset{r} && t.queue == s.queue)
  {
    hide Inv, DueOne, Sorted, Storable, Available, Enqueued, QueueInv, PoolsOk, Unpublished, Count;
    S.QueueNow(s);
    EnqueuedOne(s.queue, v, Ref(r));
    UnpublishedCounts(s.store, r);
    AvailableIs(s.queue, v, st);
  }

  /**
   * A free of a view: the allocated slot of exactly that generation starts to retire with the next
   * generation and its owner, and the retirement falls due at the value; when that cannot be stored the
   * slot is kept for good. Any other free changes nothing.
   */
  lemma FreeViewDefers(s: State, i: nat, gen: nat, token: Option<nat>, v: nat, st: Storage)
    requires Inv(s) && Genuine(s, token) && RetiresAt(s, token, v) && i < |s.slots|
    ensures var t, slot := ViewFreed(s, i, gen, token, st), s.slots[i];
      if slot.state == D.SlotState.Allocated && slot.gen == gen then
        var after := D.Slot(D.SlotState.Retiring, (gen + 1) % 0x1_0000, slot.owner);
        && t == s.(slots := s.slots[i := after], queue := t.queue, keptSlots := t.keptSlots, freedAt := s.freedAt[i := v])
        && (Storable(s.queue, v, st) ==> t.keptSlots == s.keptSlots && DueOne(s.queue, t.queue, v, SlotItem(i, after.gen)))
        && (!Storable(s.queue, v, st) ==> t.keptSlots == s.keptSlots + {i} && t.queue == s.queue)
      else t == s
  {
    hide Inv, DueOne, Sorted, Storable, Available, Enqueued, QueueInv, PoolsOk;
    S.QueueNow(s);
    EnqueuedOne(s.queue, v, SlotItem(i, D.NextGen(gen)));
    AvailableIs(s.queue, v, st);
  }

  // --- What stays due, kept or live ---------------------------------------------------------

  /** What a submission never touches. */
  lemma SubmitFrame(s: State, cbs: seq<nat>, a: S.Attempt)
    requires Inv(s) && S.Ready(s.pools, cbs)
    ensures var t := S.Submit(s, cbs, a);
      && t.handles == s.handles && t.slots == s.slots && t.completed == s.completed && t.jobs == s.jobs
      && t.kept == s.kept && t.keptSlots == s.keptSlots && t.freedAt == s.freedAt
  {
    hide Inv, S.Ready, S.Submit, S.Succeeds, Held, Pending, RetainedBy, S.SubmitLoss;
    S.SucceedsExactly(s, cbs, a);
    S.SubmitUndone(s, cbs, a);
    if S.Succeeds(s, cbs, a) {
      S.SubmitDone(s, cbs, a);
    }
  }

  lemma {:induction false} ProcessedFrame(s: State, items: seq<Item<Res>>)
    ensures var t := ProcessedAll(s, items); t == s.(store := t.store, slots := t.slots)
    decreases items
  {
    hide Release, Unpublished;
    if items != [] {
      ProcessedFrame(Processed(s, items[0]), items[1..]);
    }
  }

  /** A drain takes exactly the items off the queue that are due by now, and touches records and slots besides. */
  lemma DrainTakes(s: State)
    requires Inv(s)
    ensures var t := Drained(s);
      && t == s.(store := t.store, slots := t.slots, queue := t.queue)
      && Sorted(t.queue) && (forall v, x :: DueAt(t.queue, v, x) <==> DueAt(s.queue, v, x) && v > s.completed)
  {
    hide Inv, QueueInv, PoolsOk, ProcessedAll, Flat;
    S.QueueNow(s);
    var n := DueCount(s.queue, s.completed);
    ProcessedFrame(s.(queue := s.queue[n..]), Flat(s.queue[..n]));
    DrainedKeeps(s.queue, s.completed);
    hide DueCount, DueAt, Sorted, Pending;
  }

  lemma StepCompleted(s: State, step: Step)
    requires Inv(s) && Enabled(s, step)
    ensures Next(s, step).completed >= s.completed
    ensures !step.Progress? ==> Next(s, step).completed == s.completed
  {
    hide Inv, S.Submit, Drained, Started, Enqueued, Available, NewRecord, Release, Unpublished, Retain, S.Ready;
    match step {
      case Submit(cbs, a) => SubmitFrame(s, cbs, a);
      case Drain => DrainTakes(s);
      case _ =>
    }
  }

  /** An item stays due until its value has completed. */
  lemma StepDue(s: State, step: Step, v: int, x: Item<Res>)
    requires Inv(s) && Enabled(s, step) && DueAt(s.queue, v, x) && s.completed < v
    ensures DueAt(Next(s, step).queue, v, x)
  {
    hide Inv, S.Submit, Drained, Started, Enqueued, Available, NewRecord, Release, Unpublished, Retain, S.Ready;
    hide DueAt, Sorted, QueueInv, PoolsOk;
    S.QueueNow(s);
    match step {
      case FreeAfter(r, token, st) => EnqueuedOne(s.queue, RetireValue(s, token), Ref(r));
      case FreeView(i, gen, token, st) => EnqueuedOne(s.queue, RetireValue(s, token), SlotItem(i, D.NextGen(gen)));
      case Submit(cbs, a) => SubmitStaysDue(s, cbs, a, v, x);
      case Drain => DrainTakes(s);
      case _ =>
    }
  }

  lemma SubmitStaysDue(s: State, cbs: seq<nat>, a: S.Attempt, v: int, x: Item<Res>)
    requires Inv(s) && S.Ready(s.pools, cbs) && DueAt(s.queue, v, x)
    ensures DueAt(S.Submit(s, cbs, a).queue, v, x)
  {
    S.SubmitDue(s, cbs, a);
    hide Inv, S.Submit, DueAt, RetainedBy, S.Succeeds, S.Ready;
  }

  lemma {:induction false} CompletedGrows(s: State, steps: seq<Step>)
    requires Inv(s) && IsRun(s, steps)
    ensures Run(s, steps).completed >= s.completed
    decreases steps
  {
    hide Inv, Enabled, Next;
    if steps != [] {
      StepInv(s, steps[0]);
      StepCompleted(s, steps[0]);
      CompletedGrows(Next(s, steps[0]), steps[1..]);
    }
  }

  lemma {:induction false} StaysDue(s: State, steps: seq<Step>, v: int, x: Item<Res>)
    requires Inv(s) && IsRun(s, steps) && DueAt(s.queue, v, x) && Run(s, steps).completed < v
    ensures DueAt(Run(s, steps).queue, v, x)
    decreases steps
  {
    hide Inv, Enabled, Next, DueAt;
    CompletedGrows(s, steps);
    if steps != [] {
      StepInv(s, steps[0]);
      StepDue(s, steps[0], v, x);
      StaysDue(Next(s, steps[0]), steps[1..], v, x);
    }
  }

  /** A queued reference keeps its record, and a queued retirement its slot. */
  lemma DueHolds(s: State, v: int, x: Item<Res>)
    requires Inv(s) && DueAt(s.queue, v, x)
    ensures x.Ref? ==> x.res in s.store.records
    ensures x.SlotItem? ==> D.Retires(s.slots, x.slot, x.gen)
  {
    DueIsQueued(s.queue, x);
    if x.Ref? {
      QueuedLive(s, x.res);
    } else {
      QueuedRetires(s, x.slot, x.gen);
    }
  }

  lemma QueuedLive(s: State, r: Res)
    requires Inv(s) && Ref(r) in Flat(s.queue)
    ensures r in s.store.records
  {
    RefsCount(Flat(s.queue), r);
    hide Inv, Retained, Owners, Flat, RefsOf;
    HeldLive(s, r);
  }

  lemma QueuedRetires(s: State, i: nat, g: nat)
    requires Inv(s) && SlotItem(i, g) in Flat(s.queue)
    ensures D.Retires(s.slots, i, g)
  {
    hide Held, RefInv, PoolInv, QueueInv, TextureInv, SlotValues, Flat;
    assert Pending(s.queue)[SlotItem(i, g)] == Owed(s.slots, s.keptSlots, i, g);
  }

  lemma StepKept(s: State, step: Step, r: Res)
    requires Inv(s) && Enabled(s, step) && r in s.kept
    ensures r in Next(s, step).kept
  {
    hide Inv, S.Submit, Drained, Started, Enqueued, Available, NewRecord, Release, Unpublished, Retain, S.Ready;
    match step {
      case Submit(cbs, a) => SubmitFrame(s, cbs, a);
      case Drain => DrainTakes(s);
      case _ =>
    }
  }

  /** The slot with the same state, generation and owner, still kept. */
  ghost predicate KeepsSlot(s: State, t: State, i: nat) {
    i in s.keptSlots ==> i in t.keptSlots && i < |s.slots| && i < |t.slots| && t.slots[i] == s.slots[i]
  }

  /** A kept slot is neither free to be taken nor there to be freed again. */
  lemma TakenKeepsSlot(s: State, i: nat, j: nat, owner: Option<Res>, written: bool)
    requires j < |s.slots| && s.slots[j].state == D.SlotState.Free
    requires i < |s.slots| && s.slots[i].state == D.SlotState.Retiring
    ensures KeepsSlot(s, ViewCreated(s, j, owner, written), i)
  {
    hide Retain;
  }

  lemma FreedKeepsSlot(s: State, i: nat, j: nat, gen: nat, token: Option<nat>, st: Storage)
    requires i < |s.slots| && s.slots[i].state == D.SlotState.Retiring
    ensures KeepsSlot(s, ViewFreed(s, j, gen, token, st), i)
  {
    hide Available, Enqueued, D.NextGen;
  }

  lemma StepSlots(s: State, step: Step)
    requires Inv(s) && Enabled(s, step) && !step.CreateView? && !step.FreeView? && !step.Drain?
    ensures Next(s, step).slots == s.slots && Next(s, step).keptSlots == s.keptSlots
  {
    hide Inv, S.Submit, S.Ready;
    if step.Submit? {
      SubmitFrame(s, step.cbs, step.attempt);
    } else {
      OtherSlots(s, step);
    }
  }

  lemma OtherSlots(s: State, step: Step)
    requires Enabled(s, step) && !step.CreateView? && !step.FreeView? && !step.Drain? && !step.Submit?
    ensures Next(s, step).slots == s.slots && Next(s, step).keptSlots == s.keptSlots
  {
    hide Started, Enqueued, Available, NewRecord, Release, Unpublished, Retain;
  }

  lemma StepKeepsSlot(s: State, step: Step, i: nat)
    requires Inv(s) && Enabled(s, step) && i in s.keptSlots
    ensures KeepsSlot(s, Next(s, step), i)
  {
    KeptRetires(s, i);
    hide Inv, Drained, ViewCreated, ViewFreed;
    if step.CreateView? {
      TakenKeepsSlot(s, i, step.slot, step.owner, step.written);
    } else if step.FreeView? {
      FreedKeepsSlot(s, i, step.slot, step.gen, step.token, step.storage);
    } else if step.Drain? {
      DrainTakes(s);
      DrainSpares(s, i);
    } else {
      hide Next, Enabled;
      StepSlots(s, step);
    }
  }

  lemma KeptRetires(s: State, i: nat)
    requires Inv(s)
    ensures i in s.keptSlots ==> i < |s.slots| && s.slots[i].state == D.SlotState.Retiring
  {
    hide Held, RefInv, PoolInv, QueueInv, TextureInv, SlotValues;
  }

  /** Processing touches only slots whose retirement is among the items, and frees those that it touches. */
  lemma {:induction false} ProcessedSlot(s: State, items: seq<Item<Res>>, i: nat)
    requires i < |s.slots|
    ensures var t := ProcessedAll(s, items);
      && |t.slots| == |s.slots|
      && (t.slots[i] == s.slots[i] || t.slots[i] == D.Slot(D.SlotState.Free, s.slots[i].gen, None))
      && ((forall g: nat :: SlotItem(i, g) !in items) ==> t.slots[i] == s.slots[i])
    decreases items
  {
    hide Release, Unpublished;
    if items != [] {
      ProcessedSlot(Processed(s, items[0]), items[1..], i);
      assert items[0] in items && forall x :: x in items[1..] ==> x in items;
    }
  }

  lemma DrainSpares(s: State, i: nat)
    requires Inv(s) && i < |s.slots| && (i in s.keptSlots || s.slots[i].state != D.SlotState.Retiring)
    ensures i < |Drained(s).slots| && Drained(s).slots[i] == s.slots[i]
  {
    var n := DueCount(s.queue, s.completed);
    var due := Flat(s.queue[..n]);
    ProcessedSlot(s.(queue := s.queue[n..]), due, i);
    forall g: nat
      ensures SlotItem(i, g) !in due
    {
      NoneQueued(s, i, g);
      DueFlat(s.queue, n, SlotItem(i, g));
    }
    hide Inv, ProcessedAll, Flat, DueCount;
  }

  lemma NoneQueued(s: State, i: nat, g: nat)
    requires Inv(s) && i < |s.slots| && (i in s.keptSlots || s.slots[i].state != D.SlotState.Retiring)
    ensures SlotItem(i, g) !in Flat(s.queue)
  {
    hide Held, RefInv, PoolInv, QueueInv, TextureInv, SlotValues, Flat;
    assert Pending(s.queue)[SlotItem(i, g)] == Owed(s.slots, s.keptSlots, i, g);
  }

  lemma DueFlat(q: Queue<Res>, n: nat, x: Item<Res>)
    requires n <= |q|
    ensures x in Flat(q[..n]) || x in Flat(q[n..]) <==> x in Flat(q)
  {
    FlatSplit(q[..n], q[n..]);
    assert q[..n] + q[n..] == q;
    hide Flat;
  }

  /** What is kept stays kept: the reference, and the slot as it was. */
  lemma {:induction false} StaysKept(s: State, steps: seq<Step>, r: Res, i: nat)
    requires Inv(s) && IsRun(s, steps)
    ensures r in s.kept ==> r in Run(s, steps).kept
    ensures KeepsSlot(s, Run(s, steps), i)
    decreases steps
  {
    KeptRetires(s, i);
    hide Inv, Enabled, Next;
    if steps != [] {
      StepInv(s, steps[0]);
      if r in s.kept {
        StepKept(s, steps[0], r);
      }
      if i in s.keptSlots {
        StepKeepsSlot(s, steps[0], i);
      }
      StaysKept(Next(s, steps[0]), steps[1..], r, i);
    }
  }

  lemma KeptLive(s: State, r: Res)
    requires Inv(s) && r in s.kept
    ensures r in s.store.records
  {
    hide Inv, Retained, Owners, Queued;
    HeldLive(s, r);
  }

  lemma FirstStep(s: State, step: Step, rest: seq<Step>)
    requires IsRun(s, [step] + rest)
    ensures Enabled(s, step) && IsRun(Next(s, step), rest) && Run(s, [step] + rest) == Run(Next(s, step), rest)
  {
    assert ([step] + rest)[1..] == rest;
    hide Enabled, Next;
  }

  /** A reference that is queued at a value, or kept, keeps its record until the value has completed, or for good. */
  lemma DueStaysLive(t: State, steps: seq<Step>, v: nat, r: Res)
    requires Inv(t) && IsRun(t, steps)
    ensures DueAt(t.queue, v, Ref(r)) && Run(t, steps).completed < v ==> r in Run(t, steps).store.records
    ensures r in t.kept ==> r in Run(t, steps).store.records
  {
    hide Inv, IsRun, Run, DueAt;
    RunInv(t, steps);
    if DueAt(t.queue, v, Ref(r)) && Run(t, steps).completed < v {
      StaysDue(t, steps, v, Ref(r));
      DueHolds(Run(t, steps), v, Ref(r));
    }
    if r in t.kept {
      StaysKept(t, steps, r, 0);
      KeptLive(Run(t, steps), r);
    }
  }

  /**
   * After free_after, whatever happens next, the record is live until the value has completed; it is live
   * for good when its retirement could not be stored.
   */
  lemma FreedAfterStays(s: State, r: Res, token: Option<nat>, v: nat, st: Storage, steps: seq<Step>)
    requires Inv(s) && RetiresAt(s, token, v) && r in s.handles
    requires IsRun(s, [FreeAfter(r, token, st)] + steps)
    ensures var u := Run(s, [FreeAfter(r, token, st)] + steps);
      u.completed < v || !Storable(s.queue, v, st) ==> r in u.store.records
  {
    hide Inv, IsRun, Run, Storable, DueAt, FreedAfter;
    var step := FreeAfter(r, token, st);
    FirstStep(s, step, steps);
    StepInv(s, step);
    FreeAfterDefers(s, r, token, v, st);
    DueStaysLive(Next(s, step), steps, v, r);
  }

  /** A slot whose retirement is queued at a value, or kept, goes on retiring until the value has completed, or for good. */
  lemma DueStaysRetiring(t: State, steps: seq<Step>, v: nat, i: nat, g: nat)
    requires Inv(t) && IsRun(t, steps)
    ensures DueAt(t.queue, v, SlotItem(i, g)) && Run(t, steps).completed < v ==> D.Retires(Run(t, steps).slots, i, g)
    ensures i in t.keptSlots && D.Retires(t.slots, i, g) ==> D.Retires(Run(t, steps).slots, i, g)
  {
    hide Inv, IsRun, Run, DueAt;
    RunInv(t, steps);
    StaysKept(t, steps, Buf(0), i);
    if DueAt(t.queue, v, SlotItem(i, g)) && Run(t, steps).completed < v {
      StaysDue(t, steps, v, SlotItem(i, g));
      DueHolds(Run(t, steps), v, SlotItem(i, g));
    }
  }

  /**
   * After the free of a view, whatever happens next, its slot goes on retiring until the value has
   * completed, so no view gets it; it retires for good when its retirement could not be stored.
   */
  lemma FreedViewStays(s: State, i: nat, gen: nat, token: Option<nat>, v: nat, st: Storage, steps: seq<Step>)
    requires Inv(s) && RetiresAt(s, token, v) && i < |s.slots|
    requires s.slots[i].state == D.SlotState.Allocated && s.slots[i].gen == gen
    requires IsRun(s, [FreeView(i, gen, token, st)] + steps)
    ensures var u := Run(s, [FreeView(i, gen, token, st)] + steps);
      u.completed < v || !Storable(s.queue, v, st) ==>
        i < |u.slots| && u.slots[i].state == D.SlotState.Retiring && u.slots[i].gen == (gen + 1) % 0x1_0000
  {
    hide Inv, IsRun, Run, Storable, DueAt, ViewFreed;
    var step, g := FreeView(i, gen, token, st), (gen + 1) % 0x1_0000;
    FirstStep(s, step, steps);
    StepInv(s, step);
    FreeViewDefers(s, i, gen, token, v, st);
    DueStaysRetiring(Next(s, step), steps, v, i, g);
  }

  // --- Retention while recording ------------------------------------------------------------

  lemma {:induction false} DistinctOnce(list: seq<Res>, r: Res)
    requires Distinct(list)
    ensures multiset(list)[r] == if r in list then 1 else 0
  {
    if list != [] {
      var rest := list[1..];
      assert list == [list[0]] + rest;
      assert forall i :: 0 <= i < |rest| ==> rest[i] != list[0];
      DistinctOnce(rest, r);
    }
  }

  lemma TidyOnce(rec: Recording, r: Res)
    requires Tidy(rec)
    ensures rec.Has(r) <==> r in rec.All()
    ensures multiset(rec.All())[r] == if r in rec.All() then 1 else 0
  {
    DistinctOnce(rec.pipelines, r);
    DistinctOnce(rec.textures, r);
    DistinctOnce(rec.buffers, r);
    assert multiset(rec.All()) == multiset(rec.pipelines) + multiset(rec.textures) + multiset(rec.buffers);
  }

  /** The recordings differ in that the later one retains r, exactly once. */
  ghost predicate Retaining(before: Recording, after: Recording, r: Res) {
    after.failed == before.failed && multiset(after.All()) == multiset(before.All())[r := 1]
  }

  /** The counts differ in that of r, by n. */
  ghost predicate CountsMore(c: Store, d: Store, r: Res, n: nat) {
    forall x :: Count(d, x) == Count(c, x) + if x == r then n else 0
  }

  lemma RetainingMore(rec: Recording, r: Res)
    requires Tidy(rec)
    ensures rec.Has(r) <==> r in rec.All()
    ensures Retaining(rec, if rec.Has(r) then rec else rec.With(r), r)
  {
    TidyOnce(rec, r);
    WithAll(rec, r);
    hide Tidy;
    var all := multiset(rec.All());
    assert all + multiset{r} == all[r := all[r] + 1];
    assert rec.Has(r) ==> all == all[r := 1];
    assert rec.With(r).failed == rec.failed;
  }

  /**
   * A command that uses a record by a handle that resolves: the buffer then retains the record exactly once,
   * its count is one higher if and only if the buffer did not retain it before, and nothing else changes.
   */
  lemma RetainsOnce(s: State, p: nat, r: Res)
    requires Inv(s) && p < |s.pools| && s.pools[p].outstanding > 0 && r in s.handles
    ensures p < |RetainedIn(s, p, r).pools|
    ensures var t, before := RetainedIn(s, p, r), s.pools[p].recording;
      var after := t.pools[p].recording;
      && t == s.(store := t.store, pools := s.pools[p := s.pools[p].(recording := after)])
      && Retaining(before, after, r)
      && CountsMore(s.store, t.store, r, if r in before.All() then 0 else 1)
  {
    var before := s.pools[p].recording;
    RecordingTidy(s, p);
    HandleResolves(s, r);
    RetainingMore(before, r);
    RetainCounts(s.store, r);
    assert s.pools[p := s.pools[p].(recording := before)] == s.pools;
    assert CountsMore(s.store, s.store, r, 0);
    hide Inv, Tidy, Retain, Count, Retaining, CountsMore, Recording.All, Recording.Has, Recording.With;
  }

  lemma RecordingTidy(s: State, p: nat)
    requires Inv(s) && p < |s.pools|
    ensures Tidy(s.pools[p].recording)
  {
    hide Held, RefInv, QueueInv, SlotInv, TextureInv, PoolLog, PoolDates;
  }

  lemma RetainCounts(c: Store, r: Res)
    requires r in c.records
    ensures CountsMore(c, Retain(c, r), r, 1)
  {
  }

  /** By a handle that does not resolve: a texture or pointer fails the recording, a pipeline changes nothing. */
  lemma RetainsNothing(s: State, p: nat, r: Res)
    requires Inv(s) && p < |s.pools| && s.pools[p].outstanding > 0 && r !in s.handles
    ensures RetainedIn(s, p, r) == if r.Pipe? then s
      else s.(pools := s.pools[p := s.pools[p].(recording := s.pools[p].recording.(failed := true))])
  {
  }

  /** What a command used stays live and retained until a submission names its buffer. */
  lemma RetainedStays(s: State, p: nat, r: Res, steps: seq<Step>)
    requires Inv(s) && r in s.handles && IsRun(s, [RetainFor(p, r)] + steps) && NeverSubmits(steps, p)
    ensures var u := Run(s, [RetainFor(p, r)] + steps);
      p < |u.pools| && u.pools[p].outstanding > 0 && r in u.pools[p].recording.All() && r in u.store.records
  {
    hide Inv, IsRun, Run, RetainedIn;
    var step := RetainFor(p, r);
    FirstStep(s, step, steps);
    StepInv(s, step);
    RetainsOnce(s, p, r);
    var t := Next(s, step);
    assert multiset(t.pools[p].recording.All())[r] == 1;
    RunInv(t, steps);
    AbandonedStays(t, steps, p);
    RetainedLive(Run(t, steps), p, r);
  }

  lemma {:induction false} RetainedByHas(pools: seq<Pool>, cbs: seq<nat>, p: nat, r: Res)
    requires (forall q :: q in cbs ==> q < |pools|) && p in cbs && r in pools[p].recording.All()
    ensures r in RetainedBy(pools, cbs)
  {
    if cbs[0] != p {
      assert cbs == [cbs[0]] + cbs[1..];
      assert p in cbs[1..] && forall q :: q in cbs[1..] ==> q in cbs;
      RetainedByHas(pools, cbs[1..], p, r);
    }
  }

  lemma SubmittedDue(s: State, cbs: seq<nat>, a: S.Attempt, p: nat, r: Res)
    requires Inv(s) && S.Ready(s.pools, cbs) && S.Succeeds(s, cbs, a)
    requires p in cbs && r in s.pools[p].recording.All()
    ensures DueAt(S.Submit(s, cbs, a).queue, s.timeline + 1, Ref(r))
  {
    S.SubmitDue(s, cbs, a);
    RetainedByHas(s.pools, cbs, p, r);
    hide Inv, S.Submit, S.Succeeds, DueAt, RetainedBy;
  }

  /**
   * What a command used, once its buffer is submitted and the submission succeeds, stays live until the value
   * of that submission has completed, whatever was done before and is done after.
   */
  lemma SubmittedStays(s: State, p: nat, r: Res, before: seq<Step>, cbs: seq<nat>, a: S.Attempt, steps: seq<Step>)
    requires Inv(s) && r in s.handles && IsRun(s, [RetainFor(p, r)] + before) && NeverSubmits(before, p) && p in cbs
    requires var t := Run(s, [RetainFor(p, r)] + before);
      IsRun(t, [Submit(cbs, a)] + steps) && S.Succeeds(t, cbs, a)
    ensures var t := Run(s, [RetainFor(p, r)] + before);
      var u := Run(t, [Submit(cbs, a)] + steps);
      u.completed < t.timeline + 1 ==> r in u.store.records
  {
    hide Inv, S.Submit, S.Succeeds, DueAt, Run, IsRun, NeverSubmits;
    RunInv(s, [RetainFor(p, r)] + before);
    RetainedStays(s, p, r, before);
    var t := Run(s, [RetainFor(p, r)] + before);
    FirstStep(t, Submit(cbs, a), steps);
    StepInv(t, Submit(cbs, a));
    SubmittedDue(t, cbs, a, p, r);
    DueStaysLive(Next(t, Submit(cbs, a)), steps, t.timeline + 1, r);
  }

  /** A recording that fails stays failed, and no submission that names its buffer succeeds. */
  lemma FailedRejected(s: State, step: Step, p: nat, steps: seq<Step>, cbs: seq<nat>, a: S.Attempt)
    requires Inv(s) && (step == FailRecording(p) || (step.RetainFor? && step.pool == p && !step.r.Pipe? && step.r !in s.handles))
    requires IsRun(s, [step] + steps) && NeverSubmits(steps, p)
    requires p in cbs && S.Ready(Run(s, [step] + steps).pools, cbs)
    ensures S.Submit(Run(s, [step] + steps), cbs, a).timeline != Run(s, [step] + steps).timeline + 1
  {
    hide Inv, IsRun, Run, S.Submit;
    FirstStep(s, step, steps);
    StepInv(s, step);
    var t := Next(s, step);
    RunInv(t, steps);
    AbandonedStays(t, steps, p);
    S.SucceedsExactly(Run(t, steps), cbs, a);
  }

  // --- Starting a recording -----------------------------------------------------------------

  /**
   * A check-out takes the first reusable pool, when there is one, and touches no other. A buffer comes out of it
   * exactly when the pool and the buffer can be had; the caller gets it exactly when it begins too, and then it
   * has not failed and retains nothing.
   */
  lemma StartTakes(s: State, n: Native, k: nat)
    requires Inv(s) && S.FirstReusable(s, k)
    ensures var p := s.pools[k];
      var out := (p.created || n.create) && ((p.created && p.hasBuffer) || n.allocate);
      var q := StartedRecording(s, n).pools[k];
      && StartedRecording(s, n) == s.(pools := s.pools[k := q])
      && q.outstanding == (if out then 1 else 0) && q.recording.All() == [] && q.retireValue == p.retireValue
      && (if p.created || n.create then q.created && (q.hasBuffer <==> out) else q == p)
      && (out && n.begin ==> !q.recording.failed)
      && StartedPool(s.pools, s.completed, n) == if out && n.begin then Some(k) else None
  {
    S.PickFirst(s, k);
    S.QueueNow(s);
    hide Inv, QueueInv, Sorted, Pick, Tidy, Usable, S.Reusable;
    assert s.pools[k].recording.All() == [] && s.pools[k].outstanding == 0;
    CheckedOutKeeps(s.pools[k], n);
  }

  /** Without a reusable pool nothing happens. */
  lemma StartTakesNone(s: State, n: Native)
    requires Inv(s) && forall j: nat :: j < |s.pools| ==> !S.Reusable(s, j)
    ensures StartedRecording(s, n) == s && StartedPool(s.pools, s.completed, n) == None
  {
    var i := Pick(s.pools, s.completed);
    if i < |s.pools| {
      S.UsableIs(s, i);
    }
    hide Inv, Usable, Pick, S.Reusable;
  }

  // --- Draining -----------------------------------------------------------------------------

  /** A retiring slot that is not kept has its retirement due at the value of its last free. */
  lemma RetirementDue(s: State, i: nat)
    requires Inv(s) && i < |s.slots| && s.slots[i].state == D.SlotState.Retiring && i !in s.keptSlots
    ensures i in s.freedAt && DueAt(s.queue, s.freedAt[i], SlotItem(i, s.slots[i].gen))
  {
    var x: Item<Res> := SlotItem(i, s.slots[i].gen);
    hide Held, RefInv, PoolInv, QueueInv, TextureInv, DueAt, Flat;
    assert Pending(s.queue)[x] == Owed(s.slots, s.keptSlots, i, s.slots[i].gen);
    assert x in Flat(s.queue);
    DueIsQueued(s.queue, x);
    var v :| DueAt(s.queue, v, x);
  }

  /**
   * After a drain a slot is free, without an owner, if it was retiring with its value completed and not kept;
   * any other slot is as it was.
   */
  lemma DrainFrees(s: State, i: nat)
    requires Inv(s) && i < |s.slots|
    ensures i < |Drained(s).slots|
    ensures Drained(s).slots[i] ==
      if s.slots[i].state == D.SlotState.Retiring && i !in s.keptSlots && i in s.freedAt && s.freedAt[i] <= s.completed
      then D.Slot(D.SlotState.Free, s.slots[i].gen, None) else s.slots[i]
  {
    var t, n := Drained(s), DueCount(s.queue, s.completed);
    hide Inv, Flat, DueAt, ProcessedAll, Sorted;
    ProcessedSlot(s.(queue := s.queue[n..]), Flat(s.queue[..n]), i);
    DrainedInv(s);
    DrainTakes(s);
    if i in s.keptSlots || s.slots[i].state != D.SlotState.Retiring {
      DrainSpares(s, i);
    } else {
      RetirementDue(s, i);
      if s.freedAt[i] > s.completed {
        DueHolds(t, s.freedAt[i], SlotItem(i, s.slots[i].gen));
      } else if t.slots[i].state == D.SlotState.Retiring {
        RetirementDue(t, i);
      }
    }
  }

  /** A record's count falls by exactly its references that are taken off the queue and its slots that are freed. */
  lemma DrainCounts(s: State, r: Res)
    requires Inv(s)
    ensures var t := Drained(s);
      Count(s.store, r) + Pending(t.queue)[Ref(r)] + Owners(t.slots)[r]
        == Count(t.store, r) + Pending(s.queue)[Ref(r)] + Owners(s.slots)[r]
  {
    var t := Drained(s);
    hide Inv, Drained, Owners, Flat, RefsOf, Retained, Count, DueAt, Sorted;
    DrainedInv(s);
    DrainTakes(s);
    CountHeld(s, r);
    CountHeld(t, r);
    RefsCount(Flat(s.queue), r);
    RefsCount(Flat(t.queue), r);
  }

  lemma {:induction false} ProcessedMarks(s: State, items: seq<Item<Res>>, r: Res)
    ensures var t := ProcessedAll(s, items);
      r in t.store.records ==>
        && r in s.store.records
        && InitOf(t.store, r) == if r.Tex? && Ref(r) in items then Released else InitOf(s.store, r)
    decreases items
  {
    hide D.Retires, D.Release;
    if items != [] {
      ProcessedMark(s, items[0], r);
      hide Processed;
      ProcessedMarks(Processed(s, items[0]), items[1..], r);
      assert items == [items[0]] + items[1..];
    }
  }

  lemma ProcessedMark(s: State, item: Item<Res>, r: Res)
    ensures var t := Processed(s, item);
      r in t.store.records ==>
        r in s.store.records && InitOf(t.store, r) == if r.Tex? && item == Ref(r) then Released else InitOf(s.store, r)
  {
    hide D.Retires, D.Release, Without;
  }

  /** A drain marks Released each texture with a reference that was due, and no other record's state changes. */
  lemma DrainMarks(s: State, r: Res)
    requires Inv(s) && r in Drained(s).store.records
    ensures r in s.store.records
    ensures InitOf(Drained(s).store, r) ==
      if r.Tex? && exists v :: v <= s.completed && DueAt(s.queue, v, Ref(r)) then Released else InitOf(s.store, r)
  {
    var n := DueCount(s.queue, s.completed);
    var due := s.queue[..n];
    ProcessedMarks(s.(queue := s.queue[n..]), Flat(due), r);
    DueIsQueued(due, Ref(r));
    DueNow(s, Ref(r));
    hide Inv, Flat, DueCount, DueAt, ProcessedAll;
  }

  lemma DueNow(s: State, x: Item<Res>)
    requires Inv(s)
    ensures var due := s.queue[..DueCount(s.queue, s.completed)];
      (exists v :: DueAt(due, v, x)) <==> exists v :: v <= s.completed && DueAt(s.queue, v, x)
  {
    S.QueueNow(s);
    DrainedKeeps(s.queue, s.completed);
    hide Inv, DueCount, DueAt, Sorted, Pending;
    var due := s.queue[..DueCount(s.queue, s.completed)];
    if v :| DueAt(due, v, x) {
      assert DueAt(s.queue, v, x) && v <= s.completed;
    }
    if v :| v <= s.completed && DueAt(s.queue, v, x) {
      assert DueAt(due, v, x);
    }
  }

  // --- Handles and views ----------------------------------------------------------------------

  /** What the calls that make and give back handles and job references do; a free that does not resolve does nothing. */
  ghost predicate Moves(s: State, step: Step, t: State) {
    match step
    case Create(r) => (
      && t == s.(store := t.store, handles := s.handles + multiset{r}) && CountsMore(s.store, t.store, r, 1)
      && t.store.pending == s.store.pending + if r.Tex? then [r] else [])
    case RequestMiss(r) =>
      t == s.(store := t.store, handles := s.handles + multiset{r}, jobs := s.jobs + multiset{r}) && CountsMore(s.store, t.store, r, 2)
    case RequestHit(r) => t == s.(store := t.store, handles := s.handles + multiset{r}) && CountsMore(s.store, t.store, r, 1)
    case QueueJob(r) => t == s.(store := t.store, jobs := s.jobs + multiset{r}) && CountsMore(s.store, t.store, r, 1)
    case FinishJob(r) => t == s.(store := t.store, jobs := s.jobs - multiset{r}) && CountsMore(t.store, s.store, r, 1)
    case Free(r) =>
      if r !in s.handles then t == s
      else t == s.(store := t.store, handles := s.handles - multiset{r}) && CountsMore(t.store, s.store, r, 1)
    case _ => true
  }

  lemma NewRecordCounts(c: Store, r: Res, n: nat)
    requires r !in c.records
    ensures CountsMore(c, NewRecord(c, r, n), r, n)
  {
  }

  lemma NewRecordPending(c: Store, r: Res, n: nat)
    ensures NewRecord(c, r, n).pending == c.pending + if r.Tex? then [r] else []
  {
  }

  lemma ReleaseCounts(c: Store, r: Res)
    requires r in c.records && c.records[r].refs >= 1
    ensures CountsMore(Release(c, r), c, r, 1) && CountsMore(Release(Unpublished(c, r), r), c, r, 1)
  {
    hide Without;
  }

  lemma HandleRefs(s: State, r: Res)
    requires Inv(s) && (r in s.handles || r in s.jobs)
    ensures r in s.store.records && s.store.records[r].refs >= 1
  {
    HandlesHeld(s);
    CountHeld(s, r);
    hide Inv, Held;
  }

  lemma StepMoves(s: State, step: Step)
    requires Inv(s) && Enabled(s, step)
    ensures Moves(s, step, Next(s, step))
  {
    hide Inv, S.Submit, Drained, Started, Enqueued, Available, NewRecord, Release, Unpublished, Retain, S.Ready, CountsMore;
    match step {
      case Create(r) =>
        NewRecordCounts(s.store, r, 1);
        NewRecordPending(s.store, r, 1);
      case RequestMiss(r) => NewRecordCounts(s.store, r, 2);
      case RequestHit(r) => RetainCounts(s.store, r);
      case QueueJob(r) => RetainCounts(s.store, r);
      case FinishJob(r) =>
        HandleRefs(s, r);
        ReleaseCounts(s.store, r);
      case Free(r) =>
        if r in s.handles {
          HandleRefs(s, r);
          ReleaseCounts(s.store, r);
        }
      case _ =>
    }
  }

  /** A freed texture that is still live is marked Released, by free as by free_after, and no other record's state changes. */
  lemma FreeMarks(s: State, r: Res, token: Option<nat>, st: Storage, x: Res)
    requires Inv(s) && r in s.handles
    ensures var t := Freed(s, r);
      x in t.store.records ==>
        x in s.store.records && InitOf(t.store, x) == if x == r && r.Tex? then Released else InitOf(s.store, x)
    ensures var t := FreedAfter(s, r, token, st);
      x in t.store.records ==>
        x in s.store.records && InitOf(t.store, x) == if x == r && r.Tex? then Released else InitOf(s.store, x)
  {
    hide Inv, Available, Enqueued, Without;
  }

  /** The step withdraws a handle. */
  predicate Withdraws(step: Step, r: Res) {
    step == Free(r) || (step.FreeAfter? && step.r == r)
  }

  predicate MovesHandles(step: Step) {
    step.Create? || step.RequestMiss? || step.RequestHit? || step.Free? || step.FreeAfter?
  }

  lemma StepHandles(s: State, step: Step)
    requires Inv(s) && Enabled(s, step) && !MovesHandles(step)
    ensures Next(s, step).handles == s.handles
  {
    hide Inv, S.Submit, Drained, Started, Enqueued, Available, Release, Retain, S.Ready;
    match step {
      case Submit(cbs, a) => SubmitFrame(s, cbs, a);
      case Drain => DrainTakes(s);
      case _ =>
    }
  }

  lemma MovedHandle(s: State, step: Step, r: Res)
    requires Enabled(s, step) && MovesHandles(step) && !r.Pipe? && s.handles[r] <= 1
    ensures r in Next(s, step).handles <==> step == Create(r) || (r in s.handles && !Withdraws(step, r))
  {
    hide Enqueued, Available, NewRecord, Release, Unpublished, Retain;
    match step {
      case Create(x) =>
      case RequestMiss(x) =>
      case RequestHit(x) =>
      case Free(x) =>
      case FreeAfter(x, token, st) =>
    }
  }

  lemma StepHandle(s: State, step: Step, r: Res)
    requires Inv(s) && Enabled(s, step) && !r.Pipe?
    ensures r in Next(s, step).handles <==> step == Create(r) || (r in s.handles && !Withdraws(step, r))
  {
    hide Inv, Next, Enabled;
    if MovesHandles(step) {
      OneHandle(s, r);
      MovedHandle(s, step, r);
    } else {
      StepHandles(s, step);
    }
  }

  lemma OneHandle(s: State, r: Res)
    requires Inv(s) && !r.Pipe?
    ensures s.handles[r] <= 1
  {
    hide Held, StoreOk, Balanced, PoolInv, QueueInv, SlotInv, TextureInv;
  }

  /** No step of the run from k on withdraws the handle. */
  ghost predicate NotWithdrawn(steps: seq<Step>, k: nat, r: Res) {
    forall j :: k <= j < |steps| ==> !Withdraws(steps[j], r)
  }

  /** The run creates the record and does not withdraw its handle after that. */
  ghost predicate CreatedUnfreed(steps: seq<Step>, r: Res) {
    exists k: nat :: k < |steps| && steps[k] == Create(r) && NotWithdrawn(steps, k + 1, r)
  }

  /** A buffer or texture handle resolves exactly if it was created and neither free nor free_after named it since. */
  lemma {:induction false} HandleResolvesExactly(s: State, steps: seq<Step>, r: Res)
    requires Inv(s) && IsRun(s, steps) && !r.Pipe?
    ensures r in Run(s, steps).handles <==> CreatedUnfreed(steps, r) || (r in s.handles && NotWithdrawn(steps, 0, r))
    decreases steps
  {
    hide Inv, Enabled, Next, Withdraws;
    if steps != [] {
      StepInv(s, steps[0]);
      StepHandle(s, steps[0], r);
      HandleResolvesExactly(Next(s, steps[0]), steps[1..], r);
      LaterWithdrawn(steps, 0, r);
      if CreatedUnfreed(steps, r) {
        LaterCreated(steps, r);
      }
      EarlierCreated(steps, r);
      hide CreatedUnfreed, NotWithdrawn;
    }
  }

  lemma LaterWithdrawn(steps: seq<Step>, k: nat, r: Res)
    requires steps != []
    ensures NotWithdrawn(steps, k + 1, r) <==> NotWithdrawn(steps[1..], k, r)
    ensures NotWithdrawn(steps, 0, r) <==> !Withdraws(steps[0], r) && NotWithdrawn(steps[1..], 0, r)
  {
    hide Withdraws;
    assert forall j :: 0 <= j < |steps| - 1 ==> steps[1..][j] == steps[j + 1];
    if NotWithdrawn(steps[1..], k, r) {
      forall j | k + 1 <= j < |steps|
        ensures !Withdraws(steps[j], r)
      {
        assert steps[1..][j - 1] == steps[j];
      }
    }
    if NotWithdrawn(steps[1..], 0, r) {
      forall j | 1 <= j < |steps|
        ensures !Withdraws(steps[j], r)
      {
        assert steps[1..][j - 1] == steps[j];
      }
    }
  }

  lemma LaterCreated(steps: seq<Step>, r: Res)
    requires steps != [] && CreatedUnfreed(steps, r)
    ensures (steps[0] == Create(r) && NotWithdrawn(steps[1..], 0, r)) || CreatedUnfreed(steps[1..], r)
  {
    var k: nat :| k < |steps| && steps[k] == Create(r) && NotWithdrawn(steps, k + 1, r);
    LaterWithdrawn(steps, k, r);
    hide Withdraws, NotWithdrawn;
    assert k > 0 ==> steps[1..][k - 1] == Create(r);
  }

  lemma EarlierCreated(steps: seq<Step>, r: Res)
    requires steps != []
    ensures (steps[0] == Create(r) && NotWithdrawn(steps[1..], 0, r)) || CreatedUnfreed(steps[1..], r)
      ==> CreatedUnfreed(steps, r)
  {
    LaterWithdrawn(steps, 0, r);
    if CreatedUnfreed(steps[1..], r) {
      var k: nat :| k < |steps| - 1 && steps[1..][k] == Create(r) && NotWithdrawn(steps[1..], k + 1, r);
      LaterWithdrawn(steps, k + 1, r);
      assert steps[k + 1] == Create(r);
    }
    hide Withdraws, NotWithdrawn;
  }

  /** A new view: its free slot takes the next generation and the owner, whose count is one higher. */
  lemma ViewTakes(s: State, i: nat, owner: Option<Res>)
    requires Inv(s) && i < |s.slots| && s.slots[i].state == D.SlotState.Free
    requires owner.Some? ==> owner.value in s.handles
    ensures var t := ViewCreated(s, i, owner, true);
      && t == s.(store := t.store, slots := s.slots[i := D.Slot(D.SlotState.Allocated, (s.slots[i].gen + 1) % 0x1_0000, owner)])
      && (if owner.Some? then CountsMore(s.store, t.store, owner.value, 1) else t.store == s.store)
  {
    hide Inv, CountsMore, Retain;
    if owner.Some? {
      HandleResolves(s, owner.value);
      RetainCounts(s.store, owner.value);
    }
  }

  /** A stale owner changes nothing; a descriptor that cannot be written leaves the slot free, a generation on. */
  lemma ViewRefused(s: State, i: nat, owner: Option<Res>, written: bool)
    requires Inv(s) && i < |s.slots| && s.slots[i].state == D.SlotState.Free
    requires (owner.Some? && owner.value !in s.handles) || !written
    ensures var stale, g := owner.Some? && owner.value !in s.handles, (s.slots[i].gen + 1) % 0x1_0000;
      ViewCreated(s, i, owner, written) == if stale then s else s.(slots := s.slots[i := D.Slot(D.SlotState.Free, g, None)])
  {
    hide Inv, Retain;
    if owner.Some? && owner.value in s.handles {
      HandleResolves(s, owner.value);
    }
  }

  /** No step frees the view of a slot with its generation. */
  ghost predicate ViewKept(steps: seq<Step>, i: nat, gen: nat) {
    forall k :: 0 <= k < |steps| && steps[k].FreeView? ==> steps[k].slot != i || steps[k].gen != gen
  }

  lemma StepView(s: State, step: Step, i: nat)
    requires Inv(s) && Enabled(s, step) && i < |s.slots| && s.slots[i].state == D.SlotState.Allocated
    requires step.FreeView? ==> step.slot != i || step.gen != s.slots[i].gen
    ensures i < |Next(s, step).slots| && Next(s, step).slots[i] == s.slots[i]
  {
    hide Inv, Drained, Available, Enqueued, Retain, D.NextGen;
    if step.CreateView? || step.FreeView? {
    } else if step.Drain? {
      DrainSpares(s, i);
    } else {
      hide Next, Enabled;
      StepSlots(s, step);
    }
  }

  /** A view keeps its slot, generation and owner until exactly its own free. */
  lemma {:induction false} ViewStays(s: State, steps: seq<Step>, i: nat)
    requires Inv(s) && IsRun(s, steps) && i < |s.slots| && s.slots[i].state == D.SlotState.Allocated
    requires ViewKept(steps, i, s.slots[i].gen)
    ensures i < |Run(s, steps).slots| && Run(s, steps).slots[i] == s.slots[i]
    decreases steps
  {
    hide Inv, Enabled, Next;
    if steps != [] {
      StepInv(s, steps[0]);
      StepView(s, steps[0], i);
      assert forall k :: 0 <= k < |steps[1..]| ==> steps[1..][k] == steps[k + 1];
      ViewStays(Next(s, steps[0]), steps[1..], i);
    }
  }
}
