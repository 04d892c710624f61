/** Whole runs of the lifetime protocol: any mix of API calls, native outcomes and GPU progress. */
module LifetimeRuns {
  import opened Bits
  import opened Records
  import opened CommandPools
  import opened RetireQueues
  import opened Lifetime
  import opened LifetimeRecording
  import opened LifetimeRetirement
  import S = Submission
  import D = Descriptors

  datatype Step =
    | Create(r: Res)
    | RequestMiss(r: Res)
    | RequestHit(r: Res)
    | QueueJob(r: Res)
    | FinishJob(r: Res)
    | Free(r: Res)
    | FreeAfter(r: Res, token: Option<nat>, storage: Storage)
    | StartRecording(native: Native)
    | RetainFor(pool: nat, r: Res)
    | FailRecording(pool: nat)
    | Submit(cbs: seq<nat>, attempt: S.Attempt)
    | Progress(value: nat)
    | CreateView(slot: nat, owner: Option<Res>, written: bool)
    | FreeView(slot: nat, gen: nat, token: Option<nat>, storage: Storage)
    | Drain

  /**
   * What callers and environment keep to: fresh record identities, checked-out buffers each submitted
   * once, genuine tokens, and a counter that moves forward to published values only.
   */
  ghost predicate Enabled(s: State, step: Step) {
    match step
    case Create(r) => !r.Pipe? && r !in s.store.records && r !in s.store.destroyed
    case RequestMiss(r) => r.Pipe? && r !in s.store.records && r !in s.store.destroyed
    case RequestHit(r) => r.Pipe? && r in s.store.records
    case QueueJob(r) => r in s.store.records
    case FinishJob(r) => r in s.jobs
    case Free(r) => true
    case FreeAfter(r, token, st) => Genuine(s, token)
    case StartRecording(n) => true
    case RetainFor(p, r) => p < |s.pools| && s.pools[p].outstanding > 0
    case FailRecording(p) => p < |s.pools| && s.pools[p].outstanding > 0
    case Submit(cbs, a) => S.Ready(s.pools, cbs)
    case Progress(v) => s.completed <= v <= s.timeline
    case CreateView(i, owner, written) => 0 < i < |s.slots| && s.slots[i].state == D.SlotState.Free
    case FreeView(i, gen, token, st) => Genuine(s, token)
    case Drain => true
  }

  ghost function Next(s: State, step: Step): State
    requires Enabled(s, step)
  {
    match step
    case Create(r) => Created(s, r)
    case RequestMiss(r) => NewPipeline(s, r)
    case RequestHit(r) => HitPipeline(s, r)
    case QueueJob(r) => JobQueued(s, r)
    case FinishJob(r) => JobDone(s, r)
    case Free(r) => Freed(s, r)
    case FreeAfter(r, token, st) => FreedAfter(s, r, token, st)
    case StartRecording(n) => StartedRecording(s, n)
    case RetainFor(p, r) => RetainedIn(s, p, r)
    case FailRecording(p) => RecordingFailed(s, p)
    case Submit(cbs, a) => S.Submit(s, cbs, a)
    case Progress(v) => s.(completed := v)
    case CreateView(i, owner, written) => ViewCreated(s, i, owner, written)
    case FreeView(i, gen, token, st) => ViewFreed(s, i, gen, token, st)
    case Drain => Drained(s)
  }

  ghost predicate Initial(s: State) {
    && s.store == Store(map[], [], {}) && s.handles == multiset{} && s.queue == []
    && (forall i :: 0 <= i < |s.pools| ==> s.pools[i] == UNUSED)
    && (forall i :: 0 <= i < |s.slots| ==> s.slots[i] == D.Slot(D.SlotState.Free, 0, None))
    && s.timeline == 0 && s.completed == 0 && s.jobs == multiset{} && s.kept == multiset{}
    && s.keptSlots == {} && s.freedAt == map[] && s.log == []
  }

  /** Each step of the sequence is enabled where it is taken. */
  ghost predicate IsRun(s: State, steps: seq<Step>)
    decreases steps
  {
    steps == [] || (Enabled(s, steps[0]) && IsRun(Next(s, steps[0]), steps[1..]))
  }

  ghost function Run(s: State, steps: seq<Step>): State
    requires IsRun(s, steps)
    decreases steps
  {
    if steps == [] then s else Run(Next(s, steps[0]), steps[1..])
  }

  // --- The invariant over runs ------------------------------------------------------------

  lemma {:induction false} NothingRetained(pools: seq<Pool>)
    requires forall i :: 0 <= i < |pools| ==> pools[i] == UNUSED
    ensures Retained(pools) == multiset{} && PoolsOk(pools)
  {
    if pools != [] {
      NothingRetained(pools[1..]);
    }
  }

  lemma {:induction false} NothingOwned(slots: D.Table<Res>)
    requires forall i :: 0 <= i < |slots| ==> slots[i] == D.Slot(D.SlotState.Free, 0, None)
    ensures Owners(slots) == multiset{}
  {
    if slots != [] {
      NothingOwned(slots[1..]);
    }
  }

  lemma InitialSlots(s: State)
    requires Initial(s)
    ensures SlotInv(s.queue, s.slots, s.keptSlots, s.freedAt, s.completed)
  {
    assert Flat(s.queue) == [];
  }

  lemma InitialTextures(s: State)
    requires Initial(s)
    ensures TextureInv(s.store, s.handles, s.queue, s.log)
  {
    assert Flat(s.queue) == [];
  }

  lemma InitialHeld(s: State)
    requires Initial(s)
    ensures Held(s) == multiset{} && PoolsOk(s.pools)
  {
    NothingRetained(s.pools);
    NothingOwned(s.slots);
    assert Queued([]) == multiset{};
    hide Retained, Owners;
  }

  lemma InitialInv(s: State)
    requires Initial(s)
    ensures Inv(s)
  {
    InitialHeld(s);
    InitialSlots(s);
    InitialTextures(s);
    hide Held, TextureInv, SlotInv, PoolsOk;
  }

  lemma ProgressInv(s: State, v: nat)
    requires Inv(s) && s.completed <= v <= s.timeline
    ensures Inv(s.(completed := v))
  {
    ProgressHeld(s, s.(completed := v));
    hide Held, RefInv, PoolInv, TextureInv, Sorted, QueueValues, DueAt, Pending, SlotItems;
  }

  lemma ProgressHeld(s: State, t: State)
    requires t == s.(completed := t.completed)
    ensures Held(t) == Held(s)
  {
    hide Retained, Queued, Owners;
  }

  lemma StepInv(s: State, step: Step)
    requires Inv(s) && Enabled(s, step)
    ensures Inv(Next(s, step))
  {
    hide Inv, Created, NewPipeline, HitPipeline, JobQueued, JobDone, Freed, FreedAfter, StartedRecording, RetainedIn;
    hide RecordingFailed, S.Submit, ViewCreated, ViewFreed, Drained, S.Ready, Genuine;
    match step {
      case Create(r) => CreatedInv(s, r);
      case RequestMiss(r) => NewPipelineInv(s, r);
      case RequestHit(r) => HitPipelineInv(s, r);
      case QueueJob(r) => JobQueuedInv(s, r);
      case FinishJob(r) => JobDoneInv(s, r);
      case Free(r) => FreedInv(s, r);
      case FreeAfter(r, token, st) => FreedAfterInv(s, r, token, st);
      case StartRecording(n) => StartedInv(s, n);
      case RetainFor(p, r) => RetainedInInv(s, p, r);
      case FailRecording(p) => RecordingFailedInv(s, p);
      case Submit(cbs, a) => S.SubmitInv(s, cbs, a);
      case Progress(v) => ProgressInv(s, v);
      case CreateView(i, owner, written) => ViewCreatedInv(s, i, owner, written);
      case FreeView(i, gen, token, st) => ViewFreedInv(s, i, gen, token, st);
      case Drain => DrainedInv(s);
    }
  }

  /** The invariant holds after every run. */
  lemma {:induction false} RunInv(s: State, steps: seq<Step>)
    requires Inv(s) && IsRun(s, steps)
    ensures Inv(Run(s, steps))
    decreases steps
  {
    hide Inv, Enabled, Next;
    if steps != [] {
      StepInv(s, steps[0]);
      RunInv(Next(s, steps[0]), steps[1..]);
    }
  }

  // --- What the invariant means -----------------------------------------------------------

  /**
   * Safety of destruction, in every reachable state: whatever a checked-out buffer retains, an
   * incomplete successful submission named or transitions, a view's descriptor owns, or a public handle
   * names, is still there.
   */
  lemma NothingInUseIsDestroyed(s: State, steps: seq<Step>, r: Res)
    requires Initial(s) && IsRun(s, steps)
    ensures var t := Run(s, steps);
      && (r in t.handles || r in t.jobs ==> r in t.store.records)
      && (forall p :: 0 <= p < |t.pools| && r in t.pools[p].recording.All() ==> r in t.store.records)
      && (forall i :: t.completed <= i < |t.log| && (r in t.log[i].named || r in t.log[i].barrier) ==> r in t.store.records)
      && (forall i :: 0 <= i < |t.slots| && t.slots[i].owner == Some(r) ==> r in t.store.records)
  {
    var t := Run(s, steps);
    InitialInv(s);
    RunInv(s, steps);
    hide Run, Inv, IsRun, Initial;
    forall p | 0 <= p < |t.pools| && r in t.pools[p].recording.All()
      ensures r in t.store.records
    {
      RetainedLive(t, p, r);
    }
    forall i | t.completed <= i < |t.log| && (r in t.log[i].named || r in t.log[i].barrier)
      ensures r in t.store.records
    {
      SubmittedLive(t, i, r);
    }
    forall i | 0 <= i < |t.slots| && t.slots[i].owner == Some(r)
      ensures r in t.store.records
    {
      OwnedLive(t, i, r);
    }
    HandleLive(t, r);
  }

  lemma HeldLive(s: State, r: Res)
    requires Inv(s) && Held(s)[r] > 0
    ensures r in s.store.records
  {
    assert Count(s.store, r) > 0;
    hide Held;
  }

  lemma HandleLive(s: State, r: Res)
    requires Inv(s)
    ensures r in s.handles || r in s.jobs ==> r in s.store.records
  {
    HandlesHeld(s);
    hide Inv;
    if Held(s)[r] > 0 {
      HeldLive(s, r);
    }
  }

  lemma {:induction false} RetainedIn1(pools: seq<Pool>, p: nat, r: Res)
    requires p < |pools| && r in pools[p].recording.All()
    ensures Retained(pools)[r] > 0
  {
    if p > 0 {
      RetainedIn1(pools[1..], p - 1, r);
    }
  }

  lemma RetainedLive(s: State, p: nat, r: Res)
    requires Inv(s) && p < |s.pools| && r in s.pools[p].recording.All()
    ensures r in s.store.records
  {
    RetainedIn1(s.pools, p, r);
    hide Inv, Retained, Queued, Owners;
    HeldLive(s, r);
  }

  lemma {:induction false} OwnedIn(slots: D.Table<Res>, i: nat, r: Res)
    requires i < |slots| && slots[i].owner == Some(r)
    ensures Owners(slots)[r] > 0
  {
    if i > 0 {
      OwnedIn(slots[1..], i - 1, r);
    }
  }

  lemma OwnedLive(s: State, i: nat, r: Res)
    requires Inv(s) && i < |s.slots| && s.slots[i].owner == Some(r)
    ensures r in s.store.records
  {
    OwnedIn(s.slots, i, r);
    hide Inv, Retained, Queued, Owners;
    HeldLive(s, r);
  }

  lemma SubmittedLive(s: State, i: nat, r: Res)
    requires Inv(s) && s.completed <= i < |s.log| && (r in s.log[i].named || r in s.log[i].barrier)
    ensures r in s.store.records
  {
    assert DueAt(s.queue, i + 1, Ref(r));
    DueIsQueued(s.queue, Ref(r));
    RefsCount(Flat(s.queue), r);
    hide Inv, Retained, Owners, Flat, DueAt, RefsOf;
    HeldLive(s, r);
  }

  lemma NoHolders(c: Store, holders: multiset<Res>)
    requires StoreOk(c) && Balanced(c, holders)
    ensures holders == multiset{} <==> c.records == map[]
  {
    if holders == multiset{} {
      forall r
        ensures r !in c.records
      {
        assert Count(c, r) == 0;
      }
    } else {
      var r :| r in holders;
      assert Count(c, r) > 0;
    }
  }

  /** Without holders there are no records: nothing leaks. */
  lemma NothingLeaks(s: State, steps: seq<Step>)
    requires Initial(s) && IsRun(s, steps)
    ensures var t := Run(s, steps); Held(t) == multiset{} <==> t.store.records == map[]
  {
    hide Run, IsRun, Initial, Held, StoreOk, Balanced, PoolInv, QueueInv, SlotInv, TextureInv;
    InitialInv(s);
    RunInv(s, steps);
    NoHolders(Run(s, steps).store, Held(Run(s, steps)));
  }

  // --- Destroyed once ---------------------------------------------------------------------

  /** No record is forgotten and none comes up: it stays, or is destroyed for good. */
  ghost predicate Ledger(c: Store, d: Store) {
    c.destroyed <= d.destroyed && c.records.Keys + c.destroyed == d.records.Keys + d.destroyed
  }

  lemma {:induction false} ReleaseAllLedger(c: Store, list: seq<Res>)
    ensures Ledger(c, ReleaseAll(c, list))
    decreases list
  {
    if list != [] {
      assert Ledger(c, Release(c, list[0]));
      ReleaseAllLedger(Release(c, list[0]), list[1..]);
    }
  }

  lemma {:induction false} RetainAllLedger(c: Store, list: seq<Res>)
    ensures Ledger(c, RetainAll(c, list))
    decreases list
  {
    if list != [] {
      var d := if list[0] in c.records then Retain(c, list[0]) else c;
      assert Ledger(c, d);
      RetainAllLedger(d, list[1..]);
    }
  }

  lemma InitsLedger(c: Store, list: seq<Res>, from: Init, to: Init)
    ensures Ledger(c, S.SetInits(c, list, from, to))
  {
  }

  lemma {:induction false} ProcessedLedger(s: State, items: seq<Item<Res>>)
    ensures Ledger(s.store, ProcessedAll(s, items).store)
    decreases items
  {
    if items != [] {
      assert Ledger(s.store, Processed(s, items[0]).store);
      ProcessedLedger(Processed(s, items[0]), items[1..]);
    }
  }

  lemma DroppedLedger(s: State, all: seq<nat>)
    requires forall p :: p in all ==> p < |s.pools|
    ensures Ledger(s.store, S.Dropped(s, all).store)
  {
    ReleaseAllLedger(s.store, RetainedBy(s.pools, all));
    hide ReleaseAll, RetainedBy, Ledger, Update;
  }

  lemma RolledBackLedger(s: State, list: seq<Res>, all: seq<nat>)
    requires forall p :: p in all ==> p < |s.pools|
    ensures Ledger(s.store, S.RolledBack(s, list, all).store)
  {
    var c := s.store.(pending := S.WithInit(s.store, list, TransitionQueued));
    InitsLedger(c, list, TransitionQueued, NeedsTransition);
    ReleaseAllLedger(S.Requeued(s.store, list), list);
    DroppedLedger(s.(store := ReleaseAll(S.Requeued(s.store, list), list)), all);
    hide ReleaseAll, RetainedBy, Update, S.SetInits, S.WithInit;
  }

  lemma AttemptedLedger(s: State, list: seq<Res>, all: seq<nat>, a: S.Attempt)
    requires forall p :: p in all ==> p < |s.pools|
    ensures Ledger(s.store, S.Attempted(s, list, all, a).store)
  {
    RolledBackLedger(s, list, all);
    RolledBackLedger(s.(queue := Prepared(s.queue, s.timeline + 1, |S.Moved(s, list, all)|)), list, all);
    InitsLedger(s.store, list, TransitionQueued, Initialized);
    hide S.RolledBack, S.SetInits, Ledger, Prepared, Available, Update, RetainedBy;
  }

  lemma SubmitLedger(s: State, cbs: seq<nat>, a: S.Attempt)
    requires S.Ready(s.pools, cbs)
    ensures Ledger(s.store, S.Submit(s, cbs, a).store)
  {
    var list, c := s.store.pending, S.ClaimedState(s);
    RetainAllLedger(s.store.(pending := []), list);
    if S.AnyFailed(s.pools, cbs) {
      DroppedLedger(s, cbs);
    } else if list == [] {
      AttemptedLedger(c, list, cbs, a);
    } else {
      var t, k := StartedRecording(c, a.native), StartedPool(s.pools, s.completed, a.native);
      if k == None {
        ReleaseAllLedger(t.store.(pending := S.WithInit(t.store, list, NeedsTransition)), list);
      } else {
        S.StartedReady(s.pools, s.completed, a.native, cbs);
        InitsLedger(t.store, list, NeedsTransition, TransitionQueued);
        AttemptedLedger(S.QueuedState(t, list), list, [k.value] + cbs, a);
      }
    }
    hide S.Attempted, S.Dropped, S.SetInits, S.WithInit, ReleaseAll, RetainAll, Started, StartedPool;
  }

  lemma DrainedLedger(s: State)
    ensures Ledger(s.store, Drained(s).store)
  {
    var n := DueCount(s.queue, s.completed);
    ProcessedLedger(s.(queue := s.queue[n..]), Flat(s.queue[..n]));
    hide ProcessedAll, Ledger, Flat;
  }

  lemma NewRecordLedger(c: Store, r: Res, n: nat)
    ensures NewRecord(c, r, n).destroyed == c.destroyed
    ensures NewRecord(c, r, n).records.Keys == c.records.Keys + {r}
  {
  }

  /** The records that a step creates. */
  function CreatedBy(step: Step): set<Res> {
    match step
    case Create(r) => {r}
    case RequestMiss(r) => {r}
    case _ => {}
  }

  lemma FreedLedger(c: Store, r: Res)
    ensures Ledger(c, Release(c, r)) && Ledger(c, Unpublished(c, r)) && Ledger(c, Release(Unpublished(c, r), r))
    ensures r in c.records ==> Ledger(c, Retain(c, r))
  {
  }

  lemma OtherLedger(s: State, step: Step)
    requires Enabled(s, step) && !step.Create? && !step.RequestMiss?
    ensures Ledger(s.store, Next(s, step).store)
  {
    hide S.Submit, Drained, Started, Enqueued, Available, NewRecord, Release, Unpublished, Records.Retain, S.Ready;
    assert Ledger(s.store, s.store) by {
      assert s.store.destroyed <= s.store.destroyed;
    }
    match step {
      case RequestHit(r) => FreedLedger(s.store, r);
      case QueueJob(r) => FreedLedger(s.store, r);
      case FinishJob(r) => FreedLedger(s.store, r);
      case Free(r) => FreedLedger(s.store, r);
      case FreeAfter(r, token, st) => FreedLedger(s.store, r);
      case RetainFor(p, r) => FreedLedger(s.store, r);
      case Submit(cbs, a) => SubmitLedger(s, cbs, a);
      case CreateView(i, owner, written) => if owner.Some? { FreedLedger(s.store, owner.value); }
      case Drain => DrainedLedger(s);
      case _ =>
    }
  }

  /** What was ever created is the records and the destroyed together; what is destroyed stays so. */
  lemma StepLedger(s: State, step: Step)
    requires Enabled(s, step)
    ensures var t := Next(s, step);
      && s.store.destroyed <= t.store.destroyed
      && t.store.records.Keys + t.store.destroyed == s.store.records.Keys + s.store.destroyed + CreatedBy(step)
  {
    if step.Create? {
      NewRecordLedger(s.store, step.r, 1);
    } else if step.RequestMiss? {
      NewRecordLedger(s.store, step.r, 2);
    } else {
      hide Next, Enabled;
      OtherLedger(s, step);
    }
    hide NewRecord;
  }

  /** A record is created by the run. */
  predicate Creates(steps: seq<Step>, r: Res) {
    exists k :: 0 <= k < |steps| && r in CreatedBy(steps[k])
  }

  /** In how many steps of a run a record is destroyed. */
  ghost function TimesDestroyed(s: State, steps: seq<Step>, r: Res): nat
    requires IsRun(s, steps)
    decreases steps
  {
    if steps == [] then 0
    else
      var t := Next(s, steps[0]);
      (if r !in s.store.destroyed && r in t.store.destroyed then 1 else 0) + TimesDestroyed(t, steps[1..], r)
  }

  lemma {:induction false} Ledgers(s: State, steps: seq<Step>, r: Res)
    requires IsRun(s, steps)
    ensures var t := Run(s, steps);
      && (r in s.store.destroyed ==> r in t.store.destroyed)
      && (r in t.store.records || r in t.store.destroyed <==> r in s.store.records || r in s.store.destroyed || Creates(steps, r))
      && TimesDestroyed(s, steps, r) == if r in t.store.destroyed && r !in s.store.destroyed then 1 else 0
    decreases steps
  {
    if steps != [] {
      var t, rest := Next(s, steps[0]), steps[1..];
      StepLedger(s, steps[0]);
      hide Enabled, Next;
      Ledgers(t, rest, r);
      assert r in t.store.records.Keys + t.store.destroyed <==>
        r in s.store.records.Keys + s.store.destroyed || r in CreatedBy(steps[0]);
      CreatesStep(steps, r);
      hide Creates, CreatedBy;
    }
  }

  lemma CreatesStep(steps: seq<Step>, r: Res)
    requires steps != []
    ensures Creates(steps, r) <==> r in CreatedBy(steps[0]) || Creates(steps[1..], r)
  {
    if k :| 0 <= k < |steps[1..]| && r in CreatedBy(steps[1..][k]) {
      assert steps[k + 1] == steps[1..][k];
    }
    if k :| 0 < k < |steps| && r in CreatedBy(steps[k]) {
      assert steps[1..][k - 1] == steps[k];
    }
    hide CreatedBy;
  }

  /** Along any run a record is live or destroyed, never both, and once destroyed stays so. */
  lemma DestroyedForGood(s: State, steps: seq<Step>, r: Res)
    requires Inv(s) && IsRun(s, steps) && (r in s.store.records || r in s.store.destroyed)
    ensures var t := Run(s, steps);
      && (r in t.store.destroyed <==> r !in t.store.records)
      && (r in s.store.destroyed ==> r in t.store.destroyed)
  {
    hide Run, IsRun, Held, PoolInv, QueueInv, SlotInv, TextureInv, TimesDestroyed, Creates, Balanced;
    RunInv(s, steps);
    Ledgers(s, steps, r);
  }

  /**
   * Destroyed exactly once: after any run, a record that the run created is destroyed if and only if nobody
   * holds it any more, in exactly one step then and in none before, and never comes back.
   */
  lemma DestroyedExactlyOnce(s: State, steps: seq<Step>, r: Res)
    requires Initial(s) && IsRun(s, steps)
    ensures var t := Run(s, steps);
      && (Creates(steps, r) <==> r in t.store.records || r in t.store.destroyed)
      && (Creates(steps, r) ==> (r in t.store.destroyed <==> r !in t.store.records))
      && (Creates(steps, r) ==> (r in t.store.destroyed <==> Held(t)[r] == 0))
      && TimesDestroyed(s, steps, r) == if Creates(steps, r) && Held(t)[r] == 0 then 1 else 0
  {
    hide Run, IsRun, Held, PoolInv, QueueInv, SlotInv, TextureInv, TimesDestroyed, Creates;
    InitialInv(s);
    RunInv(s, steps);
    Ledgers(s, steps, r);
    var t := Run(s, steps);
    assert Count(t.store, r) == Held(t)[r];
  }

  // --- Pools, barriers, retirement and slots in every reachable state ----------------------

  /** At most one buffer of a pool is out, a pool with none retains nothing, and reset waits for completion. */
  lemma PoolsAlways(s: State, steps: seq<Step>)
    requires Initial(s) && IsRun(s, steps)
    ensures var t := Run(s, steps);
      && (forall p :: 0 <= p < |t.pools| ==> t.pools[p].outstanding <= 1)
      && (forall p :: 0 <= p < |t.pools| && t.pools[p].outstanding == 0 ==> t.pools[p].recording.All() == [])
      && (forall i, p: nat {:trigger p in t.log[i].pools} ::
           0 <= i < |t.log| && p in t.log[i].pools && p < |t.pools| && Usable(t.pools[p], t.completed) ==> i < t.completed)
  {
    hide Run, IsRun, Initial;
    InitialInv(s);
    RunInv(s, steps);
    hide Held, RefInv, QueueInv, SlotInv, TextureInv;
    var t := Run(s, steps);
    forall i, p: nat | 0 <= i < |t.log| && p in t.log[i].pools && p < |t.pools| && Usable(t.pools[p], t.completed)
      ensures i < t.completed
    {
      assert i < t.pools[p].retireValue;
    }
  }

  lemma {:induction false} ProcessedPools(s: State, items: seq<Item<Res>>)
    ensures ProcessedAll(s, items).pools == s.pools
    decreases items
  {
    hide Release, Unpublished;
    if items != [] {
      ProcessedPools(Processed(s, items[0]), items[1..]);
    }
  }

  lemma DrainedPools(s: State)
    ensures Drained(s).pools == s.pools
  {
    var n := DueCount(s.queue, s.completed);
    ProcessedPools(s.(queue := s.queue[n..]), Flat(s.queue[..n]));
  }

  /** From s to u a buffer stayed out, goes on retaining what it did, and stays failed once it has. */
  ghost predicate StaysOut(s: State, u: State, p: nat)
    requires p < |s.pools|
  {
    && p < |u.pools| && u.pools[p].outstanding > 0
    && (s.pools[p].recording.failed ==> u.pools[p].recording.failed)
    && forall r :: r in s.pools[p].recording.All() ==> r in u.pools[p].recording.All()
  }

  lemma SubmitStaysOut(s: State, cbs: seq<nat>, a: S.Attempt, p: nat)
    requires Inv(s) && S.Ready(s.pools, cbs) && p < |s.pools| && s.pools[p].outstanding > 0
    ensures (p in cbs && S.ChecksIn(s, cbs, a)) || StaysOut(s, S.Submit(s, cbs, a), p)
  {
    hide Inv, S.Submit, S.ChecksIn, S.Returned;
    if p in cbs {
      S.GivesBack(s, cbs, a, p);
    } else {
      S.OthersKept(s, cbs, a, p);
    }
  }

  lemma OtherStaysOut(s: State, step: Step, p: nat)
    requires Enabled(s, step) && !step.Submit? && p < |s.pools| && s.pools[p].outstanding > 0
    ensures StaysOut(s, Next(s, step), p)
  {
    hide Drained, Started, Retain, Available, Enqueued, Release, Unpublished, NewRecord;
    match step {
      case StartRecording(n) => S.OthersStayOut(s.pools, s.completed, n, p);
      case Drain => DrainedPools(s);
      case _ =>
    }
  }

  /** A buffer that is out comes in only by a submission that names it. */
  lemma OnlySubmitChecksIn(s: State, step: Step, p: nat)
    requires Inv(s) && Enabled(s, step) && p < |s.pools| && s.pools[p].outstanding > 0
    ensures (step.Submit? && p in step.cbs && S.ChecksIn(s, step.cbs, step.attempt)) || StaysOut(s, Next(s, step), p)
  {
    hide Inv, S.Submit, StaysOut, S.ChecksIn;
    if step.Submit? {
      SubmitStaysOut(s, step.cbs, step.attempt, p);
    } else {
      OtherStaysOut(s, step, p);
    }
  }

  /** No step of the run submits the buffer of pool p. */
  ghost predicate NeverSubmits(steps: seq<Step>, p: nat) {
    forall k :: 0 <= k < |steps| && steps[k].Submit? ==> p !in steps[k].cbs
  }

  /** A buffer that is abandoned keeps its pool and everything that it retained, in every further run. */
  lemma {:induction false} AbandonedStays(s: State, steps: seq<Step>, p: nat)
    requires Inv(s) && IsRun(s, steps) && p < |s.pools| && s.pools[p].outstanding > 0 && NeverSubmits(steps, p)
    ensures StaysOut(s, Run(s, steps), p)
    decreases steps
  {
    if steps != [] {
      assert steps[0].Submit? ==> p !in steps[0].cbs;
      OnlySubmitChecksIn(s, steps[0], p);
      StepInv(s, steps[0]);
      hide Inv, Enabled, Next;
      AbandonedStays(Next(s, steps[0]), steps[1..], p);
    }
  }

  /**
   * The layout-discarding barrier of a texture is in one successful submission at most, once, and every
   * submission that names a texture not freed by then contains that barrier or follows it.
   */
  lemma BarriersAlways(s: State, steps: seq<Step>, t: Res)
    requires Initial(s) && IsRun(s, steps)
    ensures var log := Run(s, steps).log;
      && |log| == Run(s, steps).timeline
      && (forall i, j :: 0 <= i < j < |log| && t in log[i].barrier ==> t !in log[j].barrier)
      && (forall i :: 0 <= i < |log| ==> Distinct(log[i].barrier))
      && (forall i :: 0 <= i < |log| && t in log[i].unfreed ==> exists j :: 0 <= j <= i && t in log[j].barrier)
  {
    hide Run, IsRun, Initial;
    InitialInv(s);
    RunInv(s, steps);
    hide Held, RefInv, PoolInv, SlotInv, TexturesOk, QueuedTextures, Sorted, QueueValues, InFlight;
    var log := Run(s, steps).log;
    forall i | 0 <= i < |log| && t in log[i].unfreed
      ensures exists j :: 0 <= j <= i && t in log[j].barrier
    {
      var j :| 0 <= j < i + 1 && t in log[..i + 1][j].barrier;
      assert t in log[j].barrier;
    }
  }

  /** A queued texture that still has its handle is past its transition, so marking it Released loses nothing. */
  lemma MarkedPast(s: State, steps: seq<Step>, t: Res)
    requires Initial(s) && IsRun(s, steps)
    ensures var u := Run(s, steps); t.Tex? && t in u.handles && Ref(t) in Pending(u.queue) ==> Barriered(u.log, t)
  {
    hide Run, IsRun, Initial, Barriered, Pending;
    InitialInv(s);
    RunInv(s, steps);
    hide Held, RefInv, PoolInv, SlotInv, QueueInv, TexturesOk, BarriersOk, CoveredOk;
  }

  /**
   * The retirement queue: sorted, one batch per value, nothing due after the last published value, and
   * draining takes exactly the batches whose value has completed.
   */
  lemma RetirementAlways(s: State, steps: seq<Step>)
    requires Initial(s) && IsRun(s, steps)
    ensures var t := Run(s, steps);
      && Sorted(t.queue) && t.completed <= t.timeline
      && (forall i :: 0 <= i < |t.queue| && t.queue[i].items != [] ==> t.queue[i].value <= t.timeline)
      && (forall i: nat :: i < |t.queue| ==> (t.queue[i].value <= t.completed <==> i < DueCount(t.queue, t.completed)))
  {
    hide Run, IsRun, Initial;
    InitialInv(s);
    RunInv(s, steps);
    hide Held, RefInv, PoolInv, SlotInv, TextureInv, InFlight;
    var t := Run(s, steps);
    forall i: nat | i < |t.queue|
      ensures t.queue[i].value <= t.completed <==> i < DueCount(t.queue, t.completed)
    {
      DueBatches(t.queue, t.completed, i);
    }
    forall i | 0 <= i < |t.queue| && t.queue[i].items != []
      ensures t.queue[i].value <= t.timeline
    {
      assert t.queue[i].items[0] in t.queue[i].items;
      assert DueAt(t.queue, t.queue[i].value, t.queue[i].items[0]);
    }
  }

  /**
   * Descriptor slots: a slot can be issued again only after the retirement value of its last free has
   * completed, and a retiring slot has one queued retirement, with its generation, unless its storage was
   * not to be had.
   */
  lemma SlotsAlways(s: State, steps: seq<Step>, i: nat)
    requires Initial(s) && IsRun(s, steps)
    ensures var t := Run(s, steps);
      i < |t.slots| ==>
        && (t.slots[i].state == D.SlotState.Free && i in t.freedAt ==> t.freedAt[i] <= t.completed)
        && (forall g: nat :: Pending(t.queue)[SlotItem(i, g)]
              == if t.slots[i].state == D.SlotState.Retiring && t.slots[i].gen == g && i !in t.keptSlots then 1 else 0)
  {
    hide Run, IsRun, Initial;
    InitialInv(s);
    RunInv(s, steps);
    hide Held, RefInv, PoolInv, QueueInv, TextureInv, Pending, DueAt;
    var t := Run(s, steps);
    forall g: nat | i < |t.slots|
      ensures Pending(t.queue)[SlotItem(i, g)]
           == if t.slots[i].state == D.SlotState.Retiring && t.slots[i].gen == g && i !in t.keptSlots then 1 else 0
    {
      assert Pending(t.queue)[SlotItem(i, g)] == Owed(t.slots, t.keptSlots, i, g);
    }
  }

  // --- A run that loses a barrier ---------------------------------------------------------

  const WORKS: Native := Native(true, true, true)
  const STORED: Storage := Storage(true, true, true)
  const ACCEPTED: S.Attempt := S.Attempt(true, true, false, WORKS, false, STORED, true)
  const REFUSED: S.Attempt := ACCEPTED.(accepted := false)

  /** A texture is created, retained by a recording and freed; another recording starts. */
  function Prelude(x: Res): seq<Step> {
    [Create(x), StartRecording(WORKS), RetainFor(0, x), Free(x), StartRecording(WORKS)]
  }

  const OUT: Pool := Pool(true, true, 1, 0, Recording([], [], [], false))

  /** Nothing was submitted yet; the pools, the texture awaiting its transition, its record and its handles. */
  ghost predicate Stage(s: State, pools: seq<Pool>, x: Res, refs: nat, init: Init, handles: multiset<Res>) {
    && s.timeline == 0 && s.completed == 0 && s.queue == [] && s.pools == pools && s.handles == handles && x.Tex?
    && s.store.pending == [x] && x in s.store.records && s.store.records[x] == Rec(refs, init)
  }

  lemma CreateStage(s: State, x: Res)
    requires Initial(s) && x.Tex?
    ensures Enabled(s, Create(x)) && Stage(Next(s, Create(x)), s.pools, x, 1, NeedsTransition, multiset{x})
  {
  }

  lemma StartStage(s: State, pools: seq<Pool>, k: nat, x: Res, refs: nat, init: Init, handles: multiset<Res>)
    requires Stage(s, pools, x, refs, init, handles) && k < |pools| && pools[k] == UNUSED
    requires forall i :: 0 <= i < k ==> pools[i].outstanding > 0
    ensures Stage(Next(s, StartRecording(WORKS)), pools[k := OUT], x, refs, init, handles)
  {
  }

  lemma RetainStage(s: State, pools: seq<Pool>, x: Res)
    requires Stage(s, pools, x, 1, NeedsTransition, multiset{x}) && |pools| > 0 && pools[0] == OUT
    ensures Enabled(s, RetainFor(0, x))
    ensures Stage(Next(s, RetainFor(0, x)), pools[0 := OUT.(recording := Recording([], [x], [], false))], x, 2,
                  NeedsTransition, multiset{x})
  {
    assert OUT.recording.With(x) == Recording([], [x], [], false);
  }

  lemma FreeStage(s: State, pools: seq<Pool>, x: Res)
    requires Stage(s, pools, x, 2, NeedsTransition, multiset{x})
    ensures Stage(Next(s, Free(x)), pools, x, 1, Released, multiset{})
  {
  }

  /** Two buffers are out; the first retains a freed texture that awaits its transition. */
  function Waiting(pools: seq<Pool>, x: Res): seq<Pool>
    requires |pools| >= 2
  {
    pools[0 := OUT.(recording := Recording([], [x], [], false))][1 := OUT]
  }

  lemma OneStep(s: State, step: Step, rest: seq<Step>)
    requires Enabled(s, step) && IsRun(Next(s, step), rest)
    ensures IsRun(s, [step] + rest) && Run(s, [step] + rest) == Run(Next(s, step), rest)
  {
    assert ([step] + rest)[1..] == rest;
    hide Enabled, Next;
  }

  lemma PreludeRuns(s: State, x: Res)
    requires Initial(s) && |s.pools| >= 3 && x.Tex?
    ensures IsRun(s, Prelude(x)) && Stage(Run(s, Prelude(x)), Waiting(s.pools, x), x, 1, Released, multiset{})
  {
    var pools := s.pools;
    hide Stage, Next;
    CreateStage(s, x);
    var s1 := Next(s, Create(x));
    StartStage(s1, pools, 0, x, 1, NeedsTransition, multiset{x});
    var s2 := Next(s1, StartRecording(WORKS));
    RetainStage(s2, pools[0 := OUT], x);
    var s3 := Next(s2, RetainFor(0, x));
    var after := pools[0 := OUT][0 := OUT.(recording := Recording([], [x], [], false))];
    FreeStage(s3, after, x);
    var s4 := Next(s3, Free(x));
    StartStage(s4, after, 1, x, 1, Released, multiset{});
    var s5 := Next(s4, StartRecording(WORKS));
    assert after[1 := OUT] == Waiting(pools, x);
    assert IsRun(s5, []) && Run(s5, []) == s5;
    hide IsRun, Run, Initial;
    OneStep(s4, StartRecording(WORKS), []);
    OneStep(s3, Free(x), [StartRecording(WORKS)]);
    OneStep(s2, RetainFor(0, x), [Free(x), StartRecording(WORKS)]);
    OneStep(s1, StartRecording(WORKS), [RetainFor(0, x), Free(x), StartRecording(WORKS)]);
    OneStep(s, Create(x), [StartRecording(WORKS), RetainFor(0, x), Free(x), StartRecording(WORKS)]);
  }

  /** The other buffer is submitted, and the native submit refuses: everything is rolled back. */
  lemma RefusedSubmit(s: State, pools: seq<Pool>, x: Res)
    requires |pools| >= 3 && pools[2] == UNUSED && Stage(s, Waiting(pools, x), x, 1, Released, multiset{})
    ensures S.Ready(s.pools, [1]) && S.Claims(s, [1], REFUSED)
    ensures var t := S.Submit(s, [1], REFUSED);
      && s.timeline == t.timeline && s.store.pending == [x] && s.handles == multiset{} && |t.pools| > 0
      && t.pools[0].outstanding > 0 && !t.pools[0].recording.failed && t.pools[0].recording.textures == [x]
  {
    assert Pick(s.pools, 0) == 2;
    hide RetainedBy, ReleaseAll, RetainAll, Prepared, S.SetInits, S.WithInit;
  }

  /** A buffer is submitted with nothing awaiting its transition: it goes through. */
  lemma AcceptedSubmit(s: State)
    requires |s.pools| > 0 && s.pools[0].outstanding > 0 && !s.pools[0].recording.failed && s.store.pending == []
    ensures S.Ready(s.pools, [0]) && S.Submit(s, [0], ACCEPTED).timeline == s.timeline + 1
  {
    hide RetainedBy, ReleaseAll, RetainAll, Prepared, Pushed, S.SetInits, S.WithInit, Before;
  }

  lemma {:induction false} NamesTexture(pools: seq<Pool>, x: Res)
    requires |pools| > 0 && pools[0].recording.textures == [x]
    ensures x in RetainedBy(pools, [0])
  {
    assert [0][1..] == [];
  }

  /** After the refusal nothing awaits a transition, and the first buffer is still out. */
  lemma RefusedLeaves(s: State, pools: seq<Pool>, x: Res)
    requires Inv(s) && |pools| >= 3 && pools[2] == UNUSED && Stage(s, Waiting(pools, x), x, 1, Released, multiset{})
    ensures S.Ready(s.pools, [1]) && S.Claims(s, [1], REFUSED)
    ensures var t := S.Submit(s, [1], REFUSED);
      && t.timeline == s.timeline && t.store.pending == [] && |t.pools| > 0
      && t.pools[0].outstanding > 0 && !t.pools[0].recording.failed && t.pools[0].recording.textures == [x]
  {
    RefusedSubmit(s, pools, x);
    hide S.Submit, Inv, Stage, Waiting, S.Claims, S.Ready;
    S.SubmitPending(s, [1], REFUSED);
    assert S.NotFreed([x], multiset{}) == [];
  }

  lemma RefusedLoses(s: State, pools: seq<Pool>, x: Res)
    requires Inv(s) && |pools| >= 3 && pools[2] == UNUSED && Stage(s, Waiting(pools, x), x, 1, Released, multiset{})
    ensures S.Ready(s.pools, [1])
    ensures var t := S.Submit(s, [1], REFUSED);
      && S.Ready(t.pools, [0])
      && var log := S.Submit(t, [0], ACCEPTED).log;
        |log| > 0 && x in log[|log| - 1].named && !Barriered(log, x)
  {
    RefusedLeaves(s, pools, x);
    assert x in s.store.pending && x !in s.handles;
    hide S.Submit, Inv, Barriered, RetainedBy, Waiting, Stage, S.Claims;
    var t := S.Submit(s, [1], REFUSED);
    AcceptedSubmit(t);
    NamesTexture(t.pools, x);
    hide S.Ready;
    S.LostBarrier(s, [1], REFUSED, [0], ACCEPTED, x);
  }

  /**
   * From a new device with three pools: after the run, the last submission names the texture, and no
   * submission ever had its barrier.
   */
  lemma BarrierLost(s: State, x: Res)
    requires Initial(s) && |s.pools| >= 3 && x.Tex?
    ensures var steps := Prelude(x) + [Submit([1], REFUSED), Submit([0], ACCEPTED)];
      && IsRun(s, steps)
      && var log := Run(s, steps).log;
        |log| > 0 && x in log[|log| - 1].named && !Barriered(log, x)
  {
    hide S.Submit, S.Ready, Inv, Barriered, Stage, Waiting, Prelude, Run, IsRun;
    PreludeRuns(s, x);
    InitialInv(s);
    RunInv(s, Prelude(x));
    assert s.pools[2] == UNUSED;
    hide Initial;
    var t := Run(s, Prelude(x));
    RefusedLoses(t, s.pools, x);
    TwoSubmits(t, [1], REFUSED, [0], ACCEPTED);
    JoinedRun(s, Prelude(x), [Submit([1], REFUSED), Submit([0], ACCEPTED)]);
  }

  lemma TwoSubmits(s: State, first: seq<nat>, a: S.Attempt, second: seq<nat>, b: S.Attempt)
    requires S.Ready(s.pools, first) && S.Ready(S.Submit(s, first, a).pools, second)
    ensures IsRun(s, [Submit(first, a), Submit(second, b)])
    ensures Run(s, [Submit(first, a), Submit(second, b)]) == S.Submit(S.Submit(s, first, a), second, b)
  {
    hide S.Submit, S.Ready;
    var t := Next(s, Submit(first, a));
    var u := Next(t, Submit(second, b));
    assert IsRun(u, []) && Run(u, []) == u;
    OneStep(t, Submit(second, b), []);
    OneStep(s, Submit(first, a), [Submit(second, b)]);
  }

  lemma {:induction false} JoinedRun(s: State, first: seq<Step>, second: seq<Step>)
    requires IsRun(s, first) && IsRun(Run(s, first), second)
    ensures IsRun(s, first + second) && Run(s, first + second) == Run(Run(s, first), second)
    decreases first
  {
    hide Enabled, Next;
    if first == [] {
      assert first + second == second;
    } else {
      JoinedRun(Next(s, first[0]), first[1..], second);
      assert (first + second)[1..] == first[1..] + second;
    }
  }
}
