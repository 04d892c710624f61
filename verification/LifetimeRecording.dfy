/** Recording: check-out of a command buffer and what its commands retain (commands.cpp). */
module LifetimeRecording {
  import opened Bits
  import opened Records
  import opened CommandPools
  import opened RetireQueues
  import opened Lifetime

  /** queue_start_command_recording. */
  function StartedRecording(s: State, n: Native): State {
    s.(pools := Started(s.pools, s.completed, n))
  }

  lemma SameHeld(s: State, t: State)
    requires t.handles == s.handles && Retained(t.pools) == Retained(s.pools) && Queued(t.queue) == Queued(s.queue)
    requires Owners(t.slots) == Owners(s.slots) && t.jobs == s.jobs && t.kept == s.kept
    ensures Held(t) == Held(s)
  {
    hide Retained, Queued, Owners;
  }

  lemma StartedLog(s: State, n: Native)
    requires PoolInv(s.pools, s.log)
    ensures PoolLog(Started(s.pools, s.completed, n), s.log) && PoolDates(Started(s.pools, s.completed, n), s.log)
  {
    var pools := Started(s.pools, s.completed, n);
    assert forall p: nat :: p < |pools| ==> pools[p].retireValue == s.pools[p].retireValue;
    forall i, p: nat | 0 <= i < |s.log| && p in s.log[i].pools
      ensures p < |pools| && i < pools[p].retireValue
    {
      assert i < s.pools[p].retireValue;
    }
    hide Pick;
  }

  lemma StartedInv(s: State, n: Native)
    requires Inv(s)
    ensures Inv(StartedRecording(s, n))
  {
    var t := StartedRecording(s, n);
    StartKeeps(s.pools, s.completed, n);
    StartedLog(s, n);
    hide Held, Retained, Queued, Owners, PoolsOk, PoolLog, PoolDates, QueueInv, SlotInv, TextureInv, RefInv, Started;
    SameHeld(s, t);
  }

  /**
   * When a pool is reset for reuse, every submission of its buffers has completed, no buffer of it is
   * out, and its recordings retain nothing: the release loop of the reset has nothing to release.
   */
  lemma ResetSafe(s: State)
    requires Inv(s)
    ensures var k := Pick(s.pools, s.completed);
      k < |s.pools| ==>
        && s.pools[k].outstanding == 0 && s.pools[k].recording.All() == []
        && forall i :: 0 <= i < |s.log| && k in s.log[i].pools ==> i < s.completed
  {
    hide Held, Retained, Queued, Owners, QueueInv, SlotInv, TextureInv, RefInv;
  }

  /**
   * A check-out takes a buffer out of the picked pool exactly when pool and buffer can be had, and yields it
   * exactly when the begin call succeeds too. So a failing begin call leaves a buffer out that nobody has.
   */
  lemma BeginLeaks(s: State, n: Native)
    requires Inv(s) && Pick(s.pools, s.completed) < |s.pools|
    ensures var k := Pick(s.pools, s.completed);
      var p, out := s.pools[k], (s.pools[k].created || n.create) && ((s.pools[k].created && s.pools[k].hasBuffer) || n.allocate);
      && StartedRecording(s, n).pools[k].outstanding == (if out then 1 else 0)
      && (StartedPool(s.pools, s.completed, n) == if out && n.begin then Some(k) else None)
  {
    hide Held, RefInv, QueueInv, SlotInv, TextureInv;
  }

  /**
   * retain_texture, retain_buffer and cmd_set_pipeline on the buffer checked out from pool p. A texture or
   * pointer that does not resolve fails the recording; a pipeline that does not is refused, and that is all.
   */
  function RetainedIn(s: State, p: nat, r: Res): State
    requires p < |s.pools|
  {
    var pool := s.pools[p];
    if r !in s.handles && r.Pipe? then s
    else if r !in s.handles then s.(pools := s.pools[p := pool.(recording := pool.recording.(failed := true))])
    else if pool.recording.Has(r) || r !in s.store.records then s
    else s.(store := Retain(s.store, r), pools := s.pools[p := pool.(recording := pool.recording.With(r))])
  }

  lemma WithAll(rec: Recording, r: Res)
    ensures multiset(rec.With(r).All()) == multiset(rec.All()) + multiset{r}
  {
  }

  lemma RetainedMore(pools: seq<Pool>, p: nat, r: Res)
    requires p < |pools|
    ensures Retained(pools[p := pools[p].(recording := pools[p].recording.With(r))]) == Retained(pools) + multiset{r}
  {
    var q := pools[p].(recording := pools[p].recording.With(r));
    RetainedAt(pools, p, q);
    WithAll(pools[p].recording, r);
    Cancel(Retained(pools[p := q]), Retained(pools), multiset(pools[p].recording.All()), multiset{r});
  }

  /** A list that does not hold a record yet holds it once when it is added. */
  lemma TidyWith(pools: seq<Pool>, log: seq<Submitted>, p: nat, r: Res)
    requires PoolInv(pools, log) && p < |pools|
    ensures Tidy(pools[p].recording.(failed := true))
    ensures !pools[p].recording.Has(r) ==> Tidy(pools[p].recording.With(r))
  {
    hide PoolLog, PoolDates;
  }

  lemma RecordingPools(pools: seq<Pool>, log: seq<Submitted>, p: nat, rec: Recording)
    requires PoolInv(pools, log) && p < |pools| && pools[p].outstanding > 0 && Tidy(rec)
    ensures PoolInv(pools[p := pools[p].(recording := rec)], log)
  {
    var after := pools[p := pools[p].(recording := rec)];
    forall i, k: nat | 0 <= i < |log| && k in log[i].pools
      ensures k < |after| && i < after[k].retireValue
    {
      assert i < pools[k].retireValue;
    }
  }

  lemma HeldRecording(s: State, t: State, r: Res)
    requires t.handles == s.handles && Retained(t.pools) == Retained(s.pools) + multiset{r} && t.queue == s.queue
    requires t.slots == s.slots && t.jobs == s.jobs && t.kept == s.kept
    ensures Held(t) == Held(s) + multiset{r}
  {
    hide Retained, Queued, Owners;
  }

  lemma RetainedInInv(s: State, p: nat, r: Res)
    requires Inv(s) && p < |s.pools| && s.pools[p].outstanding > 0
    ensures Inv(RetainedIn(s, p, r))
  {
    var t := RetainedIn(s, p, r);
    var failed := s.pools[p].recording.(failed := true);
    RetainedSame(s.pools, p, s.pools[p].(recording := failed));
    RetainedMore(s.pools, p, r);
    TidyWith(s.pools, s.log, p, r);
    RecordingPools(s.pools, s.log, p, failed);
    if !s.pools[p].recording.Has(r) {
      RecordingPools(s.pools, s.log, p, s.pools[p].recording.With(r));
    }
    hide Held, Retained, Queued, Owners, PoolInv, QueueInv, SlotInv, TextureInv, RefInv, Retain, Tidy;
    if r !in s.handles {
      if !r.Pipe? {
        SameHeld(s, t);
      }
    } else if t != s {
      HeldRecording(s, t, r);
      RetainedTextures(s.store, s.handles, s.queue, s.log, r);
      RetainInv(s.store, Held(s), s.handles, r, Held(t));
    }
  }

  /** Any other recording error: the buffer will be rejected at submission. */
  function RecordingFailed(s: State, p: nat): State
    requires p < |s.pools|
  {
    s.(pools := s.pools[p := s.pools[p].(recording := s.pools[p].recording.(failed := true))])
  }

  lemma RecordingFailedInv(s: State, p: nat)
    requires Inv(s) && p < |s.pools| && s.pools[p].outstanding > 0
    ensures Inv(RecordingFailed(s, p))
  {
    var t := RecordingFailed(s, p);
    RetainedSame(s.pools, p, t.pools[p]);
    TidyWith(s.pools, s.log, p, Buf(0));
    RecordingPools(s.pools, s.log, p, t.pools[p].recording);
    hide Held, Retained, Queued, Owners, PoolInv, QueueInv, SlotInv, TextureInv, RefInv;
    SameHeld(s, t);
  }

  /** A record with a public handle is there: the handle is one of its holders. */
  lemma HandleResolves(s: State, r: Res)
    requires Inv(s) && r in s.handles
    ensures r in s.store.records
  {
    HandlesHeld(s);
    assert Count(s.store, r) > 0;
  }
}
