/** The pipeline compiler as an object: each action on its fields, and the locked regions with others at work. */
module PipelineCompiler {
  import opened Bits
  import opened PipelineDedup
  import opened PipelineRuns

  // --- The compiler object ----------------------------------------------------------------

  predicate Fresh(s: State, id: Id) {
    id !in s.records && id !in s.destroyed
  }

  /** What the others cannot change while a thread holds the lock. */
  ghost predicate Spared(s: State, u: State, t: nat) {
    && u.lock == s.lock && u.list == s.list && |u.threads| == |s.threads|
    && (t < |s.threads| ==> u.threads[t] == s.threads[t]) && forall id :: Fresh(s, id) ==> Fresh(u, id)
  }

  lemma DestroyedWasThere(s: State, t: nat, id: Id)
    requires Inv(s, false) && Enabled(s, Destroy(t)) && Fresh(s, id)
    ensures s.threads[t].id != id
  {
    hide CensusOf, Deduplicated, LockOk, Distinct, Matches;
    assert FactsOk(FactsOf(s, id), false);
    if s.threads[t].id == id {
      CountedDestroying(s, t);
    }
  }

  lemma CountedDestroying(s: State, t: nat)
    requires t < |s.threads| && s.threads[t].Destroying?
    ensures FactsOf(s, s.threads[t].id).census.destroying > 0
  {
    assert s.threads[t] in multiset(s.threads);
  }

  lemma FreshStays(s: State, a: Action, id: Id)
    requires Enabled(s, a) && Fresh(s, id) && !a.Insert?
    requires a.Destroy? ==> s.threads[a.t].id != id
    ensures Fresh(Next(s, a), id)
  {
    hide Removed, Answers, Terminal;
  }

  lemma OthersOutside(s: State, a: Action, t: nat)
    requires LockOk(s) && Enabled(s, a) && s.lock == Some(t) && !ByThread(a, t)
    ensures Next(s, a).lock == s.lock && Next(s, a).list == s.list && !a.Insert?
  {
    hide Answers, Matches, Removed, Terminal, Retained;
  }

  lemma OthersSpare(s: State, a: Action, t: nat)
    requires Inv(s, false) && Enabled(s, a) && s.lock == Some(t) && !ByThread(a, t)
    ensures Spared(s, Next(s, a), t)
  {
    OthersOutside(s, a, t);
    OthersStay(s, a, t);
    hide Inv, Next, Enabled, Fresh;
    forall id | Fresh(s, id)
      ensures Fresh(Next(s, a), id)
    {
      if a.Destroy? {
        DestroyedWasThere(s, a.t, id);
      }
      FreshStays(s, a, id);
    }
  }

  lemma OneMore(s: State, actions: seq<Action>, a: Action)
    requires IsRun(s, actions) && Enabled(Run(s, actions), a)
    ensures IsRun(s, actions + [a]) && Run(s, actions + [a]) == Next(Run(s, actions), a)
  {
    hide Enabled, Next;
    var u := Run(s, actions);
    assert [a][1..] == [];
    Joined(s, actions, [a]);
  }

  /** What a thread of the compiler does; `held`, `enqueued` and `destroyed` keep account of it. */
  class Compiler {
    var records: map<Id, Pipeline>
    /** The dedup map, a plain list. */
    var list: seq<Id>
    /** The worker queue. */
    var queue: seq<Id>
    var threads: seq<Pc>
    var lock: Option<nat>
    var held: multiset<Id>
    var enqueued: multiset<Id>
    var destroyed: multiset<Id>

    function Now(): State
      reads this
    {
      State(records, list, queue, threads, lock, held, enqueued, destroyed)
    }

    constructor (n: nat)
      ensures Initial(Now()) && |threads| == n
    {
      records, list, queue, threads, lock := map[], [], [], seq(n, _ => Idle), None;
      held, enqueued, destroyed := multiset{}, multiset{}, multiset{};
    }

    /** One round of find_record_locked: the count is read, then the key compared. */
    method ScanStep(t: nat)
      requires Enabled(Now(), Scan(t))
      modifies this
      ensures Now() == Next(old(Now()), Scan(t))
    {
      var pc := threads[t];
      var id := list[pc.at];
      var next := pc.(at := pc.at + 1);
      if records[id].refs != 0 {
        if Matches(records[id].key, pc.key) {
          next := Hitting(pc.key, id);
        }
      }
      threads := threads[t := next];
    }

    /** The increment that ends a hit. */
    method TakeReference(t: nat)
      requires Enabled(Now(), Increment(t))
      modifies this
      ensures Now() == Next(old(Now()), Increment(t))
    {
      var id := threads[t].id;
      records := records[id := records[id].(refs := records[id].refs + 1)];
      held := held + multiset{id};
      lock := None;
      threads := threads[t := Idle];
    }

    /** The second region when it misses too. */
    method InsertNew(t: nat, id: Id)
      requires Enabled(Now(), Insert(t, id))
      modifies this
      ensures Now() == Next(old(Now()), Insert(t, id))
    {
      records := records[id := Pipeline(threads[t].key, 2, Queued, 0)];
      list := list + [id];
      held := held + multiset{id};
      lock := None;
      threads := threads[t := Inserted(id)];
    }

    /** enqueue_record. */
    method EnqueueRecord(t: nat)
      requires Enabled(Now(), Enqueue(t))
      modifies this
      ensures Now() == Next(old(Now()), Enqueue(t))
    {
      var id := threads[t].id;
      queue := queue + [id];
      enqueued := enqueued + multiset{id};
      threads := threads[t := Idle];
    }

    /** The worker takes the oldest job. */
    method TakeJob(t: nat)
      requires Enabled(Now(), Take(t))
      modifies this
      ensures Now() == Next(old(Now()), Take(t))
    {
      threads := threads[t := Taken(queue[0])];
      queue := queue[1..];
    }

    /** The decrement of release_pipeline_ref, by a holder. */
    method DropRef(t: nat, id: Id)
      requires Enabled(Now(), Drop(t, id))
      modifies this
      ensures Now() == Next(old(Now()), Drop(t, id))
    {
      var rec := records[id].(refs := records[id].refs - 1);
      records := records[id := rec];
      held := held - multiset{id};
      threads := threads[t := if rec.refs == 0 then Zeroed(id) else Idle];
    }

    /** The decrement of release_pipeline_ref, by the worker. */
    method FinishJob(t: nat)
      requires Enabled(Now(), Finish(t))
      modifies this
      ensures Now() == Next(old(Now()), Finish(t))
    {
      var id := threads[t].id;
      var rec := records[id].(refs := records[id].refs - 1);
      records := records[id := rec];
      threads := threads[t := if rec.refs == 0 then Zeroed(id) else Idle];
    }

    /** The removal loop: the last record takes the removed one's place. */
    method RemoveLocked(id: Id)
      modifies `list
      ensures list == Removed(old(list), id)
    {
      var i := 0;
      while i < |list|
        invariant i <= |list| && list == old(list) && id !in list[..i]
      {
        if list[i] == id {
          FirstIndex(list, id, i);
          list := list[i := list[|list| - 1]][..|list| - 1];
          return;
        }
        assert list[..i + 1] == list[..i] + [list[i]];
        i := i + 1;
      }
      assert list[..i] == list;
    }

    /** The locked recheck of release_pipeline_ref. */
    method RecheckLocked(t: nat)
      requires Enabled(Now(), Recheck(t))
      modifies this
      ensures Now() == Next(old(Now()), Recheck(t))
    {
      var id := threads[t].id;
      if records[id].refs == 0 {
        RemoveLocked(id);
        threads := threads[t := Destroying(id)];
      } else {
        threads := threads[t := Idle];
      }
    }

    /** The worker publishes a stage. */
    method SetStage(t: nat, id: Id, stage: Stage, results: nat, pc: Pc)
      requires t < |threads| && id in records
      modifies this
      ensures Now() == At(Staged(old(Now()), id, stage, results), t, pc)
    {
      records := records[id := records[id].(stage := stage, results := results)];
      threads := threads[t := pc];
    }

    /** The worker's progress with a job. */
    method Work(a: Action)
      requires IsWork(a) && Enabled(Now(), a)
      modifies this
      ensures Now() == Next(old(Now()), a)
    {
      hide Answers, Removed, Dropped, Staged;
      var id := threads[a.t].id;
      match a {
        case Begin(t, probing) =>
          SetStage(t, id, if probing then ProbingCache else Compiling, records[id].results,
                   if probing then Probing(id) else Building(id));
        case Require(t) => SetStage(t, id, Compiling, records[id].results, Building(id));
        case Publish(t, ok) => SetStage(t, id, if ok then Ready else Failed, records[id].results + 1, Built(id));
      }
    }

    /** Entering a region, or leaving it or the request empty-handed. */
    method Move(a: Action)
      requires (a.Lookup? || a.Relook? || a.Leave? || a.GiveUp?) && Enabled(Now(), a)
      modifies this
      ensures Now() == Next(old(Now()), a)
    {
      match a {
        case Lookup(t, key) =>
          lock := Some(t);
          threads := threads[t := Scanning(key, 0, false)];
        case Relook(t) =>
          lock := Some(t);
          threads := threads[t := Scanning(threads[t].key, 0, true)];
        case Leave(t) =>
          lock := None;
          threads := threads[t := Missed(threads[t].key)];
        case GiveUp(t) => threads := threads[t := Idle];
      }
    }

    /** The destruction outside the lock. */
    method DestroyRecord(t: nat)
      requires Enabled(Now(), Destroy(t))
      modifies this
      ensures Now() == Next(old(Now()), Destroy(t))
    {
      var id := threads[t].id;
      records := records - {id};
      destroyed := destroyed + multiset{id};
      threads := threads[t := Idle];
    }

    /** One more reference, by a holder. */
    method RetainRef(id: Id)
      requires Enabled(Now(), Retain(id))
      modifies this
      ensures Now() == Next(old(Now()), Retain(id))
    {
      records := records[id := records[id].(refs := records[id].refs + 1)];
      held := held + multiset{id};
    }

    method Perform(a: Action)
      requires Enabled(Now(), a)
      modifies this
      ensures Now() == Next(old(Now()), a)
    {
      hide Next, Enabled;
      match a {
        case Scan(t) => ScanStep(t);
        case Increment(t) => TakeReference(t);
        case Insert(t, id) => InsertNew(t, id);
        case Enqueue(t) => EnqueueRecord(t);
        case Retain(id) => RetainRef(id);
        case Drop(t, id) => DropRef(t, id);
        case Recheck(t) => RecheckLocked(t);
        case Destroy(t) => DestroyRecord(t);
        case Take(t) => TakeJob(t);
        case Finish(t) => FinishJob(t);
        case Begin(_, _) => Work(a);
        case Require(_) => Work(a);
        case Publish(_, _) => Work(a);
        case _ => Move(a);
      }
    }

    /** What other threads do while t is inside the region: of a script, whatever they can. */
    method Others(t: nat, script: seq<Action>) returns (ghost trace: seq<Action>)
      requires Inv(Now(), false) && lock == Some(t)
      modifies this
      ensures IsRun(old(Now()), trace) && Run(old(Now()), trace) == Now()
      ensures Inv(Now(), false) && Spared(old(Now()), Now(), t)
    {
      hide Inv, Enabled, Next, IsRun, Run, Fresh;
      EmptyRun(Now());
      trace := [];
      var i := 0;
      while i < |script|
        invariant i <= |script| && lock == Some(t)
        invariant IsRun(old(Now()), trace) && Run(old(Now()), trace) == Now()
        invariant Inv(Now(), false) && Spared(old(Now()), Now(), t)
      {
        if !ByThread(script[i], t) && Enabled(Now(), script[i]) {
          OthersSpare(Now(), script[i], t);
          StepInv(Now(), script[i], false);
          OneMore(old(Now()), trace, script[i]);
          Perform(script[i]);
          trace := trace + [script[i]];
        }
        i := i + 1;
      }
    }

    /**
     * find_record_locked, with other threads at work before each round: at a miss no live record answers
     * the key, at a hit the record of the map is found that the increment will be for.
     */
    method FindRecordLocked(t: nat, others: seq<seq<Action>>) returns (hit: bool, ghost trace: seq<Action>)
      requires Inv(Now(), false) && lock == Some(t) && t < |threads| && threads[t].Scanning?
      modifies this
      ensures IsRun(old(Now()), trace) && Run(old(Now()), trace) == Now() && Inv(Now(), false)
      ensures lock == Some(t) && list == old(list) && |threads| == old(|threads|)
      ensures forall id :: Fresh(old(Now()), id) ==> Fresh(Now(), id)
      ensures hit ==> threads[t].Hitting? && threads[t].key == old(threads[t].key) && threads[t].id in list
      ensures hit ==> threads[t].id in records && Matches(records[threads[t].id].key, threads[t].key)
      ensures !hit ==> threads[t] == old(threads[t]).(at := |list|) && NoAnswer(records, old(threads[t].key))
    {
      hide Inv, Next, IsRun, Run, Fresh;
      EmptyRun(Now());
      trace := [];
      var round := 0;
      assert threads[t].at <= |list| by {
        HolderKnows(Now(), t);
      }
      while threads[t].Scanning? && threads[t].at < |list|
        invariant lock == Some(t) && list == old(list) && |threads| == old(|threads|)
        invariant threads[t].Scanning? || threads[t].Hitting?
        invariant threads[t].key == old(threads[t].key)
        invariant threads[t].Scanning? ==> threads[t].at <= |list| && threads[t].again == old(threads[t].again)
        invariant IsRun(old(Now()), trace) && Run(old(Now()), trace) == Now() && Inv(Now(), false)
        invariant forall id :: Fresh(old(Now()), id) ==> Fresh(Now(), id)
        decreases if threads[t].Scanning? then |list| - threads[t].at else 0
      {
        if round < |others| {
          ghost var before := trace;
          ghost var more := Others(t, others[round]);
          Joined(old(Now()), before, more);
          trace := before + more;
        }
        ListedAreRecords(Now());
        StepInv(Now(), Scan(t), false);
        ScanOnly(Now(), t);
        OneMore(old(Now()), trace, Scan(t));
        ScanStep(t);
        trace := trace + [Scan(t)];
        round := round + 1;
      }
      hit := threads[t].Hitting?;
      HolderKnows(Now(), t);
      if !hit {
        TrueMiss(Now(), t);
      }
    }

    /** The end of a hit: whatever the others do to the count first, the reference is good. */
    method EndHit(t: nat, late: seq<Action>) returns (id: Id, ghost trace: seq<Action>)
      requires Inv(Now(), false) && lock == Some(t) && t < |threads| && threads[t].Hitting?
      modifies this
      ensures IsRun(old(Now()), trace) && Run(old(Now()), trace) == Now() && Inv(Now(), false)
      ensures Got(Now(), t, id, old(threads[t].key))
    {
      hide Inv, Next, IsRun, Run, Enabled, Got;
      trace := Others(t, late);
      id := threads[t].id;
      IncrementGets(Now(), t);
      StepInv(Now(), Increment(t), false);
      OneMore(old(Now()), trace, Increment(t));
      TakeReference(t);
      trace := trace + [Increment(t)];
    }

    /** The first locked region of a request, with other threads at work all along: a reference, or a true miss. */
    method LookupFirst(t: nat, key: Description, others: seq<seq<Action>>, late: seq<Action>)
      returns (r: Option<Id>, ghost trace: seq<Action>)
      requires Inv(Now(), false) && Enabled(Now(), Lookup(t, key))
      modifies this
      ensures IsRun(old(Now()), trace) && Run(old(Now()), trace) == Now() && Inv(Now(), false)
      ensures r.Some? ==> Got(Now(), t, r.value, key)
      ensures r == None ==> lock == None && t < |threads| && threads[t] == Missed(key) && NoAnswer(records, key)
    {
      hide Inv, Next, IsRun, Run, Enabled, Got, NoAnswer;
      EntersRegion(Now(), Lookup(t, key));
      StepInv(Now(), Lookup(t, key), false);
      OneStep(Now(), Lookup(t, key));
      Perform(Lookup(t, key));
      var hit, more := FindRecordLocked(t, others);
      Joined(old(Now()), [Lookup(t, key)], more);
      trace := [Lookup(t, key)] + more;
      r := None;
      if hit {
        var id, rest := EndHit(t, late);
        Joined(old(Now()), trace, rest);
        trace := trace + rest;
        r := Some(id);
      } else {
        LeavesRegion(Now(), t);
        StepInv(Now(), Leave(t), false);
        OneMore(old(Now()), trace, Leave(t));
        Perform(Leave(t));
        trace := trace + [Leave(t)];
      }
    }

    /** The second locked region: a reference to a record that came meanwhile, or a new one, alone of its description. */
    method InsertChecked(t: nat, rec: Id, others: seq<seq<Action>>, late: seq<Action>)
      returns (r: Option<Id>, ghost trace: seq<Action>)
      requires Inv(Now(), false) && Enabled(Now(), Relook(t)) && Fresh(Now(), rec)
      modifies this
      ensures IsRun(old(Now()), trace) && Run(old(Now()), trace) == Now() && Inv(Now(), false)
      ensures r.Some? ==> Got(Now(), t, r.value, old(threads[t].key))
      ensures r == None ==>
        Inserts(Now(), t, rec, old(threads[t].key)) && NoAnswer(records - {rec}, old(threads[t].key))
    {
      hide Inv, Next, IsRun, Run, Enabled, Got, NoAnswer, Inserts, Fresh;
      EntersRegion(Now(), Relook(t));
      StepInv(Now(), Relook(t), false);
      OneStep(Now(), Relook(t));
      Perform(Relook(t));
      var hit, more := FindRecordLocked(t, others);
      Joined(old(Now()), [Relook(t)], more);
      trace := [Relook(t)] + more;
      r := None;
      if hit {
        var id, rest := EndHit(t, late);
        Joined(old(Now()), trace, rest);
        trace := trace + rest;
        r := Some(id);
      } else {
        InsertEnds(Now(), t, rec);
        StepInv(Now(), Insert(t, rec), false);
        OneMore(old(Now()), trace, Insert(t, rec));
        InsertNew(t, rec);
        trace := trace + [Insert(t, rec)];
      }
    }
  }

  /** A request ended with a reference to a record of its description. */
  predicate Got(s: State, t: nat, id: Id, key: Description) {
    t < |s.threads| && s.threads[t] == Idle && s.lock == None && Answers(s.records, id, key) && id in s.held
  }

  /** It ended with a record of its own, with a reference for the user and one for the worker. */
  predicate Inserts(s: State, t: nat, id: Id, key: Description) {
    && t < |s.threads| && s.threads[t] == Inserted(id) && s.lock == None && id in s.held && id in s.list
    && id in s.records && s.records[id] == Pipeline(key, 2, Queued, 0)
  }

  ghost predicate NoAnswer(records: map<Id, Pipeline>, key: Description) {
    forall id :: !Answers(records, id, key)
  }

  lemma OneStep(s: State, a: Action)
    requires Enabled(s, a)
    ensures IsRun(s, [a]) && Run(s, [a]) == Next(s, a)
  {
    EmptyRun(Next(s, a));
    Prepend(s, a, []);
    assert [a] + [] == [a];
    hide Enabled, Next;
  }

  lemma IncrementGets(s: State, t: nat)
    requires Inv(s, false) && s.lock == Some(t) && t < |s.threads| && s.threads[t].Hitting?
    ensures Enabled(s, Increment(t)) && Got(Next(s, Increment(t)), t, s.threads[t].id, s.threads[t].key)
  {
    HolderKnows(s, t);
    hide Inv, Matches;
  }

  lemma EntersRegion(s: State, a: Action)
    requires Enabled(s, a) && (a.Lookup? || a.Relook?)
    ensures var u := Next(s, a);
      && u.lock == Some(a.t) && u.list == s.list && u.records == s.records && u.destroyed == s.destroyed && a.t < |u.threads|
      && (match a case Lookup(t, key) => u.threads[t] == Scanning(key, 0, false)
                  case _ => u.threads[a.t] == Scanning(s.threads[a.t].key, 0, true))
    ensures forall id :: Fresh(s, id) ==> Fresh(Next(s, a), id)
  {
  }

  lemma TrueMiss(s: State, t: nat)
    requires Inv(s, false) && t < |s.threads| && s.threads[t].Scanning? && s.threads[t].at == |s.list|
    ensures NoAnswer(s.records, s.threads[t].key)
  {
    MissIs(s, t, false);
  }

  lemma LeavesRegion(s: State, t: nat)
    requires t < |s.threads| && s.threads[t].Scanning? && s.threads[t].at == |s.list| && !s.threads[t].again
    ensures Enabled(s, Leave(t))
    ensures var u := Next(s, Leave(t));
      u.lock == None && u.records == s.records && |u.threads| == |s.threads| && u.threads[t] == Missed(s.threads[t].key)
  {
  }

  lemma InsertEnds(s: State, t: nat, id: Id)
    requires t < |s.threads| && s.threads[t].Scanning? && s.threads[t].at == |s.list| && s.threads[t].again && Fresh(s, id)
    requires NoAnswer(s.records, s.threads[t].key)
    ensures Enabled(s, Insert(t, id))
    ensures var u := Next(s, Insert(t, id));
      Inserts(u, t, id, s.threads[t].key) && NoAnswer(u.records - {id}, s.threads[t].key)
  {
    hide Matches;
    var u := Next(s, Insert(t, id));
    assert u.records - {id} == s.records;
  }

  lemma HolderKnows(s: State, t: nat)
    requires Inv(s, false) && s.lock == Some(t)
    ensures t < |s.threads| && match s.threads[t]
      case Scanning(_, at, _) => at <= |s.list|
      case Hitting(key, id) => id in s.list && id in s.records && Matches(s.records[id].key, key)
      case _ => false
  {
  }

  lemma ScanOnly(s: State, t: nat)
    requires Enabled(s, Scan(t))
    ensures var u := Next(s, Scan(t));
      && u.lock == s.lock && u.list == s.list && u.records == s.records && u.destroyed == s.destroyed
      && |u.threads| == |s.threads| && u.threads[t].key == s.threads[t].key
      && (u.threads[t] == s.threads[t].(at := s.threads[t].at + 1) || u.threads[t].Hitting?)
    ensures forall id :: Fresh(s, id) ==> Fresh(Next(s, Scan(t)), id)
  {
  }

  lemma FirstIndex(list: seq<Id>, id: Id, i: nat)
    requires i < |list| && list[i] == id && id !in list[..i]
    ensures IndexOf(list, id) == i
  {
  }

  lemma ListedAreRecords(s: State)
    requires Inv(s, false)
    ensures forall id :: id in s.list ==> id in s.records
  {
    forall id | id in s.list
      ensures id in s.records
    {
      assert FactsOk(FactsOf(s, id), false);
    }
  }
}
