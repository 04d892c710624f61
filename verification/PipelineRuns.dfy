/**
 * Runs of the pipeline compiler: what every interleaving keeps, the one race that lets a record be destroyed
 * twice, the runs that are free of it, and what callers can do.
 */
module PipelineRuns {
  import opened Bits
  import opened PipelineDedup

  // --- Runs -------------------------------------------------------------------------------

  predicate IsRun(s: State, actions: seq<Action>)
    decreases actions
  {
    actions == [] || (Enabled(s, actions[0]) && IsRun(Next(s, actions[0]), actions[1..]))
  }

  function Run(s: State, actions: seq<Action>): State
    requires IsRun(s, actions)
    decreases actions
  {
    if actions == [] then s else Run(Next(s, actions[0]), actions[1..])
  }

  /** No action of the run is the race. */
  predicate Quiet(s: State, actions: seq<Action>)
    requires IsRun(s, actions)
    decreases actions
  {
    actions == [] || (!Races(s, actions[0]) && Quiet(Next(s, actions[0]), actions[1..]))
  }

  predicate Initial(s: State) {
    && s.records == map[] && s.list == [] && s.queue == [] && s.lock == None
    && (forall t :: 0 <= t < |s.threads| ==> s.threads[t] == Idle)
    && s.held == multiset{} && s.enqueued == multiset{} && s.destroyed == multiset{}
  }

  lemma InitialInv(s: State)
    requires Initial(s)
    ensures Inv(s, true)
  {
    forall x
      ensures FactsOk(FactsOf(s, x), true)
    {
      IdleCensus(s.threads, x);
    }
  }

  lemma {:induction false} IdleCensus(threads: seq<Pc>, x: Id)
    requires forall t :: 0 <= t < |threads| ==> threads[t] == Idle
    ensures CensusOf(multiset(threads), multiset([]), x) == Census(0, 0, 0, 0, 0, 0, 0, 0)
  {
    if threads != [] {
      IdleCensus(threads[1..], x);
      assert threads == [threads[0]] + threads[1..];
    }
  }

  lemma {:induction false} RunInv(s: State, actions: seq<Action>, quiet: bool)
    requires Inv(s, quiet) && IsRun(s, actions) && (quiet ==> Quiet(s, actions))
    ensures Inv(Run(s, actions), quiet)
    decreases actions
  {
    hide Inv, Enabled, Next, Races;
    if actions != [] {
      StepInv(s, actions[0], quiet);
      RunInv(Next(s, actions[0]), actions[1..], quiet);
    }
  }

  lemma Weaken(s: State)
    requires Inv(s, true)
    ensures Inv(s, false)
  {
    forall id
      ensures FactsOk(FactsOf(s, id), false)
    {
      WeakenFacts(FactsOf(s, id));
    }
    hide FactsOk;
  }

  lemma WeakenFacts(f: Facts)
    requires FactsOk(f, true)
    ensures FactsOk(f, false)
  {
  }

  /**
   * Whatever the interleaving, races included: live records have distinct (NUL-free) descriptions, counts
   * are exact, every record is enqueued and given a result at most once, and nobody holds a destroyed one.
   */
  lemma RunSafe(s: State, actions: seq<Action>, a: Id, b: Id)
    requires Initial(s) && IsRun(s, actions)
    ensures var u := Run(s, actions);
      && (Live(u.records, a) && Live(u.records, b) && NulFree(u.records[a].key) && u.records[a].key == u.records[b].key ==> a == b)
      && (a in u.records ==> u.records[a].refs == u.held[a] + Share(FactsOf(u, a).census) && u.records[a].results <= 1)
      && u.enqueued[a] <= 1 && (a in u.destroyed ==> a !in u.records && a !in u.held && a !in u.queue)
  {
    InitialInv(s);
    Weaken(s);
    RunInv(s, actions, false);
    hide Run, IsRun, Initial, NulFree, LockOk;
    assert FactsOk(FactsOf(Run(s, actions), a), false);
  }

  /** A run without a race destroys each record once at most. */
  lemma QuietRunSafe(s: State, actions: seq<Action>, id: Id)
    requires Inv(s, true) && IsRun(s, actions) && Quiet(s, actions)
    ensures Run(s, actions).destroyed[id] <= 1
  {
    RunInv(s, actions, true);
    assert FactsOk(FactsOf(Run(s, actions), id), true);
    hide Run, IsRun, Quiet;
  }

  /**
   * Whoever uses a record finds it in being: a holder, a job, the worker, a lookup. A releasing thread that
   * is yet to recheck or destroy does too, in a quiet run.
   */
  lemma NothingDangles(s: State, t: nat, quiet: bool)
    requires Inv(s, quiet) && t < |s.threads|
    ensures match s.threads[t]
            case Scanning(_, at, _) => forall j :: 0 <= j < |s.list| ==> s.list[j] in s.records
            case Zeroed(id) => quiet ==> id in s.records
            case Destroying(id) => quiet ==> id in s.records
            case Built(id) => Live(s.records, id)
            case Idle => true
            case Missed(_) => true
            case pc => pc.id in s.records
    ensures forall id :: id in s.held ==> Live(s.records, id)
    ensures forall id :: id in s.queue ==> id in s.records
  {
    hide Deduplicated, Distinct, Matches;
    forall id | id in s.held || id in s.queue || id in s.list
      ensures id in s.records && (id in s.held ==> s.records[id].refs > 0)
    {
      assert FactsOk(FactsOf(s, id), quiet);
    }
    if !Bare(s.threads[t]) {
      var id := s.threads[t].id;
      FactsMoved(s, t, Idle, id);
      assert FactsOk(FactsOf(s, id), quiet);
      hide CensusOf;
    }
  }

  /** In a quiet run the locked recheck never sees a resurrected record. */
  lemma RecheckSeesZero(s: State, t: nat)
    requires Inv(s, true) && Enabled(s, Recheck(t))
    ensures s.records[s.threads[t].id].refs == 0 && s.threads[t].id in s.list
  {
    var id := s.threads[t].id;
    FactsMoved(s, t, Idle, id);
    assert FactsOk(FactsOf(s, id), true);
    RecheckFacts(FactsOf(s, id), true);
    hide FactsOk;
  }

  predicate StaysZero(s: State, a: Action, id: Id)
    requires Enabled(s, a)
  {
    id in Next(s, a).records ==> Next(s, a).records[id].refs == 0
  }

  lemma NoneTaken(s: State, a: Action, id: Id)
    requires Enabled(s, a) && id in s.records && s.records[id].refs == 0 && id !in s.held
    requires a.Increment? ==> s.threads[a.t].id != id
    ensures StaysZero(s, a, id)
  {
    hide Removed, Matches, Terminal;
  }

  lemma IncrementRaises(s: State, t: nat, id: Id)
    requires t < |s.threads| && s.threads[t].Hitting? && s.threads[t].id == id && id in s.records
    ensures Enabled(s, Increment(t)) && !StaysZero(s, Increment(t), id)
  {
  }

  lemma OnlyHolderHits(s: State, t: nat)
    requires LockOk(s) && Enabled(s, Increment(t))
    ensures s.lock == Some(t) && Hit(s) == Some(s.threads[t].id)
  {
  }

  /** A record whose count is zero keeps it, whatever happens next, exactly when no lookup has tested it before. */
  lemma ZeroIsFinal(s: State, id: Id)
    requires Inv(s, false) && id in s.records && s.records[id].refs == 0
    ensures (forall a :: Enabled(s, a) ==> StaysZero(s, a, id)) <==> Hit(s) != Some(id)
  {
    assert id !in s.held by {
      assert FactsOk(FactsOf(s, id), false);
    }
    hide FactsOk, FactsOf, Matches, Deduplicated, Distinct, Enabled;
    if Hit(s) == Some(id) {
      IncrementRaises(s, s.lock.value, id);
    } else {
      forall a | Enabled(s, a)
        ensures StaysZero(s, a, id)
      {
        if a.Increment? {
          OnlyHolderHits(s, a.t);
        }
        NoneTaken(s, a, id);
      }
    }
  }

  // --- The race ---------------------------------------------------------------------------

  /** The race is exactly what takes a run out of the invariant of quiet runs. */
  lemma RaceIsExact(s: State, a: Action)
    requires Inv(s, true) && Enabled(s, a)
    ensures Inv(Next(s, a), true) <==> !Races(s, a)
    ensures Races(s, a) ==> !HitLive(Next(s, a))
  {
    if Races(s, a) {
      RaceHits(s, a);
    } else {
      StepInv(s, a, true);
    }
    hide Next, Races, FactsOk, FactsOf, LockOk, Deduplicated, Distinct;
  }

  lemma RaceHits(s: State, a: Action)
    requires LockOk(s) && Enabled(s, a) && Races(s, a)
    ensures Hit(Next(s, a)) == Hit(s) && Hit(s).Some? && Hit(s).value in Next(s, a).records && !HitLive(Next(s, a))
  {
    hide Matches;
  }

  lemma Prepend(s: State, a: Action, rest: seq<Action>)
    requires Enabled(s, a) && IsRun(Next(s, a), rest)
    ensures IsRun(s, [a] + rest) && Run(s, [a] + rest) == Run(Next(s, a), rest)
    ensures Quiet(s, [a] + rest) <==> !Races(s, a) && Quiet(Next(s, a), rest)
  {
    assert ([a] + rest)[1..] == rest;
    hide Enabled, Next, Races;
  }

  /** A lookup has tested the record, its count is zero since, and the thread that took it there is waiting. */
  predicate Overtaken(s: State, t: nat, u: nat, id: Id) {
    && t < |s.threads| && u < |s.threads| && t != u && s.lock == Some(t) && s.threads[t].Hitting? && s.threads[t].id == id
    && s.threads[u] == Zeroed(id) && id in s.records && s.records[id].refs == 0
  }

  /**
   * What the locked recheck is for: when the lookup goes first, the waiting thread sees the new reference
   * and leaves the record alone.
   */
  lemma RecheckSpares(s: State, t: nat, u: nat, id: Id)
    requires Overtaken(s, t, u, id)
    ensures Enabled(s, Increment(t)) && Enabled(Next(s, Increment(t)), Recheck(u))
    ensures var v := Next(Next(s, Increment(t)), Recheck(u));
      Live(v.records, id) && v.list == s.list && v.threads[u] == Idle
  {
  }

  /**
   * What it does not prevent: the lookup takes its reference and drops it before the first thread gets the
   * lock. Both wait then, both see zero, and both destroy.
   */
  function Both(t: nat, u: nat, id: Id): seq<Action> {
    [Increment(t)] + ([Drop(t, id)] + Rest(t, u))
  }

  function Rest(t: nat, u: nat): seq<Action> {
    [Recheck(u)] + ([Recheck(t)] + Destroys(t, u))
  }

  function Destroys(t: nat, u: nat): seq<Action> {
    [Destroy(u)] + ([Destroy(t)] + [])
  }

  lemma BothDestroy(s: State, t: nat, u: nat, id: Id)
    requires Overtaken(s, t, u, id)
    ensures IsRun(s, Both(t, u, id)) && Quiet(s, Both(t, u, id))
    ensures Run(s, Both(t, u, id)).destroyed[id] == s.destroyed[id] + 2
  {
    var v := Next(s, Increment(t));
    var w := Next(v, Drop(t, id));
    RestDestroys(w, t, u, id);
    Prepend(v, Drop(t, id), Rest(t, u));
    Prepend(s, Increment(t), [Drop(t, id)] + Rest(t, u));
    hide Run, IsRun, Quiet, Rest;
  }

  lemma RestDestroys(s: State, t: nat, u: nat, id: Id)
    requires t < |s.threads| && u < |s.threads| && t != u && s.lock == None && id in s.records && s.records[id].refs == 0
    requires s.threads[t] == Zeroed(id) && s.threads[u] == Zeroed(id)
    ensures IsRun(s, Rest(t, u)) && Quiet(s, Rest(t, u)) && Run(s, Rest(t, u)).destroyed[id] == s.destroyed[id] + 2
  {
    hide Removed;
    var v := Next(s, Recheck(u));
    var w := Next(v, Recheck(t));
    hide Run, IsRun, Quiet, Destroys;
    LastDestroy(w, t, u, id);
    Prepend(v, Recheck(t), Destroys(t, u));
    Prepend(s, Recheck(u), [Recheck(t)] + Destroys(t, u));
  }

  lemma LastDestroy(s: State, t: nat, u: nat, id: Id)
    requires t < |s.threads| && u < |s.threads| && t != u
    requires s.threads[t] == Destroying(id) && s.threads[u] == Destroying(id)
    ensures IsRun(s, Destroys(t, u)) && Quiet(s, Destroys(t, u))
    ensures Run(s, Destroys(t, u)).destroyed[id] == s.destroyed[id] + 2
  {
    var v := Next(s, Destroy(u));
    EmptyRun(Next(v, Destroy(t)));
    hide Run, IsRun, Quiet;
    Prepend(v, Destroy(t), []);
    Prepend(s, Destroy(u), [Destroy(t)] + []);
  }

  lemma EmptyRun(s: State)
    ensures IsRun(s, []) && Run(s, []) == s && Quiet(s, [])
  {
  }

  /** No continuation, races aside, destroys a record twice. */
  ghost predicate Harmless(s: State) {
    forall more, id :: IsRun(s, more) && Quiet(s, more) ==> Run(s, more).destroyed[id] <= 1
  }

  lemma QuietIsHarmless(s: State)
    requires Inv(s, true)
    ensures Harmless(s)
  {
    forall more, id | IsRun(s, more) && Quiet(s, more)
      ensures Run(s, more).destroyed[id] <= 1
    {
      QuietRunSafe(s, more, id);
    }
  }

  /** Who finds a tested record at zero finds a thread that is waiting to destroy it. */
  lemma SomeoneWaits(s: State) returns (t: nat, u: nat, id: Id)
    requires Inv(s, false) && !HitLive(s)
    ensures Overtaken(s, t, u, id)
  {
    t := s.lock.value;
    id := s.threads[t].id;
    assert FactsOk(FactsOf(s, id), false);
    hide Matches, Deduplicated, Distinct;
    assert multiset(s.threads)[Zeroed(id)] > 0;
    assert Zeroed(id) in s.threads;
    u :| 0 <= u < |s.threads| && s.threads[u] == Zeroed(id);
  }

  lemma RaceIsHarmful(s: State, a: Action)
    requires Inv(s, true) && Enabled(s, a) && Races(s, a)
    ensures !Harmless(Next(s, a))
  {
    var n := Next(s, a);
    Weaken(s);
    StepInv(s, a, false);
    RaceHits(s, a);
    var t, u, id := SomeoneWaits(n);
    BothDestroy(n, t, u, id);
    hide IsRun, Run, Quiet, Next, Both, Inv, Overtaken, Races;
    assert Run(n, Both(t, u, id)).destroyed[id] > 1;
  }

  /** Harmless all along a run. */
  ghost predicate AlwaysHarmless(s: State, actions: seq<Action>)
    requires IsRun(s, actions)
    decreases actions
  {
    Harmless(s) && (actions == [] || AlwaysHarmless(Next(s, actions[0]), actions[1..]))
  }

  /**
   * Exactly the runs without a race are harmless all along: a race, and nothing else, lets a record be
   * destroyed twice.
   */
  lemma {:induction false} SafeExactlyWhenQuiet(s: State, actions: seq<Action>)
    requires Inv(s, true) && IsRun(s, actions)
    ensures AlwaysHarmless(s, actions) <==> Quiet(s, actions)
    decreases actions
  {
    hide Inv, Enabled, Next, Races, Harmless;
    QuietIsHarmless(s);
    if actions != [] {
      var n := Next(s, actions[0]);
      if Races(s, actions[0]) {
        RaceIsHarmful(s, actions[0]);
      } else {
        StepInv(s, actions[0], true);
        SafeExactlyWhenQuiet(n, actions[1..]);
      }
    }
  }

  // A run from a new device that comes to the race.

  /** A pipeline is requested, compiled and released by the worker. */
  function Request(d: Description): seq<Action> {
    [Lookup(0, d)] + ([Leave(0)] + ([Relook(0)] + ([Insert(0, 0)] + Compile())))
  }

  function Compile(): seq<Action> {
    [Enqueue(0)] + ([Take(0)] + ([Begin(0, false)] + ([Publish(0, true)] + ([Finish(0)] + []))))
  }

  /** An equal request has tested the record when the user drops the last reference. */
  function Overtake(d: Description): seq<Action> {
    [Lookup(0, d)] + ([Scan(0)] + ([Drop(1, 0)] + []))
  }

  lemma {:induction false} Joined(s: State, first: seq<Action>, second: seq<Action>)
    requires IsRun(s, first) && IsRun(Run(s, first), second)
    ensures IsRun(s, first + second) && Run(s, first + second) == Run(Run(s, first), second)
    decreases first
  {
    hide Enabled, Next;
    if first == [] {
      assert first + second == second;
    } else {
      Joined(Next(s, first[0]), first[1..], second);
      assert (first + second)[1..] == first[1..] + second;
    }
  }

  /** One record, ready, with one holder; nobody is doing anything. */
  predicate Served(s: State, d: Description) {
    && |s.threads| >= 2 && s.threads[0] == Idle && s.threads[1] == Idle && s.lock == None
    && s.list == [0] && 0 in s.records && s.records[0].refs == 1 && s.records[0].key == d
    && 0 in s.held && 0 !in s.destroyed
  }

  /** A record with its worker's reference, about to be queued. */
  predicate Requested(s: State, d: Description) {
    && |s.threads| >= 2 && s.threads[0] == Inserted(0) && s.threads[1] == Idle && s.lock == None && s.queue == []
    && s.list == [0] && 0 in s.records && s.records[0].refs == 2 && s.records[0].key == d
    && 0 in s.held && 0 !in s.destroyed
  }

  /** A request whose first lookup missed the empty map. */
  predicate Asked(s: State, d: Description) {
    && |s.threads| >= 2 && s.threads[0] == Missed(d) && s.threads[1] == Idle && s.lock == None && s.queue == []
    && s.list == [] && s.records == map[] && 0 !in s.destroyed
  }

  lemma SecondRuns(s: State, d: Description)
    requires Asked(s, d)
    ensures IsRun(s, [Relook(0)] + ([Insert(0, 0)] + Compile()))
    ensures Served(Run(s, [Relook(0)] + ([Insert(0, 0)] + Compile())), d)
  {
    hide Run, IsRun, Quiet, Compile, Matches, Served;
    var s1 := Next(s, Relook(0));
    var s2 := Next(s1, Insert(0, 0));
    CompileRuns(s2, d);
    Prepend(s1, Insert(0, 0), Compile());
    Prepend(s, Relook(0), [Insert(0, 0)] + Compile());
  }

  lemma RequestRuns(s: State, d: Description)
    requires Initial(s) && |s.threads| >= 2
    ensures IsRun(s, Request(d)) && Served(Run(s, Request(d)), d)
  {
    hide Run, IsRun, Quiet, Compile, Matches, Served;
    var s1 := Next(s, Lookup(0, d));
    var s2 := Next(s1, Leave(0));
    SecondRuns(s2, d);
    Prepend(s1, Leave(0), [Relook(0)] + ([Insert(0, 0)] + Compile()));
    Prepend(s, Lookup(0, d), [Leave(0)] + ([Relook(0)] + ([Insert(0, 0)] + Compile())));
  }

  lemma CompileRuns(s: State, d: Description)
    requires Requested(s, d)
    ensures IsRun(s, Compile()) && Served(Run(s, Compile()), d)
  {
    hide Run, IsRun, Quiet;
    var s1 := Next(s, Enqueue(0));
    var s2 := Next(s1, Take(0));
    var s3 := Next(s2, Begin(0, false));
    var s4 := Next(s3, Publish(0, true));
    var s5 := Next(s4, Finish(0));
    EmptyRun(s5);
    Prepend(s4, Finish(0), []);
    Prepend(s3, Publish(0, true), [Finish(0)] + []);
    Prepend(s2, Begin(0, false), [Publish(0, true)] + ([Finish(0)] + []));
    Prepend(s1, Take(0), [Begin(0, false)] + ([Publish(0, true)] + ([Finish(0)] + [])));
    Prepend(s, Enqueue(0), [Take(0)] + ([Begin(0, false)] + ([Publish(0, true)] + ([Finish(0)] + []))));
  }

  lemma OvertakeRuns(s: State, d: Description)
    requires Served(s, d) && NulFree(d)
    ensures IsRun(s, Overtake(d)) && Overtaken(Run(s, Overtake(d)), 0, 1, 0) && Run(s, Overtake(d)).destroyed == s.destroyed
  {
    MatchesSelf(d);
    hide Run, IsRun, Quiet, Matches, NulFree;
    var s1 := Next(s, Lookup(0, d));
    var s2 := Next(s1, Scan(0));
    var s3 := Next(s2, Drop(1, 0));
    EmptyRun(s3);
    Prepend(s2, Drop(1, 0), []);
    Prepend(s1, Scan(0), [Drop(1, 0)] + []);
    Prepend(s, Lookup(0, d), [Scan(0)] + ([Drop(1, 0)] + []));
  }

  /** From a new device with two threads, and for every description: a record that is destroyed twice. */
  lemma DestroyedTwice(s: State, d: Description)
    requires Initial(s) && |s.threads| >= 2 && NulFree(d)
    ensures var actions := Request(d) + Overtake(d) + Both(0, 1, 0);
      IsRun(s, actions) && Run(s, actions).destroyed[0] == 2
  {
    RequestRuns(s, d);
    var u := Run(s, Request(d));
    OvertakeRuns(u, d);
    var v := Run(u, Overtake(d));
    BothDestroy(v, 0, 1, 0);
    Joined(s, Request(d), Overtake(d));
    Joined(s, Request(d) + Overtake(d), Both(0, 1, 0));
    hide Run, IsRun, Quiet, Request, Overtake, Both, Overtaken;
  }

  // --- What a caller can do ---------------------------------------------------------------

  /** The description that a thread is requesting. */
  function Wish(pc: Pc): Option<Description> {
    match pc
    case Scanning(key, _, _) => Some(key)
    case Hitting(key, _) => Some(key)
    case Missed(key) => Some(key)
    case _ => None
  }

  /** The discipline: an equal pipeline that is there is held by someone from before a request until after it. */
  ghost predicate Careful(s: State, a: Action)
    requires Enabled(s, a)
  {
    match a
    case Lookup(t, key) => forall id :: Answers(s.records, id, key) ==> s.held[id] > 0
    case Drop(t, id) => s.held[id] > 1 ||
      forall k :: 0 <= k < |s.threads| && Wish(s.threads[k]).Some? ==> !Matches(s.records[id].key, Wish(s.threads[k]).value)
    case _ => true
  }

  ghost predicate CarefulRun(s: State, actions: seq<Action>)
    requires IsRun(s, actions)
    decreases actions
  {
    actions == [] || (Careful(s, actions[0]) && CarefulRun(Next(s, actions[0]), actions[1..]))
  }

  /** What answers a request in progress is held. */
  ghost predicate Backed(s: State) {
    forall k, id :: 0 <= k < |s.threads| && Wish(s.threads[k]).Some? && Answers(s.records, id, Wish(s.threads[k]).value) ==>
      s.held[id] > 0
  }

  lemma CarefulIsNoRace(s: State, a: Action)
    requires Inv(s, true) && Backed(s) && Enabled(s, a) && Careful(s, a)
    ensures !Races(s, a)
  {
    match a {
      case Drop(t, id) => assert FactsOk(FactsOf(s, id), true);
      case Finish(t) =>
        assert FactsOk(FactsOf(s, s.threads[t].id), true);
        FactsMoved(s, t, Idle, s.threads[t].id);
      case _ =>
    }
    hide FactsOk, Matches, Deduplicated, Distinct, CensusOf;
  }

  /** No new request, no new answer, no holder less. */
  lemma StillBacked(s: State, u: State)
    requires Backed(s) && |u.threads| == |s.threads| && NoneNew(s.records, u.records)
    requires forall k :: 0 <= k < |s.threads| ==> Wish(u.threads[k]) == None || Wish(u.threads[k]) == Wish(s.threads[k])
    requires forall id :: s.held[id] <= u.held[id]
    ensures Backed(u)
  {
    hide Matches, Wish;
  }

  predicate IsWork(a: Action) {
    a.Begin? || a.Require? || a.Publish?
  }

  lemma WorkNotNewer(s: State, a: Action, x: Id)
    requires Enabled(s, a) && IsWork(a) && x in Next(s, a).records
    ensures x in s.records && Next(s, a).records[x].key == s.records[x].key
    ensures Next(s, a).records[x].refs == s.records[x].refs
  {
    hide Terminal;
  }

  lemma NotNewer(s: State, a: Action, x: Id)
    requires Enabled(s, a) && !a.Insert? && !a.Increment? && !IsWork(a) && (a.Retain? ==> Live(s.records, a.id))
    requires x in Next(s, a).records
    ensures x in s.records && Next(s, a).records[x].key == s.records[x].key
    ensures Next(s, a).records[x].refs > 0 ==> s.records[x].refs > 0
  {
    hide Removed, Answers, Staged;
  }

  lemma NoneNewer(s: State, a: Action)
    requires Enabled(s, a) && !a.Insert? && !a.Increment? && (a.Retain? ==> Live(s.records, a.id))
    ensures NoneNew(s.records, Next(s, a).records)
  {
    hide Next, Enabled;
    forall x | x in Next(s, a).records
      ensures x in s.records && Next(s, a).records[x].key == s.records[x].key
      ensures Next(s, a).records[x].refs > 0 ==> s.records[x].refs > 0
    {
      if IsWork(a) {
        WorkNotNewer(s, a, x);
      } else {
        NotNewer(s, a, x);
      }
    }
  }

  /** Whose action it is. */
  predicate ByThread(a: Action, k: nat) {
    !a.Retain? && a.t == k
  }

  lemma WorkStays(s: State, a: Action, k: nat)
    requires Enabled(s, a) && IsWork(a) && k < |s.threads| && !ByThread(a, k)
    ensures |Next(s, a).threads| == |s.threads| && Next(s, a).threads[k] == s.threads[k]
  {
    hide Terminal;
  }

  lemma RestStay(s: State, a: Action, k: nat)
    requires Enabled(s, a) && !IsWork(a) && k < |s.threads| && !ByThread(a, k)
    ensures |Next(s, a).threads| == |s.threads| && Next(s, a).threads[k] == s.threads[k]
  {
    hide Removed, Answers, Staged, Retained;
  }

  /** An action moves the thread that takes it, and no other. */
  lemma OthersStay(s: State, a: Action, k: nat)
    requires Enabled(s, a) && k < |s.threads| && !ByThread(a, k)
    ensures |Next(s, a).threads| == |s.threads| && Next(s, a).threads[k] == s.threads[k]
  {
    hide Next, Enabled;
    if IsWork(a) {
      WorkStays(s, a, k);
    } else {
      RestStay(s, a, k);
    }
  }

  lemma OwnWish(s: State, a: Action, k: nat)
    requires Enabled(s, a) && !a.Lookup? && k < |s.threads| && ByThread(a, k)
    ensures var u := Next(s, a);
      |u.threads| == |s.threads| && (Wish(u.threads[k]) == None || Wish(u.threads[k]) == Wish(s.threads[k]))
  {
    hide Removed, Answers, Terminal, Retained;
  }

  lemma OldWish(s: State, a: Action, k: nat)
    requires Enabled(s, a) && !a.Lookup? && k < |s.threads|
    ensures var u := Next(s, a);
      |u.threads| == |s.threads| && (Wish(u.threads[k]) == None || Wish(u.threads[k]) == Wish(s.threads[k]))
  {
    hide Next, Enabled, Wish;
    if ByThread(a, k) {
      OwnWish(s, a, k);
    } else {
      OthersStay(s, a, k);
    }
  }

  lemma NoneLess(s: State, a: Action)
    requires Enabled(s, a) && !a.Drop?
    ensures |Next(s, a).threads| == |s.threads| && forall id :: s.held[id] <= Next(s, a).held[id]
  {
    hide Removed, Answers, Terminal;
  }

  lemma NoNewWish(s: State, a: Action)
    requires Enabled(s, a) && !a.Lookup? && !a.Drop?
    ensures var u := Next(s, a);
      && |u.threads| == |s.threads| && (forall id :: s.held[id] <= u.held[id])
      && forall k :: 0 <= k < |s.threads| ==> Wish(u.threads[k]) == None || Wish(u.threads[k]) == Wish(s.threads[k])
  {
    NoneLess(s, a);
    hide Next, Enabled, Wish;
    forall k | 0 <= k < |s.threads|
      ensures Wish(Next(s, a).threads[k]) == None || Wish(Next(s, a).threads[k]) == Wish(s.threads[k])
    {
      OldWish(s, a, k);
    }
  }

  lemma NewBacked(s: State, t: nat, id: Id)
    requires Backed(s) && Enabled(s, Insert(t, id))
    ensures Backed(Next(s, Insert(t, id)))
  {
    hide Matches;
  }

  lemma IncrementBacked(s: State, t: nat)
    requires Backed(s) && Enabled(s, Increment(t))
    ensures Backed(Next(s, Increment(t)))
  {
    hide Matches;
  }

  lemma DropBacked(s: State, t: nat, id: Id)
    requires Backed(s) && Enabled(s, Drop(t, id)) && Careful(s, Drop(t, id))
    ensures Backed(Next(s, Drop(t, id)))
  {
    hide Matches;
  }

  lemma LookupBacked(s: State, t: nat, key: Description)
    requires Backed(s) && Enabled(s, Lookup(t, key)) && Careful(s, Lookup(t, key))
    ensures Backed(Next(s, Lookup(t, key)))
  {
    hide Matches;
  }

  lemma CarefulBacked(s: State, a: Action)
    requires Inv(s, true) && Backed(s) && Enabled(s, a) && Careful(s, a)
    ensures Backed(Next(s, a))
  {
    if a.Insert? {
      NewBacked(s, a.t, a.id);
    } else if a.Increment? {
      IncrementBacked(s, a.t);
    } else if a.Drop? {
      DropBacked(s, a.t, a.id);
    } else if a.Lookup? {
      LookupBacked(s, a.t, a.key);
    } else {
      if a.Retain? {
        HeldIsLive(s, a.id, true);
      }
      hide Inv, Next, Enabled, Backed, NoneNew, Wish;
      NoneNewer(s, a);
      NoNewWish(s, a);
      StillBacked(s, Next(s, a));
    }
  }

  /** Callers who keep to it never come to the race, whatever the worker and the other threads do. */
  lemma {:induction false} CarefulIsQuiet(s: State, actions: seq<Action>)
    requires Inv(s, true) && Backed(s) && IsRun(s, actions) && CarefulRun(s, actions)
    ensures Quiet(s, actions)
    decreases actions
  {
    hide Inv, Backed, Enabled, Next, Races, Careful;
    if actions != [] {
      CarefulIsNoRace(s, actions[0]);
      CarefulBacked(s, actions[0]);
      StepInv(s, actions[0], true);
      CarefulIsQuiet(Next(s, actions[0]), actions[1..]);
    }
  }

  /** So from a new device they see each record destroyed once at most. */
  lemma CarefulRunSafe(s: State, actions: seq<Action>, id: Id)
    requires Initial(s) && IsRun(s, actions) && CarefulRun(s, actions)
    ensures Run(s, actions).destroyed[id] <= 1
  {
    InitialInv(s);
    CarefulIsQuiet(s, actions);
    QuietRunSafe(s, actions, id);
    hide Run, IsRun, Quiet, CarefulRun, Inv;
  }

  // --- Stages -----------------------------------------------------------------------------

  function Rank(g: Stage): nat {
    match g case Queued => 0 case ProbingCache => 1 case Compiling => 2 case Ready => 3 case Failed => 3
  }

  predicate Advanced(g: Pipeline, h: Pipeline) {
    && g.key == h.key && Rank(g.stage) <= Rank(h.stage)
    && (Terminal(g.stage) ==> h.stage == g.stage && h.results == g.results)
  }

  /** Only the worker's actions touch more than a count. */
  lemma OthersKeepStage(s: State, a: Action, id: Id)
    requires Enabled(s, a) && !a.Begin? && !a.Require? && !a.Publish?
    requires id in s.records && id in Next(s, a).records
    ensures s.records[id] == Next(s, a).records[id].(refs := s.records[id].refs)
  {
    hide Removed, Matches, Staged;
  }

  lemma WorkerAdvances(s: State, t: nat, id: Id, stage: Stage, pc: Pc)
    requires FactsOk(FactsOf(s, id), false) && t < |s.threads| && id in s.records && Advances(s.threads[t], pc, id, stage)
    ensures Rank(s.records[id].stage) <= Rank(stage) && !Terminal(s.records[id].stage)
  {
    var f := FactsOf(s, id);
    FactsMoved(s, t, pc, id);
    hide CensusOf, FactsOf;
    assert f.census.taken + f.census.probing + f.census.building > 0;
  }

  /** Stages only move forward, and a terminal stage and its single result stay. */
  lemma StagesAdvance(s: State, a: Action, id: Id)
    requires Inv(s, false) && Enabled(s, a) && id in s.records && id in Next(s, a).records
    ensures Advanced(s.records[id], Next(s, a).records[id])
  {
    hide Removed, CensusOf, Deduplicated, LockOk, Distinct, FactsOk, FactsOf, Matches;
    assert FactsOk(FactsOf(s, id), false);
    if !a.Begin? && !a.Require? && !a.Publish? {
      OthersKeepStage(s, a, id);
    } else if s.threads[a.t].id == id {
      var pc := Next(s, a).threads[a.t];
      WorkerAdvances(s, a.t, id, Next(s, a).records[id].stage, pc);
    }
  }

  // --- Entry points with a NUL ------------------------------------------------------------

  /** A request whose entry points hold a NUL hits no record: stored entry points never compare equal to it. */
  lemma NulNeverHits(s: State, t: nat)
    requires Enabled(s, Scan(t)) && !NulFree(s.threads[t].key)
    ensures Next(s, Scan(t)).threads[t].Scanning?
  {
    MatchesSelf(s.records[s.list[s.threads[t].at]].key);
    hide NulFree;
  }

  /**
   * Where sharing fails: a description with a NUL in an entry point does not match its own stored key, so a
   * second request for it makes a second record.
   */
  lemma NulDuplicates(s: State, t: nat, id: Id, first: Id)
    requires Enabled(s, Insert(t, id)) && Live(s.records, first) && s.records[first].key == s.threads[t].key
    requires !NulFree(s.threads[t].key)
    ensures var u := Next(s, Insert(t, id));
      id != first && Live(u.records, first) && Live(u.records, id) && u.records[first].key == u.records[id].key
      && !Matches(u.records[first].key, s.threads[t].key)
  {
    MatchesSelf(s.threads[t].key);
    hide NulFree, Matches;
  }

  // A run from a new device that makes two records of one description.

  function FirstRecord(d: Description): seq<Action> {
    [Lookup(0, d)] + ([Leave(0)] + ([Relook(0)] + ([Insert(0, 0)] + [])))
  }

  function SecondRecord(d: Description): seq<Action> {
    [Lookup(1, d)] + ([Scan(1)] + ([Leave(1)] + ([Relook(1)] + ([Scan(1)] + ([Insert(1, 1)] + [])))))
  }

  /** One record, and another thread that is idle. */
  predicate Single(s: State, d: Description) {
    && |s.threads| >= 2 && s.threads[1] == Idle && s.lock == None && s.list == [0]
    && 0 in s.records && s.records[0].refs > 0 && s.records[0].key == d && 1 !in s.records && 1 !in s.destroyed
  }

  lemma FirstRecordRuns(s: State, d: Description)
    requires Initial(s) && |s.threads| >= 2
    ensures IsRun(s, FirstRecord(d)) && Single(Run(s, FirstRecord(d)), d)
  {
    hide Run, IsRun, Quiet, Matches;
    var s1 := Next(s, Lookup(0, d));
    var s2 := Next(s1, Leave(0));
    var s3 := Next(s2, Relook(0));
    var s4 := Next(s3, Insert(0, 0));
    assert Single(s4, d);
    hide Single;
    EmptyRun(s4);
    Prepend(s3, Insert(0, 0), []);
    Prepend(s2, Relook(0), [Insert(0, 0)] + []);
    Prepend(s1, Leave(0), [Relook(0)] + ([Insert(0, 0)] + []));
    Prepend(s, Lookup(0, d), [Leave(0)] + ([Relook(0)] + ([Insert(0, 0)] + [])));
  }

  /** A second region that passes over the record and inserts. */
  lemma SecondRegion(s: State, d: Description)
    requires |s.threads| >= 2 && s.threads[1] == Scanning(d, 0, true) && s.list == [0] && !NulFree(d)
    requires 0 in s.records && s.records[0].refs > 0 && s.records[0].key == d && 1 !in s.records && 1 !in s.destroyed
    ensures IsRun(s, [Scan(1)] + ([Insert(1, 1)] + []))
    ensures var u := Run(s, [Scan(1)] + ([Insert(1, 1)] + []));
      Live(u.records, 0) && Live(u.records, 1) && u.records[0].key == u.records[1].key == d
  {
    NulNeverHits(s, 1);
    hide Run, IsRun, Quiet, Matches, NulFree;
    var s1 := Next(s, Scan(1));
    EmptyRun(Next(s1, Insert(1, 1)));
    Prepend(s1, Insert(1, 1), []);
    Prepend(s, Scan(1), [Insert(1, 1)] + []);
  }

  lemma SecondRecordRuns(s: State, d: Description)
    requires Single(s, d) && !NulFree(d)
    ensures IsRun(s, SecondRecord(d))
    ensures var u := Run(s, SecondRecord(d));
      Live(u.records, 0) && Live(u.records, 1) && u.records[0].key == u.records[1].key == d
  {
    var s1 := Next(s, Lookup(1, d));
    NulNeverHits(s1, 1);
    hide Run, IsRun, Quiet, Matches, NulFree;
    var s2 := Next(s1, Scan(1));
    var s3 := Next(s2, Leave(1));
    var s4 := Next(s3, Relook(1));
    SecondRegion(s4, d);
    var rest := [Scan(1)] + ([Insert(1, 1)] + []);
    Prepend(s3, Relook(1), rest);
    Prepend(s2, Leave(1), [Relook(1)] + rest);
    Prepend(s1, Scan(1), [Leave(1)] + ([Relook(1)] + rest));
    Prepend(s, Lookup(1, d), [Scan(1)] + ([Leave(1)] + ([Relook(1)] + rest)));
  }

  /** From a new device with two threads: any description with a NUL in an entry point gets a second record. */
  lemma NulTwice(s: State, d: Description)
    requires Initial(s) && |s.threads| >= 2 && !NulFree(d)
    ensures var actions := FirstRecord(d) + SecondRecord(d);
      && IsRun(s, actions)
      && var u := Run(s, actions);
        Live(u.records, 0) && Live(u.records, 1) && u.records[0].key == u.records[1].key == d
  {
    hide Run, IsRun, Quiet, FirstRecord, SecondRecord, Single, NulFree;
    FirstRecordRuns(s, d);
    SecondRecordRuns(Run(s, FirstRecord(d)), d);
    Joined(s, FirstRecord(d), SecondRecord(d));
  }


  // --- Outcomes ---------------------------------------------------------------------------

  /** A worker's action on a record: it starts on the job, with or without probing the cache, or publishes a result. */
  datatype Event = Begins(probing: bool) | Publishes(ok: bool)

  predicate Does(s: State, a: Action, id: Id, e: Event)
    requires Enabled(s, a)
  {
    match e
    case Begins(probing) => a.Begin? && a.probing == probing && s.threads[a.t].id == id
    case Publishes(ok) => a.Publish? && a.ok == ok && s.threads[a.t].id == id
  }

  /** How often it happens in a run. */
  function Times(s: State, actions: seq<Action>, id: Id, e: Event): nat
    requires IsRun(s, actions)
    decreases actions
  {
    if actions == [] then 0
    else (if Does(s, actions[0], id, e) then 1 else 0) + Times(Next(s, actions[0]), actions[1..], id, e)
  }

  predicate InStage(s: State, id: Id, g: Stage) {
    id in s.records && s.records[id].stage == g
  }

  /** The record is in the stage at some moment of the run. */
  predicate Passes(s: State, actions: seq<Action>, id: Id, g: Stage)
    requires IsRun(s, actions)
    decreases actions
  {
    InStage(s, id, g) || (actions != [] && Passes(Next(s, actions[0]), actions[1..], id, g))
  }

  /** What brings a record into a stage. */
  function EventOf(g: Stage): Event
    requires g != Queued && g != Compiling
  {
    match g case ProbingCache => Begins(true) case Ready => Publishes(true) case Failed => Publishes(false)
  }

  lemma WorkStage(s: State, a: Action, id: Id, g: Stage)
    requires Enabled(s, a) && IsWork(a) && g != Queued && g != Compiling
    ensures InStage(Next(s, a), id, g) <==> Does(s, a, id, EventOf(g)) || (InStage(s, id, g) && s.threads[a.t].id != id)
  {
  }

  lemma RestStage(s: State, a: Action, id: Id, g: Stage)
    requires Enabled(s, a) && !IsWork(a) && g != Queued
    ensures InStage(Next(s, a), id, g) ==> InStage(s, id, g)
  {
    hide Removed, Answers, Staged;
  }

  /** A record comes into a stage by the worker's action only. */
  lemma StepStage(s: State, a: Action, id: Id, g: Stage)
    requires Enabled(s, a) && g != Queued && g != Compiling
    ensures InStage(Next(s, a), id, g) ==> Does(s, a, id, EventOf(g)) || InStage(s, id, g)
    ensures Does(s, a, id, EventOf(g)) ==> InStage(Next(s, a), id, g)
  {
    hide Next, Enabled, InStage;
    if IsWork(a) {
      WorkStage(s, a, id, g);
    } else {
      RestStage(s, a, id, g);
    }
  }

  /** A record passes a stage exactly if the run has the worker's action that brings it there. */
  lemma {:induction false} PassesExactly(s: State, actions: seq<Action>, id: Id, g: Stage)
    requires IsRun(s, actions) && g != Queued && g != Compiling
    ensures Passes(s, actions, id, g) <==> InStage(s, id, g) || Times(s, actions, id, EventOf(g)) > 0
    decreases actions
  {
    hide Enabled, Next, Does, InStage;
    if actions != [] {
      StepStage(s, actions[0], id, g);
      PassesExactly(Next(s, actions[0]), actions[1..], id, g);
    }
  }

  /** The worker is past an action on the record, so far as that it is not repeated. */
  predicate Past(s: State, id: Id, e: Event) {
    id in s.destroyed || (id in s.records && (if e.Begins? then s.records[id].stage != Queued else Terminal(s.records[id].stage)))
  }

  lemma NotPast(s: State, a: Action, id: Id, e: Event)
    requires Inv(s, false) && Enabled(s, a) && Does(s, a, id, e)
    ensures !Past(s, id, e) && id in s.records
  {
    var f := FactsOf(s, id);
    assert FactsOk(f, false);
    FactsMoved(s, a.t, Idle, id);
    hide Inv, CensusOf, FactsOf;
    assert e.Begins? ==> f.census.taken > 0;
    assert e.Publishes? ==> f.census.probing + f.census.building > 0;
  }

  lemma WorkPast(s: State, a: Action, id: Id, e: Event)
    requires Enabled(s, a) && IsWork(a) && (Past(s, id, e) || Does(s, a, id, e))
    requires id in s.records && s.threads[a.t].id == id ==> Advanced(s.records[id], Next(s, a).records[id])
    ensures Past(Next(s, a), id, e)
  {
  }

  lemma RestPast(s: State, a: Action, id: Id, e: Event)
    requires Enabled(s, a) && !IsWork(a) && Past(s, id, e) && (a.Insert? ==> a.id != id)
    ensures Past(Next(s, a), id, e)
  {
    hide Removed, Answers, Staged;
  }

  lemma StepPast(s: State, a: Action, id: Id, e: Event)
    requires Inv(s, false) && Enabled(s, a) && (Past(s, id, e) || Does(s, a, id, e))
    ensures Past(Next(s, a), id, e)
  {
    hide Inv, Next, Enabled;
    if IsWork(a) {
      if id in s.records {
        WorkKeepsRecord(s, a, id);
        StagesAdvance(s, a, id);
      }
      WorkPast(s, a, id, e);
    } else {
      InsertsNew(s, a, id);
      RestPast(s, a, id, e);
    }
  }

  lemma WorkKeepsRecord(s: State, a: Action, id: Id)
    requires Enabled(s, a) && IsWork(a) && id in s.records
    ensures id in Next(s, a).records
  {
  }

  lemma InsertsNew(s: State, a: Action, id: Id)
    requires Enabled(s, a) && (id in s.records || id in s.destroyed)
    ensures a.Insert? ==> a.id != id
  {
  }

  lemma {:induction false} NeverAgain(s: State, actions: seq<Action>, id: Id, e: Event, x: Event)
    requires Inv(s, false) && IsRun(s, actions) && Past(s, id, e) && e.Begins? == x.Begins?
    ensures Times(s, actions, id, x) == 0
    decreases actions
  {
    hide Inv, Enabled, Next, Does;
    if actions != [] {
      StepInv(s, actions[0], false);
      StepPast(s, actions[0], id, e);
      if Does(s, actions[0], id, x) {
        NotPast(s, actions[0], id, x);
      }
      NeverAgain(Next(s, actions[0]), actions[1..], id, e, x);
    }
  }

  /** A job is begun at most once, in one way, and a result published at most once, one result. */
  lemma {:induction false} OnceAtMost(s: State, actions: seq<Action>, id: Id, e: Event, x: Event)
    requires Inv(s, false) && IsRun(s, actions) && e != x && e.Begins? == x.Begins?
    ensures Times(s, actions, id, e) + Times(s, actions, id, x) <= 1
    decreases actions
  {
    hide Inv, Enabled, Next, Past;
    if actions != [] {
      var n, rest := Next(s, actions[0]), actions[1..];
      StepInv(s, actions[0], false);
      if Does(s, actions[0], id, e) || Does(s, actions[0], id, x) {
        var d := if Does(s, actions[0], id, e) then e else x;
        StepPast(s, actions[0], id, d);
        NeverAgain(n, rest, id, d, e);
        NeverAgain(n, rest, id, d, x);
      } else {
        OnceAtMost(n, rest, id, e, x);
      }
    }
  }

  lemma {:induction false} DestroyedStays(s: State, actions: seq<Action>, id: Id)
    requires Inv(s, false) && IsRun(s, actions) && id in s.destroyed
    ensures id !in Run(s, actions).records
    decreases actions
  {
    if actions != [] {
      DestroyedMore(s, actions[0], id);
      hide Inv, Enabled, Next;
      StepInv(s, actions[0], false);
      DestroyedStays(Next(s, actions[0]), actions[1..], id);
    } else {
      assert FactsOk(FactsOf(s, id), false);
    }
  }

  lemma DestroyedMore(s: State, a: Action, id: Id)
    requires Enabled(s, a) && id in s.destroyed
    ensures id in Next(s, a).destroyed
  {
    hide Removed, Answers, Terminal;
  }

  /** A terminal stage that a run passes is the stage at its end, as long as the record is there. */
  lemma {:induction false} TerminalStays(s: State, actions: seq<Action>, id: Id, g: Stage)
    requires Inv(s, false) && IsRun(s, actions) && Terminal(g) && id in Run(s, actions).records
    ensures InStage(Run(s, actions), id, g) <==> Passes(s, actions, id, g)
    decreases actions
  {
    hide Inv, Enabled, Next, Past;
    if actions != [] {
      var n, rest := Next(s, actions[0]), actions[1..];
      StepInv(s, actions[0], false);
      TerminalStays(n, rest, id, g);
      if InStage(s, id, g) {
        TerminalStep(s, actions[0], id, g);
        if id in n.destroyed {
          DestroyedStays(n, rest, id);
        }
        StartPasses(n, rest, id, g);
      }
    }
  }

  lemma StartPasses(s: State, actions: seq<Action>, id: Id, g: Stage)
    requires IsRun(s, actions) && InStage(s, id, g)
    ensures Passes(s, actions, id, g)
  {
  }

  lemma TerminalStep(s: State, a: Action, id: Id, g: Stage)
    requires Inv(s, false) && Enabled(s, a) && Terminal(g) && InStage(s, id, g)
    ensures InStage(Next(s, a), id, g) || id in Next(s, a).destroyed
  {
    hide Inv, Next, Enabled;
    StepPast(s, a, id, Publishes(true));
    if id in Next(s, a).records {
      StagesAdvance(s, a, id);
    }
  }

  /**
   * The outcome of a run, from a new device: a record that is there is ready if and only if the worker published a
   * success for it, once, and failed if and only if it published a failure, once; it never did both.
   */
  lemma OutcomeIs(s: State, actions: seq<Action>, id: Id)
    requires Initial(s) && IsRun(s, actions)
    ensures Times(s, actions, id, Publishes(true)) + Times(s, actions, id, Publishes(false)) <= 1
    ensures id in Run(s, actions).records ==>
      && (Run(s, actions).records[id].stage == Ready <==> Times(s, actions, id, Publishes(true)) == 1)
      && (Run(s, actions).records[id].stage == Failed <==> Times(s, actions, id, Publishes(false)) == 1)
  {
    InitialInv(s);
    Weaken(s);
    hide Inv, IsRun, Run, Times, Passes;
    OnceAtMost(s, actions, id, Publishes(true), Publishes(false));
    if id in Run(s, actions).records {
      PassesExactly(s, actions, id, Ready);
      PassesExactly(s, actions, id, Failed);
      TerminalStays(s, actions, id, Ready);
      TerminalStays(s, actions, id, Failed);
    }
  }

  /** A record probes the cache at some moment exactly if its job was begun with probing, and a job is begun once at most. */
  lemma ProbesExactly(s: State, actions: seq<Action>, id: Id)
    requires Initial(s) && IsRun(s, actions)
    ensures Times(s, actions, id, Begins(true)) + Times(s, actions, id, Begins(false)) <= 1
    ensures Passes(s, actions, id, ProbingCache) <==> Times(s, actions, id, Begins(true)) == 1
  {
    InitialInv(s);
    Weaken(s);
    hide Inv, IsRun, Times, Passes;
    OnceAtMost(s, actions, id, Begins(true), Begins(false));
    PassesExactly(s, actions, id, ProbingCache);
  }

  // --- The worker's queue -----------------------------------------------------------------

  /** The records whose jobs a run puts in the queue, in order. */
  function Enqueues(s: State, actions: seq<Action>): seq<Id>
    requires IsRun(s, actions)
    decreases actions
  {
    if actions == [] then []
    else (if actions[0].Enqueue? then [s.threads[actions[0].t].id] else []) + Enqueues(Next(s, actions[0]), actions[1..])
  }

  /** The records whose jobs the worker takes, in order: each as the thread that took it has it. */
  function Takes(s: State, actions: seq<Action>): seq<Id>
    requires IsRun(s, actions)
    decreases actions
  {
    if actions == [] then []
    else
      var n := Next(s, actions[0]);
      (if actions[0].Take? then [n.threads[actions[0].t].id] else []) + Takes(n, actions[1..])
  }

  lemma QueueStep(s: State, a: Action)
    requires Enabled(s, a)
    ensures a.Enqueue? ==> Next(s, a).queue == s.queue + [s.threads[a.t].id]
    ensures a.Take? ==> s.queue == [Next(s, a).threads[a.t].id] + Next(s, a).queue
    ensures !a.Enqueue? && !a.Take? ==> Next(s, a).queue == s.queue
  {
    hide Removed, Answers, Terminal;
  }

  lemma Chained(q: seq<Id>, put: seq<Id>, took: seq<Id>, mid: seq<Id>, puts: seq<Id>, takes: seq<Id>, left: seq<Id>)
    requires q + put == took + mid && mid + puts == takes + left
    ensures q + (put + puts) == (took + takes) + left
  {
    assert q + (put + puts) == (q + put) + puts;
    assert (took + mid) + puts == took + (mid + puts);
    assert took + (takes + left) == (took + takes) + left;
  }

  /** Jobs are taken in the order in which they were queued, and none is lost. */
  lemma {:induction false} TakenInOrder(s: State, actions: seq<Action>)
    requires IsRun(s, actions)
    ensures s.queue + Enqueues(s, actions) == Takes(s, actions) + Run(s, actions).queue
    decreases actions
  {
    if actions == [] {
      assert s.queue + [] == [] + s.queue;
    } else {
      QueueStep(s, actions[0]);
      ThreadThere(s, actions[0]);
      hide Next, Enabled;
      var n, rest := Next(s, actions[0]), actions[1..];
      TakenInOrder(n, rest);
      var put := if actions[0].Enqueue? then [s.threads[actions[0].t].id] else [];
      var took := if actions[0].Take? then [n.threads[actions[0].t].id] else [];
      assert s.queue + put == took + n.queue;
      Chained(s.queue, put, took, n.queue, Enqueues(n, rest), Takes(n, rest), Run(n, rest).queue);
    }
  }

  lemma ThreadThere(s: State, a: Action)
    requires Enabled(s, a)
    ensures a.Enqueue? ==> a.t < |s.threads| && s.threads[a.t].Inserted?
    ensures a.Take? ==> a.t < |Next(s, a).threads| && Next(s, a).threads[a.t].Taken?
  {
    hide Removed, Answers, Terminal;
  }
}
