/**
 * The asynchronous pipeline compiler under any interleaving (pipeline.cpp): requests, releases and the
 * worker advance one atomic action at a time. The map's lock is state: a lookup holds it while it walks the
 * map record by record and until it has taken its reference, and counts may change meanwhile.
 */
module PipelineDedup {
  import opened Bits

  // --- Descriptions -----------------------------------------------------------------------

  /**
   * A pipeline request: shader bytes and entry points, specialization data and (id, size) entries, and the
   * baked raster state field by field. For compute pipelines fragment and raster are empty.
   */
  datatype Description = Description(
    graphics: bool, vertex: seq<nat>, vertexEntry: string, fragment: seq<nat>, fragmentEntry: string,
    data: seq<nat>, entries: seq<(nat, nat)>, raster: seq<nat>)

  /** strlen: a stored entry point counts up to its first NUL only. */
  function Cut(s: string): string {
    if s == [] || s[0] == '\0' then [] else [s[0]] + Cut(s[1..])
  }

  /** The description that a stored key is compared, and compiled, as. */
  function Effective(key: Description): Description {
    key.(vertexEntry := Cut(key.vertexEntry), fragmentEntry := Cut(key.fragmentEntry))
  }

  /** graphics_key_equal and compute_key_equal: a stored key against a request. */
  predicate Matches(key: Description, request: Description) {
    Effective(key) == request
  }

  predicate NulFree(d: Description) {
    '\0' !in d.vertexEntry && '\0' !in d.fragmentEntry
  }

  lemma {:induction false} CutWhole(s: string)
    ensures Cut(s) == s <==> '\0' !in s
    ensures '\0' !in Cut(s)
  {
    if s != [] {
      CutWhole(s[1..]);
      assert s == [s[0]] + s[1..];
    }
  }

  /** A request matches its own stored key exactly when its entry points have no NUL in them. */
  lemma MatchesSelf(d: Description)
    ensures Matches(d, d) <==> NulFree(d)
    ensures NulFree(Effective(d))
  {
    CutWhole(d.vertexEntry);
    CutWhole(d.fragmentEntry);
  }

  /** entry_equal, a stored C string against a given one: the characters before its first NUL, or all of them, are exactly the given ones. */
  predicate SameEntry(stored: string, given: string) {
    given <= stored && '\0' !in given && (|given| < |stored| ==> stored[|given|] == '\0')
  }

  lemma {:induction false} CutIs(stored: string, given: string)
    ensures Cut(stored) == given <==> SameEntry(stored, given)
  {
    if stored == [] || stored[0] == '\0' {
      assert given != [] && given <= stored ==> given[0] == stored[0];
    } else if given != [] {
      CutIs(stored[1..], given[1..]);
      assert stored == [stored[0]] + stored[1..] && given == [given[0]] + given[1..];
      assert given <= stored <==> given[0] == stored[0] && given[1..] <= stored[1..];
    }
  }

  /** A stored key answers a request exactly when every member agrees, entry points as C strings. */
  lemma MatchesExactly(key: Description, request: Description)
    ensures Matches(key, request) <==>
      && key.graphics == request.graphics && key.vertex == request.vertex && key.fragment == request.fragment
      && SameEntry(key.vertexEntry, request.vertexEntry) && SameEntry(key.fragmentEntry, request.fragmentEntry)
      && key.data == request.data && key.entries == request.entries && key.raster == request.raster
    ensures NulFree(key) && NulFree(request) ==> (Matches(key, request) <==> key == request)
  {
    CutIs(key.vertexEntry, request.vertexEntry);
    CutIs(key.fragmentEntry, request.fragmentEntry);
    CutWhole(key.vertexEntry);
    CutWhole(key.fragmentEntry);
    hide SameEntry, Cut;
  }

  // --- Records, threads and actions -------------------------------------------------------

  type Id = nat

  datatype Stage = Queued | ProbingCache | Compiling | Ready | Failed

  /** `key` stands for the whole create description; `results` counts terminal results published. */
  datatype Pipeline = Pipeline(key: Description, refs: nat, stage: Stage, results: nat)

  /** Where a thread stands between two of its atomic actions. */
  datatype Pc =
    | Idle
    | Scanning(key: Description, at: nat, again: bool)   // lock held; the records before `at` did not answer
    | Hitting(key: Description, id: Id)   // lock held; the record passed both tests, the increment is yet to come
    | Missed(key: Description)            // the first region missed; the key is built outside the lock
    | Inserted(id: Id)        // the record is in the map, its job not in the queue yet
    | Taken(id: Id)           // the worker has the job
    | Probing(id: Id)
    | Building(id: Id)
    | Built(id: Id)           // a result is published, the worker's reference still held
    | Zeroed(id: Id)          // took the count to zero; lock and recheck come next
    | Destroying(id: Id)      // removed from the map; destroyed outside the lock

  datatype State = State(
    records: map<Id, Pipeline>, list: seq<Id>, queue: seq<Id>, threads: seq<Pc>, lock: Option<nat>,
    held: multiset<Id>, enqueued: multiset<Id>, destroyed: multiset<Id>)

  predicate InRegion(pc: Pc) {
    pc.Scanning? || pc.Hitting?
  }

  predicate Live(records: map<Id, Pipeline>, id: Id) {
    id in records && records[id].refs > 0
  }

  /** The two tests of a lookup, at one moment: a positive count and an equal key. */
  predicate Answers(records: map<Id, Pipeline>, id: Id, key: Description) {
    Live(records, id) && Matches(records[id].key, key)
  }

  /** The record that a lookup has tested and will take a reference to. */
  function Hit(s: State): Option<Id> {
    if s.lock.Some? && s.lock.value < |s.threads| && s.threads[s.lock.value].Hitting?
    then Some(s.threads[s.lock.value].id) else None
  }

  function Retained(s: State, id: Id): map<Id, Pipeline>
    requires id in s.records
  {
    s.records[id := s.records[id].(refs := s.records[id].refs + 1)]
  }

  /** The map's removal: the last record takes the place of the removed one. */
  function Removed(list: seq<Id>, id: Id): seq<Id> {
    if id !in list then list
    else
      var i := IndexOf(list, id);
      list[i := list[|list| - 1]][..|list| - 1]
  }

  function IndexOf(list: seq<Id>, id: Id): (i: nat)
    requires id in list
    ensures i < |list| && list[i] == id && id !in list[..i]
  {
    if list[0] == id then 0 else 1 + IndexOf(list[1..], id)
  }

  // --- Atomic actions ---------------------------------------------------------------------

  /**
   * Lookup and Relook enter the two locked regions of a request. Leave, Insert and Increment end one: the
   * last thing done inside and the unlock are one action. So are the recheck and the removal: at a count of
   * zero nobody else can change it.
   */
  datatype Action =
    | Lookup(t: nat, key: Description)
    | Scan(t: nat)
    | Increment(t: nat)
    | Leave(t: nat)
    | GiveUp(t: nat)
    | Relook(t: nat)
    | Insert(t: nat, id: Id)
    | Enqueue(t: nat)
    | Retain(id: Id)
    | Drop(t: nat, id: Id)
    | Recheck(t: nat)
    | Destroy(t: nat)
    | Take(t: nat)
    | Begin(t: nat, probing: bool)
    | Require(t: nat)
    | Publish(t: nat, ok: bool)
    | Finish(t: nat)

  /** Releases take no lock; a recheck does. A guard `id in s.records` says that the record is not freed. */
  predicate Enabled(s: State, a: Action) {
    match a
    case Lookup(t, key) => t < |s.threads| && s.threads[t].Idle? && s.lock == None
    case Scan(t) => t < |s.threads| && s.threads[t].Scanning? && s.threads[t].at < |s.list| && s.list[s.threads[t].at] in s.records
    case Increment(t) => t < |s.threads| && s.threads[t].Hitting? && s.threads[t].id in s.records
    case Leave(t) => t < |s.threads| && s.threads[t].Scanning? && s.threads[t].at >= |s.list| && !s.threads[t].again
    case GiveUp(t) => t < |s.threads| && s.threads[t].Missed?
    case Relook(t) => t < |s.threads| && s.threads[t].Missed? && s.lock == None
    case Insert(t, id) =>
      && t < |s.threads| && s.threads[t].Scanning? && s.threads[t].at >= |s.list| && s.threads[t].again
      && id !in s.records && id !in s.destroyed
    case Enqueue(t) => t < |s.threads| && s.threads[t].Inserted?
    case Retain(id) => id in s.held && id in s.records
    case Drop(t, id) => t < |s.threads| && s.threads[t].Idle? && id in s.held && id in s.records && s.records[id].refs > 0
    case Recheck(t) => t < |s.threads| && s.threads[t].Zeroed? && s.threads[t].id in s.records && s.lock == None
    case Destroy(t) => t < |s.threads| && s.threads[t].Destroying?
    case Take(t) => t < |s.threads| && s.threads[t].Idle? && s.queue != []
    case Begin(t, probing) => t < |s.threads| && s.threads[t].Taken? && s.threads[t].id in s.records
    case Require(t) => t < |s.threads| && s.threads[t].Probing? && s.threads[t].id in s.records
    case Publish(t, ok) => t < |s.threads| && (s.threads[t].Probing? || s.threads[t].Building?) && s.threads[t].id in s.records
    case Finish(t) => t < |s.threads| && s.threads[t].Built? && s.threads[t].id in s.records && s.records[s.threads[t].id].refs > 0
  }

  /** One reference less; who brings the count to zero goes on to recheck. */
  function Dropped(s: State, t: nat, id: Id, held: multiset<Id>): State
    requires t < |s.threads| && id in s.records && s.records[id].refs > 0
  {
    var rec := s.records[id].(refs := s.records[id].refs - 1);
    s.(records := s.records[id := rec], held := held, threads := s.threads[t := if rec.refs == 0 then Zeroed(id) else Idle])
  }

  function At(s: State, t: nat, pc: Pc): State
    requires t < |s.threads|
  {
    s.(threads := s.threads[t := pc])
  }

  function Staged(s: State, id: Id, stage: Stage, results: nat): State
    requires id in s.records
  {
    s.(records := s.records[id := s.records[id].(stage := stage, results := results)])
  }

  /** A new record: one reference for the user and one for the worker. */
  function WithNew(s: State, t: nat, id: Id, key: Description): State
    requires t < |s.threads|
  {
    At(s.(records := s.records[id := Pipeline(key, 2, Queued, 0)],
          list := s.list + [id], held := s.held + multiset{id}), t, Inserted(id))
  }

  function Next(s: State, a: Action): State
    requires Enabled(s, a)
  {
    match a
    case Lookup(t, key) => At(s.(lock := Some(t)), t, Scanning(key, 0, false))
    case Scan(t) =>
      var pc := s.threads[t];
      At(s, t, if Answers(s.records, s.list[pc.at], pc.key) then Hitting(pc.key, s.list[pc.at]) else pc.(at := pc.at + 1))
    case Increment(t) =>
      var id := s.threads[t].id;
      At(s.(records := Retained(s, id), held := s.held + multiset{id}, lock := None), t, Idle)
    case Leave(t) => At(s.(lock := None), t, Missed(s.threads[t].key))
    case GiveUp(t) => At(s, t, Idle)
    case Relook(t) => At(s.(lock := Some(t)), t, Scanning(s.threads[t].key, 0, true))
    case Insert(t, id) => WithNew(s.(lock := None), t, id, s.threads[t].key)
    case Enqueue(t) =>
      var id := s.threads[t].id;
      At(s.(queue := s.queue + [id], enqueued := s.enqueued + multiset{id}), t, Idle)
    case Retain(id) => s.(records := Retained(s, id), held := s.held + multiset{id})
    case Drop(t, id) => Dropped(s, t, id, s.held - multiset{id})
    case Recheck(t) =>
      var id := s.threads[t].id;
      if s.records[id].refs == 0 then At(s.(list := Removed(s.list, id)), t, Destroying(id)) else At(s, t, Idle)
    case Destroy(t) =>
      var id := s.threads[t].id;
      At(s.(records := s.records - {id}, destroyed := s.destroyed + multiset{id}), t, Idle)
    case Take(t) => At(s.(queue := s.queue[1..]), t, Taken(s.queue[0]))
    case Begin(t, probing) =>
      var id := s.threads[t].id;
      if probing then At(Staged(s, id, ProbingCache, s.records[id].results), t, Probing(id))
      else At(Staged(s, id, Compiling, s.records[id].results), t, Building(id))
    case Require(t) =>
      var id := s.threads[t].id;
      At(Staged(s, id, Compiling, s.records[id].results), t, Building(id))
    case Publish(t, ok) =>
      var id := s.threads[t].id;
      At(Staged(s, id, if ok then Ready else Failed, s.records[id].results + 1), t, Built(id))
    case Finish(t) => Dropped(s, t, s.threads[t].id, s.held)
  }

  /** The one harmful step: the last reference is dropped under a lookup that has tested the count already. */
  predicate Races(s: State, a: Action)
    requires Enabled(s, a)
  {
    match a
    case Drop(t, id) => s.records[id].refs == 1 && Hit(s) == Some(id)
    case Finish(t) => s.records[s.threads[t].id].refs == 1 && Hit(s) == Some(s.threads[t].id)
    case _ => false
  }

  // --- The invariant ----------------------------------------------------------------------

  /** How many jobs and threads are where, for one record. */
  datatype Census = Census(
    inserted: int, queued: int, taken: int, probing: int, building: int, built: int, zeroed: int, destroying: int)

  function CensusOf(threads: multiset<Pc>, queue: multiset<Id>, id: Id): Census {
    Census(threads[Inserted(id)], queue[id], threads[Taken(id)], threads[Probing(id)],
           threads[Building(id)], threads[Built(id)], threads[Zeroed(id)], threads[Destroying(id)])
  }

  /** One thread more, or fewer, in a place. */
  function Plus(c: Census, pc: Pc, id: Id, n: int): Census {
    match pc
    case Inserted(x) => if x == id then c.(inserted := c.inserted + n) else c
    case Taken(x) => if x == id then c.(taken := c.taken + n) else c
    case Probing(x) => if x == id then c.(probing := c.probing + n) else c
    case Building(x) => if x == id then c.(building := c.building + n) else c
    case Built(x) => if x == id then c.(built := c.built + n) else c
    case Zeroed(x) => if x == id then c.(zeroed := c.zeroed + n) else c
    case Destroying(x) => if x == id then c.(destroying := c.destroying + n) else c
    case _ => c
  }

  predicate Terminal(g: Stage) {
    g == Ready || g == Failed
  }

  /** The worker's references to a record, wherever its job is. */
  function Share(c: Census): int {
    c.inserted + c.queued + c.taken + c.probing + c.building + c.built
  }

  /** The stage a record is in, by where its job is. */
  predicate StageFits(g: Stage, c: Census) {
    if c.inserted + c.queued + c.taken > 0 then g == Queued
    else if c.probing > 0 then g == ProbingCache
    else if c.building > 0 then g == Compiling
    else Terminal(g)
  }

  predicate Natural(c: Census) {
    && c.inserted >= 0 && c.queued >= 0 && c.taken >= 0 && c.probing >= 0
    && c.building >= 0 && c.built >= 0 && c.zeroed >= 0 && c.destroying >= 0
  }

  /** What is known of one record: itself, its census, holders, times enqueued and destroyed, map membership. */
  datatype Facts = Facts(rec: Option<Pipeline>, census: Census, held: nat, enqueued: nat, destroyed: nat, listed: bool)

  /**
   * A record in being has an exact count, one job at most, one result exactly when its stage is terminal,
   * a thread about to recheck or destroy it when the count is zero, and is in the map until it is removed at
   * a count of zero. Nobody holds any other record, and no job names it.
   *
   * In a quiet run, one without a race, a record in being has one thread to destroy it exactly when its
   * count is zero, and a destroyed one was destroyed once and is named by no thread at all.
   */
  predicate FactsOk(f: Facts, quiet: bool) {
    match f.rec
    case Some(r) =>
      var c := f.census;
      && Natural(c) && r.refs == f.held + Share(c) && Share(c) <= 1
      && (r.refs == 0 ==> c.zeroed + c.destroying > 0) && (c.destroying > 0 ==> r.refs == 0)
      && (quiet ==> c.zeroed + c.destroying == if r.refs == 0 then 1 else 0)
      && StageFits(r.stage, c) && r.results == (if Terminal(r.stage) then 1 else 0)
      && f.destroyed == 0 && f.enqueued + c.inserted == 1 && (f.listed <==> c.destroying == 0)
    case None =>
      var c := f.census;
      && Natural(c) && f.held == 0 && Share(c) == 0 && (quiet || f.destroyed == 0 ==> c.zeroed + c.destroying == 0)
      && (quiet ==> f.destroyed <= 1) && f.enqueued == (if f.destroyed > 0 then 1 else 0) && !f.listed
  }

  function FactsOf(s: State, id: Id): Facts {
    Facts(if id in s.records then Some(s.records[id]) else None, CensusOf(multiset(s.threads), multiset(s.queue), id),
          s.held[id], s.enqueued[id], s.destroyed[id], id in s.list)
  }

  ghost predicate Distinct(list: seq<Id>) {
    forall i, j :: 0 <= i < j < |list| ==> list[i] != list[j]
  }

  /** What a thread inside the region knows of the map. */
  ghost predicate Knows(records: map<Id, Pipeline>, list: seq<Id>, pc: Pc) {
    match pc
    case Scanning(key, at, _) => at <= |list| && forall j :: 0 <= j < at ==> !Answers(records, list[j], key)
    case Hitting(key, id) => id in list && id in records && Matches(records[id].key, key)
    case _ => false
  }

  /** One thread at most is inside the region: the one that holds the lock. */
  ghost predicate LockOk(s: State) {
    && (forall t :: 0 <= t < |s.threads| && InRegion(s.threads[t]) ==> s.lock == Some(t))
    && (s.lock.Some? ==> s.lock.value < |s.threads| && Knows(s.records, s.list, s.threads[s.lock.value]))
  }

  /** A record with a count, or about to get one. */
  predicate Wanted(s: State, id: Id) {
    id in s.records && (s.records[id].refs > 0 || Hit(s) == Some(id))
  }

  /** Equal descriptions share a record: no two wanted records have equal (NUL-free) keys. */
  ghost predicate Deduplicated(s: State) {
    forall a, b :: Wanted(s, a) && Wanted(s, b) && a != b && NulFree(s.records[a].key) ==>
      s.records[a].key != s.records[b].key
  }

  /** The record under a lookup that has tested its count still has one. */
  predicate HitLive(s: State) {
    Hit(s).Some? ==> Live(s.records, Hit(s).value)
  }

  ghost predicate Inv(s: State, quiet: bool) {
    && (forall id :: FactsOk(FactsOf(s, id), quiet)) && Distinct(s.list) && LockOk(s) && Deduplicated(s)
    && (quiet ==> HitLive(s))
  }

  // --- One action at a time: the facts of one record --------------------------------------

  lemma CensusAdd(threads: multiset<Pc>, pc: Pc, queue: multiset<Id>, id: Id)
    ensures CensusOf(threads + multiset{pc}, queue, id) == Plus(CensusOf(threads, queue, id), pc, id, 1)
  {
  }

  lemma PlusMinus(c: Census, pc: Pc, id: Id)
    ensures Plus(Plus(c, pc, id, 1), pc, id, -1) == c
  {
  }

  lemma Moved(s: State, t: nat, pc: Pc, queue: multiset<Id>, id: Id)
    requires t < |s.threads|
    ensures CensusOf(multiset(s.threads[t := pc]), queue, id)
         == Plus(Plus(CensusOf(multiset(s.threads), queue, id), s.threads[t], id, -1), pc, id, 1)
    ensures Natural(Plus(CensusOf(multiset(s.threads), queue, id), s.threads[t], id, -1))
  {
    var from := s.threads[t];
    assert from in s.threads;
    var rest := multiset(s.threads) - multiset{from};
    assert rest + multiset{from} == multiset(s.threads);
    assert rest + multiset{pc} == multiset(s.threads[t := pc]);
    CensusAdd(rest, from, queue, id);
    CensusAdd(rest, pc, queue, id);
    PlusMinus(CensusOf(rest, queue, id), from, id);
    hide Plus;
  }

  /** Moving a thread changes nothing but the census. */
  lemma FactsMoved(s: State, t: nat, pc: Pc, x: Id)
    requires t < |s.threads|
    ensures var f := FactsOf(s, x);
      && FactsOf(At(s, t, pc), x) == f.(census := Plus(Plus(f.census, s.threads[t], x, -1), pc, x, 1))
      && Natural(Plus(f.census, s.threads[t], x, -1))
  {
    Moved(s, t, pc, multiset(s.queue), x);
    hide CensusOf, Plus;
  }

  predicate Bare(pc: Pc) {
    InRegion(pc) || pc.Idle? || pc.Missed?
  }

  /** A thread moves between places that no census counts. */
  lemma BareFacts(s: State, t: nat, pc: Pc, x: Id, quiet: bool)
    requires FactsOk(FactsOf(s, x), quiet) && t < |s.threads| && Bare(s.threads[t]) && Bare(pc)
    ensures FactsOk(FactsOf(At(s, t, pc), x), quiet)
  {
    FactsMoved(s, t, pc, x);
    hide FactsOk, FactsOf;
  }

  // Each of the following changes the facts of one record in one way.

  lemma RetainFacts(f: Facts, quiet: bool)
    requires FactsOk(f, quiet) && f.rec.Some? && f.listed && (quiet ==> f.rec.value.refs > 0)
    ensures var r := f.rec.value;
      FactsOk(f.(rec := Some(r.(refs := r.refs + 1)), held := f.held + 1), quiet)
  {
  }

  lemma InsertFacts(f: Facts, key: Description, quiet: bool)
    requires FactsOk(f, quiet) && f.rec == None && f.destroyed == 0
    ensures FactsOk(Facts(Some(Pipeline(key, 2, Queued, 0)), f.census.(inserted := f.census.inserted + 1),
                          f.held + 1, f.enqueued, 0, true), quiet)
  {
  }

  lemma EnqueueFacts(f: Facts, quiet: bool)
    requires FactsOk(f, quiet) && f.census.inserted > 0
    ensures f.rec.Some?
    ensures FactsOk(f.(census := f.census.(inserted := f.census.inserted - 1, queued := f.census.queued + 1),
                       enqueued := f.enqueued + 1), quiet)
  {
  }

  lemma TakeFacts(f: Facts, quiet: bool)
    requires FactsOk(f, quiet) && f.census.queued > 0
    ensures FactsOk(f.(census := f.census.(queued := f.census.queued - 1, taken := f.census.taken + 1)), quiet)
  {
  }

  lemma DropFacts(f: Facts, quiet: bool)
    requires FactsOk(f, quiet) && f.rec.Some? && f.rec.value.refs > 0 && f.held > 0
    ensures var r := f.rec.value.(refs := f.rec.value.refs - 1);
      FactsOk(f.(rec := Some(r), held := f.held - 1,
                 census := f.census.(zeroed := f.census.zeroed + if r.refs == 0 then 1 else 0)), quiet)
  {
  }

  lemma FinishFacts(f: Facts, quiet: bool)
    requires FactsOk(f, quiet) && f.rec.Some? && f.rec.value.refs > 0 && f.census.built > 0
    ensures var r := f.rec.value.(refs := f.rec.value.refs - 1);
      FactsOk(f.(rec := Some(r), census := f.census.(
        built := f.census.built - 1, zeroed := f.census.zeroed + if r.refs == 0 then 1 else 0)), quiet)
  {
  }

  /** A recheck at zero removes the record; one that sees a count leaves it, which no quiet run comes to. */
  lemma RecheckFacts(f: Facts, quiet: bool)
    requires FactsOk(f, quiet) && f.rec.Some? && f.census.zeroed > 0
    ensures quiet ==> f.rec.value.refs == 0 && f.listed
    ensures f.rec.value.refs == 0 ==>
      FactsOk(f.(census := f.census.(zeroed := f.census.zeroed - 1, destroying := f.census.destroying + 1),
                 listed := false), quiet)
    ensures f.rec.value.refs > 0 ==> FactsOk(f.(census := f.census.(zeroed := f.census.zeroed - 1)), quiet)
  {
  }

  lemma DestroyFacts(f: Facts, quiet: bool)
    requires FactsOk(f, quiet) && f.census.destroying > 0
    ensures f.rec.Some? ==> !f.listed
    ensures FactsOk(f.(rec := None, census := f.census.(destroying := f.census.destroying - 1), destroyed := f.destroyed + 1),
                    quiet)
  {
  }

  /** What the worker may do next with a record, and the stage it publishes. */
  predicate Advances(from: Pc, to: Pc, id: Id, stage: Stage) {
    || (from == Taken(id) && stage == ProbingCache && to == Probing(id))
    || (from == Taken(id) && stage == Compiling && to == Building(id))
    || (from == Probing(id) && stage == Compiling && to == Building(id))
    || ((from == Probing(id) || from == Building(id)) && Terminal(stage) && to == Built(id))
  }

  lemma StageFacts(f: Facts, from: Pc, to: Pc, id: Id, stage: Stage, quiet: bool)
    requires FactsOk(f, quiet) && f.rec.Some? && Advances(from, to, id, stage) && Natural(Plus(f.census, from, id, -1))
    ensures var r := f.rec.value;
      FactsOk(f.(rec := Some(r.(stage := stage, results := if Terminal(stage) then r.results + 1 else r.results)),
                 census := Plus(Plus(f.census, from, id, -1), to, id, 1)), quiet)
  {
  }

  // --- One action at a time: what is not of one record ------------------------------------

  /**
   * From s to u something happened beside the region: the lock and the map stayed, no thread entered or
   * left, no record came or got its key or a count, and none went that is in the map.
   */
  ghost predicate Beside(s: State, u: State) {
    && u.lock == s.lock && u.list == s.list && |u.threads| == |s.threads|
    && (forall k :: 0 <= k < |s.threads| ==>
         u.threads[k] == s.threads[k] || (!InRegion(s.threads[k]) && !InRegion(u.threads[k])))
    && NoneNew(s.records, u.records) && (forall x :: x in s.list && x in s.records ==> x in u.records)
  }

  ghost predicate NoneNew(before: map<Id, Pipeline>, after: map<Id, Pipeline>) {
    forall x :: x in after ==>
      x in before && after[x].key == before[x].key && (after[x].refs > 0 ==> before[x].refs > 0)
  }

  lemma SameHit(s: State, u: State)
    requires Beside(s, u)
    ensures Hit(u) == Hit(s)
  {
  }

  lemma BesideLock(s: State, u: State)
    requires LockOk(s) && Beside(s, u)
    ensures LockOk(u)
  {
    hide Matches;
    if s.lock.Some? {
      assert u.threads[s.lock.value] == s.threads[s.lock.value];
      KnowsStill(s.records, u.records, s.list, s.threads[s.lock.value]);
    }
    hide Knows;
  }

  lemma KnowsStill(before: map<Id, Pipeline>, after: map<Id, Pipeline>, list: seq<Id>, pc: Pc)
    requires Knows(before, list, pc) && NoneNew(before, after)
    requires forall x :: x in list && x in before ==> x in after
    ensures Knows(after, list, pc)
  {
    hide Matches;
  }

  /** Fewer wanted records with the same keys. */
  lemma FewerWanted(s: State, u: State)
    requires Deduplicated(s) && forall x :: Wanted(u, x) ==> Wanted(s, x) && u.records[x].key == s.records[x].key
    ensures Deduplicated(u)
  {
    hide NulFree, Wanted;
  }

  /** All of the invariant but the facts, after something beside the region. */
  lemma BesideInv(s: State, u: State, quiet: bool)
    requires Inv(s, quiet) && Beside(s, u)
    requires quiet && Hit(s).Some? ==> Live(u.records, Hit(s).value)
    ensures Distinct(u.list) && LockOk(u) && Deduplicated(u) && (quiet ==> HitLive(u))
  {
    SameHit(s, u);
    BesideLock(s, u);
    FewerWanted(s, u);
    hide LockOk, Deduplicated, FactsOk, FactsOf, Hit;
  }

  /** The record a lookup is about to take keeps its count. */
  lemma HitStays(s: State, u: State, quiet: bool)
    requires Inv(s, quiet)
    requires forall x :: Live(s.records, x) && x in s.list ==> Live(u.records, x)
    ensures quiet && Hit(s).Some? ==> Live(u.records, Hit(s).value)
  {
    if quiet && Hit(s).Some? {
      assert Hit(s).value in s.list;
    }
    hide FactsOk, FactsOf, Deduplicated, Matches;
  }

  // --- Actions beside the region ----------------------------------------------------------

  lemma HeldIsLive(s: State, id: Id, quiet: bool)
    requires Inv(s, quiet) && id in s.held
    ensures Live(s.records, id) && id in s.list
  {
    assert FactsOk(FactsOf(s, id), quiet);
  }

  function RetainedAt(s: State, id: Id): State
    requires id in s.records
  {
    s.(records := Retained(s, id), held := s.held + multiset{id})
  }

  lemma RetainedFacts(s: State, id: Id, x: Id, quiet: bool)
    requires FactsOk(FactsOf(s, x), quiet) && id in s.records && id in s.list && (quiet ==> Live(s.records, id))
    ensures FactsOk(FactsOf(RetainedAt(s, id), x), quiet)
  {
    hide CensusOf, FactsOk;
    if x == id {
      RetainFacts(FactsOf(s, id), quiet);
    } else {
      assert FactsOf(RetainedAt(s, id), x) == FactsOf(s, x);
    }
  }

  lemma RetainInv(s: State, id: Id, quiet: bool)
    requires Inv(s, quiet) && Enabled(s, Retain(id))
    ensures Inv(RetainedAt(s, id), quiet)
  {
    var u := RetainedAt(s, id);
    HeldIsLive(s, id, quiet);
    HitStays(s, u, quiet);
    BesideInv(s, u, quiet);
    hide FactsOk, FactsOf, Deduplicated, Distinct, LockOk;
    forall x
      ensures FactsOk(FactsOf(u, x), quiet)
    {
      assert FactsOk(FactsOf(s, x), quiet);
      RetainedFacts(s, id, x, quiet);
    }
  }

  lemma GiveUpInv(s: State, t: nat, quiet: bool)
    requires Inv(s, quiet) && Enabled(s, GiveUp(t))
    ensures Inv(At(s, t, Idle), quiet)
  {
    var u := At(s, t, Idle);
    HitStays(s, u, quiet);
    BesideInv(s, u, quiet);
    hide FactsOk, FactsOf, Deduplicated, Distinct, LockOk;
    forall x
      ensures FactsOk(FactsOf(u, x), quiet)
    {
      assert FactsOk(FactsOf(s, x), quiet);
      BareFacts(s, t, Idle, x, quiet);
    }
  }

  lemma QueuedMore(threads: multiset<Pc>, queue: seq<Id>, id: Id, x: Id)
    ensures var c := CensusOf(threads, multiset(queue), x);
      CensusOf(threads, multiset(queue + [id]), x) == c.(queued := c.queued + if x == id then 1 else 0)
    ensures var c := CensusOf(threads, multiset(queue), x);
      queue != [] ==>
        CensusOf(threads, multiset(queue[1..]), x) == c.(queued := c.queued - if x == queue[0] then 1 else 0)
  {
    if queue != [] {
      assert queue == [queue[0]] + queue[1..];
    }
  }

  lemma EnqueuedChange(s: State, t: nat, x: Id)
    requires Enabled(s, Enqueue(t))
    ensures var f, c := FactsOf(s, x), CensusOf(multiset(s.threads), multiset(s.queue), x);
      FactsOf(Next(s, Enqueue(t)), x) ==
        if x == s.threads[t].id
        then f.(census := c.(inserted := c.inserted - 1, queued := c.queued + 1), enqueued := f.enqueued + 1) else f
  {
    hide CensusOf;
    var id := s.threads[t].id;
    FactsMoved(s.(queue := s.queue + [id], enqueued := s.enqueued + multiset{id}), t, Idle, x);
    QueuedMore(multiset(s.threads), s.queue, id, x);
  }

  lemma Counted(s: State, t: nat)
    requires t < |s.threads| && s.threads[t].Inserted?
    ensures FactsOf(s, s.threads[t].id).census.inserted > 0
  {
    assert s.threads[t] in multiset(s.threads);
  }

  lemma EnqueuedFacts(s: State, t: nat, x: Id, quiet: bool)
    requires FactsOk(FactsOf(s, x), quiet) && Enabled(s, Enqueue(t))
    ensures FactsOk(FactsOf(Next(s, Enqueue(t)), x), quiet)
  {
    hide FactsOk, CensusOf;
    EnqueuedChange(s, t, x);
    hide Next;
    if x == s.threads[t].id {
      Counted(s, t);
      EnqueueFacts(FactsOf(s, x), quiet);
    }
  }

  lemma EnqueueInv(s: State, t: nat, quiet: bool)
    requires Inv(s, quiet) && Enabled(s, Enqueue(t))
    ensures Inv(Next(s, Enqueue(t)), quiet)
  {
    var u := Next(s, Enqueue(t));
    HitStays(s, u, quiet);
    BesideInv(s, u, quiet);
    hide FactsOk, FactsOf, Deduplicated, Distinct, LockOk;
    forall x
      ensures FactsOk(FactsOf(u, x), quiet)
    {
      assert FactsOk(FactsOf(s, x), quiet);
      EnqueuedFacts(s, t, x, quiet);
    }
  }

  lemma TakenFacts(s: State, t: nat, x: Id, quiet: bool)
    requires FactsOk(FactsOf(s, x), quiet) && Enabled(s, Take(t))
    ensures FactsOk(FactsOf(Next(s, Take(t)), x), quiet)
  {
    hide FactsOk, CensusOf;
    var id, f, g := s.queue[0], FactsOf(s, x), FactsOf(Next(s, Take(t)), x);
    FactsMoved(s.(queue := s.queue[1..]), t, Taken(id), x);
    QueuedMore(multiset(s.threads), s.queue, id, x);
    if x == id {
      InQueue(multiset(s.threads), s.queue);
      TakeFacts(f, quiet);
    } else {
      assert g == f;
    }
  }

  lemma InQueue(threads: multiset<Pc>, queue: seq<Id>)
    requires queue != []
    ensures CensusOf(threads, multiset(queue), queue[0]).queued > 0
  {
  }

  lemma TakeInv(s: State, t: nat, quiet: bool)
    requires Inv(s, quiet) && Enabled(s, Take(t))
    ensures Inv(Next(s, Take(t)), quiet)
  {
    var u := Next(s, Take(t));
    HitStays(s, u, quiet);
    BesideInv(s, u, quiet);
    hide FactsOk, FactsOf, Deduplicated, Distinct, LockOk;
    forall x
      ensures FactsOk(FactsOf(u, x), quiet)
    {
      assert FactsOk(FactsOf(s, x), quiet);
      TakenFacts(s, t, x, quiet);
    }
  }

  /** The reference given up was a holder's, or the worker's own after its result. */
  predicate Owns(s: State, t: nat, id: Id, held: multiset<Id>)
    requires t < |s.threads|
  {
    match s.threads[t]
    case Idle => id in s.held && held == s.held - multiset{id}
    case pc => pc == Built(id) && held == s.held
  }

  lemma DroppedFacts(s: State, t: nat, id: Id, held: multiset<Id>, x: Id, quiet: bool)
    requires FactsOk(FactsOf(s, x), quiet) && t < |s.threads| && Live(s.records, id) && Owns(s, t, id, held)
    ensures FactsOk(FactsOf(Dropped(s, t, id, held), x), quiet)
  {
    hide FactsOk, CensusOf;
    var u := Dropped(s, t, id, held);
    var f, g, pc := FactsOf(s, x), FactsOf(u, x), u.threads[t];
    FactsMoved(s.(records := u.records, held := held), t, pc, x);
    FactsMoved(s, t, pc, x);
    if x != id {
      assert g == f;
    } else if s.threads[t].Idle? {
      DropFacts(f, quiet);
    } else {
      FinishFacts(f, quiet);
    }
  }

  lemma DroppedBeside(s: State, t: nat, id: Id, held: multiset<Id>)
    requires t < |s.threads| && Live(s.records, id) && Owns(s, t, id, held)
    ensures Beside(s, Dropped(s, t, id, held))
    ensures forall x :: Live(s.records, x) && (x == id ==> s.records[x].refs > 1) ==> Live(Dropped(s, t, id, held).records, x)
  {
  }

  /** A drop keeps what holds in any run; what holds in quiet ones, unless it is the race. */
  lemma DroppedInv(s: State, t: nat, id: Id, held: multiset<Id>, quiet: bool)
    requires Inv(s, quiet) && t < |s.threads| && Live(s.records, id) && Owns(s, t, id, held)
    requires quiet ==> s.records[id].refs > 1 || Hit(s) != Some(id)
    ensures Inv(Dropped(s, t, id, held), quiet)
  {
    hide FactsOk, FactsOf, Deduplicated, Distinct, LockOk, Hit, Beside, Dropped;
    var u := Dropped(s, t, id, held);
    DroppedBeside(s, t, id, held);
    BesideInv(s, u, quiet);
    forall x
      ensures FactsOk(FactsOf(u, x), quiet)
    {
      assert FactsOk(FactsOf(s, x), quiet);
      DroppedFacts(s, t, id, held, x, quiet);
    }
  }

  function Published(s: State, t: nat, id: Id, stage: Stage, pc: Pc): State
    requires t < |s.threads| && id in s.records
  {
    var r := s.records[id];
    At(Staged(s, id, stage, if Terminal(stage) then r.results + 1 else r.results), t, pc)
  }

  lemma StagedFacts(s: State, t: nat, id: Id, stage: Stage, pc: Pc, x: Id, quiet: bool)
    requires FactsOk(FactsOf(s, x), quiet) && t < |s.threads| && id in s.records && Advances(s.threads[t], pc, id, stage)
    ensures FactsOk(FactsOf(Published(s, t, id, stage, pc), x), quiet)
  {
    hide FactsOk, CensusOf;
    var u := Published(s, t, id, stage, pc);
    var f, g := FactsOf(s, x), FactsOf(u, x);
    FactsMoved(s.(records := u.records), t, pc, x);
    FactsMoved(s, t, pc, x);
    if x == id {
      StageFacts(f, s.threads[t], pc, id, stage, quiet);
    } else {
      assert g == f;
    }
  }

  lemma StagedInv(s: State, t: nat, id: Id, stage: Stage, pc: Pc, quiet: bool)
    requires Inv(s, quiet) && t < |s.threads| && id in s.records && Advances(s.threads[t], pc, id, stage)
    ensures Inv(Published(s, t, id, stage, pc), quiet)
  {
    var u := Published(s, t, id, stage, pc);
    PublishedBeside(s, t, id, stage, pc);
    HitStays(s, u, quiet);
    BesideInv(s, u, quiet);
    hide FactsOk, FactsOf, Deduplicated, Distinct, LockOk, Advances, Published;
    forall x
      ensures FactsOk(FactsOf(u, x), quiet)
    {
      assert FactsOk(FactsOf(s, x), quiet);
      StagedFacts(s, t, id, stage, pc, x, quiet);
    }
  }

  lemma PublishedBeside(s: State, t: nat, id: Id, stage: Stage, pc: Pc)
    requires t < |s.threads| && id in s.records && Advances(s.threads[t], pc, id, stage)
    ensures Beside(s, Published(s, t, id, stage, pc))
    ensures forall x :: Live(s.records, x) ==> Live(Published(s, t, id, stage, pc).records, x)
  {
  }

  lemma DestroyedFacts(s: State, t: nat, x: Id, quiet: bool)
    requires Enabled(s, Destroy(t)) && FactsOk(FactsOf(s, x), quiet)
    ensures FactsOk(FactsOf(Next(s, Destroy(t)), x), quiet)
    ensures x == s.threads[t].id && x in s.records ==> x !in s.list
  {
    hide FactsOk, CensusOf;
    var id, u := s.threads[t].id, Next(s, Destroy(t));
    var f, g := FactsOf(s, x), FactsOf(u, x);
    FactsMoved(s.(records := u.records, destroyed := u.destroyed), t, Idle, x);
    FactsMoved(s, t, Idle, x);
    if x == id {
      DestroyFacts(f, quiet);
    } else {
      assert g == f;
    }
  }

  lemma DestroyBeside(s: State, t: nat, quiet: bool)
    requires Inv(s, quiet) && Enabled(s, Destroy(t))
    ensures Beside(s, Next(s, Destroy(t)))
    ensures forall x :: x in s.list && Live(s.records, x) ==> Live(Next(s, Destroy(t)).records, x)
  {
    hide FactsOk, FactsOf, CensusOf, Deduplicated, Distinct, LockOk, Hit;
    assert FactsOk(FactsOf(s, s.threads[t].id), quiet);
    DestroyedFacts(s, t, s.threads[t].id, quiet);
  }

  lemma DestroyInv(s: State, t: nat, quiet: bool)
    requires Inv(s, quiet) && Enabled(s, Destroy(t))
    ensures Inv(Next(s, Destroy(t)), quiet)
  {
    var u := Next(s, Destroy(t));
    DestroyBeside(s, t, quiet);
    HitStays(s, u, quiet);
    BesideInv(s, u, quiet);
    hide FactsOk, FactsOf, CensusOf, Deduplicated, Distinct, LockOk, Beside;
    forall x
      ensures FactsOk(FactsOf(u, x), quiet)
    {
      assert FactsOk(FactsOf(s, x), quiet);
      DestroyedFacts(s, t, x, quiet);
    }
  }

  // --- The locked regions -----------------------------------------------------------------

  lemma RemovedKeeps(list: seq<Id>, id: Id)
    requires Distinct(list)
    ensures Distinct(Removed(list, id)) && forall x :: x in Removed(list, id) <==> x in list && x != id
  {
    if id in list {
      var i, last := IndexOf(list, id), |list| - 1;
      var r := Removed(list, id);
      forall x | x in list && x != id
        ensures x in r
      {
        var k :| 0 <= k < |list| && list[k] == x;
        assert r[if k == last then i else k] == x;
      }
    }
  }

  lemma RecheckedFacts(s: State, t: nat, x: Id, quiet: bool)
    requires Enabled(s, Recheck(t)) && FactsOk(FactsOf(s, x), quiet)
    requires forall y :: y in Removed(s.list, s.threads[t].id) <==> y in s.list && y != s.threads[t].id
    ensures FactsOk(FactsOf(Next(s, Recheck(t)), x), quiet)
  {
    hide FactsOk, CensusOf, Removed;
    var id, u := s.threads[t].id, Next(s, Recheck(t));
    var f, g, pc := FactsOf(s, x), FactsOf(u, x), u.threads[t];
    FactsMoved(s.(list := u.list), t, pc, x);
    FactsMoved(s, t, pc, x);
    if x == id {
      RecheckFacts(f, quiet);
    } else {
      assert g == f;
    }
  }

  lemma RecheckInv(s: State, t: nat, quiet: bool)
    requires Inv(s, quiet) && Enabled(s, Recheck(t))
    ensures Inv(Next(s, Recheck(t)), quiet)
  {
    var id, u := s.threads[t].id, Next(s, Recheck(t));
    RemovedKeeps(s.list, id);
    hide FactsOk, FactsOf, CensusOf, Distinct, Removed, Knows;
    FewerWanted(s, u);
    forall x
      ensures FactsOk(FactsOf(u, x), quiet)
    {
      assert FactsOk(FactsOf(s, x), quiet);
      RecheckedFacts(s, t, x, quiet);
    }
    hide Deduplicated;
  }

  /** Entering a region: nothing is known yet. */
  lemma EnterInv(s: State, t: nat, key: Description, again: bool, quiet: bool)
    requires Inv(s, quiet) && t < |s.threads| && (s.threads[t].Idle? || s.threads[t].Missed?) && s.lock == None
    ensures Inv(At(s.(lock := Some(t)), t, Scanning(key, 0, again)), quiet)
  {
    var u := At(s.(lock := Some(t)), t, Scanning(key, 0, again));
    hide FactsOk, FactsOf, Distinct, Matches;
    FewerWanted(s, u);
    hide Deduplicated;
    forall x
      ensures FactsOk(FactsOf(u, x), quiet)
    {
      assert FactsOk(FactsOf(s, x), quiet);
      BareFacts(s, t, Scanning(key, 0, again), x, quiet);
      SameFacts(At(s, t, Scanning(key, 0, again)), u, x);
    }
  }

  /** The lock is not among the facts. */
  lemma SameFacts(s: State, u: State, x: Id)
    requires u == s.(lock := u.lock)
    ensures FactsOf(s, x) == FactsOf(u, x)
  {
  }

  /** Leaving it without a record. */
  lemma LeaveInv(s: State, t: nat, quiet: bool)
    requires Inv(s, quiet) && Enabled(s, Leave(t))
    ensures Inv(Next(s, Leave(t)), quiet)
  {
    var u := Next(s, Leave(t));
    hide FactsOk, FactsOf, Distinct, Matches;
    FewerWanted(s, u);
    hide Deduplicated, Knows;
    forall x
      ensures FactsOk(FactsOf(u, x), quiet)
    {
      assert FactsOk(FactsOf(s, x), quiet);
      BareFacts(s, t, Missed(s.threads[t].key), x, quiet);
      SameFacts(At(s, t, Missed(s.threads[t].key)), u, x);
    }
  }

  /** One record further: a hit was live when it was tested. */
  lemma ScanInv(s: State, t: nat, quiet: bool)
    requires Inv(s, quiet) && Enabled(s, Scan(t))
    ensures Inv(Next(s, Scan(t)), quiet)
  {
    var u := Next(s, Scan(t));
    ScanKnows(s, t);
    hide FactsOk, FactsOf, Distinct, Matches, Knows;
    FewerWanted(s, u);
    hide Deduplicated;
    forall x
      ensures FactsOk(FactsOf(u, x), quiet)
    {
      assert FactsOk(FactsOf(s, x), quiet);
      BareFacts(s, t, u.threads[t], x, quiet);
    }
  }

  lemma ScanKnows(s: State, t: nat)
    requires LockOk(s) && Enabled(s, Scan(t))
    ensures Knows(s.records, s.list, Next(s, Scan(t)).threads[t])
  {
    hide Matches;
  }

  /** The increment and the unlock: the record was wanted before, whatever its count is by now. */
  lemma IncrementInv(s: State, t: nat, quiet: bool)
    requires Inv(s, quiet) && Enabled(s, Increment(t))
    ensures Inv(Next(s, Increment(t)), quiet)
  {
    var u, id := Next(s, Increment(t)), s.threads[t].id;
    assert Hit(s) == Some(id) && id in s.list;
    hide FactsOk, FactsOf, Distinct, Matches, Knows;
    FewerWanted(s, u);
    hide Deduplicated;
    var v := RetainedAt(s, id);
    forall x
      ensures FactsOk(FactsOf(u, x), quiet)
    {
      assert FactsOk(FactsOf(s, x), quiet);
      RetainedFacts(s, id, x, quiet);
      BareFacts(v, t, Idle, x, quiet);
      SameFacts(At(v, t, Idle), u, x);
    }
  }

  lemma NewRecordFacts(s: State, t: nat, id: Id, key: Description, x: Id, quiet: bool)
    requires FactsOk(FactsOf(s, x), quiet) && t < |s.threads| && Bare(s.threads[t]) && id !in s.records && id !in s.destroyed
    ensures FactsOk(FactsOf(WithNew(s, t, id, key), x), quiet)
  {
    hide FactsOk, CensusOf;
    var u := WithNew(s, t, id, key);
    var f, g := FactsOf(s, x), FactsOf(u, x);
    FactsMoved(s.(records := u.records, list := u.list, held := u.held), t, Inserted(id), x);
    if x == id {
      InsertFacts(f, key, quiet);
    } else {
      assert g == f;
    }
  }

  /** A scan that came to the end: no live record answers. */
  lemma MissIs(s: State, t: nat, quiet: bool)
    requires Inv(s, quiet) && t < |s.threads| && s.threads[t].Scanning? && s.threads[t].at >= |s.list|
    ensures forall x :: !Answers(s.records, x, s.threads[t].key)
  {
    forall x | Live(s.records, x)
      ensures x in s.list
    {
      assert FactsOk(FactsOf(s, x), quiet);
    }
    hide FactsOk, Deduplicated, Matches;
  }

  lemma NewListed(s: State, t: nat, id: Id, quiet: bool)
    requires Inv(s, quiet) && Enabled(s, Insert(t, id))
    ensures Distinct(Next(s, Insert(t, id)).list)
  {
    hide Deduplicated, LockOk, CensusOf, Matches, HitLive;
    assert FactsOk(FactsOf(s, id), quiet);
  }

  /** The inserting thread was the only one inside. */
  lemma RegionEmpty(s: State, t: nat, id: Id)
    requires LockOk(s) && Enabled(s, Insert(t, id))
    ensures LockOk(Next(s, Insert(t, id))) && HitLive(Next(s, Insert(t, id)))
  {
    hide Knows;
  }

  lemma InsertInv(s: State, t: nat, id: Id, quiet: bool)
    requires Inv(s, quiet) && Enabled(s, Insert(t, id))
    ensures Inv(Next(s, Insert(t, id)), quiet)
  {
    hide FactsOk, FactsOf, Distinct, LockOk, HitLive, Deduplicated, Answers, WithNew;
    var u, key := Next(s, Insert(t, id)), s.threads[t].key;
    NewListed(s, t, id, quiet);
    RegionEmpty(s, t, id);
    MissIs(s, t, quiet);
    NewKey(s, t, id);
    forall x
      ensures FactsOk(FactsOf(u, x), quiet)
    {
      assert FactsOk(FactsOf(s, x), quiet);
      SameFacts(s, s.(lock := None), x);
      NewRecordFacts(s.(lock := None), t, id, key, x, quiet);
    }
  }

  lemma NewKey(s: State, t: nat, id: Id)
    requires LockOk(s) && Deduplicated(s) && Enabled(s, Insert(t, id)) && forall x :: !Answers(s.records, x, s.threads[t].key)
    ensures Deduplicated(Next(s, Insert(t, id)))
  {
    var u, key := Next(s, Insert(t, id)), s.threads[t].key;
    MatchesSelf(key);
    forall x | Wanted(u, x) && x != id
      ensures Wanted(s, x) && u.records[x] == s.records[x] && (NulFree(key) ==> u.records[x].key != key)
    {
      assert !Answers(s.records, x, key);
    }
    hide NulFree, Matches, Knows, LockOk, Wanted;
  }

  // --- Every action -----------------------------------------------------------------------

  /** Every action keeps what holds in any run; and what holds in quiet runs, unless it is the race. */
  lemma StepInv(s: State, a: Action, quiet: bool)
    requires Inv(s, quiet) && Enabled(s, a) && (quiet ==> !Races(s, a))
    ensures Inv(Next(s, a), quiet)
  {
    hide Inv, Dropped, Staged, Removed, Hit;
    match a {
      case Lookup(t, key) => EnterInv(s, t, key, false, quiet);
      case Scan(t) => ScanInv(s, t, quiet);
      case Increment(t) => IncrementInv(s, t, quiet);
      case Leave(t) => LeaveInv(s, t, quiet);
      case GiveUp(t) => GiveUpInv(s, t, quiet);
      case Relook(t) => EnterInv(s, t, s.threads[t].key, true, quiet);
      case Insert(t, id) => InsertInv(s, t, id, quiet);
      case Enqueue(t) => EnqueueInv(s, t, quiet);
      case Retain(id) => RetainInv(s, id, quiet);
      case Drop(t, id) => DroppedInv(s, t, id, s.held - multiset{id}, quiet);
      case Recheck(t) => RecheckInv(s, t, quiet);
      case Destroy(t) => DestroyInv(s, t, quiet);
      case Take(t) => TakeInv(s, t, quiet);
      case Begin(t, probing) =>
        if probing {
          StagedInv(s, t, s.threads[t].id, ProbingCache, Probing(s.threads[t].id), quiet);
        } else {
          StagedInv(s, t, s.threads[t].id, Compiling, Building(s.threads[t].id), quiet);
        }
      case Require(t) => StagedInv(s, t, s.threads[t].id, Compiling, Building(s.threads[t].id), quiet);
      case Publish(t, ok) => StagedInv(s, t, s.threads[t].id, if ok then Ready else Failed, Built(s.threads[t].id), quiet);
      case Finish(t) => DroppedInv(s, t, s.threads[t].id, s.held, quiet);
    }
  }
}
