/** Command pools: selection and reuse by timeline value, check-out, and what a recording retains. */
module CommandPools {
  import opened Bits
  import opened Records

  /** A command buffer's retained references, each record once, and its recording_failed flag. */
  datatype Recording = Recording(pipelines: seq<Res>, textures: seq<Res>, buffers: seq<Res>, failed: bool) {
    function All(): seq<Res> {
      pipelines + textures + buffers
    }

    function Emptied(): Recording {
      Recording([], [], [], failed)
    }

    predicate Has(r: Res) {
      r in (match r case Pipe(_) => pipelines case Tex(_) => textures case Buf(_) => buffers)
    }

    function With(r: Res): Recording {
      match r
      case Pipe(_) => this.(pipelines := pipelines + [r])
      case Tex(_) => this.(textures := textures + [r])
      case Buf(_) => this.(buffers := buffers + [r])
    }
  }

  /** A pool is reset before each check-out, so it only ever uses its first command buffer. */
  datatype Pool = Pool(created: bool, hasBuffer: bool, outstanding: nat, retireValue: nat, recording: Recording)

  const UNUSED: Pool := Pool(false, false, 0, 0, Recording([], [], [], false))

  /** Which native calls of a check-out succeed: pool creation, buffer allocation, begin. */
  datatype Native = Native(create: bool, allocate: bool, begin: bool)

  // --- Check-out --------------------------------------------------------------------------

  predicate Usable(p: Pool, completed: nat) {
    p.outstanding == 0 && (!p.created || p.retireValue <= completed)
  }

  /** The first usable pool, or the number of pools. */
  function Pick(pools: seq<Pool>, completed: nat): (k: nat)
    ensures k <= |pools| && (k < |pools| ==> Usable(pools[k], completed))
    ensures forall i :: 0 <= i < k ==> !Usable(pools[i], completed)
  {
    if pools == [] || Usable(pools[0], completed) then 0 else 1 + Pick(pools[1..], completed)
  }

  /** A usable pool after get_command_pool: created on first use, reset on every other. */
  function Opened(p: Pool, n: Native): Pool {
    if p.created then p.(recording := p.recording.Emptied())
    else if n.create then Pool(true, false, 0, 0, p.recording)
    else p
  }

  /** An opened pool after get_command_buffer and the begin call. */
  function CheckedOut(p: Pool, n: Native): Pool {
    if !p.created || (!p.hasBuffer && !n.allocate) then p
    else p.(hasBuffer := true, outstanding := p.outstanding + 1,
            recording := if n.begin then p.recording.(failed := false) else p.recording)
  }

  predicate Starts(p: Pool, n: Native) {
    (p.created || n.create) && ((p.created && p.hasBuffer) || n.allocate) && n.begin
  }

  /** queue_start_command_recording. */
  function Started(pools: seq<Pool>, completed: nat, n: Native): seq<Pool> {
    var k := Pick(pools, completed);
    if k < |pools| then pools[k := CheckedOut(Opened(pools[k], n), n)] else pools
  }

  /** The pool whose command buffer the caller gets. */
  function StartedPool(pools: seq<Pool>, completed: nat, n: Native): Option<nat> {
    var k := Pick(pools, completed);
    if k < |pools| && Starts(pools[k], n) then Some(k) else None
  }

  // --- Check-in ---------------------------------------------------------------------------

  function CheckedIn(p: Pool): Pool {
    p.(outstanding := if p.outstanding > 0 then p.outstanding - 1 else 0)
  }

  /** A buffer that will not be submitted: checked in, its references given back by the caller. */
  function Abandoned(p: Pool): Pool {
    CheckedIn(p).(recording := p.recording.Emptied())
  }

  /** A buffer submitted at value v. */
  function Committed(p: Pool, v: nat): Pool {
    var q := if p.outstanding > 0 && p.retireValue < v then p.(retireValue := v) else p;
    CheckedIn(q).(recording := p.recording.Emptied())
  }

  function Update(pools: seq<Pool>, ps: seq<nat>, f: Pool -> Pool): (r: seq<Pool>)
    ensures |r| == |pools| && forall i :: 0 <= i < |pools| ==> r[i] == if i in ps then f(pools[i]) else pools[i]
  {
    seq(|pools|, i requires 0 <= i < |pools| => if i in ps then f(pools[i]) else pools[i])
  }

  // --- Retained references ----------------------------------------------------------------

  function Retained(pools: seq<Pool>): multiset<Res> {
    if pools == [] then multiset{} else multiset(pools[0].recording.All()) + Retained(pools[1..])
  }

  /** What the given pools' recordings retain, in submission order. */
  function RetainedBy(pools: seq<Pool>, ps: seq<nat>): seq<Res>
    requires forall p :: p in ps ==> p < |pools|
  {
    if ps == [] then []
    else
      assert ps[0] in ps && forall p :: p in ps[1..] ==> p in ps;
      pools[ps[0]].recording.All() + RetainedBy(pools, ps[1..])
  }

  /** A recording lists each record once, among its own kind. */
  ghost predicate Tidy(rec: Recording) {
    && (forall r :: r in rec.pipelines ==> r.Pipe?) && Distinct(rec.pipelines)
    && (forall r :: r in rec.textures ==> r.Tex?) && Distinct(rec.textures)
    && (forall r :: r in rec.buffers ==> r.Buf?) && Distinct(rec.buffers)
  }

  /** Pool accounting between calls: at most one buffer out, and nothing retained while none is. */
  ghost predicate PoolsOk(pools: seq<Pool>) {
    forall i :: 0 <= i < |pools| ==>
      && pools[i].outstanding <= 1 && Tidy(pools[i].recording)
      && (pools[i].outstanding == 0 ==> pools[i].recording.All() == [])
      && (!pools[i].created ==> pools[i].outstanding == 0 && pools[i].retireValue == 0)
  }

  ghost predicate DistinctPools(pools: seq<Pool>, ps: seq<nat>) {
    && (forall p :: p in ps ==> p < |pools|)
    && forall i, j :: 0 <= i < j < |ps| ==> ps[i] != ps[j]
  }

  lemma AddLeft(a: multiset<Res>, b: multiset<Res>, c: multiset<Res>, x: multiset<Res>, y: multiset<Res>)
    requires b + x == c + y
    ensures (a + b) + x == (a + c) + y
  {
    forall t
      ensures ((a + b) + x)[t] == ((a + c) + y)[t]
    {
      assert (b + x)[t] == (c + y)[t];
    }
  }

  lemma Regroup(a: multiset<Res>, b: multiset<Res>, x: multiset<Res>, y: multiset<Res>, all: multiset<Res>)
    requires a + y == b && b + x == all
    ensures a + (x + y) == all
  {
  }

  lemma {:induction false} RetainedAt(pools: seq<Pool>, k: nat, p: Pool)
    requires k < |pools|
    ensures Retained(pools[k := p]) + multiset(pools[k].recording.All()) == Retained(pools) + multiset(p.recording.All())
  {
    if k == 0 {
      assert pools[0 := p][1..] == pools[1..];
    } else {
      var rest := pools[1..];
      RetainedAt(rest, k - 1, p);
      assert pools[k := p][1..] == rest[k - 1 := p];
      AddLeft(multiset(pools[0].recording.All()), Retained(rest[k - 1 := p]), Retained(rest),
              multiset(pools[k].recording.All()), multiset(p.recording.All()));
    }
  }

  lemma RetainedSame(pools: seq<Pool>, k: nat, p: Pool)
    requires k < |pools| && p.recording.All() == pools[k].recording.All()
    ensures Retained(pools[k := p]) == Retained(pools)
  {
    RetainedAt(pools, k, p);
    forall r
      ensures Retained(pools[k := p])[r] == Retained(pools)[r]
    {
      assert (Retained(pools[k := p]) + multiset(p.recording.All()))[r] == (Retained(pools) + multiset(p.recording.All()))[r];
    }
  }

  /** Emptying the recordings of distinct pools takes away exactly what they retained. */
  lemma {:induction false} UpdateRetained(pools: seq<Pool>, ps: seq<nat>, f: Pool -> Pool)
    requires DistinctPools(pools, ps) && forall p :: f(p).recording.All() == []
    ensures Retained(Update(pools, ps, f)) + multiset(RetainedBy(pools, ps)) == Retained(pools)
    decreases ps
  {
    if ps == [] {
      assert Update(pools, ps, f) == pools;
    } else {
      var k, rest := ps[0], ps[1..];
      assert k in ps;
      var p := f(pools[k]);
      var one := pools[k := p];
      RestDistinct(pools, ps, p);
      UpdateRetained(one, rest, f);
      RetainedAt(pools, k, p);
      UpdateSplit(pools, ps, f);
      RetainedByStep(pools, ps, p);
      hide RetainedBy, Retained, Update, DistinctPools;
      var x, y := multiset(pools[k].recording.All()), multiset(RetainedBy(one, rest));
      Regroup(Retained(Update(one, rest, f)), Retained(one), x, y, Retained(pools));
    }
  }

  lemma RetainedByStep(pools: seq<Pool>, ps: seq<nat>, p: Pool)
    requires DistinctPools(pools, ps) && ps != []
    ensures ps[0] in ps && DistinctPools(pools[ps[0] := p], ps[1..])
    ensures multiset(RetainedBy(pools, ps))
      == multiset(pools[ps[0]].recording.All()) + multiset(RetainedBy(pools[ps[0] := p], ps[1..]))
  {
    RestDistinct(pools, ps, p);
    assert forall q :: q in ps[1..] ==> q in ps;
    RetainedByOther(pools, ps[0], p, ps[1..]);
  }

  lemma RestDistinct(pools: seq<Pool>, ps: seq<nat>, p: Pool)
    requires DistinctPools(pools, ps) && ps != []
    ensures ps[0] in ps && ps[0] !in ps[1..] && DistinctPools(pools[ps[0] := p], ps[1..])
  {
    var k, rest := ps[0], ps[1..];
    assert forall q :: q in rest ==> q in ps;
    forall i | 0 <= i < |rest| ensures rest[i] != k {
      assert ps[i + 1] == rest[i];
    }
  }

  lemma UpdateSplit(pools: seq<Pool>, ps: seq<nat>, f: Pool -> Pool)
    requires DistinctPools(pools, ps) && ps != []
    ensures ps[0] in ps && Update(pools, ps, f) == Update(pools[ps[0] := f(pools[ps[0]])], ps[1..], f)
  {
    var k, rest := ps[0], ps[1..];
    assert ps == [k] + rest;
    assert k !in rest;
  }

  lemma {:induction false} RetainedByOther(pools: seq<Pool>, k: nat, p: Pool, ps: seq<nat>)
    requires k < |pools| && k !in ps && forall q :: q in ps ==> q < |pools|
    ensures RetainedBy(pools[k := p], ps) == RetainedBy(pools, ps)
  {
    if ps != [] {
      assert ps[0] in ps && forall q :: q in ps[1..] ==> q in ps;
      RetainedByOther(pools, k, p, ps[1..]);
    }
  }

  lemma CheckedOutKeeps(p: Pool, n: Native)
    requires p.outstanding == 0 && p.recording.All() == [] && (!p.created ==> p.retireValue == 0)
    ensures var q := CheckedOut(Opened(p, n), n);
      && q.outstanding <= 1 && q.recording.All() == [] && Tidy(q.recording)
      && (!q.created ==> q.outstanding == 0 && q.retireValue == 0)
  {
    var rec := p.recording;
    assert |rec.pipelines| + |rec.textures| + |rec.buffers| == |rec.All()|;
  }

  /** Starting a recording: reset is reached with nothing retained, and only the chosen pool changes. */
  lemma StartKeeps(pools: seq<Pool>, completed: nat, n: Native)
    requires PoolsOk(pools)
    ensures PoolsOk(Started(pools, completed, n)) && Retained(Started(pools, completed, n)) == Retained(pools)
  {
    var k := Pick(pools, completed);
    if k < |pools| {
      CheckedOutKeeps(pools[k], n);
      hide Tidy, CheckedOut, Opened, Usable;
      RetainedSame(pools, k, CheckedOut(Opened(pools[k], n), n));
    }
  }
}
