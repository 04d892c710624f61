/** Reference-counted records: buffers, textures and pipelines, and the list of textures awaiting their first layout. */
module Records {

  /** A record's identity over a whole run. A slot used again after destruction holds another record. */
  datatype Res = Buf(id: nat) | Tex(id: nat) | Pipe(id: nat)

  datatype Init = NeedsTransition | TransitionQueued | Initialized | Released

  /** `init` is meaningful for textures only. */
  datatype Rec = Rec(refs: nat, init: Init)

  /** The live records, the textures awaiting transition, and every record destroyed so far. */
  datatype Store = Store(records: map<Res, Rec>, pending: seq<Res>, destroyed: set<Res>)

  function Count(c: Store, r: Res): nat {
    if r in c.records then c.records[r].refs else 0
  }

  ghost predicate Distinct(s: seq<Res>) {
    forall i, j :: 0 <= i < j < |s| ==> s[i] != s[j]
  }

  ghost predicate StoreOk(c: Store) {
    && (forall r :: r in c.records ==> c.records[r].refs >= 1)
    && c.records.Keys !! c.destroyed
    && Distinct(c.pending)
    && (forall t :: t in c.pending ==> t.Tex? && t in c.records)
  }

  /** The reference counts are what the holders hold. */
  ghost predicate Balanced(c: Store, holders: multiset<Res>) {
    forall r :: Count(c, r) == holders[r]
  }

  // --- One reference ----------------------------------------------------------------------

  function Retain(c: Store, r: Res): Store
    requires r in c.records
  {
    c.(records := c.records[r := c.records[r].(refs := c.records[r].refs + 1)])
  }

  /** The list without the first occurrence of a texture. */
  function Without(s: seq<Res>, r: Res): seq<Res> {
    if s == [] then [] else if s[0] == r then s[1..] else [s[0]] + Without(s[1..], r)
  }

  /** release_texture_ref, release_buffer_ref, release_pipeline_ref: the last one destroys. */
  function Release(c: Store, r: Res): Store {
    if r !in c.records then c
    else if c.records[r].refs > 1 then c.(records := c.records[r := c.records[r].(refs := c.records[r].refs - 1)])
    else Store(c.records - {r}, if r.Tex? then Without(c.pending, r) else c.pending, c.destroyed + {r})
  }

  function SetInit(c: Store, t: Res, i: Init): Store
    requires t in c.records
  {
    c.(records := c.records[t := c.records[t].(init := i)])
  }

  // --- Many references --------------------------------------------------------------------

  function RetainAll(c: Store, list: seq<Res>): Store
    decreases list
  {
    if list == [] then c
    else RetainAll(if list[0] in c.records then Retain(c, list[0]) else c, list[1..])
  }

  function ReleaseAll(c: Store, list: seq<Res>): Store
    decreases list
  {
    if list == [] then c else ReleaseAll(Release(c, list[0]), list[1..])
  }

  /** The elements that are still records. */
  function Alive(s: seq<Res>, records: map<Res, Rec>): seq<Res> {
    if s == [] then [] else (if s[0] in records then [s[0]] else []) + Alive(s[1..], records)
  }

  /** How a store may change while references are given back: nothing comes up, nothing is lost sight of. */
  ghost predicate Shrunk(c: Store, d: Store) {
    && d.records.Keys + d.destroyed == c.records.Keys + c.destroyed
    && c.destroyed <= d.destroyed
    && (forall r :: r in d.records ==> r in c.records && d.records[r].init == c.records[r].init)
    && d.pending == Alive(c.pending, d.records)
  }

  lemma {:induction false} AliveAll(s: seq<Res>, records: map<Res, Rec>)
    requires forall r :: r in s ==> r in records
    ensures Alive(s, records) == s
  {
    if s != [] {
      assert s[0] in s && forall r :: r in s[1..] ==> r in s;
      AliveAll(s[1..], records);
    }
  }

  lemma {:induction false} AliveWithout(s: seq<Res>, r: Res, records: map<Res, Rec>)
    requires Distinct(s) && forall x :: x in s ==> x in records
    ensures Without(s, r) == Alive(s, records - {r})
  {
    if s != [] {
      var rest := s[1..];
      assert s[0] in s && forall x :: x in rest ==> x in s;
      if s[0] == r {
        forall x | x in rest ensures x in records - {r} {
          var i :| 0 <= i < |rest| && rest[i] == x;
          assert s[i + 1] == x;
        }
        AliveAll(rest, records - {r});
      } else {
        AliveWithout(rest, r, records);
      }
    }
  }

  lemma {:induction false} AliveMembers(s: seq<Res>, records: map<Res, Rec>)
    ensures forall r :: r in Alive(s, records) <==> r in s && r in records
    ensures Distinct(s) ==> Distinct(Alive(s, records))
  {
    if s != [] {
      AliveMembers(s[1..], records);
      assert s == [s[0]] + s[1..];
      AliveDistinct(s, records);
    }
  }

  lemma AliveDistinct(s: seq<Res>, records: map<Res, Rec>)
    requires s != [] && forall r :: r in Alive(s[1..], records) <==> r in s[1..] && r in records
    requires Distinct(s[1..]) ==> Distinct(Alive(s[1..], records))
    ensures Distinct(s) ==> Distinct(Alive(s, records))
  {
    if Distinct(s) {
      var rest, tail := s[1..], Alive(s[1..], records);
      assert forall i :: 0 <= i < |rest| ==> rest[i] != s[0];
      assert s[0] !in tail;
      assert forall i :: 0 <= i < |tail| ==> tail[i] in tail;
    }
  }

  lemma {:induction false} AliveTwice(s: seq<Res>, first: map<Res, Rec>, later: map<Res, Rec>)
    requires forall r :: r in later ==> r in first
    ensures Alive(Alive(s, first), later) == Alive(s, later)
  {
    if s != [] {
      var rest := Alive(s[1..], first);
      AliveTwice(s[1..], first, later);
      if s[0] in first {
        assert ([s[0]] + rest)[1..] == rest;
      } else {
        assert Alive(s, first) == rest;
      }
    }
  }

  lemma ShrunkTwice(c: Store, d: Store, e: Store)
    requires Shrunk(c, d) && Shrunk(d, e)
    ensures Shrunk(c, e)
  {
    AliveTwice(c.pending, d.records, e.records);
  }

  lemma ReleaseOne(c: Store, r: Res, holders: multiset<Res>)
    requires StoreOk(c) && Balanced(c, holders) && r in holders
    ensures r in c.records
    ensures StoreOk(Release(c, r)) && Balanced(Release(c, r), holders - multiset{r}) && Shrunk(c, Release(c, r))
  {
    assert Count(c, r) >= 1;
    AliveAll(c.pending, c.records);
    if c.records[r].refs > 1 {
      AliveAll(c.pending, Release(c, r).records);
    } else {
      AliveWithout(c.pending, r, c.records);
      AliveMembers(c.pending, c.records - {r});
      if !r.Tex? {
        AliveAll(c.pending, c.records - {r});
      }
    }
    hide Alive, Without;
  }

  /** Giving back references held by an outgoing holder: the other holders' counts are exact again. */
  lemma {:induction false} ReleaseMany(c: Store, list: seq<Res>, holders: multiset<Res>)
    requires StoreOk(c) && Balanced(c, holders + multiset(list))
    ensures StoreOk(ReleaseAll(c, list)) && Balanced(ReleaseAll(c, list), holders) && Shrunk(c, ReleaseAll(c, list))
    decreases list
  {
    if list == [] {
      AliveAll(c.pending, c.records);
    } else {
      var r, rest := list[0], list[1..];
      assert list == [r] + rest;
      assert multiset(list) == multiset{r} + multiset(rest);
      ReleaseOne(c, r, holders + multiset(list));
      assert holders + multiset(list) - multiset{r} == holders + multiset(rest);
      hide Balanced, Shrunk, StoreOk, Release;
      ReleaseMany(Release(c, r), rest, holders);
      ShrunkTwice(c, Release(c, r), ReleaseAll(Release(c, r), rest));
    }
  }

  lemma RetainOne(c: Store, r: Res, holders: multiset<Res>)
    requires StoreOk(c) && Balanced(c, holders) && r in c.records
    ensures StoreOk(Retain(c, r)) && Balanced(Retain(c, r), holders + multiset{r})
  {
  }

  /** The references taken while textures are prepared for their transition. */
  lemma {:induction false} RetainMany(c: Store, list: seq<Res>, holders: multiset<Res>)
    requires StoreOk(c) && Balanced(c, holders) && forall r :: r in list ==> r in c.records
    ensures var d := RetainAll(c, list);
      && StoreOk(d) && Balanced(d, holders + multiset(list))
      && d.pending == c.pending && d.destroyed == c.destroyed && d.records.Keys == c.records.Keys
      && forall r :: r in c.records ==> d.records[r].init == c.records[r].init
    decreases list
  {
    if list != [] {
      var r, rest := list[0], list[1..];
      assert list == [r] + rest;
      assert multiset(list) == multiset{r} + multiset(rest);
      RetainOne(c, r, holders);
      var d := Retain(c, r);
      assert forall x :: x in rest ==> x in list;
      RetainMany(d, rest, holders + multiset{r});
      assert holders + multiset{r} + multiset(rest) == holders + multiset(list);
      hide Balanced, StoreOk;
    }
  }
}
