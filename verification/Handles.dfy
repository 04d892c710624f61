/**
 * Texture handles: the slot map put under the device. What the protocol calls a handle that resolves is a
 * 64-bit value that the map resolves, unless it was made in a slot that is worn out.
 */
module TextureHandles {
  import opened Bits
  import opened Records
  import opened CommandPools
  import opened RetireQueues
  import opened Lifetime
  import opened LifetimeRecording
  import opened LifetimeRetirement
  import Submission
  import Runs = LifetimeRuns
  import Devices
  import SM = SlotMaps

  /** No storage for a retirement: a reference that cannot be queued is kept for good. */
  const NO_STORAGE: Storage := Storage(false, false, false)

  // --- How the map and the protocol fit together ------------------------------------------

  /** The slots in use hold the texture records, each in its place. */
  ghost predicate Placed(live: map<nat, Res>, records: map<Res, Rec>, place: map<Res, nat>) {
    && (forall i :: i in live ==> live[i] in records)
    && Kept(live, records, place)
  }

  /** The same, when some of the records in the slots may be gone. */
  ghost predicate Kept(live: map<nat, Res>, records: map<Res, Rec>, place: map<Res, nat>) {
    && (forall i :: i in live ==> live[i].Tex? && live[i] in place && place[live[i]] == i)
    && (forall r :: r in records && r.Tex? ==> r in place && place[r] in live && live[place[r]] == r)
  }

  /** A texture's public handle has its slot's current generation while it counts, and is dead afterwards. */
  ghost predicate Named(bumps: seq<nat>, dead: set<(nat, nat)>, handles: multiset<Res>, place: map<Res, nat>, born: map<Res, nat>) {
    && place.Keys == born.Keys
    && forall r :: r in place ==>
        r.Tex? && place[r] < |bumps| && if r in handles then bumps[place[r]] == born[r] else (place[r], born[r]) in dead
  }

  /** Every texture with a place was created. */
  ghost predicate Known(c: Store, place: map<Res, nat>) {
    forall r :: r in place ==> r in c.records || r in c.destroyed
  }

  ghost predicate Coupled(live: map<nat, Res>, bumps: seq<nat>, dead: set<(nat, nat)>, s: State, place: map<Res, nat>,
                          born: map<Res, nat>) {
    Placed(live, s.store.records, place) && Named(bumps, dead, s.handles, place, born) && Known(s.store, place)
  }

  lemma CreatedPlaced(live: map<nat, Res>, records: map<Res, Rec>, place: map<Res, nat>, r: Res, i: nat, rec: Rec)
    requires Placed(live, records, place) && r.Tex? && r !in records && r !in place && i !in live
    ensures Placed(live[i := r], records[r := rec], place[r := i])
  {
  }

  lemma CreatedNamed(bumps: seq<nat>, after: seq<nat>, dead: set<(nat, nat)>, handles: multiset<Res>, place: map<Res, nat>,
                     born: map<Res, nat>, r: Res, i: nat)
    requires Named(bumps, dead, handles, place, born) && r.Tex? && r !in place && i < |after|
    requires |bumps| <= |after| && forall j: nat :: j < |bumps| && j != i ==> after[j] == bumps[j]
    requires forall x :: x in place && place[x] == i ==> x !in handles
    ensures Named(after, dead, handles + multiset{r}, place[r := i], born[r := after[i]])
  {
    forall x | x in place
      ensures place[x] < |after| && (place[x] != i ==> after[place[x]] == bumps[place[x]])
    {
      var bump := bumps[place[x]];
    }
  }

  /** A public handle was withdrawn: its slot's generation moved on. */
  lemma WithdrawnNamed(bumps: seq<nat>, dead: set<(nat, nat)>, handles: multiset<Res>, place: map<Res, nat>,
                       born: map<Res, nat>, r: Res, after: multiset<Res>)
    requires Named(bumps, dead, handles, place, born) && r in handles && r in place
    requires after == handles - multiset{r} && r !in after
    requires forall x :: x in place && x != r && place[x] == place[r] ==> x !in handles
    ensures Named(SM.Bump(bumps, place[r]), dead + {(place[r], bumps[place[r]])}, after, place, born)
  {
  }

  /** Once no handle names a slot, its generation may move on again. */
  lemma BumpedNamed(bumps: seq<nat>, dead: set<(nat, nat)>, more: set<(nat, nat)>, handles: multiset<Res>,
                    place: map<Res, nat>, born: map<Res, nat>, i: nat)
    requires Named(bumps, dead, handles, place, born) && i < |bumps| && dead <= more
    requires forall x :: x in place && place[x] == i ==> x !in handles
    ensures Named(SM.Bump(bumps, i), more, handles, place, born)
  {
  }

  /** Two textures with handles are in different slots. */
  lemma OnlyOneNamed(s: State, live: map<nat, Res>, bumps: seq<nat>, dead: set<(nat, nat)>, place: map<Res, nat>,
                     born: map<Res, nat>, i: nat)
    requires Inv(s) && Kept(live, s.store.records, place) && Named(bumps, dead, s.handles, place, born)
    ensures forall x :: x in place && x in s.handles && place[x] == i ==> i in live && live[i] == x
  {
    forall x | x in s.handles
      ensures x in s.store.records
    {
      HandleResolves(s, x);
    }
    hide Inv;
  }

  /** emplace has taken slot i: its bump count is new, the others are as before. */
  ghost predicate Taken(bumps: seq<nat>, after: seq<nat>, i: nat) {
    i < |after| && |bumps| <= |after| && forall j: nat :: j < |bumps| && j != i ==> after[j] == bumps[j]
  }

  lemma CreatedCoupled(live: map<nat, Res>, bumps: seq<nat>, dead: set<(nat, nat)>, s: State, place: map<Res, nat>,
                       born: map<Res, nat>, r: Res, i: nat, after: seq<nat>)
    requires Inv(s) && Coupled(live, bumps, dead, s, place, born) && Taken(bumps, after, i)
    requires r.Tex? && r !in s.store.records && r !in s.store.destroyed && i !in live
    ensures Coupled(live[i := r], after, dead, Created(s, r), place[r := i], born[r := after[i]])
  {
    OnlyOneNamed(s, live, bumps, dead, place, born, i);
    assert r !in place;
    hide Inv;
    CreatedPlaced(live, s.store.records, place, r, i, Rec(1, NeedsTransition));
    CreatedNamed(bumps, after, dead, s.handles, place, born, r, i);
    hide Placed, Named, Kept;
  }

  lemma StaleFrees(s: State, r: Res, token: Option<nat>, st: Storage)
    ensures r !in s.handles ==> Freed(s, r) == s && FreedAfter(s, r, token, st) == s
  {
  }

  /** What free does to a texture with a handle, as far as slots are concerned. */
  lemma FreedStore(s: State, r: Res)
    requires Inv(s) && r in s.handles && r.Tex?
    ensures var t := Freed(s, r);
      && t.handles == s.handles - multiset{r} && r !in t.handles
      && (forall x :: x != r ==> (x in t.store.records <==> x in s.store.records))
      && (forall x :: x in s.store.destroyed ==> x in t.store.destroyed)
      && r in s.store.records && (r in t.store.records || r in t.store.destroyed)
  {
    HandleResolves(s, r);
    assert s.handles[r] == 1;
    hide Inv, Without;
  }

  lemma FreedSlots(live: map<nat, Res>, bumps: seq<nat>, dead: set<(nat, nat)>, s: State, place: map<Res, nat>,
                   born: map<Res, nat>, r: Res)
    requires Inv(s) && Coupled(live, bumps, dead, s, place, born) && r in place && r in s.handles
    ensures var t, i := Freed(s, r), place[r];
      && i in live && live[i] == r && Kept(live, t.store.records, place)
      && (forall j :: j in live && j != i ==> live[j] in t.store.records)
  {
    hide Inv, Freed;
    FreedStore(s, r);
  }

  lemma PlacedAt(bumps: seq<nat>, dead: set<(nat, nat)>, handles: multiset<Res>, place: map<Res, nat>, born: map<Res, nat>, r: Res)
    requires Named(bumps, dead, handles, place, born) && r in place && r in handles
    ensures r in born && place[r] < |bumps| && bumps[place[r]] == born[r]
  {
  }

  lemma FreedNames(live: map<nat, Res>, bumps: seq<nat>, dead: set<(nat, nat)>, s: State, place: map<Res, nat>,
                   born: map<Res, nat>, r: Res, i: nat)
    requires Inv(s) && Coupled(live, bumps, dead, s, place, born) && r in s.handles
    requires r in place && place[r] == i && i < |bumps|
    ensures Named(SM.Bump(bumps, i), dead + {(i, bumps[i])}, Freed(s, r).handles, place, born)
    ensures forall x :: x in place && place[x] == i ==> x !in Freed(s, r).handles
    ensures Known(Freed(s, r).store, place)
  {
    hide Inv, Freed, Kept;
    FreedSlots(live, bumps, dead, s, place, born, r);
    FreedStore(s, r);
    OnlyOneNamed(s, live, bumps, dead, place, born, i);
    hide Placed;
    WithdrawnNamed(bumps, dead, s.handles, place, born, r, Freed(s, r).handles);
  }

  lemma CoupledAt(live: map<nat, Res>, bumps: seq<nat>, dead: set<(nat, nat)>, s: State, place: map<Res, nat>,
                  born: map<Res, nat>, r: Res)
    requires Coupled(live, bumps, dead, s, place, born) && r in place && r in s.handles
    ensures r in born && place[r] < |bumps| && bumps[place[r]] == born[r]
  {
    hide Placed, Known;
  }

  /** The record stays: so does its slot. */
  lemma FreedStays(live: map<nat, Res>, bumps: seq<nat>, dead: set<(nat, nat)>, s: State, place: map<Res, nat>,
                   born: map<Res, nat>, r: Res)
    requires Inv(s) && Coupled(live, bumps, dead, s, place, born) && r in place && r in s.handles
    requires r in Freed(s, r).store.records && place[r] < |bumps|
    ensures Coupled(live, SM.Bump(bumps, place[r]), dead + {(place[r], bumps[place[r]])}, Freed(s, r), place, born)
  {
    hide Inv, Freed, Named, Known, Kept;
    FreedSlots(live, bumps, dead, s, place, born, r);
    PlacedAt(bumps, dead, s.handles, place, born, r);
    FreedNames(live, bumps, dead, s, place, born, r, place[r]);
  }

  /** The record is gone: its slot is erased. */
  lemma FreedGoes(live: map<nat, Res>, bumps: seq<nat>, dead: set<(nat, nat)>, s: State, place: map<Res, nat>,
                  born: map<Res, nat>, r: Res, more: set<(nat, nat)>)
    requires Inv(s) && Coupled(live, bumps, dead, s, place, born) && r in place && r in s.handles
    requires r !in Freed(s, r).store.records && place[r] < |bumps| && dead + {(place[r], bumps[place[r]])} <= more
    ensures Coupled(live - {place[r]}, SM.Bump(SM.Bump(bumps, place[r]), place[r]), more, Freed(s, r), place, born)
  {
    hide Inv, Freed, Named, Known;
    var t, i := Freed(s, r), place[r];
    FreedSlots(live, bumps, dead, s, place, born, r);
    PlacedAt(bumps, dead, s.handles, place, born, r);
    FreedNames(live, bumps, dead, s, place, born, r, place[r]);
    BumpedNamed(SM.Bump(bumps, i), dead + {(i, bumps[i])}, more, t.handles, place, born, i);
  }

  /** free_after: the handle dies, the record stays for now. */
  lemma FreedAfterCoupled(live: map<nat, Res>, bumps: seq<nat>, dead: set<(nat, nat)>, s: State, place: map<Res, nat>,
                          born: map<Res, nat>, r: Res, token: Option<nat>, st: Storage)
    requires Inv(s) && Coupled(live, bumps, dead, s, place, born) && r in place && r in s.handles
    ensures var i := place[r];
      && i < |bumps|
      && Coupled(live, SM.Bump(bumps, i), dead + {(i, bumps[i])}, FreedAfter(s, r, token, st), place, born)
  {
    hide Inv, FreedAfter, Freed, Named;
    FreedAfterStore(s, r, token, st);
    PlacedAt(bumps, dead, s.handles, place, born, r);
    FreedNames(live, bumps, dead, s, place, born, r, place[r]);
    SameKeys(s.store.records, FreedAfter(s, r, token, st).store.records);
  }

  lemma FreedAfterStore(s: State, r: Res, token: Option<nat>, st: Storage)
    requires r in s.handles
    ensures var t := FreedAfter(s, r, token, st);
      && t.store.records.Keys == s.store.records.Keys && t.store.destroyed == s.store.destroyed
      && t.handles == Freed(s, r).handles
  {
    hide Enqueued, Available, Release, RetireValue;
  }

  lemma SameKeys(c: map<Res, Rec>, d: map<Res, Rec>)
    requires c.Keys == d.Keys
    ensures forall x :: x in c <==> x in d
  {
    assert forall x :: x in c <==> x in c.Keys;
  }

  /** Counts do not matter to slots. */
  lemma SameCoupled(live: map<nat, Res>, bumps: seq<nat>, dead: set<(nat, nat)>, s: State, t: State, place: map<Res, nat>,
                    born: map<Res, nat>)
    requires Coupled(live, bumps, dead, s, place, born)
    requires t.handles == s.handles && t.store.records.Keys == s.store.records.Keys && t.store.destroyed == s.store.destroyed
    ensures Coupled(live, bumps, dead, t, place, born)
  {
    SameKeys(s.store.records, t.store.records);
    hide Named;
  }

  lemma RetainedStore(s: State, p: nat, r: Res)
    requires p < |s.pools|
    ensures var t := RetainedIn(s, p, r);
      && t.handles == s.handles && t.store.records.Keys == s.store.records.Keys && t.store.destroyed == s.store.destroyed
    ensures r !in s.handles && r.Tex? ==> RetainedIn(s, p, r) == RecordingFailed(s, p)
  {
  }

  /** Records may be gone, their slots still in use. */
  ghost predicate Loose(live: map<nat, Res>, bumps: seq<nat>, dead: set<(nat, nat)>, s: State, place: map<Res, nat>,
                        born: map<Res, nat>) {
    Kept(live, s.store.records, place) && Named(bumps, dead, s.handles, place, born) && Known(s.store, place)
  }

  lemma Loosened(live: map<nat, Res>, bumps: seq<nat>, dead: set<(nat, nat)>, s: State, t: State, place: map<Res, nat>,
                 born: map<Res, nat>)
    requires Coupled(live, bumps, dead, s, place, born) && t.handles == s.handles
    requires Runs.Ledger(s.store, t.store) && StoreOk(t.store)
    ensures Loose(live, bumps, dead, t, place, born)
  {
    forall x | x in t.store.records
      ensures x in s.store.records
    {
      assert x in t.store.records.Keys + t.store.destroyed;
    }
    forall x | x in place
      ensures x in t.store.records || x in t.store.destroyed
    {
      assert x in s.store.records.Keys + s.store.destroyed;
    }
    hide Named, StoreOk, Runs.Ledger;
  }

  /** The slot of a record that is gone is erased. */
  lemma Tightened(live: map<nat, Res>, bumps: seq<nat>, dead: set<(nat, nat)>, s: State, place: map<Res, nat>,
                  born: map<Res, nat>, i: nat, more: set<(nat, nat)>)
    requires Inv(s) && Loose(live, bumps, dead, s, place, born) && i < |bumps| && dead <= more
    requires i in live && live[i] !in s.store.records
    ensures Loose(live - {i}, SM.Bump(bumps, i), more, s, place, born)
  {
    hide Inv;
    OnlyOneNamed(s, live, bumps, dead, place, born, i);
    forall x | x in place && place[x] == i
      ensures x !in s.handles
    {
      if x in s.handles {
        HandleResolves(s, x);
      }
    }
    BumpedNamed(bumps, dead, more, s.handles, place, born, i);
    hide Named, Known;
  }

  lemma {:induction false} ProcessedHandles(s: State, items: seq<Item<Res>>)
    ensures ProcessedAll(s, items).handles == s.handles
    decreases items
  {
    if items != [] {
      ProcessedHandles(Processed(s, items[0]), items[1..]);
    }
    hide Release, Unpublished;
  }

  lemma DrainedHandles(s: State)
    ensures Drained(s).handles == s.handles
  {
    var n := DueCount(s.queue, s.completed);
    ProcessedHandles(s.(queue := s.queue[n..]), Flat(s.queue[..n]));
  }

  lemma SubmitHandles(s: State, cbs: seq<nat>, a: Submission.Attempt)
    requires forall p :: p in cbs ==> p < |s.pools|
    ensures Submission.Submit(s, cbs, a).handles == s.handles
  {
    hide ReleaseAll, RetainAll, RetainedBy, Prepared, Available, Submission.SetInits, Submission.WithInit, Started, StartedPool;
  }

  class Textures {
    const device: Devices.Device
    const pool: SM.SlotMap<Res>
    /** The slot that each texture got at its creation, and its generation then, counted without wrap-around. */
    ghost var place: map<Res, nat>
    ghost var born: map<Res, nat>

    ghost predicate Valid()
      reads this, device, device.retire, pool
    {
      Inv(device.State()) && pool.Valid() && Coupled(pool.Live(), pool.bumps, pool.dead, device.State(), place, born)
    }

    /** The handle that create_texture returned. */
    ghost function Public(r: Res): nat
      requires r in place && r in born
      reads this
    {
      born[r] * SM.TWO32 + place[r]
    }

    /** No generation comes near 2^31 in the next call, which may release any record. */
    ghost predicate Young()
      reads pool
    {
      forall i :: 0 <= i < |pool.bumps| ==> pool.bumps[i] + 2 < SM.TWO31
    }

    constructor (poolCount: nat, slotCount: nat)
      ensures Valid() && Runs.Initial(device.State()) && place == map[] && fresh(device) && fresh(device.retire) && fresh(pool)
    {
      device := new Devices.Device(poolCount, slotCount);
      pool := new SM.SlotMap();
      place, born := map[], map[];
      new;
      Runs.InitialInv(device.State());
    }

    /**
     * A texture's handle resolves, to the texture, exactly while the protocol counts it among the handles and
     * its generation is below 2^31: freed handles stay dead whatever their slots are used for.
     */
    lemma Resolves(r: Res)
      requires Valid() && r in place
      ensures r in born
      ensures pool.Resolve(Public(r)) == if r in device.handles && born[r] < SM.TWO31 then Some(r) else None
      ensures SM.HandleIdx(Public(r)) == place[r]
    {
      hide Inv, Known, SM.SlotMap.Valid, SM.SlotMap.Live, SM.SlotMap.Resolve;
      var i := place[r];
      if r in device.handles {
        HandleResolves(device.State(), r);
        if born[r] < SM.TWO31 {
          pool.CurrentResolves(i);
        } else {
          pool.WornOut(i, Public(r));
        }
      } else {
        pool.DeadNeverResolves(i, born[r]);
      }
    }

    /** emplace for a texture. */
    method TakeSlot(r: Res, granted: bool) returns (h: nat, ghost i: nat)
      requires pool.Valid() && (pool.chain != [] || (granted && |pool.segments| < SM.MAX_SEGMENTS))
      modifies pool
      ensures pool.Valid() && i !in old(pool.Live()) && pool.Live() == old(pool.Live())[i := r]
      ensures Taken(old(pool.bumps), pool.bumps, i) && pool.dead == old(pool.dead) && i < SM.TWO32
      ensures h == pool.bumps[i] * SM.TWO32 + i != 0
    {
      hide SM.Ok, SM.CapacityFor, SM.Records, SM.Lookup, SM.Fresh, SM.SlotsIn;
      h := pool.Emplace(r, granted);
      i := SM.HandleIdx(h);
    }

    /** create_texture, r being the new record: the protocol step, with a handle of its own. */
    method CreateTexture(r: Res, granted: bool) returns (h: nat)
      requires Valid() && r.Tex? && Runs.Enabled(device.State(), Runs.Create(r))
      requires pool.chain != [] || (granted && |pool.segments| < SM.MAX_SEGMENTS)
      modifies this, device, pool
      ensures Valid() && device.State() == Created(old(device.State()), r)
      ensures r in place && r in born && place == old(place)[r := place[r]] && born == old(born)[r := born[r]]
      ensures h == Public(r) != 0
    {
      hide Inv, Coupled, Created, SM.SlotMap.Valid, SM.SlotMap.Live, SM.SlotMap.Resolve;
      ghost var s, live, bumps := device.State(), pool.Live(), pool.bumps;
      CreatedInv(s, r);
      ghost var i;
      h, i := TakeSlot(r, granted);
      CreatedCoupled(live, bumps, pool.dead, s, place, born, r, i, pool.bumps);
      device.Create(r);
      place, born := place[r := i], born[r := pool.bumps[i]];
    }

    /** find_handle for a slot's record, and whether what it gives resolves. */
    method CurrentHandle(i: nat) returns (h: Option<nat>)
      requires pool.Valid() && i in pool.Live() && i < |pool.bumps|
      ensures h.Some? <==> pool.bumps[i] < SM.TWO31
      ensures h.Some? ==> pool.Resolve(h.value) == Some(pool.Live()[i]) && SM.HandleIdx(h.value) == i
    {
      hide SM.SlotMap.Valid, SM.SlotMap.Live, SM.SlotMap.Resolve, SM.Stored, SM.CapacityFor, SM.SegmentOf, SM.SlotOf;
      pool.Addressed(i);
      var found := pool.FindHandle(SM.SegmentOf(i), SM.SlotOf(i));
      SM.HandleRoundTrip(i, SM.Wrap(pool.bumps[i]));
      pool.WornOutOr(i, found);
      var r := pool.TryGet(found);
      h := if r == None then None else Some(found);
    }

    /** release_texture_ref's erase. */
    method EraseSlot(h: nat, ghost i: nat) returns (gone: Option<Res>)
      requires pool.Valid() && pool.Resolve(h).Some? && SM.HandleIdx(h) == i
      modifies pool
      ensures pool.Valid() && i in old(pool.Live()) && pool.Live() == old(pool.Live()) - {i}
      ensures i < |old(pool.bumps)| && pool.bumps == SM.Bump(old(pool.bumps), i) && old(pool.dead) <= pool.dead
    {
      hide SM.SlotMap.Valid, SM.SlotMap.Live, SM.SlotMap.Resolve;
      var ok;
      ok, gone := pool.Erase(h);
    }

    /**
     * free: the public handle dies at once; the record, and its slot, with the last reference. At the last
     * generation that resolves, find_handle's answer does not any more: the reference is never given back.
     */
    method FreeTexture(h: nat, ghost r: Res)
      requires Valid() && r in place && r in born && h == Public(r)
      modifies device, device.retire, pool
      ensures Valid() && place == old(place) && born == old(born)
      ensures device.State() ==
        if born[r] + 1 < SM.TWO31 then Freed(old(device.State()), r)
        else if born[r] + 1 == SM.TWO31 then FreedAfter(old(device.State()), r, None, NO_STORAGE)
        else old(device.State())
    {
      hide Inv, Coupled, Freed, FreedAfter, SM.SlotMap.Valid, SM.SlotMap.Live, SM.SlotMap.Resolve;
      ghost var s, live, bumps := device.State(), pool.Live(), pool.bumps;
      Resolves(r);
      var found := pool.TryGet(h);
      if found == None {
        StaleFrees(s, r, None, NO_STORAGE);
        return;
      }
      ghost var i, dead := place[r], pool.dead;
      FreedSlots(live, bumps, dead, s, place, born, r);
      CoupledAt(live, bumps, dead, s, place, born, r);
      var ok := pool.Invalidate(h);
      var current := CurrentHandle(SM.HandleIdx(h));
      if current == None {
        FreedAfterCoupled(live, bumps, dead, s, place, born, r, None, NO_STORAGE);
        FreedAfterInv(s, r, None, NO_STORAGE);
        device.FreeAfter(found.value, None, NO_STORAGE);
        return;
      }
      FreedInv(s, r);
      device.Free(found.value);
      if found.value in device.records {
        FreedStays(live, bumps, dead, s, place, born, r);
      } else {
        var gone := EraseSlot(current.value, i);
        FreedGoes(live, bumps, dead, s, place, born, r, pool.dead);
      }
    }

    /** free_after: the public handle dies at once, the reference waits in the retirement queue. */
    method FreeTextureAfter(h: nat, ghost r: Res, token: Option<nat>, st: Storage)
      requires Valid() && r in place && r in born && h == Public(r) && Genuine(device.State(), token)
      modifies device, device.retire, pool
      ensures Valid() && place == old(place) && born == old(born)
      ensures device.State() ==
        if born[r] < SM.TWO31 then FreedAfter(old(device.State()), r, token, st) else old(device.State())
    {
      hide Inv, Coupled, FreedAfter, Genuine, SM.SlotMap.Valid, SM.SlotMap.Live, SM.SlotMap.Resolve;
      ghost var s, live, bumps, dead := device.State(), pool.Live(), pool.bumps, pool.dead;
      Resolves(r);
      var found := pool.TryGet(h);
      FreedAfterInv(s, r, token, st);
      if found == None {
        StaleFrees(s, r, token, st);
        return;
      }
      FreedAfterCoupled(live, bumps, dead, s, place, born, r, token, st);
      var ok := pool.Invalidate(h);
      device.FreeAfter(found.value, token, st);
    }

    /** retain_texture: a handle that does not resolve fails the recording. */
    method RetainTexture(p: nat, h: nat, ghost r: Res)
      requires Valid() && r in place && r in born && h == Public(r) && r.Tex?
      requires p < |device.pools| && device.pools[p].outstanding > 0
      modifies device
      ensures Valid() && p < |old(device.State()).pools|
      ensures device.State() ==
        if born[r] < SM.TWO31 then RetainedIn(old(device.State()), p, r) else RecordingFailed(old(device.State()), p)
    {
      hide Inv, Coupled, RetainedIn, SM.SlotMap.Valid, SM.SlotMap.Live, SM.SlotMap.Resolve;
      ghost var s := device.State();
      Resolves(r);
      RetainedStore(s, p, r);
      var found := pool.TryGet(h);
      if found == None {
        RecordingFailedInv(s, p);
        SameCoupled(pool.Live(), pool.bumps, pool.dead, s, RecordingFailed(s, p), place, born);
        device.FailRecording(p);
      } else {
        RetainedInInv(s, p, r);
        SameCoupled(pool.Live(), pool.bumps, pool.dead, s, RetainedIn(s, p, r), place, born);
        device.Retain(p, found.value);
      }
    }

    /** The erases of a call's releases: each slot whose record the call has destroyed. */
    method EraseDestroyed()
      requires Inv(device.State()) && pool.Valid() && Young()
      requires Loose(pool.Live(), pool.bumps, pool.dead, device.State(), place, born)
      modifies pool
      ensures Valid()
    {
      hide Inv, Loose, SM.SlotMap.Valid, SM.SlotMap.Live, SM.SlotMap.Resolve;
      ghost var n, bumps := |pool.bumps|, pool.bumps;
      var size := pool.Size();
      var i := 0;
      while i < size
        invariant i <= size == n == |pool.bumps| && pool.Valid() && forall j :: j in pool.Live() ==> j < n
        invariant forall j :: i <= j < n ==> pool.bumps[j] == bumps[j]
        invariant Loose(pool.Live(), pool.bumps, pool.dead, device.State(), place, born)
        invariant forall j :: j in pool.Live() && j < i ==> pool.Live()[j] in device.records
      {
        var r := pool.Peek(i);
        if r.Some? && r.value !in device.records {
          ghost var live, b, dead := pool.Live(), pool.bumps, pool.dead;
          var h := CurrentHandle(i);
          var gone := EraseSlot(h.value, i);
          Tightened(live, b, dead, device.State(), place, born, i, pool.dead);
        }
        i := i + 1;
      }
      LooseToCoupled(pool.Live(), pool.bumps, pool.dead, device.State(), place, born);
    }

    /** queue_submit. */
    method Submit(cbs: seq<nat>, a: Submission.Attempt) returns (ok: bool)
      requires Valid() && Young() && Submission.Ready(device.pools, cbs)
      modifies device, device.retire, pool
      ensures Valid() && device.State() == Submission.Submit(old(device.State()), cbs, a)
    {
      hide Inv, Coupled, Loose, Submission.Submit, SM.SlotMap.Valid, SM.SlotMap.Live, SM.SlotMap.Resolve;
      ghost var s := device.State();
      Submission.SubmitInv(s, cbs, a);
      Runs.SubmitLedger(s, cbs, a);
      SubmitHandles(s, cbs, a);
      InvStore(Submission.Submit(s, cbs, a));
      Loosened(pool.Live(), pool.bumps, pool.dead, s, Submission.Submit(s, cbs, a), place, born);
      ok := device.Submit(cbs, a);
      EraseDestroyed();
    }

    /** queue_process_events. */
    method Drain()
      requires Valid() && Young()
      modifies device, device.retire, pool
      ensures Valid() && device.State() == Drained(old(device.State()))
    {
      hide Inv, Coupled, Loose, Drained, SM.SlotMap.Valid, SM.SlotMap.Live, SM.SlotMap.Resolve;
      ghost var s := device.State();
      DrainedInv(s);
      Runs.DrainedLedger(s);
      DrainedHandles(s);
      InvStore(Drained(s));
      Loosened(pool.Live(), pool.bumps, pool.dead, s, Drained(s), place, born);
      device.Drain();
      EraseDestroyed();
    }
  }

  lemma InvStore(s: State)
    requires Inv(s)
    ensures StoreOk(s.store)
  {
    hide Held, StoreOk, Balanced, PoolInv, QueueInv, TextureInv, SlotInv;
  }

  /** The slots beyond the map's size hold nothing. */
  lemma LooseToCoupled(live: map<nat, Res>, bumps: seq<nat>, dead: set<(nat, nat)>, s: State, place: map<Res, nat>,
                       born: map<Res, nat>)
    requires Loose(live, bumps, dead, s, place, born) && forall j :: j in live ==> live[j] in s.store.records
    ensures Coupled(live, bumps, dead, s, place, born)
  {
    hide Kept, Named, Known;
  }
}
