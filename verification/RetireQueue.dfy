/** The retirement queue of a submission queue: batches of items keyed by timeline value (commands.cpp, device.cpp). */
module RetireQueues {
  import opened Bits

  /** A reference to give back, or a descriptor slot to retire with its expected generation. */
  datatype Item<R> = Ref(res: R) | SlotItem(slot: nat, gen: nat)

  /** `room` is the reserved item capacity. */
  datatype Batch<R> = Batch(value: nat, items: seq<Item<R>>, room: nat)

  type Queue<R> = seq<Batch<R>>

  ghost predicate Ascending<R>(q: Queue<R>) {
    forall i, j :: 0 <= i < j < |q| ==> q[i].value < q[j].value
  }

  /** Strictly ascending values, hence one batch per value, and no batch beyond its reservation. */
  ghost predicate Sorted<R>(q: Queue<R>) {
    Ascending(q) && forall i :: 0 <= i < |q| ==> |q[i].items| <= q[i].room
  }

  /** An item is due at a value. */
  ghost predicate DueAt<R>(q: Queue<R>, value: int, item: Item<R>) {
    exists i :: 0 <= i < |q| && q[i].value == value && item in q[i].items
  }

  /** All queued items, in order. */
  function Flat<R>(q: Queue<R>): seq<Item<R>> {
    if q == [] then [] else q[0].items + Flat(q[1..])
  }

  ghost function Pending<R>(q: Queue<R>): multiset<Item<R>> {
    multiset(Flat(q))
  }

  // --- What the operations do -------------------------------------------------------------

  /** The number of batches before a value; they are the first ones. */
  function Before<R>(q: Queue<R>, value: nat): (n: nat)
    ensures n <= |q| && forall i :: 0 <= i < n ==> q[i].value < value
    ensures n < |q| ==> q[n].value >= value
  {
    if q == [] || q[0].value >= value then 0 else 1 + Before(q[1..], value)
  }

  predicate Has<R>(q: Queue<R>, value: nat) {
    var n := Before(q, value);
    n < |q| && q[n].value == value
  }

  /** Room for n more items in a batch. */
  function Reserved<R>(b: Batch<R>, n: nat): Batch<R> {
    if |b.items| + n > b.room then b.(room := |b.items| + n) else b
  }

  /** The batch for `value`, found or inserted in order, with room for n more items. */
  function Prepared<R>(q: Queue<R>, value: nat, n: nat): Queue<R> {
    var k := Before(q, value);
    if Has(q, value) then q[k := Reserved(q[k], n)] else q[..k] + [Batch(value, [], n)] + q[k..]
  }

  /** More items for the batch at position k. */
  function Pushed<R>(q: Queue<R>, k: nat, items: seq<Item<R>>): Queue<R>
    requires k < |q|
  {
    q[k := q[k].(items := q[k].items + items)]
  }

  /** How many batches a completed value makes due: they are the first ones. */
  function DueCount<R>(q: Queue<R>, completed: nat): (n: nat) {
    Before(q, completed + 1)
  }

  // --- Properties -------------------------------------------------------------------------

  lemma {:induction false} FlatSplit<R>(a: Queue<R>, b: Queue<R>)
    ensures Flat(a + b) == Flat(a) + Flat(b)
  {
    if a == [] {
      assert a + b == b;
    } else {
      var rest := a[1..];
      FlatSplit(rest, b);
      assert (a + b)[1..] == rest + b;
      assert a[0].items + (Flat(rest) + Flat(b)) == (a[0].items + Flat(rest)) + Flat(b);
    }
  }

  /** Changing the items of one batch changes the queued items by as much. */
  lemma PendingUpdate<R>(q: Queue<R>, k: nat, b: Batch<R>)
    requires k < |q|
    ensures Pending(q[k := b]) + multiset(q[k].items) == Pending(q) + multiset(b.items)
  {
    assert q == q[..k] + ([q[k]] + q[k + 1..]);
    assert q[k := b] == q[..k] + ([b] + q[k + 1..]);
    FlatSplit(q[..k], [q[k]] + q[k + 1..]);
    FlatSplit(q[..k], [b] + q[k + 1..]);
    FlatSplit([q[k]], q[k + 1..]);
    FlatSplit([b], q[k + 1..]);
    FlatOne(q[k]);
    FlatOne(b);
    hide Flat;
  }

  lemma FlatOne<R>(b: Batch<R>)
    ensures Flat([b]) == b.items
  {
    assert [b][1..] == [];
    assert b.items + [] == b.items;
  }

  lemma PendingInsert<R>(q: Queue<R>, k: nat, value: nat, n: nat)
    requires k <= |q|
    ensures Pending(q[..k] + [Batch(value, [], n)] + q[k..]) == Pending(q)
  {
    var b: Batch<R> := Batch(value, [], n);
    assert q[..k] + q[k..] == q;
    assert q[..k] + [b] + q[k..] == q[..k] + ([b] + q[k..]);
    FlatSplit(q[..k], q[k..]);
    FlatSplit(q[..k], [b] + q[k..]);
    FlatSplit([b], q[k..]);
    FlatOne(b);
    hide Flat;
  }

  /** Preparing keeps the order and every queued item, and adds at most one batch, an empty one. */
  lemma PreparedKeeps<R>(q: Queue<R>, value: nat, n: nat)
    requires Sorted(q)
    ensures Sorted(Prepared(q, value, n)) && Pending(Prepared(q, value, n)) == Pending(q)
    ensures forall v, item :: DueAt(Prepared(q, value, n), v, item) <==> DueAt(q, v, item)
  {
    var k := Before(q, value);
    PreparedSorted(q, value, n);
    PreparedDue(q, value, n);
    if Has(q, value) {
      PendingUpdate(q, k, Reserved(q[k], n));
      Cancel(Pending(Prepared(q, value, n)), Pending(q), multiset(q[k].items), multiset{});
    } else {
      PendingInsert(q, k, value, n);
    }
    hide Pending, DueAt, Before, Sorted;
  }

  lemma Cancel<T>(a: multiset<T>, b: multiset<T>, x: multiset<T>, y: multiset<T>)
    requires a + x == b + (x + y)
    ensures a == b + y
  {
    forall t: T
      ensures a[t] == (b + y)[t]
    {
      assert (a + x)[t] == (b + (x + y))[t];
    }
  }

  lemma PreparedSorted<R>(q: Queue<R>, value: nat, n: nat)
    requires Sorted(q)
    ensures Sorted(Prepared(q, value, n))
  {
    var p, k := Prepared(q, value, n), Before(q, value);
    assert k < |q| && q[k].value > value ==> forall i :: k <= i < |q| ==> q[i].value >= q[k].value;
    forall i, j | 0 <= i < j < |p|
      ensures p[i].value < p[j].value
    {
      if !Has(q, value) {
        assert p[i] == if i < k then q[i] else if i == k then Batch(value, [], n) else q[i - 1];
        assert p[j] == if j < k then q[j] else if j == k then Batch(value, [], n) else q[j - 1];
      }
    }
    hide Before;
  }

  lemma PreparedDue<R>(q: Queue<R>, value: nat, n: nat)
    ensures forall v, item :: DueAt(Prepared(q, value, n), v, item) <==> DueAt(q, v, item)
  {
    var p, k := Prepared(q, value, n), Before(q, value);
    forall v, item | DueAt(p, v, item)
      ensures DueAt(q, v, item)
    {
      var i :| 0 <= i < |p| && p[i].value == v && item in p[i].items;
      var j := if i > k && !Has(q, value) then i - 1 else i;
      assert q[j].value == v && item in q[j].items;
    }
    forall v, item | DueAt(q, v, item)
      ensures DueAt(p, v, item)
    {
      var i :| 0 <= i < |q| && q[i].value == v && item in q[i].items;
      var j := if i >= k && !Has(q, value) then i + 1 else i;
      assert p[j].value == v && item in p[j].items;
    }
  }

  /** The reservation covers the pushes that follow it, and the pushes add their items at their value only. */
  lemma PushedKeeps<R>(q: Queue<R>, k: nat, items: seq<Item<R>>)
    requires Sorted(q) && k < |q| && |q[k].items| + |items| <= q[k].room
    ensures Sorted(Pushed(q, k, items)) && Pending(Pushed(q, k, items)) == Pending(q) + multiset(items)
    ensures forall v, item :: DueAt(Pushed(q, k, items), v, item) <==> DueAt(q, v, item) || (v == q[k].value && item in items)
  {
    var b := q[k].(items := q[k].items + items);
    PendingUpdate(q, k, b);
    assert multiset(b.items) == multiset(q[k].items) + multiset(items);
    Cancel(Pending(Pushed(q, k, items)), Pending(q), multiset(q[k].items), multiset(items));
    PushedDue(q, k, items);
    hide Pending, DueAt;
  }

  lemma PushedDue<R>(q: Queue<R>, k: nat, items: seq<Item<R>>)
    requires k < |q|
    ensures forall v, item :: DueAt(Pushed(q, k, items), v, item) <==> DueAt(q, v, item) || (v == q[k].value && item in items)
  {
    var p := Pushed(q, k, items);
    forall v, item
      ensures DueAt(p, v, item) <==> DueAt(q, v, item) || (v == q[k].value && item in items)
    {
      if DueAt(q, v, item) {
        var i :| 0 <= i < |q| && q[i].value == v && item in q[i].items;
        assert p[i].value == v && item in p[i].items;
      }
      if v == q[k].value && item in items {
        assert p[k].value == v && item in p[k].items;
      }
      if DueAt(p, v, item) {
        var i :| 0 <= i < |p| && p[i].value == v && item in p[i].items;
        assert i != k ==> q[i].value == v && item in q[i].items;
      }
    }
  }

  /** In a sorted queue the due batches are those with a completed value, and they come first. */
  lemma DueBatches<R>(q: Queue<R>, completed: nat, i: nat)
    requires Sorted(q) && i < |q|
    ensures q[i].value <= completed <==> i < DueCount(q, completed)
  {
    var n := DueCount(q, completed);
    assert n < |q| && i > n ==> q[n].value < q[i].value;
  }

  /** Removing the due batches splits the queued items in those due and those not. */
  lemma DrainedKeeps<R>(q: Queue<R>, completed: nat)
    requires Sorted(q)
    ensures var n := DueCount(q, completed);
      && Sorted(q[n..]) && Pending(q) == Pending(q[..n]) + Pending(q[n..])
      && (forall v, item :: DueAt(q[n..], v, item) <==> DueAt(q, v, item) && v > completed)
      && (forall v, item :: DueAt(q[..n], v, item) <==> DueAt(q, v, item) && v <= completed)
  {
    var n := DueCount(q, completed);
    assert q[..n] + q[n..] == q;
    FlatSplit(q[..n], q[n..]);
    DrainedDue(q, completed);
    hide Flat, DueAt, DueCount;
  }

  lemma DrainedDue<R>(q: Queue<R>, completed: nat)
    requires Sorted(q)
    ensures var n := DueCount(q, completed);
      && (forall v, item :: DueAt(q[n..], v, item) <==> DueAt(q, v, item) && v > completed)
      && (forall v, item :: DueAt(q[..n], v, item) <==> DueAt(q, v, item) && v <= completed)
  {
    var n := DueCount(q, completed);
    forall i: nat | i < |q|
      ensures q[i].value <= completed <==> i < n
    {
      DueBatches(q, completed, i);
    }
    hide DueCount, Sorted;
    DueSplit(q, n, completed);
  }

  lemma DueSplit<R>(q: Queue<R>, n: nat, completed: nat)
    requires n <= |q| && forall i: nat :: i < |q| ==> (q[i].value <= completed <==> i < n)
    ensures forall v, item :: DueAt(q[n..], v, item) <==> DueAt(q, v, item) && v > completed
    ensures forall v, item :: DueAt(q[..n], v, item) <==> DueAt(q, v, item) && v <= completed
  {
    forall v, item | DueAt(q, v, item)
      ensures if v <= completed then DueAt(q[..n], v, item) else DueAt(q[n..], v, item)
    {
      var i :| 0 <= i < |q| && q[i].value == v && item in q[i].items;
      if i < n {
        assert q[..n][i] == q[i];
      } else {
        assert q[n..][i - n] == q[i];
      }
    }
    forall v, item | DueAt(q[..n], v, item)
      ensures DueAt(q, v, item) && v <= completed
    {
      var i :| 0 <= i < n && q[..n][i].value == v && item in q[..n][i].items;
      assert q[i].value == v && item in q[i].items;
    }
    forall v, item | DueAt(q[n..], v, item)
      ensures DueAt(q, v, item) && v > completed
    {
      var i :| 0 <= i < |q| - n && q[n..][i].value == v && item in q[n..][i].items;
      assert q[n + i].value == v && item in q[n + i].items;
    }
  }

  lemma {:induction false} DueIsQueued<R>(q: Queue<R>, item: Item<R>)
    ensures item in Flat(q) <==> exists v :: DueAt(q, v, item)
  {
    if q != [] {
      DueIsQueued(q[1..], item);
      if v :| DueAt(q[1..], v, item) {
        var i :| 0 <= i < |q| - 1 && q[1..][i].value == v && item in q[1..][i].items;
        assert q[i + 1].value == v && item in q[i + 1].items;
        assert DueAt(q, v, item);
      }
      if item in q[0].items {
        assert DueAt(q, q[0].value, item);
      }
      if v :| DueAt(q, v, item) {
        var i :| 0 <= i < |q| && q[i].value == v && item in q[i].items;
        if i > 0 {
          assert q[1..][i - 1] == q[i];
          assert DueAt(q[1..], v, item);
        }
      }
    }
  }

  /** Which of the allocations behind a reservation succeed: queue slot, batch, items. */
  datatype Storage = Storage(slot: bool, batch: bool, items: bool)

  predicate Available<R>(q: Queue<R>, value: nat, s: Storage) {
    s.items && (Has(q, value) || (s.slot && s.batch))
  }

  /** An item at a value can be stored: in the value's batch when there is one, else in a new one. */
  ghost predicate Storable<R>(q: Queue<R>, value: nat, s: Storage) {
    s.items && ((s.slot && s.batch) || exists i :: 0 <= i < |q| && q[i].value == value)
  }

  /** In a sorted queue the search finds the batch of a value exactly when there is one. */
  lemma AvailableIs<R>(q: Queue<R>, value: nat, s: Storage)
    requires Sorted(q)
    ensures Available(q, value, s) <==> Storable(q, value, s)
  {
    if i :| 0 <= i < |q| && q[i].value == value {
      assert Before(q, value) >= i;
    }
  }

  class RetireQueue<R> {
    var batches: Queue<R>

    constructor ()
      ensures batches == [] && Sorted(batches)
    {
      batches := [];
    }

    /**
     * prepare_retire_batch: the position of the batch for `value`, with room for n more items. Without
     * storage there is none and nothing changes.
     */
    method Prepare(value: nat, n: nat, s: Storage) returns (at: Option<nat>)
      requires Sorted(batches)
      modifies this
      ensures at.Some? <==> Available(old(batches), value, s)
      ensures at == None ==> batches == old(batches)
      ensures at.Some? ==>
        && batches == Prepared(old(batches), value, n) && at.value == Before(old(batches), value) < |batches|
        && batches[at.value].value == value && |batches[at.value].items| + n <= batches[at.value].room
    {
      var i := 0;
      while i < |batches|
        invariant i <= |batches| && batches == old(batches)
        invariant forall j :: 0 <= j < i ==> batches[j].value < value
      {
        if batches[i].value == value {
          assert Before(batches, value) == i;
          if !s.items {
            return None;
          }
          batches := batches[i := Reserved(batches[i], n)];
          return Some(i);
        }
        if batches[i].value > value {
          assert Before(batches, value) == i;
          break;
        }
        i := i + 1;
      }
      assert Before(batches, value) == i;
      if !s.slot || !s.batch || !s.items {
        return None;
      }
      batches := batches[..i] + [Batch(value, [], n)] + batches[i..];
      at := Some(i);
    }

    /** Appends to a batch within its reservation. */
    method Push(at: nat, item: Item<R>)
      requires Sorted(batches) && at < |batches| && |batches[at].items| < batches[at].room
      modifies this
      ensures batches == Pushed(old(batches), at, [item]) && Sorted(batches)
    {
      PushedKeeps(batches, at, [item]);
      batches := Pushed(batches, at, [item]);
    }

    /** enqueue_retire: false, and nothing changes, when the storage cannot be had. */
    method Enqueue(value: nat, item: Item<R>, s: Storage) returns (ok: bool)
      requires Sorted(batches)
      modifies this
      ensures Sorted(batches) && (ok <==> Available(old(batches), value, s))
      ensures batches == if ok then Enqueued(old(batches), value, item) else old(batches)
    {
      PreparedKeeps(batches, value, 1);
      PreparedAt(batches, value, 1);
      hide Sorted, Before, Has, Prepared;
      var at := Prepare(value, 1, s);
      if at == None {
        return false;
      }
      Push(at.value, item);
      ok := true;
    }

    /** The due prefix, taken off the queue. */
    method TakeDue(completed: nat) returns (due: Queue<R>)
      requires Sorted(batches)
      modifies this
      ensures var n := DueCount(old(batches), completed); due == old(batches)[..n] && batches == old(batches)[n..]
    {
      var j := 0;
      while j < |batches| && batches[j].value <= completed
        invariant j <= |batches| && batches == old(batches)
        invariant forall i :: 0 <= i < j ==> batches[i].value <= completed
      {
        j := j + 1;
      }
      assert DueCount(batches, completed) == j;
      due := batches[..j];
      batches := batches[j..];
    }
  }

  /** One more item at a value. */
  function Enqueued<R>(q: Queue<R>, value: nat, item: Item<R>): Queue<R> {
    PreparedAt(q, value, 1);
    Pushed(Prepared(q, value, 1), Before(q, value), [item])
  }

  lemma PreparedAt<R>(q: Queue<R>, value: nat, n: nat)
    ensures var p, k := Prepared(q, value, n), Before(q, value);
      k < |p| && p[k].value == value && |p[k].items| + n <= p[k].room
  {
  }

  lemma EnqueuedKeeps<R>(q: Queue<R>, value: nat, item: Item<R>)
    requires Sorted(q)
    ensures Sorted(Enqueued(q, value, item)) && Pending(Enqueued(q, value, item)) == Pending(q) + multiset{item}
    ensures forall v, x :: DueAt(Enqueued(q, value, item), v, x) <==> DueAt(q, v, x) || (v == value && x == item)
  {
    PreparedKeeps(q, value, 1);
    PreparedAt(q, value, 1);
    PushedKeeps(Prepared(q, value, 1), Before(q, value), [item]);
    hide Pending, DueAt, Prepared, Before, Sorted, Pushed;
  }
}
