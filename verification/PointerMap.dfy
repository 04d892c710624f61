/** GPU addresses (device.cpp): alignment in malloc, the sorted address map, and lookup by binary search. */
module PointerMap {
  import opened Bits

  const U64: nat := 0x1_0000_0000_0000_0000
  const MAX_ALIGN: nat := 0x100_0000

  // --- Alignment --------------------------------------------------------------------------

  /** Bitwise and. */
  function And(a: nat, b: nat): nat
    decreases a
  {
    if a == 0 || b == 0 then 0 else (if a % 2 == 1 && b % 2 == 1 then 1 else 0) + 2 * And(a / 2, b / 2)
  }

  lemma {:induction false} AndSelf(a: nat)
    ensures And(a, a) == a
  {
    if a > 0 {
      AndSelf(a / 2);
    }
  }

  ghost predicate PowerOfTwo(n: nat) {
    exists k: nat :: Pow2(k) == n
  }

  /** The test `(align & (align - 1)) != 0` rejects exactly what is not a power of two. */
  lemma {:induction false} PowerTest(n: nat)
    requires n > 0
    ensures And(n, n - 1) == 0 <==> PowerOfTwo(n)
  {
    if n == 1 {
      assert Pow2(0) == 1;
    } else if n % 2 == 1 {
      AndSelf(n / 2);
      assert And(n, n - 1) == 2 * And(n / 2, n / 2);
      forall k: nat
        ensures Pow2(k) != n
      {
        assert k > 0 ==> Pow2(k) % 2 == 0;
      }
    } else {
      PowerTest(n / 2);
      assert (n - 1) / 2 == n / 2 - 1;
      assert And(n, n - 1) == 2 * And(n / 2, n / 2 - 1);
      if k: nat :| Pow2(k) == n {
        assert Pow2(k - 1) == n / 2;
      }
      if k: nat :| Pow2(k) == n / 2 {
        assert Pow2(k + 1) == n;
      }
    }
  }

  /** Masking with ~(2^k - 1) on n bits rounds down to a multiple of 2^k. */
  lemma {:induction false} MaskLow(x: nat, k: nat, n: nat)
    requires k <= n && x < Pow2(n)
    ensures Pow2(k) <= Pow2(n)
    ensures And(x, Pow2(n) - Pow2(k)) == x - x % Pow2(k)
    decreases n
  {
    if k == 0 {
      MaskAll(x, n);
    } else {
      MaskLow(x / 2, k - 1, n - 1);
      var m := Pow2(n - 1) - Pow2(k - 1);
      assert Pow2(n) - Pow2(k) == 2 * m;
      assert And(x, 2 * m) == 2 * And(x / 2, m);
      HalfMod(x, Pow2(k - 1));
    }
  }

  lemma HalfMod(x: nat, p: nat)
    requires p > 0
    ensures x % (2 * p) == 2 * (x / 2 % p) + x % 2
  {
    var q, r := x / 2 / p, x / 2 % p;
    assert x / 2 == q * p + r;
    assert x == (2 * p) * q + (2 * r + x % 2);
    ModUnique(x, 2 * p, q, 2 * r + x % 2);
  }

  lemma MulAtLeast(d: nat, t: nat)
    requires t >= 1
    ensures d * t >= d
  {
  }

  lemma ModUnique(x: nat, d: nat, q: nat, r: nat)
    requires d > 0 && x == d * q + r && r < d
    ensures x % d == r
  {
    var q2, r2 := x / d, x % d;
    DivMod(x, d);
    if q > q2 {
      MulAtLeast(d, q - q2);
      Distribute(d, q, q2);
      assert false;
    } else if q < q2 {
      MulAtLeast(d, q2 - q);
      Distribute(d, q2, q);
      assert false;
    }
  }

  lemma DivMod(x: nat, d: nat)
    requires d > 0
    ensures x == d * (x / d) + x % d && x % d < d
  {
  }

  lemma Distribute(d: nat, a: nat, b: nat)
    ensures d * (a - b) == d * a - d * b
  {
  }

  lemma {:induction false} MaskAll(x: nat, n: nat)
    requires x < Pow2(n)
    ensures And(x, Pow2(n) - 1) == x && Pow2(n) >= 1
  {
    if n > 0 {
      MaskAll(x / 2, n - 1);
      assert (Pow2(n) - 1) / 2 == Pow2(n - 1) - 1 && (Pow2(n) - 1) % 2 == 1;
    }
  }

  lemma {:induction false} PowAdd(a: nat, b: nat)
    ensures Pow2(a + b) == Pow2(a) * Pow2(b)
  {
    if a > 0 {
      PowAdd(a - 1, b);
      assert Pow2(a + b) == 2 * (Pow2(a - 1) * Pow2(b));
      assert 2 * (Pow2(a - 1) * Pow2(b)) == (2 * Pow2(a - 1)) * Pow2(b);
    }
  }

  lemma Pow64()
    ensures Pow2(64) == U64
  {
    assert Pow2(4) == 16;
    PowAdd(4, 4);
    PowAdd(8, 8);
    PowAdd(16, 16);
    PowAdd(32, 32);
  }

  /** (x + (align - 1)) & ~(align - 1), on 64 bits. */
  function AlignUp(x: nat, align: nat): nat
    requires 0 < align <= U64
  {
    And(x + (align - 1), U64 - align)
  }

  /** The least multiple of a power of two at or above x, when the sum does not wrap. */
  lemma AlignUpIs(x: nat, align: nat)
    requires 0 < align <= MAX_ALIGN && PowerOfTwo(align) && x + (align - 1) < U64
    ensures x <= AlignUp(x, align) < x + align && AlignUp(x, align) % align == 0
  {
    var k: nat :| Pow2(k) == align;
    Pow64();
    if k > 64 {
      PowAdd(64, k - 64);
      MulAtLeast(U64, Pow2(k - 64));
      assert false;
    }
    var y := x + (align - 1);
    MaskLow(y, k, 64);
    DivMod(y, align);
    ModUnique(y - y % align, align, y / align, 0);
    hide And, Pow2;
  }

  // --- malloc -----------------------------------------------------------------------------

  /** A buffer: its backing range, and the user's aligned range inside. */
  datatype Buffer = Buffer(backing: nat, backingSize: nat, user: nat, size: nat, offset: nat)

  /** malloc's checks and arithmetic, for the address the driver gives the backing buffer. */
  function Place(bytes: nat, align: nat, backing: nat): Option<Buffer> {
    var al := if align == 0 then 1 else align;
    if And(al, al - 1) != 0 || al > MAX_ALIGN || bytes == 0 || bytes > U64 - 1 - (al - 1) then None
    else if backing > U64 - 1 - (al - 1) then None
    else
      var user, backingSize := AlignUp(backing, al), bytes + (al - 1);
      if user < backing || user - backing > backingSize || bytes > backingSize - (user - backing) then None
      else Some(Buffer(backing, backingSize, user, bytes, user - backing))
  }

  /** The user's range is aligned and inside the backing range. */
  predicate Inside(b: Buffer) {
    && b.size > 0 && b.backing <= b.user && b.offset == b.user - b.backing
    && b.offset + b.size <= b.backingSize
  }

  /**
   * malloc fails for its documented reasons only: the final range check never does. What it returns is
   * aligned, has the requested size, and lies inside the backing range.
   */
  lemma PlaceIs(bytes: nat, align: nat, backing: nat)
    requires bytes < U64 && backing < U64
    ensures var al, r := if align == 0 then 1 else align, Place(bytes, align, backing);
      && (r.Some? <==> PowerOfTwo(al) && al <= MAX_ALIGN && bytes > 0 && bytes + (al - 1) < U64 && backing + (al - 1) < U64)
      && (r.Some? ==> Inside(r.value) && r.value.user % al == 0 && r.value.size == bytes && r.value.backing == backing)
  {
    var al := if align == 0 then 1 else align;
    PowerTest(al);
    if PowerOfTwo(al) && al <= MAX_ALIGN && backing + (al - 1) < U64 {
      AlignUpIs(backing, al);
    }
    hide And, AlignUp, PowerOfTwo;
  }

  // --- The address map --------------------------------------------------------------------

  /** [ptr, ptr + size) lies in the user's range; for size 0, ptr does. */
  predicate Contains(b: Buffer, ptr: nat, size: nat) {
    b.user <= ptr < b.user + b.size && ptr + size <= b.user + b.size
  }

  predicate Disjoint(a: Buffer, b: Buffer) {
    a.backing + a.backingSize <= b.backing || b.backing + b.backingSize <= a.backing
  }

  /** Sorted by user address, the user ranges not overlapping. */
  ghost predicate Sorted(table: seq<Buffer>) {
    && (forall i :: 0 <= i < |table| ==> Inside(table[i]))
    && forall i, j :: 0 <= i < j < |table| ==> table[i].user + table[i].size <= table[j].user
  }

  /** At most one live allocation holds an address. */
  lemma OneHolder(table: seq<Buffer>, i: nat, j: nat, ptr: nat)
    requires Sorted(table) && i < |table| && j < |table| && Contains(table[i], ptr, 0) && Contains(table[j], ptr, 0)
    ensures i == j
  {
  }

  /** Where a new buffer belongs: disjoint backing ranges keep the user ranges apart. */
  lemma InsertSorted(table: seq<Buffer>, k: nat, b: Buffer)
    requires Sorted(table) && k <= |table| && Inside(b) && forall i :: 0 <= i < |table| ==> Disjoint(table[i], b)
    requires forall i :: 0 <= i < k ==> table[i].user < b.user
    requires forall i :: k <= i < |table| ==> b.user <= table[i].user
    ensures Sorted(table[..k] + [b] + table[k..])
  {
    var r := table[..k] + [b] + table[k..];
    forall i, j | 0 <= i < j < |r|
      ensures r[i].user + r[i].size <= r[j].user
    {
      assert r[i] == if i < k then table[i] else if i == k then b else table[i - 1];
      assert r[j] == if j < k then table[j] else if j == k then b else table[j - 1];
    }
  }

  /** One allocation less. */
  lemma RemovedAt(entries: seq<Buffer>, k: nat)
    requires Sorted(entries) && k < |entries|
    ensures var rest := entries[..k] + entries[k + 1..];
      && Sorted(rest) && multiset(entries) == multiset(rest) + multiset{entries[k]}
      && forall i :: 0 <= i < |rest| ==> rest[i].user != entries[k].user
  {
    assert entries == entries[..k] + [entries[k]] + entries[k + 1..];
  }

  class AddressMap {
    var entries: seq<Buffer>

    constructor ()
      ensures Sorted(entries) && entries == []
    {
      entries := [];
    }

    /** malloc, the driver having placed the backing buffer apart from all live ones. */
    method Malloc(bytes: nat, align: nat, backing: nat) returns (ptr: nat)
      requires Sorted(entries) && bytes < U64 && backing < U64
      requires var b := Place(bytes, align, backing);
        b.Some? ==> forall i :: 0 <= i < |entries| ==> Disjoint(entries[i], b.value)
      modifies this
      ensures Sorted(entries)
      ensures Place(bytes, align, backing) == None ==> ptr == 0 && entries == old(entries)
      ensures Place(bytes, align, backing).Some? ==>
        ptr == Place(bytes, align, backing).value.user
        && multiset(entries) == multiset(old(entries)) + multiset{Place(bytes, align, backing).value}
    {
      PlaceIs(bytes, align, backing);
      hide Place, PowerOfTwo, Disjoint;
      var b := Place(bytes, align, backing);
      if b == None {
        return 0;
      }
      var lo := LowerBound(b.value.user);
      InsertSorted(entries, lo, b.value);
      assert entries == entries[..lo] + entries[lo..];
      entries := entries[..lo] + [b.value] + entries[lo..];
      ptr := b.value.user;
    }

    /** The binary search of malloc: the first entry at or above an address. */
    method LowerBound(address: nat) returns (lo: nat)
      requires Sorted(entries)
      ensures lo <= |entries|
      ensures forall i :: 0 <= i < lo ==> entries[i].user < address
      ensures forall i :: lo <= i < |entries| ==> address <= entries[i].user
    {
      lo := 0;
      var hi := |entries|;
      while lo < hi
        invariant lo <= hi <= |entries|
        invariant forall i :: 0 <= i < lo ==> entries[i].user < address
        invariant forall i :: hi <= i < |entries| ==> address <= entries[i].user
      {
        var mid := (lo + hi) / 2;
        if entries[mid].user < address {
          lo := mid + 1;
        } else {
          hi := mid;
        }
      }
    }

    /** The binary search of free and free_after: the entry with exactly this address. */
    method Find(ptr: nat) returns (k: Option<nat>)
      requires Sorted(entries)
      ensures k.Some? ==> k.value < |entries| && entries[k.value].user == ptr
      ensures k == None ==> forall i :: 0 <= i < |entries| ==> entries[i].user != ptr
    {
      var lo, hi := 0, |entries|;
      while lo < hi
        invariant lo <= hi <= |entries|
        invariant forall i :: 0 <= i < lo ==> entries[i].user < ptr
        invariant forall i :: hi <= i < |entries| ==> ptr < entries[i].user
      {
        var mid := (lo + hi) / 2;
        if entries[mid].user == ptr {
          return Some(mid);
        }
        if entries[mid].user < ptr {
          lo := mid + 1;
        } else {
          hi := mid;
        }
      }
      k := None;
    }

    /** free and free_after: the allocation at exactly this address leaves the map; any other is a no-op. */
    method Remove(ptr: nat) returns (b: Option<Buffer>)
      requires Sorted(entries)
      modifies this
      ensures Sorted(entries)
      ensures b.Some? <==> exists i :: 0 <= i < |old(entries)| && old(entries)[i].user == ptr
      ensures b == None ==> entries == old(entries)
      ensures b.Some? ==> b.value.user == ptr && multiset(old(entries)) == multiset(entries) + multiset{b.value}
      ensures forall i :: 0 <= i < |entries| ==> entries[i].user != ptr
    {
      var k := Find(ptr);
      if k == None {
        return None;
      }
      b := Some(entries[k.value]);
      RemovedAt(entries, k.value);
      hide Sorted;
      entries := entries[..k.value] + entries[k.value + 1..];
    }

    /**
     * find_buffer_range: the offset of [ptr, ptr + size) in the backing buffer of the live allocation that
     * contains it. It fails exactly when none does.
     */
    method FindRange(ptr: nat, size: nat) returns (r: Option<(Buffer, nat)>)
      requires Sorted(entries)
      ensures r.Some? <==> exists i :: 0 <= i < |entries| && Contains(entries[i], ptr, size)
      ensures r.Some? ==>
        && r.value.0 in entries && Contains(r.value.0, ptr, size)
        && r.value.1 == ptr - r.value.0.backing && r.value.1 + size <= r.value.0.backingSize
    {
      var lo, hi := 0, |entries|;
      var best: Option<nat> := None;
      while lo < hi
        invariant lo <= hi <= |entries|
        invariant best == if lo == 0 then None else Some(lo - 1)
        invariant forall i :: 0 <= i < lo ==> entries[i].user <= ptr
        invariant forall i :: hi <= i < |entries| ==> ptr < entries[i].user
      {
        var mid := (lo + hi) / 2;
        if entries[mid].user <= ptr {
          best := Some(mid);
          lo := mid + 1;
        } else {
          hi := mid;
        }
      }
      if best == None {
        return None;
      }
      var buffer := entries[best.value];
      var rel := ptr - buffer.user;
      if rel < buffer.size && size <= buffer.size - rel {
        assert Contains(entries[best.value], ptr, size);
        return Some((buffer, buffer.offset + rel));
      }
      forall i | 0 <= i < |entries|
        ensures !Contains(entries[i], ptr, size)
      {
        if i < best.value {
          assert entries[i].user + entries[i].size <= buffer.user;
        }
      }
      r := None;
    }
  }
}
