/** The Adler-32 checksum of RFC 1950 and the chunked loop that computes it without 32-bit overflow. */
module Adler {
  import opened Bits

  const BASE: nat := 65521

  /** The sums s1 and s2 of section 8.2 of RFC 1950, reduced after every byte. */
  function Sums(s: seq<byte>): (r: (nat, nat))
    ensures r.0 < BASE && r.1 < BASE
  {
    if s == [] then (1, 0)
    else
      var (a, b) := Sums(s[..|s| - 1]);
      var a' := (a + s[|s| - 1]) % BASE;
      (a', (b + a') % BASE)
  }

  function Checksum(s: seq<byte>): nat {
    65536 * Sums(s).1 + Sums(s).0
  }

  /** Largest value of the unreduced second sum after k bytes of a chunk. */
  function Bound2(k: nat): nat {
    if k == 0 then 65520 else Bound2(k - 1) + 65520 + 255 * k
  }

  lemma {:induction false} Bound2Closed(k: nat)
    ensures 2 * Bound2(k) == 131040 + 131040 * k + 255 * (k * k + k)
  {
    if k > 0 {
      Bound2Closed(k - 1);
      assert (k - 1) * (k - 1) == k * k - 2 * k + 1;
    }
  }

  lemma {:induction false} Bound2Monotone(j: nat, k: nat)
    requires j <= k
    ensures Bound2(j) <= Bound2(k)
  {
    if j < k {
      Bound2Monotone(j, k - 1);
    }
  }

  /** 5552 is the longest chunk for which the second sum stays below 2^32. */
  lemma ChunkLimit(k: nat)
    ensures Bound2(k) < 0x1_0000_0000 <==> k <= 5552
  {
    Bound2Closed(5552);
    Bound2Closed(5553);
    if k <= 5552 {
      Bound2Monotone(k, 5552);
    } else {
      Bound2Monotone(5553, k);
    }
  }

  /** Deferring the reductions of one more byte changes neither sum modulo 65521. */
  lemma DeferredStep(data: seq<byte>, n: nat, s1: nat, s2: nat)
    requires n < |data| && (s1 % BASE, s2 % BASE) == Sums(data[..n])
    ensures ((s1 + data[n]) % BASE, (s2 + (s1 + data[n])) % BASE) == Sums(data[..n + 1])
  {
    var upto := data[..n + 1];
    assert upto[..|upto| - 1] == data[..n] && upto[|upto| - 1] == data[n];
    AddReduced(s1, data[n]);
    AddReduced(s2, s1 + data[n]);
  }

  lemma AddReduced(a: nat, b: nat)
    ensures (a % BASE + b) % BASE == (a % BASE + b % BASE) % BASE == (a + b) % BASE
  {
  }

  lemma NextBound(i: nat)
    ensures Bound2(0) == 65520 && Bound2(i + 1) == Bound2(i) + 65520 + 255 * (i + 1)
  {
  }

  function Total(s: seq<byte>): nat {
    if s == [] then 0 else (s[0] as nat) + Total(s[1..])
  }

  /** Each byte as often as there are bytes from it on. */
  function Weighted(s: seq<byte>): nat {
    if s == [] then 0 else |s| * (s[0] as nat) + Weighted(s[1..])
  }

  lemma {:induction false} SumsAppend(s: seq<byte>, x: byte)
    ensures Total(s + [x]) == Total(s) + x && Weighted(s + [x]) == Weighted(s) + Total(s) + x
  {
    if s == [] {
      assert [x][1..] == [];
    } else {
      assert (s + [x])[1..] == s[1..] + [x];
      SumsAppend(s[1..], x);
      assert (|s| + 1) * (s[0] as nat) == |s| * (s[0] as nat) + s[0];
    }
  }

  /** The two sums without intermediate reductions: 1 and the bytes; their number and the bytes by position from the end. */
  lemma {:induction false} SumsClosed(s: seq<byte>)
    ensures Sums(s) == ((1 + Total(s)) % 65521, (|s| + Weighted(s)) % 65521)
  {
    if s != [] {
      var n := |s| - 1;
      SumsClosed(s[..n]);
      assert s[..n + 1] == s[..n] + [s[n]] == s;
      SumsAppend(s[..n], s[n]);
      hide Total, Weighted;
      DeferredStep(s, n, 1 + Total(s[..n]), n + Weighted(s[..n]));
      hide Sums;
    }
  }

  /** One chunk: both sums are reduced only at its end, and stay below 2^32 until then. */
  method AddChunk(data: seq<byte>, j: nat, blocklen: nat, a1: nat, a2: nat) returns (s1: nat, s2: nat)
    requires j + blocklen <= |data| && blocklen <= 5552 && (a1, a2) == Sums(data[..j])
    ensures (s1, s2) == Sums(data[..j + blocklen])
  {
    s1, s2 := a1, a2;
    var i := 0;
    NextBound(0);
    while i < blocklen
      invariant 0 <= i <= blocklen
      invariant (s1 % BASE, s2 % BASE) == Sums(data[..j + i])
      invariant s1 <= 65520 + 255 * i && s2 <= Bound2(i)
    {
      hide Sums, Bound2;
      ChunkLimit(i + 1);
      NextBound(i);
      DeferredStep(data, j + i, s1, s2);
      s1 := s1 + data[j + i];
      s2 := s2 + s1;
      assert s1 < 0x1_0000_0000 && s2 < 0x1_0000_0000;  // no 32-bit wrap-around
      i := i + 1;
    }
    s1, s2 := s1 % BASE, s2 % BASE;
  }

  /** The checksum loop of stbi_zlib_compress: the remainder chunk first, then chunks of 5552 bytes. */
  method ComputeAdler(data: seq<byte>) returns (s1: nat, s2: nat)
    ensures (s1, s2) == Sums(data)
  {
    s1, s2 := 1, 0;
    var blocklen := |data| % 5552;
    var j := 0;
    ghost var chunks: int := |data| / 5552;
    assert data[..0] == [];
    while j < |data|
      invariant 0 <= j <= |data| && 0 <= blocklen <= 5552
      invariant |data| == j + blocklen + 5552 * chunks
      invariant chunks >= 0 || (chunks == -1 && j == |data|)
      invariant (s1, s2) == Sums(data[..j])
      decreases chunks
    {
      s1, s2 := AddChunk(data, j, blocklen, s1, s2);
      j := j + blocklen;
      blocklen := 5552;
      chunks := chunks - 1;
    }
    assert data[..j] == data;
  }
}
