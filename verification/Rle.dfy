/** The run-length coders of stbi_write_tga_core and stbiw__write_hdr_scanline against their decoders. */
module Rle {
  import opened Bits

  /** A decoder's result with `done` in front of it. */
  function Prepend<T>(done: seq<T>, rest: Option<seq<T>>): Option<seq<T>> {
    match rest
    case None => None
    case Some(more) => Some(done + more)
  }

  lemma PrependTwice<T>(a: seq<T>, b: seq<T>, rest: Option<seq<T>>)
    ensures Prepend(a, Prepend(b, rest)) == Prepend(a + b, rest)
  {
    if rest.Some? {
      assert a + (b + rest.value) == a + b + rest.value;
    }
  }

  lemma PrependNothing<T>(rest: Option<seq<T>>)
    ensures Prepend([], rest) == rest
  {
    if rest.Some? {
      assert [] + rest.value == rest.value;
    }
  }

  function Repeat<T>(v: T, n: nat): (s: seq<T>)
    ensures |s| == n
  {
    seq(n, _ => v)
  }

  // --- TGA ----------------------------------------------------------------------------------

  /** A pixel as it is written: `size` bytes. */
  type Pixel = seq<byte>

  ghost predicate Pixels(row: seq<Pixel>, size: nat) {
    size >= 1 && forall i :: 0 <= i < |row| ==> |row[i]| == size
  }

  function Flatten(row: seq<Pixel>): seq<byte> {
    if row == [] then [] else row[0] + Flatten(row[1..])
  }

  /** Cuts n pixels off a byte string that holds at least that many. */
  function Cut(s: seq<byte>, size: nat, n: nat): (r: Option<(seq<Pixel>, seq<byte>)>)
    ensures r.Some? ==> |r.value.1| <= |s|
    decreases n
  {
    if n == 0 then Some(([], s))
    else if |s| < size then None
    else match Cut(s[size..], size, n - 1)
      case None => None
      case Some((row, rest)) => Some(([s[..size]] + row, rest))
  }

  /** TGA run-length packets: headers below 128 announce header + 1 raw pixels, others header - 127 copies. */
  function TgaDecode(s: seq<byte>, size: nat): Option<seq<Pixel>>
    decreases |s|
  {
    if s == [] then Some([])
    else if s[0] < 128 then
      match Cut(s[1..], size, s[0] + 1)
      case None => None
      case Some((row, rest)) => Prepend(row, TgaDecode(rest, size))
    else
      match Cut(s[1..], size, 1)
      case None => None
      case Some((row, rest)) => Prepend(Repeat(row[0], s[0] - 127), TgaDecode(rest, size))
  }

  lemma {:induction false} CutFlatten(row: seq<Pixel>, size: nat, tail: seq<byte>)
    requires Pixels(row, size)
    ensures Cut(Flatten(row) + tail, size, |row|) == Some((row, tail))
  {
    if row == [] {
      assert Flatten(row) + tail == tail;
    } else {
      var s := Flatten(row) + tail;
      assert s == row[0] + (Flatten(row[1..]) + tail);
      assert s[..size] == row[0] && s[size..] == Flatten(row[1..]) + tail;
      CutFlatten(row[1..], size, tail);
      assert [row[0]] + row[1..] == row;
    }
  }

  /** In front of anything, `code` stands for the pixels `row`. */
  ghost predicate TgaStandsFor(code: seq<byte>, row: seq<Pixel>, size: nat) {
    forall tail {:trigger code + tail} :: TgaDecode(code + tail, size) == Prepend(row, TgaDecode(tail, size))
  }

  lemma TgaNothing(size: nat)
    ensures TgaStandsFor([], [], size)
  {
    forall tail: seq<byte>
      ensures TgaDecode([] + tail, size) == Prepend([], TgaDecode(tail, size))
    {
      assert [] + tail == tail;
      PrependNothing(TgaDecode(tail, size));
    }
  }

  lemma TgaCompose(a: seq<byte>, x: seq<Pixel>, b: seq<byte>, y: seq<Pixel>, size: nat)
    requires TgaStandsFor(a, x, size) && TgaStandsFor(b, y, size)
    ensures TgaStandsFor(a + b, x + y, size)
  {
    hide TgaDecode;
    forall tail: seq<byte>
      ensures TgaDecode(a + b + tail, size) == Prepend(x + y, TgaDecode(tail, size))
    {
      assert a + b + tail == a + (b + tail);
      PrependTwice(x, y, TgaDecode(tail, size));
    }
  }

  lemma TgaRaw(row: seq<Pixel>, size: nat)
    requires Pixels(row, size) && 1 <= |row| <= 128
    ensures TgaStandsFor([(|row| - 1) as byte] + Flatten(row), row, size)
  {
    hide TgaDecode, Cut, Flatten;
    forall tail: seq<byte>
      ensures TgaDecode([(|row| - 1) as byte] + Flatten(row) + tail, size) == Prepend(row, TgaDecode(tail, size))
    {
      var s := [(|row| - 1) as byte] + Flatten(row) + tail;
      assert s[1..] == Flatten(row) + tail;
      CutFlatten(row, size, tail);
      TgaRawHeader(s, size, row, tail);
    }
  }

  lemma TgaRawHeader(s: seq<byte>, size: nat, row: seq<Pixel>, tail: seq<byte>)
    requires s != [] && s[0] < 128 && |row| == s[0] + 1 && Cut(s[1..], size, |row|) == Some((row, tail))
    ensures TgaDecode(s, size) == Prepend(row, TgaDecode(tail, size))
  {
  }

  lemma TgaRunHeader(s: seq<byte>, size: nat, pixel: Pixel, tail: seq<byte>)
    requires s != [] && s[0] >= 128 && Cut(s[1..], size, 1) == Some(([pixel], tail))
    ensures TgaDecode(s, size) == Prepend(Repeat(pixel, s[0] - 127), TgaDecode(tail, size))
  {
  }

  lemma TgaRun(pixel: Pixel, n: nat, size: nat)
    requires |pixel| == size >= 1 && 1 <= n <= 128
    ensures TgaStandsFor([(n + 127) as byte] + pixel, Repeat(pixel, n), size)
  {
    hide TgaDecode, Cut;
    forall tail: seq<byte>
      ensures TgaDecode([(n + 127) as byte] + pixel + tail, size) == Prepend(Repeat(pixel, n), TgaDecode(tail, size))
    {
      var s := [(n + 127) as byte] + pixel + tail;
      OnePixel(pixel);
      assert s[1..] == Flatten([pixel]) + tail;
      CutFlatten([pixel], size, tail);
      TgaRunHeader(s, size, pixel, tail);
    }
  }

  lemma OnePixel(pixel: Pixel)
    ensures Flatten([pixel]) == pixel
  {
    assert Flatten([]) == [];
    assert pixel + [] == pixel;
  }

  /** A scan result: `len` pixels from i, all equal unless it is a raw packet. */
  ghost predicate Packet(row: seq<Pixel>, i: nat, len: nat, raw: bool) {
    && 1 <= len <= 128 && i + len <= |row|
    && (!raw ==> row[i..i + len] == Repeat(row[i], len))
  }

  /**
   * Where the scan stops. A run goes as far as it can. A raw packet goes on while each pixel differs from the
   * one two before it, and gives back its last pixel when one does not.
   */
  ghost predicate Stops(row: seq<Pixel>, i: nat, len: nat, raw: bool)
    requires i < |row| && 1 <= len && i + len <= |row|
  {
    if !raw then len == 128 || i + len == |row| || row[i + len] != row[i]
    else
      && (forall j :: i + 2 <= j < i + len ==> row[j] != row[j - 2])
      && (len == 128 || i + len == |row| || (i + len + 1 < |row| && row[i + len + 1] == row[i + len - 1]))
  }

  /** The scan for the next packet of a row: a run exactly when the next two pixels are equal. */
  method TgaScan(row: seq<Pixel>, i: nat) returns (len: nat, raw: bool)
    requires i < |row|
    ensures Packet(row, i, len, raw) && Stops(row, i, len, raw)
    ensures raw <==> i + 1 == |row| || row[i] != row[i + 1]
  {
    raw := true;
    len := 1;
    if i < |row| - 1 {
      len := len + 1;
      raw := row[i] != row[i + 1];
      var k := i + 2;
      if raw {
        var prev := i;
        while k < |row| && len < 128
          invariant k == i + len <= |row| && 2 <= len <= 128 && prev == i + len - 2
          invariant forall j :: i + 2 <= j < k ==> row[j] != row[j - 2]
        {
          if row[prev] != row[k] {
            prev := prev + 1;
            len := len + 1;
          } else {
            len := len - 1;
            break;
          }
          k := k + 1;
        }
      } else {
        while k < |row| && len < 128
          invariant k == i + len <= |row| && 2 <= len <= 128
          invariant forall j :: i <= j < k ==> row[j] == row[i]
        {
          if row[i] == row[k] {
            len := len + 1;
          } else {
            break;
          }
          k := k + 1;
        }
      }
    }
  }

  /** Writes pixels one after another. */
  method WritePixels(row: seq<Pixel>) returns (out: seq<byte>)
    ensures out == Flatten(row)
  {
    out := [];
    var k := 0;
    while k < |row|
      invariant 0 <= k <= |row| && out + Flatten(row[k..]) == Flatten(row)
    {
      assert row[k..][1..] == row[k + 1..];
      out := out + row[k];
      k := k + 1;
    }
    assert row[k..] == [];
  }

  /** The packet of a scan result. */
  method TgaPacket(row: seq<Pixel>, i: nat, len: nat, raw: bool, size: nat) returns (code: seq<byte>)
    requires Pixels(row, size) && i < |row| && Packet(row, i, len, raw)
    ensures TgaStandsFor(code, row[i..i + len], size)
  {
    hide TgaStandsFor, Flatten;
    if raw {
      var pixels := WritePixels(row[i..i + len]);
      code := [((len - 1) % 256) as byte] + pixels;
      TgaRaw(row[i..i + len], size);
    } else {
      code := [((len - 129) % 256) as byte] + row[i];
      TgaRun(row[i], len, size);
    }
  }

  /** One row of stbi_write_tga_core. */
  method TgaEncode(row: seq<Pixel>, size: nat) returns (out: seq<byte>)
    requires Pixels(row, size)
    ensures TgaDecode(out, size) == Some(row)
  {
    hide TgaStandsFor;
    out := [];
    var i := 0;
    TgaNothing(size);
    assert row[..0] == [];
    while i < |row|
      invariant 0 <= i <= |row| && TgaStandsFor(out, row[..i], size)
    {
      var len, raw := TgaScan(row, i);
      var code := TgaPacket(row, i, len, raw, size);
      TgaCompose(out, row[..i], code, row[i..i + len], size);
      assert row[..i] + row[i..i + len] == row[..i + len];
      out := out + code;
      i := i + len;
    }
    assert row[..i] == row;
    TgaComplete(out, row, size);
  }

  lemma TgaComplete(code: seq<byte>, row: seq<Pixel>, size: nat)
    requires TgaStandsFor(code, row, size)
    ensures TgaDecode(code, size) == Some(row)
  {
    assert code + [] == code && row + [] == row;
  }

  // --- Radiance HDR -------------------------------------------------------------------------

  /** Codes above 128 announce a run of code - 128 copies, others a dump of that many bytes; 0 is invalid. */
  function HdrDecode(s: seq<byte>): Option<seq<byte>>
    decreases |s|
  {
    if s == [] then Some([])
    else if s[0] > 128 then
      if |s| < 2 then None else Prepend(Repeat(s[1], s[0] - 128), HdrDecode(s[2..]))
    else if s[0] == 0 || |s| < 1 + s[0] then None
    else Prepend(s[1..1 + s[0]], HdrDecode(s[1 + s[0]..]))
  }

  ghost predicate HdrStandsFor(code: seq<byte>, plane: seq<byte>) {
    forall tail {:trigger code + tail} :: HdrDecode(code + tail) == Prepend(plane, HdrDecode(tail))
  }

  lemma HdrNothing()
    ensures HdrStandsFor([], [])
  {
    forall tail: seq<byte>
      ensures HdrDecode([] + tail) == Prepend([], HdrDecode(tail))
    {
      assert [] + tail == tail;
      PrependNothing(HdrDecode(tail));
    }
  }

  lemma HdrCompose(a: seq<byte>, x: seq<byte>, b: seq<byte>, y: seq<byte>)
    requires HdrStandsFor(a, x) && HdrStandsFor(b, y)
    ensures HdrStandsFor(a + b, x + y)
  {
    hide HdrDecode;
    forall tail: seq<byte>
      ensures HdrDecode(a + b + tail) == Prepend(x + y, HdrDecode(tail))
    {
      assert a + b + tail == a + (b + tail);
      PrependTwice(x, y, HdrDecode(tail));
    }
  }

  lemma HdrDump(bytes: seq<byte>)
    requires 1 <= |bytes| <= 128
    ensures HdrStandsFor([|bytes| as byte] + bytes, bytes)
  {
    forall tail: seq<byte>
      ensures HdrDecode([|bytes| as byte] + bytes + tail) == Prepend(bytes, HdrDecode(tail))
    {
      var s := [|bytes| as byte] + bytes + tail;
      assert s[1..1 + |bytes|] == bytes && s[1 + |bytes|..] == tail;
    }
  }

  lemma HdrRun(b: byte, n: nat)
    requires 1 <= n <= 127
    ensures HdrStandsFor([(n + 128) as byte, b], Repeat(b, n))
  {
    forall tail: seq<byte>
      ensures HdrDecode([(n + 128) as byte, b] + tail) == Prepend(Repeat(b, n), HdrDecode(tail))
    {
      var s := [(n + 128) as byte, b] + tail;
      assert s[2..] == tail;
    }
  }

  /** The scan for the first run of three equal bytes; the end of the plane when there is none. */
  method FirstRun(comp: seq<byte>, x: nat) returns (r: nat)
    requires x < |comp|
    ensures x <= r <= |comp|
    ensures r < |comp| <==> exists k :: x <= k && k + 2 < |comp| && comp[k] == comp[k + 1] == comp[k + 2]
    ensures r < |comp| ==> r + 2 < |comp| && comp[r] == comp[r + 1] == comp[r + 2]
  {
    r := x;
    while r + 2 < |comp| && !(comp[r] == comp[r + 1] && comp[r] == comp[r + 2])
      invariant x <= r <= |comp|
      invariant forall k :: x <= k < r && k + 2 < |comp| ==> !(comp[k] == comp[k + 1] == comp[k + 2])
    {
      r := r + 1;
    }
    if r + 2 >= |comp| {
      r := |comp|;
    }
  }

  /** Dumps of at most 128 bytes up to r. */
  method DumpTo(comp: seq<byte>, start: nat, r: nat) returns (out: seq<byte>)
    requires start <= r <= |comp|
    ensures HdrStandsFor(out, comp[start..r])
  {
    hide HdrStandsFor;
    out := [];
    var x := start;
    HdrNothing();
    assert comp[start..x] == [];
    while x < r
      invariant start <= x <= r && HdrStandsFor(out, comp[start..x])
    {
      var len := r - x;
      if len > 128 { len := 128; }
      HdrDump(comp[x..x + len]);
      HdrCompose(out, comp[start..x], [len as byte] + comp[x..x + len], comp[x..x + len]);
      assert comp[start..x] + comp[x..x + len] == comp[start..x + len];
      out := out + ([len as byte] + comp[x..x + len]);
      x := x + len;
    }
  }

  /** Runs of at most 127 copies up to r. */
  method RunTo(comp: seq<byte>, start: nat, r: nat) returns (out: seq<byte>)
    requires start <= r <= |comp| && forall k :: start <= k < r ==> comp[k] == comp[start]
    ensures HdrStandsFor(out, comp[start..r])
  {
    hide HdrStandsFor;
    out := [];
    var x := start;
    HdrNothing();
    assert comp[start..x] == [];
    while x < r
      invariant start <= x <= r && HdrStandsFor(out, comp[start..x])
    {
      var len := r - x;
      if len > 127 { len := 127; }
      HdrRun(comp[x], len);
      assert comp[x..x + len] == Repeat(comp[x], len);
      HdrCompose(out, comp[start..x], [(len + 128) as byte, comp[x]], comp[x..x + len]);
      assert comp[start..x] + comp[x..x + len] == comp[start..x + len];
      out := out + [(len + 128) as byte, comp[x]];
      x := x + len;
    }
  }

  /** One component plane of stbiw__write_hdr_scanline. */
  method HdrEncode(comp: seq<byte>) returns (out: seq<byte>)
    ensures HdrDecode(out) == Some(comp)
  {
    hide HdrStandsFor;
    out := [];
    var x := 0;
    HdrNothing();
    assert comp[..0] == [];
    while x < |comp|
      invariant 0 <= x <= |comp| && HdrStandsFor(out, comp[..x])
    {
      var r := FirstRun(comp, x);
      var code := DumpTo(comp, x, r);
      HdrCompose(out, comp[..x], code, comp[x..r]);
      assert comp[..x] + comp[x..r] == comp[..r];
      out := out + code;
      x := r;
      if r < |comp| {
        while r < |comp| && comp[r] == comp[x]
          invariant x <= r <= |comp| && forall k :: x <= k < r ==> comp[k] == comp[x]
        {
          r := r + 1;
        }
        code := RunTo(comp, x, r);
        HdrCompose(out, comp[..x], code, comp[x..r]);
        assert comp[..x] + comp[x..r] == comp[..r];
        out := out + code;
        x := r;
      }
    }
    assert comp[..x] == comp;
    HdrComplete(out, comp);
  }

  lemma HdrComplete(code: seq<byte>, plane: seq<byte>)
    requires HdrStandsFor(code, plane)
    ensures HdrDecode(code) == Some(plane)
  {
    assert code + [] == code && plane + [] == plane;
  }
}
