/** Scanline filtering of stbi_write_png_to_mem and its inverse, section 9 of the PNG specification. */
module Png {
  import opened Bits
  import Zlib
  import Inflate
  import Deflate

  // --- The filters of the standard --------------------------------------------------------

  function Abs(x: int): nat {
    if x < 0 then -x else x
  }

  /** stbiw__paeth: whichever of left, above and upper left is nearest to a + b - c, preferred in that order. */
  function Paeth(a: byte, b: byte, c: byte): (r: byte)
    ensures r == a || r == b || r == c
    ensures var p := (a as int) + b - c; Abs(p - r) <= Abs(p - a) && Abs(p - r) <= Abs(p - b) && Abs(p - r) <= Abs(p - c)
    ensures var p := (a as int) + b - c; (r != a ==> Abs(p - r) < Abs(p - a)) && (r != a && r != b ==> Abs(p - r) < Abs(p - b))
  {
    var p := (a as int) + b - c;
    var pa, pb, pc := Abs(p - a), Abs(p - b), Abs(p - c);
    if pa <= pb && pa <= pc then a else if pb <= pc then b else c
  }

  /** Filter types 0 to 4: the prediction from left (a), above (b) and upper left (c). */
  function Predict(filter: nat, a: byte, b: byte, c: byte): (r: byte)
    requires filter <= 4
    ensures filter == 3 ==> 2 * (r as int) <= (a as int) + b <= 2 * (r as int) + 1
  {
    match filter
    case 0 => 0
    case 1 => a
    case 2 => b
    case 3 => ((a as int) + b) / 2
    case _ => Paeth(a, b, c)
  }

  /** The byte n before position i of a line; zero before the line starts. */
  function Before(line: seq<byte>, i: nat, n: nat): byte
    requires i - n < |line|
  {
    if i < n then 0 else line[i - n]
  }

  function Filtered(filter: nat, line: seq<byte>, above: seq<byte>, n: nat, i: nat): byte
    requires filter <= 4 && |above| == |line| && i < |line| && n >= 1
  {
    ((line[i] as int) - Predict(filter, Before(line, i, n), above[i], Before(above, i, n))) % 256
  }

  /** A filtered scanline. */
  function FilterLine(filter: nat, line: seq<byte>, above: seq<byte>, n: nat): (f: seq<byte>)
    requires filter <= 4 && |above| == |line| && n >= 1
    ensures |f| == |line|
  {
    seq(|line|, i requires 0 <= i < |line| => Filtered(filter, line, above, n, i))
  }

  /** Reconstruction of the first k bytes of a scanline, left to right. */
  function UnfilterLine(filter: nat, coded: seq<byte>, above: seq<byte>, n: nat, k: nat): (line: seq<byte>)
    requires filter <= 4 && |above| == |coded| && n >= 1 && k <= |coded|
    ensures |line| == k
  {
    if k == 0 then [] else
    var done := UnfilterLine(filter, coded, above, n, k - 1);
    var predicted := Predict(filter, Before(done, k - 1, n), above[k - 1], Before(above, k - 1, n));
    done + [((coded[k - 1] as int) + predicted) % 256]
  }

  lemma {:induction false} UnfilterFilter(filter: nat, line: seq<byte>, above: seq<byte>, n: nat, k: nat)
    requires filter <= 4 && |above| == |line| && n >= 1 && k <= |line|
    ensures UnfilterLine(filter, FilterLine(filter, line, above, n), above, n, k) == line[..k]
  {
    if k > 0 {
      UnfilterFilter(filter, line, above, n, k - 1);
      assert Before(line[..k - 1], k - 1, n) == Before(line, k - 1, n);
      assert line[..k] == line[..k - 1] + [line[k - 1]];
    }
  }

  function Zeros(w: nat): (z: seq<byte>)
    ensures |z| == w
  {
    seq(w, _ => 0)
  }

  /** Decodes filtered scanlines of w bytes, each behind its filter type, below the line `above`. */
  function DecodeLines(data: seq<byte>, above: seq<byte>, n: nat): Option<seq<seq<byte>>>
    requires n >= 1
  {
    if data == [] then Some([])
    else if |data| < 1 + |above| || data[0] > 4 then None
    else
      var w := |above|;
      var line := UnfilterLine(data[0], data[1..1 + w], above, n, w);
      match DecodeLines(data[1 + w..], line, n)
      case None => None
      case Some(lines) => Some([line] + lines)
  }

  // --- The picture in memory --------------------------------------------------------------

  /** Pixel rows `stride` bytes apart, `width * n` bytes each, written top down or bottom up. */
  datatype Picture = Picture(pixels: seq<byte>, stride: nat, width: nat, height: nat, n: nat, flip: bool) {
    ghost predicate Valid() {
      && width >= 1 && height >= 1 && n >= 1
      && forall r :: 0 <= r < height ==> Start(r) + LineBytes() <= |pixels|
    }

    function LineBytes(): (w: nat)
      ensures width >= 1 && n >= 1 ==> w >= n
    {
      MulAtLeast(width, n);
      width * n
    }

    function Start(r: nat): nat {
      r * stride
    }

    /** The row of memory that scanline y shows. */
    function RowOf(y: nat): (r: nat)
      requires y < height
      ensures r < height
    {
      if flip then height - 1 - y else y
    }

    function Scanline(y: nat): (line: seq<byte>)
      requires Valid() && y < height
      ensures |line| == LineBytes()
    {
      pixels[Start(RowOf(y))..Start(RowOf(y)) + LineBytes()]
    }

    /** The line above scanline y; above the first one, zeros. */
    function Above(y: nat): (line: seq<byte>)
      requires Valid() && y < height
      ensures |line| == LineBytes()
    {
      if y == 0 then Zeros(LineBytes()) else Scanline(y - 1)
    }

    function Lines(y: nat): (lines: seq<seq<byte>>)
      requires Valid() && y <= height
      decreases height - y
    {
      if y == height then [] else [Scanline(y)] + Lines(y + 1)
    }
  }

  lemma MulAtLeast(a: nat, b: nat)
    ensures a >= 1 ==> a * b >= b
  {
  }

  /** The pointer step to the line above: one stride back, or forward when the picture is flipped. */
  lemma StepUp(p: Picture, y: nat)
    requires p.Valid() && 1 <= y < p.height
    ensures p.Start(p.RowOf(y)) - SignedStride(p) == p.Start(p.RowOf(y - 1))
  {
    var r := p.RowOf(y);
    assert (r - 1) * p.stride == r * p.stride - p.stride;
    assert (r + 1) * p.stride == r * p.stride + p.stride;
  }

  function SignedStride(p: Picture): int {
    var s: int := p.stride;
    if p.flip then -s else s
  }

  // --- The encoder ------------------------------------------------------------------------

  /** Difference modulo 256, as stored in the line buffer. */
  function Sub(x: byte, y: int): byte {
    ((x as int) - y) % 256
  }

  /** The filter variant used for a filter type: on the first line, variants that ignore the line above. */
  function Variant(filter: nat, y: nat): (v: nat)
    requires filter <= 4
    ensures v <= 6 && (y == 0 ==> v !in {2, 3, 4})
  {
    if y != 0 then filter else [0, 1, 0, 5, 6][filter]
  }

  /** The switch for a byte of the first pixel, which has no left neighbour. */
  method FirstPixelByte(p: Picture, y: nat, filter: nat, i: nat) returns (b: byte)
    requires p.Valid() && y < p.height && filter <= 4 && i < p.n && i < p.LineBytes()
    ensures b == Filtered(filter, p.Scanline(y), p.Above(y), p.n, i)
  {
    LineByte(p, y, filter, i);
    hide Filtered;
    var z := p.Start(p.RowOf(y)) + i;
    var kind := Variant(filter, y);
    if 2 <= kind <= 4 {
      StepUp(p, y);
      var up := p.pixels[z - SignedStride(p)];
      match kind
      case 2 => b := Sub(p.pixels[z], up);
      case 3 => b := Sub(p.pixels[z], up / 2);
      case _ => b := Sub(p.pixels[z], Paeth(0, up, 0));
    } else {
      b := p.pixels[z];
    }
  }

  /** The switch for a byte of any other pixel; kinds 5 and 6 do not read the line above. */
  method OtherPixelByte(p: Picture, y: nat, filter: nat, i: nat) returns (b: byte)
    requires p.Valid() && y < p.height && filter <= 4 && p.n <= i < p.LineBytes()
    ensures b == Filtered(filter, p.Scanline(y), p.Above(y), p.n, i)
  {
    LineByte(p, y, filter, i);
    hide Filtered;
    var z := p.Start(p.RowOf(y)) + i;
    var kind := Variant(filter, y);
    var left := p.pixels[z - p.n];
    if 2 <= kind <= 4 {
      StepUp(p, y);
      var above := z - SignedStride(p);
      match kind
      case 2 => b := Sub(p.pixels[z], p.pixels[above]);
      case 3 => b := Sub(p.pixels[z], ((left as int) + p.pixels[above]) / 2);
      case _ => b := Sub(p.pixels[z], Paeth(left, p.pixels[above], p.pixels[above - p.n]));
    } else {
      match kind
      case 0 => b := p.pixels[z];
      case 1 => b := Sub(p.pixels[z], left);
      case 5 => b := Sub(p.pixels[z], left / 2);
      case _ => b := Sub(p.pixels[z], Paeth(left, 0, 0));
    }
  }

  /** stbiw__encode_png_line: fills the line buffer, byte by byte, from the picture in memory. */
  method EncodeLine(p: Picture, y: nat, filter: nat, buffer: array<byte>)
    requires p.Valid() && y < p.height && filter <= 4 && buffer.Length == p.LineBytes()
    modifies buffer
    ensures buffer[..] == FilterLine(filter, p.Scanline(y), p.Above(y), p.n)
  {
    hide Filtered;
    var i := 0;
    while i < p.n
      invariant 0 <= i <= p.n
      invariant forall k :: 0 <= k < i ==> buffer[k] == Filtered(filter, p.Scanline(y), p.Above(y), p.n, k)
    {
      buffer[i] := FirstPixelByte(p, y, filter, i);
      i := i + 1;
    }
    while i < buffer.Length
      invariant p.n <= i <= buffer.Length
      invariant forall k :: 0 <= k < i ==> buffer[k] == Filtered(filter, p.Scanline(y), p.Above(y), p.n, k)
    {
      buffer[i] := OtherPixelByte(p, y, filter, i);
      i := i + 1;
    }
  }

  /** What the standard filter computes at byte i, in terms of the bytes in memory. */
  lemma LineByte(p: Picture, y: nat, filter: nat, i: nat)
    requires p.Valid() && y < p.height && filter <= 4 && i < p.LineBytes()
    ensures var z := p.Start(p.RowOf(y)); z + i < |p.pixels|
    ensures y > 0 ==> p.Start(p.RowOf(y - 1)) + i < |p.pixels|
    ensures var z := p.Start(p.RowOf(y));
            var a := if i < p.n then 0 else p.pixels[z + i - p.n];
            var b := if y == 0 then 0 else p.pixels[p.Start(p.RowOf(y - 1)) + i];
            var c := if y == 0 || i < p.n then 0 else p.pixels[p.Start(p.RowOf(y - 1)) + i - p.n];
            Filtered(filter, p.Scanline(y), p.Above(y), p.n, i) == Sub(p.pixels[z + i], Predict(filter, a, b, c))
  {
  }

  /** The entropy estimate of a filtered line: the sum of the magnitudes of its bytes read as signed. */
  function Estimate(line: seq<byte>): nat {
    if line == [] then 0 else Estimate(line[..|line| - 1]) + Magnitude(line[|line| - 1])
  }

  function Magnitude(b: byte): (m: nat)
    ensures m <= 128 && (m == b || m + b == 256)
  {
    if b < 128 then b else 256 - b
  }

  lemma {:induction false} EstimateBound(line: seq<byte>)
    ensures Estimate(line) <= 128 * |line|
  {
    if line != [] {
      EstimateBound(line[..|line| - 1]);
    }
  }

  method EstimateLine(buffer: array<byte>) returns (est: nat)
    ensures est == Estimate(buffer[..])
  {
    est := 0;
    var i := 0;
    while i < buffer.Length
      invariant 0 <= i <= buffer.Length && est == Estimate(buffer[..i])
    {
      est := est + Magnitude(buffer[i]);
      i := i + 1;
      assert buffer[..i][..i - 1] == buffer[..i - 1];
    }
    assert buffer[..i] == buffer[..];
  }

  function LineEstimate(p: Picture, y: nat, filter: nat): nat
    requires p.Valid() && y < p.height && filter <= 4
  {
    Estimate(FilterLine(filter, p.Scanline(y), p.Above(y), p.n))
  }

  /** Tries all five filters and re-encodes with the first of the cheapest. */
  method ChooseFilter(p: Picture, y: nat, buffer: array<byte>) returns (best: nat)
    requires p.Valid() && y < p.height && buffer.Length == p.LineBytes()
    modifies buffer
    ensures best <= 4 && buffer[..] == FilterLine(best, p.Scanline(y), p.Above(y), p.n)
    ensures p.LineBytes() < 0xffffff ==> forall f :: 0 <= f <= 4 ==> LineEstimate(p, y, best) <= LineEstimate(p, y, f)
    ensures p.LineBytes() < 0xffffff ==> forall f :: 0 <= f < best ==> LineEstimate(p, y, best) < LineEstimate(p, y, f)
  {
    hide FilterLine, Estimate;
    best := 0;
    var bestVal, filter := 0x7fffffff, 0;
    while filter < 5
      invariant 0 <= filter <= 5 && best <= 4
      invariant bestVal == 0x7fffffff || (best < filter && bestVal == LineEstimate(p, y, best))
      invariant forall f :: 0 <= f < filter ==> bestVal <= LineEstimate(p, y, f)
      invariant bestVal != 0x7fffffff ==> forall f :: 0 <= f < best ==> bestVal < LineEstimate(p, y, f)
      invariant p.LineBytes() < 0xffffff && filter > 0 ==> bestVal != 0x7fffffff
    {
      EncodeLine(p, y, filter, buffer);
      EstimateBound(buffer[..]);
      var est := EstimateLine(buffer);
      if est < bestVal {
        best, bestVal := filter, est;
      }
      filter := filter + 1;
    }
    EncodeLine(p, y, best, buffer);
  }

  /** The filter byte and the filtered bytes of scanline y. */
  function CodedLine(p: Picture, y: nat, filter: nat): (c: seq<byte>)
    requires p.Valid() && y < p.height && filter <= 4
    ensures |c| == 1 + p.LineBytes()
  {
    [filter] + FilterLine(filter, p.Scanline(y), p.Above(y), p.n)
  }

  ghost predicate Filters(p: Picture, fs: seq<nat>) {
    |fs| <= p.height && forall j :: 0 <= j < |fs| ==> fs[j] <= 4
  }

  /** Scanlines from y to the last one filtered so far. */
  function CodedLines(p: Picture, fs: seq<nat>, y: nat): (c: seq<byte>)
    requires p.Valid() && Filters(p, fs) && y <= |fs|
    decreases |fs| - y
  {
    if y == |fs| then [] else CodedLine(p, y, fs[y]) + CodedLines(p, fs, y + 1)
  }

  lemma {:induction false} CodedLinesExtend(p: Picture, fs: seq<nat>, f: nat, y: nat)
    requires p.Valid() && |fs| < p.height && Filters(p, fs) && f <= 4 && y <= |fs|
    ensures Filters(p, fs + [f])
    ensures CodedLines(p, fs + [f], y) == CodedLines(p, fs, y) + CodedLine(p, |fs|, f)
    decreases |fs| - y
  {
    hide CodedLine;
    assert forall j :: 0 <= j < |fs| ==> (fs + [f])[j] == fs[j];
    assert (fs + [f])[|fs|] == f;
    if y < |fs| {
      CodedLinesExtend(p, fs, f, y + 1);
    } else {
      assert CodedLines(p, fs + [f], y + 1) == [];
    }
  }

  lemma {:induction false} CodedLinesDecode(p: Picture, fs: seq<nat>, y: nat)
    requires p.Valid() && Filters(p, fs) && |fs| == p.height && y < p.height
    ensures DecodeLines(CodedLines(p, fs, y), p.Above(y), p.n) == Some(p.Lines(y))
    decreases p.height - y
  {
    hide DecodeLines, CodedLine, FilterLine, UnfilterLine;
    var rest := CodedLines(p, fs, y + 1);
    DecodeOne(p, y, fs[y], rest);
    if y + 1 < p.height {
      CodedLinesDecode(p, fs, y + 1);
    } else {
      DecodeNone(p.Scanline(y), p.n);
    }
  }

  lemma DecodeNone(above: seq<byte>, n: nat)
    requires n >= 1
    ensures DecodeLines([], above, n) == Some([])
  {
  }

  /** The reader's step over one coded scanline. */
  lemma DecodeOne(p: Picture, y: nat, filter: nat, rest: seq<byte>)
    requires p.Valid() && y < p.height && filter <= 4
    ensures DecodeLines(CodedLine(p, y, filter) + rest, p.Above(y), p.n)
         == match DecodeLines(rest, p.Scanline(y), p.n) case None => None case Some(lines) => Some([p.Scanline(y)] + lines)
  {
    hide FilterLine, UnfilterLine;
    var w := p.LineBytes();
    var coded := FilterLine(filter, p.Scanline(y), p.Above(y), p.n);
    var data := CodedLine(p, y, filter) + rest;
    assert data[1..1 + w] == coded && data[1 + w..] == rest;
    UnfilterFilter(filter, p.Scanline(y), p.Above(y), p.n, w);
    assert p.Scanline(y)[..w] == p.Scanline(y);
  }

  /** The filter of scanline y: the forced one, or the first of those with the least estimate. */
  ghost predicate Chosen(p: Picture, y: nat, forceFilter: int, f: nat)
    requires p.Valid() && y < p.height && f <= 4
  {
    if 0 <= forceFilter < 5 then f == forceFilter
    else p.LineBytes() < 0xffffff ==>
      && (forall g :: 0 <= g <= 4 ==> LineEstimate(p, y, f) <= LineEstimate(p, y, g))
      && (forall g :: 0 <= g < f ==> LineEstimate(p, y, f) < LineEstimate(p, y, g))
  }

  /** The filter loop: one forced filter for every line, or the estimated best of each line. */
  method FilterPicture(p: Picture, forceFilter: int) returns (filt: seq<byte>, ghost fs: seq<nat>)
    requires p.Valid()
    ensures |filt| > 0
    ensures Filters(p, fs) && |fs| == p.height && filt == CodedLines(p, fs, 0)
    ensures forall y :: 0 <= y < p.height ==> Chosen(p, y, forceFilter, fs[y])
    ensures DecodeLines(filt, Zeros(p.LineBytes()), p.n) == Some(p.Lines(0))
  {
    hide CodedLine, DecodeLines, LineEstimate;
    var force := if forceFilter >= 5 then -1 else forceFilter;
    var buffer := new byte[p.LineBytes()];
    filt := [];
    fs := [];
    var y := 0;
    while y < p.height
      invariant 0 <= y <= p.height && |fs| == y && Filters(p, fs) && (y > 0 ==> |filt| > 0)
      invariant filt == CodedLines(p, fs, 0)
      invariant forall k :: 0 <= k < y ==> Chosen(p, k, forceFilter, fs[k])
    {
      var filter: nat;
      if force > -1 {
        filter := force;
        EncodeLine(p, y, force, buffer);
      } else {
        filter := ChooseFilter(p, y, buffer);
      }
      CodedLinesExtend(p, fs, filter, 0);
      LineOf(p, y, filter);
      filt := filt + ([filter as byte] + buffer[..]);
      fs := fs + [filter];
      y := y + 1;
    }
    CodedLinesDecode(p, fs, 0);
  }

  lemma LineOf(p: Picture, y: nat, filter: nat)
    requires p.Valid() && y < p.height && filter <= 4
    ensures CodedLine(p, y, filter) == [filter as byte] + FilterLine(filter, p.Scanline(y), p.Above(y), p.n)
  {
  }

  /** What a reader makes of an IDAT payload for lines of w bytes with n bytes a pixel. */
  function DecodeIdat(z: seq<byte>, w: nat, n: nat): Option<seq<seq<byte>>>
    requires n >= 1
  {
    match Inflate.ZlibDecode(z, Deflate.WINDOW)
    case None => None
    case Some(data) => DecodeLines(data, Zeros(w), n)
  }

  /** The IDAT payload of stbi_write_png_to_mem decodes to the rows of the picture. */
  method EncodeIdat(p: Picture, forceFilter: int, level: int) returns (zlib: seq<byte>)
    requires p.Valid()
    ensures DecodeIdat(zlib, p.LineBytes(), p.n) == Some(p.Lines(0))
  {
    hide DecodeLines, Inflate.ZlibDecode;
    var filt, fs := FilterPicture(p, forceFilter);
    ghost var fixed;
    zlib, fixed := Zlib.Compress(filt, level);
  }
}
