/** The byte range of a buffer-image copy (commands.cpp): checked 64-bit arithmetic against Vulkan's addressing. */
module CopyBytes {
  import opened Bits

  const MAX: nat := 0xFFFF_FFFF_FFFF_FFFF

  /** Bytes per texel block and block extent; no bytes for an unknown format. */
  datatype Format = Format(bytes: nat, width: nat, height: nat)

  datatype Copy = Copy(x: nat, y: nat, z: nat, rowStride: nat, planeStride: nat)

  /** 32-bit extents and strides, 8-bit format fields; every known format has a block of at least 1 x 1. */
  predicate Typed(c: Copy, f: Format) {
    && c.x < 0x1_0000_0000 && c.y < 0x1_0000_0000 && c.z < 0x1_0000_0000
    && c.rowStride < 0x1_0000_0000 && c.planeStride < 0x1_0000_0000
    && f.bytes < 256 && 0 < f.width < 256 && 0 < f.height < 256
  }

  function CeilDiv(n: nat, d: nat): (q: nat)
    requires d > 0
  {
    (n + d - 1) / d
  }

  /** The least number of units of d that cover n. */
  predicate Covers(q: nat, d: nat, n: nat) {
    n <= q * d && (q > 0 ==> (q - 1) * d < n)
  }

  /** Rounding up finds it, and nothing else does. */
  lemma CeilIs(n: nat, d: nat, q: nat)
    requires d > 0
    ensures Covers(q, d, n) <==> q == CeilDiv(n, d)
  {
    var c, r := CeilDiv(n, d), (n + d - 1) % d;
    assert n + d - 1 == d * c + r;
    assert c * d == d * c && (c > 0 ==> (c - 1) * d == c * d - d);
    if q < c {
      MulAtMost(q, c - 1, d);
    } else if q > c {
      MulAtMost(c, q - 1, d);
    }
  }

  /** The blocks of a row and the rows of a plane, as the code takes them. */
  function RowBlocks(c: Copy, f: Format): nat
    requires f.width > 0
  {
    CeilDiv(if c.rowStride != 0 then c.rowStride else c.x, f.width)
  }

  function PlaneRows(c: Copy, f: Format): nat
    requires f.height > 0
  {
    if c.planeStride != 0 then c.planeStride else CeilDiv(c.y, f.height)
  }

  /** texture_copy_buffer_bytes, with its three overflow checks; no divisor is ever zero. */
  function CopySize(c: Copy, f: Format): Option<nat>
    requires Typed(c, f)
  {
    if c.x == 0 || c.y == 0 || c.z == 0 || f.bytes == 0 then None
    else
      Positive(c, f);
      var blocks, rows := RowBlocks(c, f), PlaneRows(c, f);
      if blocks > MAX / f.bytes then None
      else
        MulPositive(blocks, f.bytes);
        if rows > MAX / (blocks * f.bytes) then None
        else
          MulPositive(rows, blocks * f.bytes);
          if c.z > MAX / (rows * (blocks * f.bytes)) then None else Some(c.z * (rows * (blocks * f.bytes)))
  }

  lemma Positive(c: Copy, f: Format)
    requires Typed(c, f) && c.x > 0 && c.y > 0
    ensures RowBlocks(c, f) > 0 && PlaneRows(c, f) > 0
  {
    CeilPositive(if c.rowStride != 0 then c.rowStride else c.x, f.width);
    CeilPositive(c.y, f.height);
  }

  lemma CeilPositive(n: nat, d: nat)
    requires n > 0 && d > 0
    ensures CeilDiv(n, d) > 0
  {
  }

  lemma MulPositive(a: nat, b: nat)
    requires a > 0 && b > 0
    ensures a * b > 0
  {
  }

  lemma OverflowCheck(a: nat, b: nat)
    requires b > 0
    ensures a > MAX / b <==> a * b > MAX
  {
    var q, r := MAX / b, MAX % b;
    assert MAX == q * b + r;
    if a > q {
      MulAtMost(q + 1, a, b);
      assert (q + 1) * b == q * b + b;
    } else {
      MulAtMost(a, q, b);
    }
  }

  lemma MulAtMost(a: nat, c: nat, b: nat)
    requires a <= c
    ensures a * b <= c * b
  {
  }

  /** The blocks that a row takes, and the rows that a plane takes, its stride counting for rows when there is one. */
  predicate Takes(c: Copy, f: Format, blocks: nat, rows: nat) {
    && Covers(blocks, f.width, if c.rowStride != 0 then c.rowStride else c.x)
    && if c.planeStride != 0 then rows == c.planeStride else Covers(rows, f.height, c.y)
  }

  /**
   * The size is returned exactly when the extents are non-zero, the format is known, and the true product of
   * planes, rows, blocks and bytes fits 64 bits; and it is that product. No division by zero can occur on the way.
   */
  lemma CopySizeIs(c: Copy, f: Format, blocks: nat, rows: nat)
    requires Typed(c, f) && Takes(c, f, blocks, rows)
    ensures var product := c.z * (rows * (blocks * f.bytes));
      && (CopySize(c, f).Some? <==> c.x > 0 && c.y > 0 && c.z > 0 && f.bytes > 0 && product <= MAX)
      && (CopySize(c, f).Some? ==> CopySize(c, f).value == product)
  {
    TakesIs(c, f, blocks, rows);
    if c.x > 0 && c.y > 0 && c.z > 0 && f.bytes > 0 {
      Positive(c, f);
      var row := blocks * f.bytes;
      MulPositive(blocks, f.bytes);
      var plane := rows * row;
      MulPositive(rows, row);
      OverflowCheck(blocks, f.bytes);
      OverflowCheck(rows, row);
      OverflowCheck(c.z, plane);
      MulAtMost(1, c.z, plane);
      MulAtMost(1, rows, row);
      hide RowBlocks, PlaneRows, CeilDiv, Takes, Covers;
    }
  }

  lemma TakesIs(c: Copy, f: Format, blocks: nat, rows: nat)
    requires f.width > 0 && f.height > 0
    ensures Takes(c, f, blocks, rows) <==> blocks == RowBlocks(c, f) && rows == PlaneRows(c, f)
  {
    CeilIs(if c.rowStride != 0 then c.rowStride else c.x, f.width, blocks);
    CeilIs(c.y, f.height, rows);
    hide CeilDiv, Covers;
  }

  // --- Vulkan's addressing ----------------------------------------------------------------

  /**
   * The byte address of the texel block at (col, row, plane), counted in blocks, after "Buffer and Image
   * Addressing" of the Vulkan specification: both strides are in texels.
   */
  function BlockAddress(c: Copy, f: Format, col: nat, row: nat, plane: nat): nat
    requires f.width > 0 && f.height > 0
  {
    var line: nat := plane * CeilDiv(if c.planeStride != 0 then c.planeStride else c.y, f.height) + row;
    var block: nat := line * CeilDiv(if c.rowStride != 0 then c.rowStride else c.x, f.width) + col;
    block * f.bytes
  }

  /** A stride is zero or covers the extent. */
  predicate Legal(c: Copy) {
    (c.rowStride == 0 || c.rowStride >= c.x) && (c.planeStride == 0 || c.planeStride >= c.y)
  }

  lemma CeilMonotone(a: nat, b: nat, d: nat)
    requires a <= b && d > 0
    ensures CeilDiv(a, d) <= CeilDiv(b, d) <= b
  {
    CeilAtMost(b, d);
    DivMonotone(a + d - 1, b + d - 1, d);
  }

  lemma CeilAtMost(n: nat, d: nat)
    requires d > 0
    ensures CeilDiv(n, d) <= n
  {
    var q, r := (n + d - 1) / d, (n + d - 1) % d;
    assert n + d - 1 == d * q + r;
    if q > n {
      MulAtMost(n + 1, q, d);
      assert (n + 1) * d == n * d + d;
      MulAtMost(1, d, n);
      assert false;
    }
  }

  lemma DivMonotone(a: nat, b: nat, d: nat)
    requires a <= b && d > 0
    ensures a / d <= b / d
  {
    var p, q := a / d, b / d;
    assert a == d * p + a % d && b == d * q + b % d;
    if p > q {
      MulAtMost(q + 1, p, d);
      assert false;
    }
  }

  /**
   * For legal strides every byte of every block that the copy addresses lies below the computed size, for
   * block-compressed formats too: counting a plane stride in block rows over-estimates.
   */
  lemma SizeCovers(c: Copy, f: Format, col: nat, row: nat, plane: nat)
    requires Typed(c, f) && Legal(c) && CopySize(c, f).Some?
    requires col < CeilDiv(c.x, f.width) && row < CeilDiv(c.y, f.height) && plane < c.z
    ensures BlockAddress(c, f, col, row, plane) + f.bytes <= CopySize(c, f).value
  {
    var blocks, rows := RowBlocks(c, f), PlaneRows(c, f);
    TakesIs(c, f, blocks, rows);
    CopySizeIs(c, f, blocks, rows);
    var vkRows := CeilDiv(if c.planeStride != 0 then c.planeStride else c.y, f.height);
    CeilMonotone(c.x, if c.rowStride != 0 then c.rowStride else c.x, f.width);
    CeilMonotone(c.y, if c.planeStride != 0 then c.planeStride else c.y, f.height);
    Cover(col, row, plane, blocks, vkRows, rows, c.z, f.bytes);
  }

  lemma Cover(col: nat, row: nat, plane: nat, blocks: nat, vkRows: nat, rows: nat, planes: nat, bytes: nat)
    requires col < blocks && row < vkRows <= rows && plane < planes
    ensures ((plane * vkRows + row) * blocks + col) * bytes + bytes <= planes * (rows * (blocks * bytes))
  {
    var line := plane * vkRows + row;
    MulAtMost(plane + 1, planes, vkRows);
    assert (plane + 1) * vkRows == plane * vkRows + vkRows;
    MulAtMost(vkRows, rows, planes);
    assert vkRows * planes == planes * vkRows && rows * planes == planes * rows;
    var lines := planes * rows;
    assert line + 1 <= lines;
    MulAtMost(line + 1, lines, blocks);
    assert (line + 1) * blocks == line * blocks + blocks;
    var block := line * blocks + col;
    assert block + 1 <= lines * blocks;
    MulAtMost(block + 1, lines * blocks, bytes);
    assert (block + 1) * bytes == block * bytes + bytes;
    Regroup(planes, rows, blocks, bytes);
  }

  lemma Regroup(a: nat, b: nat, c: nat, d: nat)
    ensures a * b * c * d == a * (b * (c * d))
  {
    assert a * b * c == a * (b * c);
    assert a * (b * c) * d == a * (b * c * d);
    assert b * c * d == b * (c * d);
  }

  /** The over-estimate is real: a 4 x 4 block format with a plane stride of 8 texel rows has two block rows a plane. */
  lemma PlaneStrideInTexels()
    ensures var c, f := Copy(4, 4, 1, 0, 8), Format(8, 4, 4);
      CopySize(c, f) == Some(64) && BlockAddress(c, f, 0, 0, 1) == 16
  {
    CopySizeIs(Copy(4, 4, 1, 0, 8), Format(8, 4, 4), 1, 8);
  }
}
