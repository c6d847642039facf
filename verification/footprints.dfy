/**
 * The shapes the population worker stamps into the world, as the ordered
 * lists of writes its loops issue: each write is an offset from the chunk
 * being populated, a block and whether it overrides what is there.
 */
module Footprints {
  import opened Blocks
  import opened Numerics

  /** One call of `placeAcrossChunks`: local offset, block, and the override flag. */
  datatype Stamp = Stamp(x: int, y: int, z: int, block: BlockType, override: bool)

  /** A loop along z at fixed (x, y): offsets lo, lo + 1, ..., hi - 1. */
  function ZRun(x: int, y: int, lo: int, hi: int, b: BlockType, o: bool): seq<Stamp>
    decreases hi - lo
  {
    if lo >= hi then [] else [Stamp(x, y, lo, b, o)] + ZRun(x, y, lo + 1, hi, b, o)
  }

  /** A loop along x at fixed (y, z). */
  function XRun(lo: int, hi: int, y: int, z: int, b: BlockType, o: bool): seq<Stamp>
    decreases hi - lo
  {
    if lo >= hi then [] else [Stamp(lo, y, z, b, o)] + XRun(lo + 1, hi, y, z, b, o)
  }

  /** A loop along y at fixed (x, z). */
  function YRun(x: int, z: int, lo: int, hi: int, b: BlockType, o: bool): seq<Stamp>
    decreases hi - lo
  {
    if lo >= hi then [] else [Stamp(x, lo, z, b, o)] + YRun(x, z, lo + 1, hi, b, o)
  }

  /** Two nested loops at height y, x outer and z inner, over [xlo, xhi) x [zlo, zhi). */
  function Slab(xlo: int, xhi: int, y: int, zlo: int, zhi: int, b: BlockType, o: bool): seq<Stamp>
    decreases xhi - xlo
  {
    if xlo >= xhi then [] else ZRun(xlo, y, zlo, zhi, b, o) + Slab(xlo + 1, xhi, y, zlo, zhi, b, o)
  }

  lemma {:induction false} ZRunHas(x: int, y: int, lo: int, hi: int, b: BlockType, o: bool, s: Stamp)
    ensures s in ZRun(x, y, lo, hi, b, o) <==> s.x == x && s.y == y && lo <= s.z < hi && s.block == b && s.override == o
    decreases hi - lo
  {
    if lo < hi {
      ZRunHas(x, y, lo + 1, hi, b, o, s);
    }
  }

  lemma {:induction false} XRunHas(lo: int, hi: int, y: int, z: int, b: BlockType, o: bool, s: Stamp)
    ensures s in XRun(lo, hi, y, z, b, o) <==> lo <= s.x < hi && s.y == y && s.z == z && s.block == b && s.override == o
    decreases hi - lo
  {
    if lo < hi {
      XRunHas(lo + 1, hi, y, z, b, o, s);
    }
  }

  lemma {:induction false} YRunHas(x: int, z: int, lo: int, hi: int, b: BlockType, o: bool, s: Stamp)
    ensures s in YRun(x, z, lo, hi, b, o) <==> s.x == x && lo <= s.y < hi && s.z == z && s.block == b && s.override == o
    decreases hi - lo
  {
    if lo < hi {
      YRunHas(x, z, lo + 1, hi, b, o, s);
    }
  }

  /** A slab holds exactly the stamps of its rectangle at its height. */
  lemma {:induction false} SlabHas(xlo: int, xhi: int, y: int, zlo: int, zhi: int, b: BlockType, o: bool, s: Stamp)
    ensures s in Slab(xlo, xhi, y, zlo, zhi, b, o) <==>
      xlo <= s.x < xhi && s.y == y && zlo <= s.z < zhi && s.block == b && s.override == o
    decreases xhi - xlo
  {
    if xlo < xhi {
      ZRunHas(xlo, y, zlo, zhi, b, o, s);
      SlabHas(xlo + 1, xhi, y, zlo, zhi, b, o, s);
    }
  }

  // ---------------------------------------------------------------- oak tree

  /** `random1(...) * 3 + 4` converted to `int`: for noise in [0, 1) a trunk of 4 to 6 logs. */
  function TrunkLength(v: real): (n: int)
    ensures 0.0 <= v < 1.0 ==> 4 <= n <= 6
  {
    Trunc(v * 3.0 + 4.0)
  }

  /**
   * `placeTree` at (x, y, z) with a trunk of `len`: the trunk, two 5 x 5
   * leaf layers, a 3 x 3 layer, then a plus sign on top (its z arm first).
   */
  function TreeStamps(x: int, y: int, z: int, len: int): seq<Stamp> {
    YRun(x, z, y, y + len, OakLog, true) + Leaves(x, y + len, z)
  }

  /**
   * The canopy relative to the top of the trunk: two 5 x 5 layers, a
   * 3 x 3 layer, and a plus sign one above the last log.
   */
  predicate Canopy(dx: int, dy: int, dz: int) {
    || ((dy == -3 || dy == -2) && -2 <= dx <= 2 && -2 <= dz <= 2)
    || (dy == -1 && -1 <= dx <= 1 && -1 <= dz <= 1)
    || (dy == 0 && ((dx == 0 && -1 <= dz <= 1) || (dz == 0 && -1 <= dx <= 1)))
  }

  /** The shape of an oak: a column of overriding logs, and leaves that only fill empty cells. */
  predicate TreeShape(x: int, y: int, z: int, len: int, s: Stamp) {
    || (s.block == OakLog && s.override && s.x == x && s.z == z && y <= s.y < y + len)
    || (s.block == OakLeaves && !s.override && Canopy(s.x - x, s.y - (y + len), s.z - z))
  }

  /** The leaf loops of `placeTree`, top of trunk at height `top`. */
  function Leaves(x: int, top: int, z: int): seq<Stamp> {
    Slab(x - 2, x + 3, top - 3, z - 2, z + 3, OakLeaves, false)
    + Slab(x - 2, x + 3, top - 2, z - 2, z + 3, OakLeaves, false)
    + Slab(x - 1, x + 2, top - 1, z - 1, z + 2, OakLeaves, false)
    + ZRun(x, top, z - 1, z + 2, OakLeaves, false)
    + XRun(x - 1, x + 2, top, z, OakLeaves, false)
  }

  /** The writes of `placeTree` are exactly the stamps of the oak shape. */
  lemma TreeFootprint(x: int, y: int, z: int, len: int, s: Stamp)
    ensures s in TreeStamps(x, y, z, len) <==> TreeShape(x, y, z, len, s)
  {
    assert TreeStamps(x, y, z, len) == YRun(x, z, y, y + len, OakLog, true) + Leaves(x, y + len, z);
    YRunHas(x, z, y, y + len, OakLog, true, s);
    LeavesHas(x, y + len, z, s);
  }

  lemma LeavesHas(x: int, top: int, z: int, s: Stamp)
    ensures s in Leaves(x, top, z) <==> s.block == OakLeaves && !s.override && Canopy(s.x - x, s.y - top, s.z - z)
  {
    if s.block == OakLeaves && !s.override {
      if s.y == top - 3 || s.y == top - 2 {
        SlabHas(x - 2, x + 3, top - 3, z - 2, z + 3, OakLeaves, false, s);
        SlabHas(x - 2, x + 3, top - 2, z - 2, z + 3, OakLeaves, false, s);
      } else if s.y == top - 1 {
        SlabHas(x - 1, x + 2, top - 1, z - 1, z + 2, OakLeaves, false, s);
      } else if s.y == top {
        ZRunHas(x, top, z - 1, z + 2, OakLeaves, false, s);
        XRunHas(x - 1, x + 2, top, z, OakLeaves, false, s);
      }
    }
    SlabHas(x - 2, x + 3, top - 3, z - 2, z + 3, OakLeaves, false, s);
    SlabHas(x - 2, x + 3, top - 2, z - 2, z + 3, OakLeaves, false, s);
    SlabHas(x - 1, x + 2, top - 1, z - 1, z + 2, OakLeaves, false, s);
    ZRunHas(x, top, z - 1, z + 2, OakLeaves, false, s);
    XRunHas(x - 1, x + 2, top, z, OakLeaves, false, s);
  }

  // ----------------------------------------------------------------- pyramid

  /** One layer of `placePyramid`: side `30 - 2h`, offsets from `-layersize/2` to `layersize/2` in C++ division. */
  function PyramidLayer(x: int, y: int, z: int, h: int): seq<Stamp> {
    var size := 30 - 2 * h;
    Slab(x + CDiv(-size, 2), x + CDiv(size, 2) + 1, y + h, z + CDiv(-size, 2), z + CDiv(size, 2) + 1, Sandstone, true)
  }

  function PyramidFrom(x: int, y: int, z: int, h: int): seq<Stamp>
    decreases 30 - h
  {
    if h >= 30 then [] else PyramidLayer(x, y, z, h) + PyramidFrom(x, y, z, h + 1)
  }

  /** `placePyramid` at (x, y, z): thirty layers, the upper fourteen of which are empty. */
  function PyramidStamps(x: int, y: int, z: int): seq<Stamp> {
    PyramidFrom(x, y, z, 0)
  }

  /** The stepped pyramid: at height h above the base, a square of half-width 15 - h. */
  predicate PyramidShape(x: int, y: int, z: int, s: Stamp) {
    var h := s.y - y;
    && s.block == Sandstone && s.override
    && 0 <= h <= 15
    && -(15 - h) <= s.x - x <= 15 - h
    && -(15 - h) <= s.z - z <= 15 - h
  }

  /** Layer h is the square of half-width 15 - h, and nothing once 15 - h is negative. */
  lemma PyramidLayerHas(x: int, y: int, z: int, h: int, s: Stamp)
    requires 0 <= h
    ensures s in PyramidLayer(x, y, z, h) <==> s.y == y + h && PyramidShape(x, y, z, s)
  {
    var size := 30 - 2 * h;
    var lo, hi := CDiv(-size, 2), CDiv(size, 2);
    CDivUnique(size, 2, 15 - h);
    CDivUnique(-size, 2, h - 15);
    SlabHas(x + lo, x + hi + 1, y + h, z + lo, z + hi + 1, Sandstone, true, s);
  }

  lemma {:induction false} PyramidFromHas(x: int, y: int, z: int, h: int, s: Stamp)
    requires 0 <= h
    ensures s in PyramidFrom(x, y, z, h) <==> h <= s.y - y && PyramidShape(x, y, z, s)
    decreases 30 - h
  {
    if h < 30 {
      PyramidLayerHas(x, y, z, h, s);
      PyramidFromHas(x, y, z, h + 1, s);
    }
  }

  /** The writes of `placePyramid` are exactly the stamps of the stepped pyramid. */
  lemma PyramidFootprint(x: int, y: int, z: int, s: Stamp)
    ensures s in PyramidStamps(x, y, z) <==> PyramidShape(x, y, z, s)
  {
    PyramidFromHas(x, y, z, 0, s);
  }

  // --------------------------------------------------------------- snow tree

  /** The full leaf layer: an 8 x 8 square with two cells cut from each corner. */
  const Layer1: seq<seq<int>> := [
    [0, 0, 1, 1, 1, 1, 0, 0],
    [0, 1, 1, 1, 1, 1, 1, 0],
    [1, 1, 1, 1, 1, 1, 1, 1],
    [1, 1, 1, 1, 1, 1, 1, 1],
    [1, 1, 1, 1, 1, 1, 1, 1],
    [1, 1, 1, 1, 1, 1, 1, 1],
    [0, 1, 1, 1, 1, 1, 1, 0],
    [0, 0, 1, 1, 1, 1, 0, 0]]

  /** The narrower leaf layer above and below it. */
  const Layer2: seq<seq<int>> := [
    [0, 0, 0, 0, 0, 0, 0, 0],
    [0, 0, 1, 1, 1, 1, 0, 0],
    [0, 1, 1, 1, 1, 1, 1, 0],
    [0, 1, 1, 1, 1, 1, 1, 0],
    [0, 1, 1, 1, 1, 1, 1, 0],
    [0, 1, 1, 1, 1, 1, 1, 0],
    [0, 0, 1, 1, 1, 1, 0, 0],
    [0, 0, 0, 0, 0, 0, 0, 0]]

  /** The cap: a 4 x 4 square without its corners. */
  const Layer3: seq<seq<int>> := [
    [0, 1, 1, 0],
    [1, 1, 1, 1],
    [1, 1, 1, 1],
    [0, 1, 1, 0]]

  /** Distance of index i from the nearer edge of a row of length n. */
  function Edge(i: int, n: int): int {
    if i < n - 1 - i then i else n - 1 - i
  }

  /** A square mask: `n` rows of `n` entries. */
  predicate Square(mask: seq<seq<int>>, n: nat) {
    |mask| == n && forall i :: 0 <= i < n ==> |mask[i]| == n
  }

  predicate Layer1Rule(i: int, j: int) { Edge(i, 8) + Edge(j, 8) >= 2 }
  predicate Layer2Rule(i: int, j: int) { Edge(i, 8) >= 1 && Edge(j, 8) >= 1 && Edge(i, 8) + Edge(j, 8) >= 3 }
  predicate Layer3Rule(i: int, j: int) { Edge(i, 4) + Edge(j, 4) >= 1 }

  /** The first layer is the 8 x 8 square less, at each corner, the corner cell and its two neighbours. */
  lemma Layer1Table(i: int, j: int)
    requires 0 <= i < 8 && 0 <= j < 8
    ensures Square(Layer1, 8)
    ensures Layer1[i][j] != 0 <==> Layer1Rule(i, j)
  {
    if i == 0 || i == 7 {
      assert Layer1[i] == [0, 0, 1, 1, 1, 1, 0, 0];
    } else if i == 1 || i == 6 {
      assert Layer1[i] == [0, 1, 1, 1, 1, 1, 1, 0];
    } else {
      assert Layer1[i] == [1, 1, 1, 1, 1, 1, 1, 1];
    }
  }

  /** The second layer is the 6 x 6 square inside it less its corner cells. */
  lemma Layer2Table(i: int, j: int)
    requires 0 <= i < 8 && 0 <= j < 8
    ensures Square(Layer2, 8)
    ensures Layer2[i][j] != 0 <==> Layer2Rule(i, j)
  {
    if i == 0 || i == 7 {
      assert Layer2[i] == [0, 0, 0, 0, 0, 0, 0, 0];
    } else if i == 1 || i == 6 {
      assert Layer2[i] == [0, 0, 1, 1, 1, 1, 0, 0];
    } else {
      assert Layer2[i] == [0, 1, 1, 1, 1, 1, 1, 0];
    }
  }

  /** The cap is the 4 x 4 square less its four corners. */
  lemma Layer3Table(i: int, j: int)
    requires 0 <= i < 4 && 0 <= j < 4
    ensures Square(Layer3, 4)
    ensures Layer3[i][j] != 0 <==> Layer3Rule(i, j)
  {
    if i == 0 || i == 3 {
      assert Layer3[i] == [0, 1, 1, 0];
    } else {
      assert Layer3[i] == [1, 1, 1, 1];
    }
  }

  /** The inner loop over one mask row: a leaf wherever the entry is set. */
  function MaskRow(ox: int, y: int, oz: int, row: seq<int>, i: int, j: nat): seq<Stamp>
    decreases |row| - j
  {
    if j >= |row| then []
    else (if row[j] != 0 then [Stamp(ox + i, y, oz + j, OakLeaves, false)] else []) + MaskRow(ox, y, oz, row, i, j + 1)
  }

  /** The two loops over a mask, rows along x; `(ox, oz)` is where entry [0][0] lands. */
  function MaskFrom(ox: int, y: int, oz: int, mask: seq<seq<int>>, i: nat): seq<Stamp>
    decreases |mask| - i
  {
    if i >= |mask| then [] else MaskRow(ox, y, oz, mask[i], i, 0) + MaskFrom(ox, y, oz, mask, i + 1)
  }

  /** The leaves of a mask placed at height y. */
  predicate InMask(ox: int, y: int, oz: int, mask: seq<seq<int>>, s: Stamp) {
    var i, j := s.x - ox, s.z - oz;
    && s.y == y && s.block == OakLeaves && !s.override
    && 0 <= i < |mask| && 0 <= j < |mask[i]| && mask[i][j] != 0
  }

  lemma {:induction false} MaskRowHas(ox: int, y: int, oz: int, row: seq<int>, i: int, j: nat, s: Stamp)
    ensures s in MaskRow(ox, y, oz, row, i, j) <==>
      && s.x == ox + i && s.y == y && s.block == OakLeaves && !s.override
      && j <= s.z - oz < |row| && row[s.z - oz] != 0
    decreases |row| - j
  {
    if j < |row| {
      MaskRowHas(ox, y, oz, row, i, j + 1, s);
    }
  }

  lemma {:induction false} MaskFromHas(ox: int, y: int, oz: int, mask: seq<seq<int>>, i: nat, s: Stamp)
    ensures s in MaskFrom(ox, y, oz, mask, i) <==> i <= s.x - ox && InMask(ox, y, oz, mask, s)
    decreases |mask| - i
  {
    if i < |mask| {
      var row, rest := MaskRow(ox, y, oz, mask[i], i, 0), MaskFrom(ox, y, oz, mask, i + 1);
      assert MaskFrom(ox, y, oz, mask, i) == row + rest;
      MaskRowHas(ox, y, oz, mask[i], i, 0, s);
      MaskFromHas(ox, y, oz, mask, i + 1, s);
      assert s in row + rest <==> s in row || s in rest;
    }
  }

  /** `random1(...) * 6 + 2` converted to `int`: for noise in [0, 1), two to seven segments. */
  function SegmentCount(v: real): (n: int)
    ensures 0.0 <= v < 1.0 ==> 2 <= n <= 7
  {
    Trunc(v * 6.0 + 2.0)
  }

  /** A placed square mask stays within its n x n square. */
  lemma MaskWithin(ox: int, y: int, oz: int, mask: seq<seq<int>>, n: nat, s: Stamp)
    requires Square(mask, n) && s in MaskFrom(ox, y, oz, mask, 0)
    ensures s.y == y && s.block == OakLeaves && !s.override
    ensures ox <= s.x < ox + n && oz <= s.z < oz + n
  {
    MaskFromHas(ox, y, oz, mask, 0, s);
  }

  /** The trunk loop of `placeSnowTree`: per height, the four logs of a 2 x 2 column. */
  function SnowTrunk(x: int, y: int, z: int, i: int, top: int): seq<Stamp>
    decreases top - i
  {
    if i >= top then []
    else
      [Stamp(x, y + i, z, OakLog, true), Stamp(x + 1, y + i, z, OakLog, true),
       Stamp(x, y + i, z + 1, OakLog, true), Stamp(x + 1, y + i, z + 1, OakLog, true)]
      + SnowTrunk(x, y, z, i + 1, top)
  }

  /** One segment above `base`: the narrow layer, the full layer, the narrow layer. */
  function Segment(x: int, y: int, z: int, base: int, narrow: seq<seq<int>>, full: seq<seq<int>>): seq<Stamp> {
    MaskFrom(x - 3, y + base + 1, z - 3, narrow, 0)
    + MaskFrom(x - 3, y + base + 2, z - 3, full, 0)
    + MaskFrom(x - 3, y + base + 3, z - 3, narrow, 0)
  }

  /** The segment loop from segment k on, `base` rising by four each time. */
  function Segments(x: int, y: int, z: int, k: int, n: int, narrow: seq<seq<int>>, full: seq<seq<int>>): seq<Stamp>
    decreases n - k
  {
    if k >= n then [] else Segment(x, y, z, 6 + 4 * k, narrow, full) + Segments(x, y, z, k + 1, n, narrow, full)
  }

  /** The height of the cap above the base once the segment loop has run. */
  function CapHeight(n: int): int {
    if n > 0 then 6 + 4 * n else 6
  }

  /** `placeSnowTree` at (x, y, z) with `n` segments, given its three masks: trunk, segments, cap. */
  function SnowTreeWith(x: int, y: int, z: int, n: int, narrow: seq<seq<int>>, full: seq<seq<int>>, cap: seq<seq<int>>): seq<Stamp> {
    SnowTrunk(x, y, z, 0, 6 + 4 * n)
    + Segments(x, y, z, 0, n, narrow, full)
    + MaskFrom(x - 1, y + CapHeight(n), z - 1, cap, 0)
  }

  /** `placeSnowTree` with the engine's masks. */
  function SnowTreeStamps(x: int, y: int, z: int, n: int): seq<Stamp> {
    SnowTreeWith(x, y, z, n, Layer2, Layer1, Layer3)
  }

  lemma {:induction false} SnowTrunkHas(x: int, y: int, z: int, i: int, top: int, s: Stamp)
    ensures s in SnowTrunk(x, y, z, i, top) <==>
      && s.block == OakLog && s.override
      && x <= s.x <= x + 1 && z <= s.z <= z + 1 && y + i <= s.y < y + top
    decreases top - i
  {
    if i < top {
      SnowTrunkHas(x, y, z, i + 1, top, s);
    }
  }

  /** Where the leaves of a segment loop can be: inside the 8 x 8 square, at the segment heights. */
  lemma {:induction false} SegmentsWithin(x: int, y: int, z: int, k: int, n: int, narrow: seq<seq<int>>, full: seq<seq<int>>, s: Stamp)
    requires Square(narrow, 8) && Square(full, 8)
    requires 0 <= k && s in Segments(x, y, z, k, n, narrow, full)
    ensures s.block == OakLeaves && !s.override
    ensures x - 3 <= s.x <= x + 4 && z - 3 <= s.z <= z + 4
    ensures y + 7 + 4 * k <= s.y <= y + 5 + 4 * n
    decreases n - k
  {
    if k < n {
      var base := 6 + 4 * k;
      assert Segments(x, y, z, k, n, narrow, full) == Segment(x, y, z, base, narrow, full) + Segments(x, y, z, k + 1, n, narrow, full);
      if s in Segments(x, y, z, k + 1, n, narrow, full) {
        SegmentsWithin(x, y, z, k + 1, n, narrow, full, s);
      } else {
        SegmentWithin(x, y, z, base, narrow, full, s);
        assert LeafWithin(s, x - 3, x + 4, y + base + 1, y + base + 3, z - 3, z + 4);
      }
    }
  }

  /** A fill-only leaf inside the given box. */
  predicate LeafWithin(s: Stamp, xlo: int, xhi: int, ylo: int, yhi: int, zlo: int, zhi: int) {
    s.block == OakLeaves && !s.override && xlo <= s.x <= xhi && ylo <= s.y <= yhi && zlo <= s.z <= zhi
  }

  lemma SegmentWithin(x: int, y: int, z: int, base: int, narrow: seq<seq<int>>, full: seq<seq<int>>, s: Stamp)
    requires Square(narrow, 8) && Square(full, 8)
    requires s in Segment(x, y, z, base, narrow, full)
    ensures LeafWithin(s, x - 3, x + 4, y + base + 1, y + base + 3, z - 3, z + 4)
  {
    var y1 := y + base + 1;
    var a := MaskFrom(x - 3, y1, z - 3, narrow, 0);
    var b := MaskFrom(x - 3, y1 + 1, z - 3, full, 0);
    var c := MaskFrom(x - 3, y1 + 2, z - 3, narrow, 0);
    assert Segment(x, y, z, base, narrow, full) == a + b + c;
    assert s in a || s in b || s in c;
    var ly: int;
    if s in a {
      MaskWithin(x - 3, y1, z - 3, narrow, 8, s);
      ly := y1;
    } else if s in b {
      MaskWithin(x - 3, y1 + 1, z - 3, full, 8, s);
      ly := y1 + 1;
    } else {
      MaskWithin(x - 3, y1 + 2, z - 3, narrow, 8, s);
      ly := y1 + 2;
    }
    assert s.y == ly && y1 <= ly <= y1 + 2;
  }

  /**
   * The shape of a snow tree with any 8 x 8 segment masks and 4 x 4 cap:
   * exactly the overriding logs of its 2 x 2 trunk, and otherwise only
   * leaves that fill empty cells, inside the 8 x 8 square around the trunk
   * and no higher than the cap.
   */
  lemma SnowTreeWithin(x: int, y: int, z: int, n: int, narrow: seq<seq<int>>, full: seq<seq<int>>, cap: seq<seq<int>>, s: Stamp)
    requires n >= 0 && Square(narrow, 8) && Square(full, 8) && Square(cap, 4)
    ensures s in SnowTreeWith(x, y, z, n, narrow, full, cap) && s.block == OakLog <==>
      && s.block == OakLog && s.override
      && x <= s.x <= x + 1 && z <= s.z <= z + 1 && y <= s.y < y + 6 + 4 * n
    ensures s in SnowTreeWith(x, y, z, n, narrow, full, cap) && s.block != OakLog ==>
      && s.block == OakLeaves && !s.override
      && x - 3 <= s.x <= x + 4 && z - 3 <= s.z <= z + 4 && y + 6 <= s.y <= y + 6 + 4 * n
  {
    SnowTrunkHas(x, y, z, 0, 6 + 4 * n, s);
    if s in MaskFrom(x - 1, y + CapHeight(n), z - 1, cap, 0) {
      MaskWithin(x - 1, y + CapHeight(n), z - 1, cap, 4, s);
    }
    if s in Segments(x, y, z, 0, n, narrow, full) {
      SegmentsWithin(x, y, z, 0, n, narrow, full, s);
    }
  }

  /** The engine's masks are square: 8 x 8 for the segments, 4 x 4 for the cap. */
  lemma MasksSquare()
    ensures Square(Layer1, 8) && Square(Layer2, 8) && Square(Layer3, 4)
  {
    Layer1Table(0, 0);
    Layer2Table(0, 0);
    Layer3Table(0, 0);
  }

  /**
   * The writes of `placeSnowTree` are the overriding logs of its 2 x 2
   * trunk and, apart from those, only leaves that fill empty cells inside
   * the 8 x 8 square around the trunk and no higher than the cap.
   */
  lemma SnowTreeFootprint(x: int, y: int, z: int, n: int, s: Stamp)
    requires n >= 0
    ensures s in SnowTreeStamps(x, y, z, n) && s.block == OakLog <==>
      && s.block == OakLog && s.override
      && x <= s.x <= x + 1 && z <= s.z <= z + 1 && y <= s.y < y + 6 + 4 * n
    ensures s in SnowTreeStamps(x, y, z, n) && s.block != OakLog ==>
      && s.block == OakLeaves && !s.override
      && x - 3 <= s.x <= x + 4 && z - 3 <= s.z <= z + 4 && y + 6 <= s.y <= y + 6 + 4 * n
  {
    MasksSquare();
    SnowTreeWithin(x, y, z, n, Layer2, Layer1, Layer3, s);
  }

  /** At the height of the cap the snow tree writes exactly the leaves of the cap mask, centred over the trunk. */
  lemma SnowTreeCap(x: int, y: int, z: int, n: int, s: Stamp)
    requires n >= 0 && s.y == y + CapHeight(n) && s.block == OakLeaves
    ensures s in SnowTreeStamps(x, y, z, n) <==> InMask(x - 1, y + CapHeight(n), z - 1, Layer3, s)
  {
    MasksSquare();
    CapOfSnowTree(x, y, z, n, Layer2, Layer1, Layer3, s);
  }

  predicate CapCell(i: int, j: int) {
    0 <= i < 4 && 0 <= j < 4 && Layer3Rule(i, j)
  }

  /** A leaf of the cap mask is a cell of the 4 x 4 square less its corners. */
  lemma CapMask(ox: int, y: int, oz: int, s: Stamp)
    ensures InMask(ox, y, oz, Layer3, s) <==>
      s.y == y && s.block == OakLeaves && !s.override && CapCell(s.x - ox, s.z - oz)
  {
    if 0 <= s.x - ox < 4 && 0 <= s.z - oz < 4 {
      Layer3Table(s.x - ox, s.z - oz);
    } else {
      MasksSquare();
    }
  }

  /** At the cap's height only the cap mask writes. */
  lemma CapOfSnowTree(x: int, y: int, z: int, n: int, narrow: seq<seq<int>>, full: seq<seq<int>>, cap: seq<seq<int>>, s: Stamp)
    requires n >= 0 && Square(narrow, 8) && Square(full, 8) && Square(cap, 4)
    requires s.y == y + CapHeight(n) && s.block == OakLeaves
    ensures s in SnowTreeWith(x, y, z, n, narrow, full, cap) <==> InMask(x - 1, y + CapHeight(n), z - 1, cap, s)
  {
    SnowTrunkHas(x, y, z, 0, 6 + 4 * n, s);
    MaskFromHas(x - 1, y + CapHeight(n), z - 1, cap, 0, s);
    if s in Segments(x, y, z, 0, n, narrow, full) {
      SegmentsWithin(x, y, z, 0, n, narrow, full, s);
    }
  }
}
