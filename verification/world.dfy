/**
 * The terrain's chunk table: chunks are found by the corner of the 16 x 16
 * column square that holds a world position, neighbour links are made in
 * both directions when a chunk is instantiated, and blocks are read and
 * written through world coordinates.
 */
module World {
  import opened Results
  import opened Blocks
  import opened Chunks
  import opened Numerics

  /**
   * `m_chunks`: the resident chunks by corner. The source keys the table
   * with the packed 64-bit `toKey(x, z)`, which is one-to-one on corners,
   * so keying by the corner itself finds the same chunks.
   */
  type World = map<Corner, Chunk>

  /** The corner `(16 * floor(x / 16), 16 * floor(z / 16))` of the chunk that holds column (x, z). */
  function ChunkCorner(x: int, z: int): (a: Corner)
    ensures a.x <= x < a.x + 16 && a.z <= z < a.z + 16
    ensures a.x % 16 == 0 && a.z % 16 == 0
  {
    Corner(FloorTo(x, 16), FloorTo(z, 16))
  }

  /** The corner is the only multiple-of-16 corner whose square holds the column. */
  lemma ChunkCornerUnique(x: int, z: int, a: Corner)
    requires a.x % 16 == 0 && a.z % 16 == 0
    requires a.x <= x < a.x + 16 && a.z <= z < a.z + 16
    ensures ChunkCorner(x, z) == a
  {
    FloorToUnique(x, 16, a.x);
    FloorToUnique(z, 16, a.z);
  }

  /** `hasChunkAt`: some resident chunk holds column (x, z). */
  predicate HasChunkAt(w: World, x: int, z: int) {
    ChunkCorner(x, z) in w
  }

  /** Every chunk is stored under its own corner, and every corner is a multiple of 16. */
  predicate Aligned(w: World) {
    forall a :: a in w ==> a.x % 16 == 0 && a.z % 16 == 0 && w[a].CornerOf() == a
  }

  /** `getChunkAt` (the `const` overload): `unordered_map::at` throws when no chunk holds the column. */
  function GetChunkAt(w: World, x: int, z: int): (r: Result<Chunk>)
    ensures r.Ok? <==> HasChunkAt(w, x, z)
    ensures r.Err? ==> r.fault == OutOfRange
    ensures r.Ok? && Aligned(w) ==> r.value.minX <= x < r.value.minX + 16 && r.value.minZ <= z < r.value.minZ + 16
  {
    var a := ChunkCorner(x, z);
    if a in w then Ok(w[a]) else Err(OutOfRange)
  }

  /** The corner one chunk width away from `a` along direction `d` (the vertical directions stay put). */
  function Step(a: Corner, d: Direction): Corner {
    match d
    case XPos => Corner(a.x + 16, a.z)
    case XNeg => Corner(a.x - 16, a.z)
    case ZPos => Corner(a.x, a.z + 16)
    case ZNeg => Corner(a.x, a.z - 16)
    case _ => a
  }

  /** The four directions along which chunks are linked: not up or down. */
  predicate Level(d: Direction) {
    d != YPos && d != YNeg
  }

  /** Stepping back along the opposite direction returns to the start, and a level step always moves. */
  lemma StepBack(a: Corner, d: Direction)
    requires Level(d)
    ensures Level(Opposite(d)) && Step(Step(a, d), Opposite(d)) == a && Step(a, d) != a
  {
  }

  /** Every link names the chunk one width away in its direction, and only horizontal directions link. */
  predicate Geometric(w: World) {
    forall a :: a in w ==> GeometricAt(w[a], a)
  }

  /** Every link of chunk `c`, stored at corner `a`, names the chunk one width away in its direction. */
  predicate GeometricAt(c: Chunk, a: Corner) {
    forall d :: d in c.neighbors ==> Level(d) && c.neighbors[d] == Step(a, d)
  }

  /**
   * The links are geometric and complete: a chunk has a link in a
   * horizontal direction exactly when a chunk is resident one width away.
   */
  predicate Linked(w: World) {
    && Geometric(w)
    && (forall a, d :: a in w && Level(d) ==> (d in w[a].neighbors <==> Step(a, d) in w))
  }

  /** Links are mutual: following a link and then the opposite link comes back. */
  lemma LinksMutual(w: World, a: Corner, d: Direction)
    requires Linked(w) && a in w && d in w[a].neighbors
    ensures w[a].neighbors[d] in w
    ensures Opposite(d) in w[w[a].neighbors[d]].neighbors
    ensures w[w[a].neighbors[d]].neighbors[Opposite(d)] == a
  {
    var b := Step(a, d);
    StepBack(a, d);
  }

  /** One side of a link: chunk `c` records `n` under direction `d` and is marked for a rebuild. */
  function Link(c: Chunk, d: Direction, n: Corner): (r: Chunk)
    ensures d in r.neighbors && r.neighbors[d] == n && r.vboDirty
    ensures forall f :: f in c.neighbors && f != d ==> f in r.neighbors && r.neighbors[f] == c.neighbors[f]
    ensures forall f :: f in r.neighbors ==> f == d || f in c.neighbors
    ensures r == c.(neighbors := r.neighbors, vboDirty := r.vboDirty)
  {
    c.(neighbors := c.neighbors[d := n], vboDirty := true)
  }

  /**
   * `linkNeighbor` with a resident neighbour `b`: `a` records `b` under `d`,
   * `b` records `a` under the opposite direction, and both are marked for a
   * rebuild. (A null neighbour is a no-op in the source; the terrain only
   * links chunks it has found, so that case is the caller's guard below.)
   */
  function LinkNeighbor(w: World, a: Corner, b: Corner, d: Direction): (r: World)
    requires a in w && b in w
    ensures r.Keys == w.Keys
    ensures a != b ==> r[a] == Link(w[a], d, b) && r[b] == Link(w[b], Opposite(d), a)
    ensures forall e :: e in w && e != a && e != b ==> r[e] == w[e]
  {
    var w1 := w[a := Link(w[a], d, b)];
    w1[b := Link(w1[b], Opposite(d), a)]
  }

  /** The `if (hasChunkAt(...))` guard around each link made by `instantiateChunkAt`. */
  function LinkIfPresent(w: World, a: Corner, d: Direction): (r: World)
    requires a in w && Level(d)
    ensures r.Keys == w.Keys
    ensures forall e :: e in w ==> r[e] == w[e].(neighbors := r[e].neighbors, vboDirty := r[e].vboDirty)
    ensures forall e :: e in w && e != a && e != Step(a, d) ==> r[e] == w[e]
  {
    var b := Step(a, d);
    if b in w then LinkNeighbor(w, a, b, d) else w
  }

  /**
   * The links are geometric, and complete everywhere except at the new
   * chunk `a` and at the chunks pointing at it, for the directions not yet
   * linked (`done` holds those already linked).
   */
  predicate LinkedBut(w: World, a: Corner, done: set<Direction>) {
    && Geometric(w)
    && a in w
    && (forall d :: d in w[a].neighbors ==> d in done)
    && (forall e, d :: e in w && Level(d) && !(e == a && d !in done) && !(Step(e, d) == a && Opposite(d) !in done) ==>
         (d in w[e].neighbors <==> Step(e, d) in w))
  }

  /** Once every direction is linked, the table is fully linked. */
  lemma LinkedButAll(w: World, a: Corner)
    requires LinkedBut(w, a, Horizontal)
    ensures Linked(w)
  {
    forall e, d | e in w && Level(d)
      ensures d in w[e].neighbors <==> Step(e, d) in w
    {
      assert d in Horizontal && Level(Opposite(d)) && Opposite(d) in Horizontal;
    }
  }

  /** One `LinkIfPresent` call keeps every link geometric. */
  lemma GeometricStep(w: World, a: Corner, d: Direction)
    requires Geometric(w) && a in w && Level(d)
    ensures Geometric(LinkIfPresent(w, a, d))
  {
    var r := LinkIfPresent(w, a, d);
    var b := Step(a, d);
    StepBack(a, d);
    forall e | e in r
      ensures GeometricAt(r[e], e)
    {
      if b in w && e == a {
        LinkGeometric(w[a], a, d, b);
      } else if b in w && e == b {
        LinkGeometric(w[b], b, Opposite(d), a);
      } else {
        assert r[e] == w[e];
      }
    }
  }

  /** Adding a link to the chunk one width away keeps a chunk's links geometric. */
  lemma LinkGeometric(c: Chunk, a: Corner, d: Direction, n: Corner)
    requires GeometricAt(c, a) && Level(d) && n == Step(a, d)
    ensures GeometricAt(Link(c, d, n), a)
  {
  }

  /** One `LinkIfPresent` call completes the links of one more direction. */
  lemma LinkStep(w: World, a: Corner, done: set<Direction>, d: Direction)
    requires LinkedBut(w, a, done) && Level(d) && d !in done
    ensures LinkedBut(LinkIfPresent(w, a, d), a, done + {d})
  {
    var r := LinkIfPresent(w, a, d);
    GeometricStep(w, a, d);
    forall e, f | e in r && Level(f) && !(e == a && f !in done + {d}) && !(Step(e, f) == a && Opposite(f) !in done + {d})
      ensures f in r[e].neighbors <==> Step(e, f) in r
    {
      LinkStepAt(w, a, done, d, e, f);
    }
  }

  /** The link test of one chunk `e` in one direction `f` after the step. */
  lemma LinkStepAt(w: World, a: Corner, done: set<Direction>, d: Direction, e: Corner, f: Direction)
    requires LinkedBut(w, a, done) && Level(d) && d !in done
    requires e in w && Level(f) && !(e == a && f !in done + {d}) && !(Step(e, f) == a && Opposite(f) !in done + {d})
    ensures f in LinkIfPresent(w, a, d)[e].neighbors <==> Step(e, f) in w
  {
    var b := Step(a, d);
    StepBack(a, d);
    LinkIfPresentAt(w, a, d, e, f);
    if e == a && f == d {
    } else if Step(e, f) == a && Opposite(f) == d {
      OppositeInvolution(f);
      assert e == b;
    } else {
      assert f in w[e].neighbors <==> Step(e, f) in w;
    }
  }

  /** Which links one `LinkIfPresent` call adds: the pair between `a` and the chunk across `d`, when that one is resident. */
  lemma LinkIfPresentAt(w: World, a: Corner, d: Direction, e: Corner, f: Direction)
    requires a in w && Level(d) && e in w
    ensures var b := Step(a, d);
      f in LinkIfPresent(w, a, d)[e].neighbors <==>
        f in w[e].neighbors || (b in w && ((e == a && f == d) || (e == b && f == Opposite(d))))
  {
    var b := Step(a, d);
    StepBack(a, d);
    if b in w {
      LinkNeighborAt(w, a, b, d, e, f);
    }
  }

  /** Which links `LinkNeighbor` adds: `d` at `a` and its opposite at `b`. */
  lemma LinkNeighborAt(w: World, a: Corner, b: Corner, d: Direction, e: Corner, f: Direction)
    requires a in w && b in w && a != b && e in w
    ensures f in LinkNeighbor(w, a, b, d)[e].neighbors <==>
      f in w[e].neighbors || (e == a && f == d) || (e == b && f == Opposite(d))
  {
  }

  /** `new Chunk(x, z)` stored at (x, z), replacing what was there; links to come. */
  lemma FreshSlot(w: World, a: Corner)
    requires Linked(w)
    ensures LinkedBut(w[a := NewChunk(a.x, a.z)], a, {})
  {
    var w0 := w[a := NewChunk(a.x, a.z)];
    forall e, d | e in w0 && Level(d) && !(e == a) && !(Step(e, d) == a)
      ensures d in w0[e].neighbors <==> Step(e, d) in w0
    {
      assert d in w[e].neighbors <==> Step(e, d) in w;
    }
  }

  /** The four corners one chunk width away from `a`. */
  function Around(a: Corner): set<Corner> {
    {Step(a, XPos), Step(a, XNeg), Step(a, ZPos), Step(a, ZNeg)}
  }

  /**
   * `instantiateChunkAt`: a new empty chunk at corner (x, z), linked to the
   * resident chunks north, south, east and west of it, in that order.
   */
  function InstantiateChunkAt(w: World, x: int, z: int): (r: World)
    requires x % 16 == 0 && z % 16 == 0
    ensures r.Keys == w.Keys + {Corner(x, z)}
  {
    var a := Corner(x, z);
    var w0 := w[a := NewChunk(x, z)];
    assert w0.Keys == w.Keys + {a};
    var w1 := LinkIfPresent(w0, a, ZPos);
    var w2 := LinkIfPresent(w1, a, ZNeg);
    var w3 := LinkIfPresent(w2, a, XPos);
    LinkIfPresent(w3, a, XNeg)
  }

  /**
   * What instantiating does to each chunk: the new one is empty, ungenerated
   * and unbuilt; any other changes only in its links and dirty flag, and
   * only the four chunks around the new one change at all.
   */
  lemma InstantiateFrame(w: World, x: int, z: int, e: Corner)
    requires x % 16 == 0 && z % 16 == 0
    requires e in InstantiateChunkAt(w, x, z)
    ensures var r := InstantiateChunkAt(w, x, z);
      && (e == Corner(x, z) ==> r[e] == NewChunk(x, z).(neighbors := r[e].neighbors, vboDirty := r[e].vboDirty))
      && (e != Corner(x, z) ==> r[e] == w[e].(neighbors := r[e].neighbors, vboDirty := r[e].vboDirty))
      && (e != Corner(x, z) && e !in Around(Corner(x, z)) ==> r[e] == w[e])
  {
    var a := Corner(x, z);
    var w0 := w[a := NewChunk(x, z)];
    var w1 := LinkIfPresent(w0, a, ZPos);
    var w2 := LinkIfPresent(w1, a, ZNeg);
    var w3 := LinkIfPresent(w2, a, XPos);
    var r := LinkIfPresent(w3, a, XNeg);
    assert r == InstantiateChunkAt(w, x, z);
    assert r[e] == w0[e].(neighbors := r[e].neighbors, vboDirty := r[e].vboDirty) by {
      assert w1[e] == w0[e].(neighbors := w1[e].neighbors, vboDirty := w1[e].vboDirty);
      assert w2[e] == w0[e].(neighbors := w2[e].neighbors, vboDirty := w2[e].vboDirty);
      assert w3[e] == w0[e].(neighbors := w3[e].neighbors, vboDirty := w3[e].vboDirty);
    }
    if e != a && e !in Around(a) {
      assert w1[e] == w0[e] && w2[e] == w0[e] && w3[e] == w0[e];
    }
  }

  /** Instantiating keeps every chunk under its own aligned corner. */
  lemma InstantiateAligned(w: World, x: int, z: int)
    requires x % 16 == 0 && z % 16 == 0
    requires Aligned(w)
    ensures Aligned(InstantiateChunkAt(w, x, z))
  {
    var r := InstantiateChunkAt(w, x, z);
    forall e | e in r
      ensures e.x % 16 == 0 && e.z % 16 == 0 && r[e].CornerOf() == e
    {
      InstantiateFrame(w, x, z, e);
    }
  }

  /** Instantiating leaves the table fully linked. */
  lemma InstantiateLinks(w: World, x: int, z: int)
    requires x % 16 == 0 && z % 16 == 0
    requires Linked(w)
    ensures Linked(InstantiateChunkAt(w, x, z))
  {
    var a := Corner(x, z);
    var w0 := w[a := NewChunk(x, z)];
    FreshSlot(w, a);
    var w2 := LinkIfPresent(LinkIfPresent(w0, a, ZPos), a, ZNeg);
    LinkNorthSouth(w0, a);
    LinkEastWest(w2, a);
  }

  lemma LinkNorthSouth(w: World, a: Corner)
    requires LinkedBut(w, a, {})
    ensures LinkedBut(LinkIfPresent(LinkIfPresent(w, a, ZPos), a, ZNeg), a, {ZPos, ZNeg})
  {
    LinkStep(w, a, {}, ZPos);
    assert {} + {ZPos} == {ZPos};
    LinkStep(LinkIfPresent(w, a, ZPos), a, {ZPos}, ZNeg);
  }

  lemma LinkEastWest(w: World, a: Corner)
    requires LinkedBut(w, a, {ZPos, ZNeg})
    ensures Linked(LinkIfPresent(LinkIfPresent(w, a, XPos), a, XNeg))
  {
    LinkStep(w, a, {ZPos, ZNeg}, XPos);
    var w3 := LinkIfPresent(w, a, XPos);
    LinkStep(w3, a, {ZPos, ZNeg, XPos}, XNeg);
    assert {ZPos, ZNeg, XPos} + {XNeg} == Horizontal;
    LinkedButAll(LinkIfPresent(w3, a, XNeg), a);
  }

  /** Local position of world cell (x, y, z) inside the chunk that holds its column. */
  function Local(x: int, y: int, z: int): (p: Vec3)
    ensures 0 <= y < 256 ==> InBounds(p)
  {
    var a := ChunkCorner(x, z);
    Vec3(x - a.x, y, z - a.z)
  }

  /**
   * `Terrain::getBlockAt`: no chunk is an `out_of_range` error; a height
   * outside [0, 256) reads as empty; otherwise the chunk's cell at the local
   * position.
   */
  function GetBlockAt(w: World, x: int, y: int, z: int): (r: Result<BlockType>)
    ensures r.Err? <==> !HasChunkAt(w, x, z)
    ensures r.Err? ==> r.fault == OutOfRange
    ensures HasChunkAt(w, x, z) && !(0 <= y < 256) ==> r == Ok(Empty)
    ensures HasChunkAt(w, x, z) && 0 <= y < 256 ==> r == Ok(Cell(w[ChunkCorner(x, z)], Local(x, y, z)))
  {
    var a := ChunkCorner(x, z);
    if a !in w then Err(OutOfRange)
    else if y < 0 || y >= 256 then Ok(Empty)
    else Chunks.GetBlockAt(w[a], x - a.x, y, z - a.z)
  }

  /** The boundary test of `setBlockAt`: a resident chunk holds (x, y, z) and the block there is not empty. */
  predicate Occupied(w: World, x: int, y: int, z: int) {
    var b := GetBlockAt(w, x, y, z);
    b.Ok? && b.value != Empty
  }

  /** The two tables hold the same chunks with the same blocks (links and flags may differ). */
  predicate SameBlocks(w: World, v: World) {
    v.Keys == w.Keys && forall e :: e in w ==> v[e].blocks == w[e].blocks
  }

  /** World reads see only the blocks. */
  lemma ReadSameBlocks(w: World, v: World, x: int, y: int, z: int)
    requires SameBlocks(w, v)
    ensures GetBlockAt(v, x, y, z) == GetBlockAt(w, x, y, z)
    ensures Occupied(v, x, y, z) == Occupied(w, x, y, z)
  {
    var a := ChunkCorner(x, z);
    if a in w {
      assert v[a].blocks == w[a].blocks;
    }
  }

  /**
   * The test of one boundary check: the edited column is on the side
   * (`onSide`), a chunk holds the column across, and the block across, at
   * (nx, y, nz), is not empty.
   */
  predicate Across(w: World, onSide: bool, nx: int, y: int, nz: int) {
    onSide && HasChunkAt(w, nx, nz) && Occupied(w, nx, y, nz)
  }

  /**
   * The four boundary checks of `setBlockAt` as the source writes them, for
   * a write at (x, y, z) in the chunk at corner `a`: the C++ remainder tests
   * and the chunk one width from the corner. When a test passes, that
   * chunk's dirty flag is set (the source fetches it without a test; it is
   * the chunk `hasChunkAt` found, see `SideCorners`).
   */
  predicate Tested(w: World, a: Corner, x: int, y: int, z: int, e: Corner) {
    || (e == Corner(a.x - 16, a.z) && Across(w, CRem(x, 16) == 0, x - 1, y, z))
    || (e == Corner(a.x + 16, a.z) && Across(w, CRem(x + 1, 16) == 0, x + 1, y, z))
    || (e == Corner(a.x, a.z - 16) && Across(w, CRem(z, 16) == 0, x, y, z - 1))
    || (e == Corner(a.x, a.z + 16) && Across(w, CRem(z + 1, 16) == 0, x, y, z + 1))
  }

  /**
   * The four boundary checks run one after another. Each sets flags only,
   * so every test reads the blocks of the table before them and the four
   * come to one pass that marks each resident chunk some test picks.
   */
  function MarkBoundaries(w: World, a: Corner, x: int, y: int, z: int): (r: World)
    ensures SameBlocks(w, r)
    ensures forall e :: e in w ==> r[e] == w[e].(vboDirty := r[e].vboDirty)
  {
    map e | e in w :: w[e].(vboDirty := w[e].vboDirty || Tested(w, a, x, y, z, e))
  }

  /**
   * Chunk `e` is one the boundary checks mark: it lies across a side of `a`
   * that the column (x, z) touches, and the block across from (x, y, z) is
   * not empty.
   */
  predicate Marked(w: World, a: Corner, x: int, y: int, z: int, e: Corner) {
    || (e == Step(a, XNeg) && x == a.x && Occupied(w, x - 1, y, z))
    || (e == Step(a, XPos) && x == a.x + 15 && Occupied(w, x + 1, y, z))
    || (e == Step(a, ZNeg) && z == a.z && Occupied(w, x, y, z - 1))
    || (e == Step(a, ZPos) && z == a.z + 15 && Occupied(w, x, y, z + 1))
  }

  /** The boundary checks mark exactly the chunks `Marked` describes, and change nothing else. */
  lemma MarkBoundariesFlags(w: World, a: Corner, x: int, y: int, z: int, e: Corner)
    requires a == ChunkCorner(x, z) && e in w
    ensures MarkBoundaries(w, a, x, y, z)[e].vboDirty <==> w[e].vboDirty || Marked(w, a, x, y, z, e)
  {
    SideCorners(x, z);
  }

  /**
   * The C++ tests `x % 16 == 0` and `(x + 1) % 16 == 0` pick out the first
   * and last column of a chunk, and the column across is in the chunk one
   * width away.
   */
  lemma SideCorners(x: int, z: int)
    ensures var a := ChunkCorner(x, z);
      && (CRem(x, 16) == 0 <==> x == a.x)
      && (CRem(x + 1, 16) == 0 <==> x == a.x + 15)
      && (CRem(z, 16) == 0 <==> z == a.z)
      && (CRem(z + 1, 16) == 0 <==> z == a.z + 15)
      && (x == a.x ==> ChunkCorner(x - 1, z) == Step(a, XNeg) == Corner(a.x - 16, a.z))
      && (x == a.x + 15 ==> ChunkCorner(x + 1, z) == Step(a, XPos) == Corner(a.x + 16, a.z))
      && (z == a.z ==> ChunkCorner(x, z - 1) == Step(a, ZNeg) == Corner(a.x, a.z - 16))
      && (z == a.z + 15 ==> ChunkCorner(x, z + 1) == Step(a, ZPos) == Corner(a.x, a.z + 16))
  {
    var a := ChunkCorner(x, z);
    RemZero(x, a.x);
    RemZero(x + 1, a.x + 16);
    RemZero(z, a.z);
    RemZero(z + 1, a.z + 16);
    SideCornersX(x, z);
    SideCornersZ(x, z);
  }

  lemma SideCornersX(x: int, z: int)
    ensures var a := ChunkCorner(x, z);
      && (x == a.x ==> ChunkCorner(x - 1, z) == Step(a, XNeg) == Corner(a.x - 16, a.z))
      && (x == a.x + 15 ==> ChunkCorner(x + 1, z) == Step(a, XPos) == Corner(a.x + 16, a.z))
  {
    var a := ChunkCorner(x, z);
    if x == a.x { ChunkCornerUnique(x - 1, z, Step(a, XNeg)); }
    if x == a.x + 15 { ChunkCornerUnique(x + 1, z, Step(a, XPos)); }
  }

  lemma SideCornersZ(x: int, z: int)
    ensures var a := ChunkCorner(x, z);
      && (z == a.z ==> ChunkCorner(x, z - 1) == Step(a, ZNeg) == Corner(a.x, a.z - 16))
      && (z == a.z + 15 ==> ChunkCorner(x, z + 1) == Step(a, ZPos) == Corner(a.x, a.z + 16))
  {
    var a := ChunkCorner(x, z);
    if z == a.z { ChunkCornerUnique(x, z - 1, Step(a, ZNeg)); }
    if z == a.z + 15 { ChunkCornerUnique(x, z + 1, Step(a, ZPos)); }
  }

  /** Within one chunk width of a multiple of 16, only that multiple is divisible by 16. */
  lemma RemZero(v: int, m: int)
    requires m % 16 == 0 && m - 16 < v < m + 16
    ensures CRem(v, 16) == 0 <==> v == m
  {
    if v % 16 == 0 {
      var k, j := v / 16, m / 16;
      assert v == 16 * k && m == 16 * j;
      assert -16 < 16 * (k - j) < 16;
      assert k == j;
    }
  }

  /**
   * `Terrain::setBlockAt` as written: the height is handed to the chunk
   * without a range check, so a height of 256 reaches the chunk's flat
   * index and writes another cell, or throws on the last row.
   */
  function SetBlockAtUnchecked(w: World, x: int, y: int, z: int, t: BlockType): (r: Result<World>)
    ensures r.Ok? ==> r.value.Keys == w.Keys
  {
    var a := ChunkCorner(x, z);
    if a !in w then Err(OutOfRange)
    else
      var c :- Chunks.SetBlockAt(w[a], x - a.x, y, z - a.z, t);
      Ok(MarkBoundaries(w[a := c.(vboDirty := true)], a, x, y, z))
  }

  /**
   * A height of 256 at the corner column of a chunk lands on the bottom cell
   * of the next row, where the corrected write ignores it.
   */
  lemma SetBlockAtHeightAliases(w: World, a: Corner, t: BlockType)
    requires a in w && a.x % 16 == 0 && a.z % 16 == 0
    ensures SetBlockAtUnchecked(w, a.x, 256, a.z, t).Ok?
    ensures GetBlockAt(SetBlockAtUnchecked(w, a.x, 256, a.z, t).value, a.x, 0, a.z + 1) == Ok(t)
    ensures SetBlockAt(w, a.x, 256, a.z, t) == Ok(w)
  {
    ChunkCornerUnique(a.x, a.z, a);
    ChunkCornerUnique(a.x, a.z + 1, a);
    SetBlockAtAliases(w[a], t);
    var c := Chunks.SetBlockAt(w[a], 0, 256, 0, t).value;
    var w1 := w[a := c.(vboDirty := true)];
    ReadChunkCell(w, a, c.(vboDirty := true), a.x, 0, a.z + 1);
    assert Local(a.x, 0, a.z + 1) == Vec3(0, 0, 1);
    UncheckedUnfold(w, a.x, 256, a.z, t);
    ReadSameBlocks(w1, MarkBoundaries(w1, a, a.x, 256, a.z), a.x, 0, a.z + 1);
  }

  /** A write the chunk accepts stores the chunk marked for a rebuild, then runs the boundary checks. */
  lemma UncheckedUnfold(w: World, x: int, y: int, z: int, t: BlockType)
    requires ChunkCorner(x, z) in w
    requires var a := ChunkCorner(x, z); Chunks.SetBlockAt(w[a], x - a.x, y, z - a.z, t).Ok?
    ensures var a := ChunkCorner(x, z);
      var c := Chunks.SetBlockAt(w[a], x - a.x, y, z - a.z, t).value;
      SetBlockAtUnchecked(w, x, y, z, t) == Ok(MarkBoundaries(w[a := c.(vboDirty := true)], a, x, y, z))
  {
  }

  /** A world read inside the range of heights sees the cell of the chunk that holds the column. */
  lemma ReadChunkCell(w: World, a: Corner, c: Chunk, x: int, y: int, z: int)
    requires a == ChunkCorner(x, z) && 0 <= y < 256
    ensures GetBlockAt(w[a := c], x, y, z) == Ok(Cell(c, Local(x, y, z)))
  {
  }

  /** On the last row of a chunk the same height throws `out_of_range`, where the corrected write ignores it. */
  lemma SetBlockAtHeightThrows(w: World, a: Corner, t: BlockType)
    requires a in w && a.x % 16 == 0 && a.z % 16 == 0
    ensures SetBlockAtUnchecked(w, a.x, 256, a.z + 15, t) == Err(OutOfRange)
    ensures SetBlockAt(w, a.x, 256, a.z + 15, t) == Ok(w)
  {
    ChunkCornerUnique(a.x, a.z + 15, a);
    assert FlatIndex(0, 256, 15) == Volume;
  }

  /**
   * `Terrain::setBlockAt` as evidently intended: like `getBlockAt`, a
   * height outside [0, 256) is ignored instead of reaching the chunk.
   */
  function SetBlockAt(w: World, x: int, y: int, z: int, t: BlockType): (r: Result<World>)
    ensures r.Err? <==> !HasChunkAt(w, x, z)
    ensures r.Err? ==> r.fault == OutOfRange
    ensures r.Ok? ==> r.value.Keys == w.Keys
    ensures HasChunkAt(w, x, z) && !(0 <= y < 256) ==> r == Ok(w)
  {
    if !HasChunkAt(w, x, z) then Err(OutOfRange)
    else if y < 0 || y >= 256 then Ok(w)
    else
      IndexInRange(Local(x, y, z));
      SetBlockAtUnchecked(w, x, y, z, t)
  }

  /**
   * An in-range write stores the cell in the chunk that holds the column,
   * marks that chunk, and then runs the boundary checks.
   */
  lemma SetBlockAtUnfold(w: World, x: int, y: int, z: int, t: BlockType)
    requires HasChunkAt(w, x, z) && 0 <= y < 256
    ensures Chunks.SetBlockAt(w[ChunkCorner(x, z)], Local(x, y, z).x, y, Local(x, y, z).z, t).Ok?
    ensures var a := ChunkCorner(x, z);
      var c := Chunks.SetBlockAt(w[a], Local(x, y, z).x, y, Local(x, y, z).z, t).value;
      && SetBlockAt(w, x, y, z, t) == Ok(MarkBoundaries(w[a := c.(vboDirty := true)], a, x, y, z))
      && Cell(c, Local(x, y, z)) == t
      && (forall q :: InBounds(q) && q != Local(x, y, z) ==> Cell(c, q) == Cell(w[a], q))
      && c == w[a].(blocks := c.blocks)
  {
    var a := ChunkCorner(x, z);
    var p := Local(x, y, z);
    IndexInRange(p);
    UncheckedUnfold(w, x, y, z, t);
    forall q | InBounds(q)
      ensures Cell(Chunks.SetBlockAt(w[a], p.x, p.y, p.z, t).value, q) == if p == q then t else Cell(w[a], q)
    {
      ReadAfterWrite(w[a], p, q, t);
    }
  }

  /** After a write, the written cell reads back and every other world cell reads as before. */
  lemma ReadAfterSet(w: World, x: int, y: int, z: int, t: BlockType, x': int, y': int, z': int)
    requires HasChunkAt(w, x, z) && 0 <= y < 256
    ensures SetBlockAt(w, x, y, z, t).Ok?
    ensures GetBlockAt(SetBlockAt(w, x, y, z, t).value, x', y', z') ==
      if (x', y', z') == (x, y, z) then Ok(t) else GetBlockAt(w, x', y', z')
  {
    var a := ChunkCorner(x, z);
    SetBlockAtUnfold(w, x, y, z, t);
    var c := Chunks.SetBlockAt(w[a], Local(x, y, z).x, y, Local(x, y, z).z, t).value;
    var w1 := w[a := c.(vboDirty := true)];
    WriteReads(w, x, y, z, c.(vboDirty := true), t, x', y', z');
    ReadSameBlocks(w1, SetBlockAt(w, x, y, z, t).value, x', y', z');
  }

  /** Replacing the chunk that holds (x, z) by one that differs in cell (x, y, z) only changes that world cell. */
  lemma WriteReads(w: World, x: int, y: int, z: int, c: Chunk, t: BlockType, x': int, y': int, z': int)
    requires HasChunkAt(w, x, z) && 0 <= y < 256
    requires Cell(c, Local(x, y, z)) == t
    requires forall q :: InBounds(q) && q != Local(x, y, z) ==> Cell(c, q) == Cell(w[ChunkCorner(x, z)], q)
    ensures GetBlockAt(w[ChunkCorner(x, z) := c], x', y', z') ==
      if (x', y', z') == (x, y, z) then Ok(t) else GetBlockAt(w, x', y', z')
  {
    var a := ChunkCorner(x, z);
    if ChunkCorner(x', z') == a && 0 <= y' < 256 && (x', y', z') != (x, y, z) {
      assert Local(x', y', z') != Local(x, y, z);
    }
  }

  /**
   * The dirty flags after a write: the edited chunk is always marked, and
   * another chunk is marked exactly when it lies across a side the column
   * touches and its block across from the edit is not empty. Only the
   * edited chunk's blocks change.
   */
  lemma SetBlockAtMarks(w: World, x: int, y: int, z: int, t: BlockType, e: Corner)
    requires HasChunkAt(w, x, z) && 0 <= y < 256 && e in w
    ensures SetBlockAt(w, x, y, z, t).Ok?
    ensures var v := SetBlockAt(w, x, y, z, t).value;
      && (e != ChunkCorner(x, z) ==> v[e].blocks == w[e].blocks)
      && v[e] == w[e].(blocks := v[e].blocks, vboDirty := v[e].vboDirty)
      && (v[e].vboDirty <==> w[e].vboDirty || e == ChunkCorner(x, z) || Marked(w, ChunkCorner(x, z), x, y, z, e))
  {
    var a := ChunkCorner(x, z);
    SetBlockAtUnfold(w, x, y, z, t);
    var c := Chunks.SetBlockAt(w[a], Local(x, y, z).x, y, Local(x, y, z).z, t).value;
    var w1 := w[a := c.(vboDirty := true)];
    MarkBoundariesFlags(w1, a, x, y, z, e);
    MarkedAfterWrite(w, w1, a, x, y, z, e);
  }

  /** The boundary reads see the same neighbour blocks before and after the write inside chunk `a`. */
  lemma MarkedAfterWrite(w: World, w1: World, a: Corner, x: int, y: int, z: int, e: Corner)
    requires a == ChunkCorner(x, z) && a in w
    requires w1.Keys == w.Keys && forall f :: f in w && f != a ==> w1[f] == w[f]
    ensures Marked(w1, a, x, y, z, e) <==> Marked(w, a, x, y, z, e)
  {
    SideCorners(x, z);
  }
}
