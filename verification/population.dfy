/**
 * Decoration of a generated chunk (`populationworker.cpp`): the write
 * policy for decoration blocks, the resolution of offsets that leave the
 * chunk to a neighbour, the footprints of trees, cacti, pyramids and snow
 * trees, the neighbour-biome test and the decision structure of `run`.
 */
module Population {
  import opened Results
  import opened Blocks
  import opened Chunks
  import opened Numerics
  import opened Footprints
  import Generation
  import World

  /**
   * The policy shared by `setNeighbor` and the in-chunk branch of
   * `placeAcrossChunks`: an override always writes; otherwise only an
   * empty cell is filled. The read of the cell can throw.
   */
  function Writes(c: Chunk, x: int, y: int, z: int, override: bool): (r: Result<bool>)
    ensures r.Err? <==> !override && FlatIndex(x, y, z) >= Volume
    ensures InBounds(Vec3(x, y, z)) ==> r == Ok(override || Cell(c, Vec3(x, y, z)) == Empty)
  {
    if override then Ok(true)
    else
      var b :- Chunks.GetBlockAt(c, x, y, z);
      Ok(b == Empty)
  }

  /** The in-chunk branch of `placeAcrossChunks`: the policy, without marking the chunk. */
  function PlaceHere(c: Chunk, x: int, y: int, z: int, t: BlockType, override: bool): (r: Result<Chunk>)
    ensures r.Ok? <==> FlatIndex(x, y, z) < Volume
    ensures r.Ok? ==> r.value == c.(blocks := r.value.blocks)
  {
    var write :- Writes(c, x, y, z, override);
    if write then Chunks.SetBlockAt(c, x, y, z, t) else Ok(c)
  }

  /** `setNeighbor`: the policy, and a chunk that was written is marked for a rebuild. */
  function SetNeighbor(c: Chunk, x: int, y: int, z: int, t: BlockType, override: bool): (r: Result<Chunk>)
    ensures r.Ok? <==> FlatIndex(x, y, z) < Volume
    ensures r.Ok? ==> r.value == c.(blocks := r.value.blocks, vboDirty := r.value.vboDirty)
  {
    var write :- Writes(c, x, y, z, override);
    if write then
      var d :- Chunks.SetBlockAt(c, x, y, z, t);
      Ok(d.(vboDirty := true))
    else Ok(c)
  }

  /**
   * Both write paths on an in-bounds cell: the cell ends as `t` exactly
   * when the policy writes, every other cell is kept, and `setNeighbor`
   * marks the chunk exactly when it writes.
   */
  lemma WritePolicy(c: Chunk, p: Vec3, q: Vec3, t: BlockType, override: bool)
    requires InBounds(p) && InBounds(q)
    ensures PlaceHere(c, p.x, p.y, p.z, t, override).Ok?
    ensures SetNeighbor(c, p.x, p.y, p.z, t, override).Ok?
    ensures var wrote := override || Cell(c, p) == Empty;
      && Cell(PlaceHere(c, p.x, p.y, p.z, t, override).value, q) == (if p == q && wrote then t else Cell(c, q))
      && Cell(SetNeighbor(c, p.x, p.y, p.z, t, override).value, q) == (if p == q && wrote then t else Cell(c, q))
      && (SetNeighbor(c, p.x, p.y, p.z, t, override).value.vboDirty <==> c.vboDirty || wrote)
  {
    ReadAfterWrite(c, p, q, t);
  }

  /** The corner a link leads to, or a null-pointer fault when the link is missing. */
  function Follow(w: World.World, a: Corner, d: Direction): (r: Result<Corner>)
    requires a in w
    ensures r.Ok? ==> r.value in w
    ensures r.Err? ==> r.fault == NullChunk
  {
    if d in w[a].neighbors && w[a].neighbors[d] in w then Ok(w[a].neighbors[d]) else Err(NullChunk)
  }

  /** In a linked table, a link is followed exactly when the chunk one width away is resident. */
  lemma FollowLinked(w: World.World, a: Corner, d: Direction)
    requires World.Linked(w) && a in w && World.Level(d)
    ensures Follow(w, a, d) == if World.Step(a, d) in w then Ok(World.Step(a, d)) else Err(NullChunk)
  {
    assert World.GeometricAt(w[a], a);
  }

  /** `setNeighbor` applied to the chunk at corner `n` of the table. */
  function SetNeighborIn(w: World.World, n: Corner, x: int, y: int, z: int, t: BlockType, override: bool): (r: Result<World.World>)
    requires n in w
    ensures r.Ok? ==> r.value.Keys == w.Keys && OneChunk(w, r.value, n)
  {
    var c :- SetNeighbor(w[n], x, y, z, t, override);
    Ok(w[n := c])
  }

  /**
   * `placeAcrossChunks` for chunk `a` and the local offset (x, y, z): the
   * offset stays in `a` when both horizontal coordinates land in its
   * square; otherwise one hop along x or z, or two hops (x first, then z)
   * for a diagonal, with the coordinate shifted by one chunk width.
   */
  function PlaceAcrossChunks(w: World.World, a: Corner, x: int, y: int, z: int, t: BlockType, override: bool): (r: Result<World.World>)
    requires a in w
    ensures r.Ok? ==> r.value.Keys == w.Keys
  {
    var c := w[a];
    var xCorner := FloorTo(x + c.minX, 16);
    var zCorner := FloorTo(z + c.minZ, 16);
    var xDir := if x < 0 then XNeg else XPos;
    var zDir := if z < 0 then ZNeg else ZPos;
    var newX := if x < 0 then x + 16 else x - 16;
    var newZ := if z < 0 then z + 16 else z - 16;
    if xCorner != c.minX || zCorner != c.minZ then
      if xCorner != c.minX && zCorner == c.minZ then Hop(w, a, xDir, newX, y, z, t, override)
      else if xCorner == c.minX && zCorner != c.minZ then Hop(w, a, zDir, x, y, newZ, t, override)
      else
        var m :- Follow(w, a, xDir);
        Hop(w, m, zDir, newX, y, newZ, t, override)
    else
      var d :- PlaceHere(c, x, y, z, t, override);
      Ok(w[a := d])
  }

  /** One hop: follow the link along `d`, then `setNeighbor` there. */
  function Hop(w: World.World, a: Corner, d: Direction, x: int, y: int, z: int, t: BlockType, override: bool): (r: Result<World.World>)
    requires a in w
    ensures r.Ok? ==> r.value.Keys == w.Keys && Follow(w, a, d).Ok? && OneChunk(w, r.value, Follow(w, a, d).value)
  {
    var n :- Follow(w, a, d);
    SetNeighborIn(w, n, x, y, z, t, override)
  }

  /** The chunk of a linked, aligned table that holds the world column of local offset (x, z) from `a`. */
  function Target(a: Corner, x: int, z: int): Corner {
    World.ChunkCorner(a.x + x, a.z + z)
  }

  /**
   * The chunks `placeAcrossChunks` must pass through are resident: the
   * target, and for a diagonal also the chunk one hop along x.
   */
  predicate Reachable(w: World.World, a: Corner, x: int, z: int) {
    && Target(a, x, z) in w
    && (Target(a, x, z).x != a.x && Target(a, x, z).z != a.z ==> World.Step(a, if x < 0 then XNeg else XPos) in w)
  }

  /**
   * Resolution is right for offsets within one chunk width: in a linked,
   * aligned table the write lands in the chunk that holds the world column
   * (a.x + x, a.z + z), at that column's local coordinates, with the
   * in-chunk policy when that is `a` itself and `setNeighbor` otherwise;
   * when a chunk on the way is missing the source dereferences null.
   */
  lemma PlaceAcrossResolves(w: World.World, a: Corner, x: int, y: int, z: int, t: BlockType, override: bool)
    requires World.Aligned(w) && World.Linked(w) && a in w
    requires -16 <= x < 32 && -16 <= z < 32
    ensures var n := Target(a, x, z);
      && 0 <= a.x + x - n.x < 16 && 0 <= a.z + z - n.z < 16
      && PlaceAcrossChunks(w, a, x, y, z, t, override) == Resolved(w, a, x, y, z, t, override)
  {
    assert w[a].CornerOf() == a;
    TargetCorner(a, x, z);
    var xDir := if x < 0 then XNeg else XPos;
    var zDir := if z < 0 then ZNeg else ZPos;
    if 0 <= x < 16 && 0 <= z < 16 {
      ResolvesHere(w, a, x, y, z, t, override);
    } else if 0 <= z < 16 {
      FollowLinked(w, a, xDir);
      ResolvesAlongX(w, a, x, y, z, t, override);
    } else if 0 <= x < 16 {
      FollowLinked(w, a, zDir);
      ResolvesAlongZ(w, a, x, y, z, t, override);
    } else {
      FollowLinked(w, a, xDir);
      var m := World.Step(a, xDir);
      if m in w {
        FollowLinked(w, m, zDir);
      }
      ResolvesDiagonal(w, a, x, y, z, t, override);
    }
  }

  /**
   * The reference behaviour: a write at the world column of the offset,
   * through the chunk that holds it, or a null-pointer fault when a chunk
   * on the way is missing.
   */
  function Resolved(w: World.World, a: Corner, x: int, y: int, z: int, t: BlockType, override: bool): Result<World.World>
    requires a in w
  {
    var n := Target(a, x, z);
    if !Reachable(w, a, x, z) then Err(NullChunk)
    else if n == a then
      var d :- PlaceHere(w[a], x, y, z, t, override);
      Ok(w[a := d])
    else SetNeighborIn(w, n, a.x + x - n.x, y, a.z + z - n.z, t, override)
  }

  /** Chunk `a` is resident at its own aligned corner. */
  predicate Settled(w: World.World, a: Corner) {
    a in w && w[a].CornerOf() == a && a.x % 16 == 0 && a.z % 16 == 0
  }

  /** Following the link along `d` from `a` reaches the chunk one width away exactly when it is resident. */
  predicate FollowsStep(w: World.World, a: Corner, d: Direction)
    requires a in w
  {
    Follow(w, a, d) == if World.Step(a, d) in w then Ok(World.Step(a, d)) else Err(NullChunk)
  }

  lemma ResolvesHere(w: World.World, a: Corner, x: int, y: int, z: int, t: BlockType, override: bool)
    requires Settled(w, a)
    requires 0 <= x < 16 && 0 <= z < 16
    ensures PlaceAcrossChunks(w, a, x, y, z, t, override) == Resolved(w, a, x, y, z, t, override)
  {
    TargetCorner(a, x, z);
    assert Target(a, x, z) == a;
  }

  lemma ResolvesAlongX(w: World.World, a: Corner, x: int, y: int, z: int, t: BlockType, override: bool)
    requires Settled(w, a) && FollowsStep(w, a, if x < 0 then XNeg else XPos)
    requires -16 <= x < 32 && !(0 <= x < 16) && 0 <= z < 16
    ensures PlaceAcrossChunks(w, a, x, y, z, t, override) == Resolved(w, a, x, y, z, t, override)
  {
    TargetCorner(a, x, z);
    var n := World.Step(a, if x < 0 then XNeg else XPos);
    assert Target(a, x, z) == n != a;
    assert a.x + x - n.x == (if x < 0 then x + 16 else x - 16) && a.z + z - n.z == z;
  }

  lemma ResolvesAlongZ(w: World.World, a: Corner, x: int, y: int, z: int, t: BlockType, override: bool)
    requires Settled(w, a) && FollowsStep(w, a, if z < 0 then ZNeg else ZPos)
    requires 0 <= x < 16 && -16 <= z < 32 && !(0 <= z < 16)
    ensures PlaceAcrossChunks(w, a, x, y, z, t, override) == Resolved(w, a, x, y, z, t, override)
  {
    TargetCorner(a, x, z);
    var n := World.Step(a, if z < 0 then ZNeg else ZPos);
    assert Target(a, x, z) == n != a;
    assert a.x + x - n.x == x && a.z + z - n.z == (if z < 0 then z + 16 else z - 16);
  }

  lemma ResolvesDiagonal(w: World.World, a: Corner, x: int, y: int, z: int, t: BlockType, override: bool)
    requires Settled(w, a) && FollowsStep(w, a, if x < 0 then XNeg else XPos)
    requires World.Step(a, if x < 0 then XNeg else XPos) in w ==>
      FollowsStep(w, World.Step(a, if x < 0 then XNeg else XPos), if z < 0 then ZNeg else ZPos)
    requires -16 <= x < 32 && -16 <= z < 32 && !(0 <= x < 16) && !(0 <= z < 16)
    ensures PlaceAcrossChunks(w, a, x, y, z, t, override) == Resolved(w, a, x, y, z, t, override)
  {
    TargetCorner(a, x, z);
    var m := World.Step(a, if x < 0 then XNeg else XPos);
    var n := World.Step(m, if z < 0 then ZNeg else ZPos);
    assert Target(a, x, z) == n != a;
    assert a.x + x - n.x == (if x < 0 then x + 16 else x - 16) && a.z + z - n.z == (if z < 0 then z + 16 else z - 16);
  }

  /**
   * Where the target lies: in `a` when both offsets are inside [0, 16),
   * otherwise one width along each axis that leaves, in the direction it
   * leaves.
   */
  lemma TargetCorner(a: Corner, x: int, z: int)
    requires a.x % 16 == 0 && a.z % 16 == 0
    requires -16 <= x < 32 && -16 <= z < 32
    ensures FloorTo(x + a.x, 16) == Target(a, x, z).x && FloorTo(z + a.z, 16) == Target(a, x, z).z
    ensures Target(a, x, z).x == a.x + (if x < 0 then -16 else if x < 16 then 0 else 16)
    ensures Target(a, x, z).z == a.z + (if z < 0 then -16 else if z < 16 then 0 else 16)
  {
    var tx := a.x + (if x < 0 then -16 else if x < 16 then 0 else 16);
    var tz := a.z + (if z < 0 then -16 else if z < 16 then 0 else 16);
    World.ChunkCornerUnique(a.x + x, a.z + z, Corner(tx, tz));
  }

  // ----------------------------------------------------------- the frame

  /** Only block contents and rebuild flags differ: the table, every link, biome and state are kept. */
  predicate Decorated(w: World.World, v: World.World) {
    && v.Keys == w.Keys
    && forall e :: e in w ==> v[e] == w[e].(blocks := v[e].blocks, vboDirty := v[e].vboDirty)
  }

  lemma DecoratedTrans(u: World.World, v: World.World, w: World.World)
    requires Decorated(u, v) && Decorated(v, w)
    ensures Decorated(u, w)
  {
  }

  /** Decoration keeps a table aligned and linked. */
  lemma DecoratedKeepsLinks(w: World.World, v: World.World)
    requires Decorated(w, v)
    ensures World.Aligned(w) ==> World.Aligned(v)
    ensures World.Linked(w) ==> World.Linked(v)
  {
    if World.Linked(w) {
      forall a | a in v ensures World.GeometricAt(v[a], a) {
        assert v[a].neighbors == w[a].neighbors;
        assert World.GeometricAt(w[a], a);
      }
    }
  }

  /** `v` is `w` with only the blocks and the rebuild flag of chunk `n` changed. */
  predicate OneChunk(w: World.World, v: World.World, n: Corner) {
    n in w && n in v && v == w[n := v[n]] && v[n] == w[n].(blocks := v[n].blocks, vboDirty := v[n].vboDirty)
  }

  lemma OneChunkDecorates(w: World.World, v: World.World, n: Corner)
    requires OneChunk(w, v, n)
    ensures Decorated(w, v)
  {
  }

  /** `placeAcrossChunks` decorates: it changes at most the blocks and rebuild flag of one chunk. */
  lemma PlaceAcrossDecorates(w: World.World, a: Corner, x: int, y: int, z: int, t: BlockType, override: bool)
    requires a in w
    ensures var r := PlaceAcrossChunks(w, a, x, y, z, t, override); r.Ok? ==> Decorated(w, r.value)
  {
    var r := PlaceAcrossChunks(w, a, x, y, z, t, override);
    if r.Ok? {
      var c := w[a];
      var xIn := FloorTo(x + c.minX, 16) == c.minX;
      var zIn := FloorTo(z + c.minZ, 16) == c.minZ;
      var xDir := if x < 0 then XNeg else XPos;
      var zDir := if z < 0 then ZNeg else ZPos;
      var newX := if x < 0 then x + 16 else x - 16;
      var newZ := if z < 0 then z + 16 else z - 16;
      if xIn && zIn {
        var d := PlaceHere(c, x, y, z, t, override);
        assert r == Ok(w[a := d.value]);
        OneChunkDecorates(w, r.value, a);
      } else if !xIn && zIn {
        assert r == Hop(w, a, xDir, newX, y, z, t, override);
        OneChunkDecorates(w, r.value, Follow(w, a, xDir).value);
      } else if xIn && !zIn {
        assert r == Hop(w, a, zDir, x, y, newZ, t, override);
        OneChunkDecorates(w, r.value, Follow(w, a, zDir).value);
      } else {
        var m := Follow(w, a, xDir).value;
        assert r == Hop(w, m, zDir, newX, y, newZ, t, override);
        OneChunkDecorates(w, r.value, Follow(w, m, zDir).value);
      }
    }
  }

  /** One call of `placeAcrossChunks` for a stamp. */
  function PlaceStamp(w: World.World, a: Corner, s: Stamp): Result<World.World>
    requires a in w
  {
    PlaceAcrossChunks(w, a, s.x, s.y, s.z, s.block, s.override)
  }

  /** The stamps in order; the first fault ends the worker. */
  function PlaceAll(w: World.World, a: Corner, ss: seq<Stamp>): (r: Result<World.World>)
    requires a in w
    ensures r.Ok? ==> a in r.value
    decreases |ss|
  {
    if ss == [] then Ok(w)
    else
      var w1 :- PlaceStamp(w, a, ss[0]);
      PlaceAll(w1, a, ss[1..])
  }

  /** A run of placements changes nothing but blocks and rebuild flags. */
  lemma {:induction false} PlaceAllDecorates(w: World.World, a: Corner, ss: seq<Stamp>)
    requires a in w
    ensures PlaceAll(w, a, ss).Ok? ==> Decorated(w, PlaceAll(w, a, ss).value)
    decreases |ss|
  {
    if ss != [] {
      var s := ss[0];
      PlaceAcrossDecorates(w, a, s.x, s.y, s.z, s.block, s.override);
      var r1 := PlaceStamp(w, a, s);
      if r1.Ok? {
        PlaceAllDecorates(r1.value, a, ss[1..]);
        if PlaceAll(w, a, ss).Ok? {
          DecoratedTrans(w, r1.value, PlaceAll(w, a, ss).value);
        }
      }
    }
  }

  // ------------------------------------------------- what a placement reads

  /** A stamp the resolution handles: within one chunk width, in height, and its chunks resident. */
  predicate Fits(w: World.World, a: Corner, s: Stamp) {
    Near(s) && Reachable(w, a, s.x, s.z)
  }

  /** A stamp within one chunk width of the chunk's square, and in height. */
  predicate Near(s: Stamp) {
    -16 <= s.x < 32 && -16 <= s.z < 32 && 0 <= s.y < 256
  }

  /** No stamp of the list lands on world cell (X, Y, Z). */
  predicate Misses(a: Corner, ss: seq<Stamp>, X: int, Y: int, Z: int) {
    forall i :: 0 <= i < |ss| ==> !Hits(a, ss[i], X, Y, Z)
  }

  /** The stamp lands on world cell (X, Y, Z). */
  predicate Hits(a: Corner, s: Stamp, X: int, Y: int, Z: int) {
    X == a.x + s.x && Y == s.y && Z == a.z + s.z
  }

  /**
   * The reference write: the cell at the offset's world position becomes
   * `t` when the write overrides or the cell was empty; every other world
   * cell reads as before.
   */
  lemma ResolvedReads(w: World.World, a: Corner, x: int, y: int, z: int, t: BlockType, override: bool, X: int, Y: int, Z: int)
    requires a in w && Reachable(w, a, x, z) && 0 <= y < 256
    ensures Resolved(w, a, x, y, z, t, override).Ok?
    ensures var before := World.GetBlockAt(w, X, Y, Z);
      World.GetBlockAt(Resolved(w, a, x, y, z, t, override).value, X, Y, Z) ==
        if X == a.x + x && Y == y && Z == a.z + z && (override || before == Ok(Empty)) then Ok(t) else before
  {
    var n := Target(a, x, z);
    var p := Vec3(a.x + x - n.x, y, a.z + z - n.z);
    WritePolicy(w[n], p, p, t, override);
    if n == a {
      UpdateReads(w, n, PlaceHere(w[n], p.x, p.y, p.z, t, override).value, p, t, override, X, Y, Z);
    } else {
      SameWrite(w[n], p.x, p.y, p.z, t, override);
      UpdateReads(w, n, SetNeighbor(w[n], p.x, p.y, p.z, t, override).value, p, t, override, X, Y, Z);
    }
  }

  /** `setNeighbor` writes the same blocks as the in-chunk branch. */
  lemma SameWrite(c: Chunk, x: int, y: int, z: int, t: BlockType, override: bool)
    ensures SetNeighbor(c, x, y, z, t, override).Ok? ==>
      && PlaceHere(c, x, y, z, t, override).Ok?
      && SetNeighbor(c, x, y, z, t, override).value.blocks == PlaceHere(c, x, y, z, t, override).value.blocks
  {
  }

  /** Replacing chunk `n` by one with the blocks of a write at its cell `p` changes only p's world cell. */
  lemma UpdateReads(w: World.World, n: Corner, c: Chunk, p: Vec3, t: BlockType, override: bool, X: int, Y: int, Z: int)
    requires n in w && InBounds(p) && World.ChunkCorner(n.x + p.x, n.z + p.z) == n
    requires PlaceHere(w[n], p.x, p.y, p.z, t, override).Ok?
    requires c.blocks == PlaceHere(w[n], p.x, p.y, p.z, t, override).value.blocks
    ensures var before := World.GetBlockAt(w, X, Y, Z);
      World.GetBlockAt(w[n := c], X, Y, Z) ==
        if X == n.x + p.x && Y == p.y && Z == n.z + p.z && (override || before == Ok(Empty)) then Ok(t) else before
  {
    var m := World.ChunkCorner(X, Z);
    assert p == World.Local(n.x + p.x, p.y, n.z + p.z);
    WritePolicy(w[n], p, p, t, override);
    if m == n && 0 <= Y < 256 {
      WritePolicy(w[n], p, World.Local(X, Y, Z), t, override);
    }
  }

  /** A placement that fits writes the stamp's block at its world cell, by the write policy, and nowhere else. */
  lemma PlaceStampReads(w: World.World, a: Corner, s: Stamp, X: int, Y: int, Z: int)
    requires World.Aligned(w) && World.Linked(w) && a in w && Fits(w, a, s)
    ensures PlaceStamp(w, a, s).Ok?
    ensures var before := World.GetBlockAt(w, X, Y, Z);
      World.GetBlockAt(PlaceStamp(w, a, s).value, X, Y, Z) ==
        if Hits(a, s, X, Y, Z) && (s.override || before == Ok(Empty)) then Ok(s.block) else before
  {
    PlaceAcrossResolves(w, a, s.x, s.y, s.z, s.block, s.override);
    ResolvedReads(w, a, s.x, s.y, s.z, s.block, s.override, X, Y, Z);
  }

  /**
   * The first stamp of a list that fits: it succeeds, keeps the table
   * aligned and linked and the rest fitting, and writes by the policy.
   */
  lemma PlaceFirst(w: World.World, a: Corner, ss: seq<Stamp>, X: int, Y: int, Z: int)
    requires Placeable(w, a, ss) && ss != []
    ensures PlaceStamp(w, a, ss[0]).Ok?
    ensures Placeable(PlaceStamp(w, a, ss[0]).value, a, ss[1..])
    ensures PlaceAll(w, a, ss) == PlaceAll(PlaceStamp(w, a, ss[0]).value, a, ss[1..])
    ensures var before := World.GetBlockAt(w, X, Y, Z);
      World.GetBlockAt(PlaceStamp(w, a, ss[0]).value, X, Y, Z) ==
        if Hits(a, ss[0], X, Y, Z) && (ss[0].override || before == Ok(Empty)) then Ok(ss[0].block) else before
  {
    PlaceStampReads(w, a, ss[0], X, Y, Z);
    PlaceAcrossDecorates(w, a, ss[0].x, ss[0].y, ss[0].z, ss[0].block, ss[0].override);
    var w1 := PlaceStamp(w, a, ss[0]).value;
    DecoratedKeepsLinks(w, w1);
    FitsKept(w, w1, a, ss[1..]);
  }

  /** A table the stamps can be placed in: aligned, linked, and every stamp fits. */
  predicate Placeable(w: World.World, a: Corner, ss: seq<Stamp>) {
    World.Aligned(w) && World.Linked(w) && a in w && AllFit(w, a, ss)
  }

  /** Every stamp of the list fits. */
  predicate AllFit(w: World.World, a: Corner, ss: seq<Stamp>) {
    forall i :: 0 <= i < |ss| ==> Fits(w, a, ss[i])
  }

  /** Whether a stamp fits depends only on which chunks are resident. */
  lemma FitsKept(w: World.World, v: World.World, a: Corner, ss: seq<Stamp>)
    requires Decorated(w, v) && AllFit(w, a, ss)
    ensures AllFit(v, a, ss)
  {
  }

  /** Placing stamps that all fit succeeds, and a world cell no stamp lands on reads as before. */
  lemma {:induction false} PlaceAllUntouched(w: World.World, a: Corner, ss: seq<Stamp>, X: int, Y: int, Z: int)
    requires Placeable(w, a, ss)
    requires Misses(a, ss, X, Y, Z)
    ensures PlaceAll(w, a, ss).Ok?
    ensures World.GetBlockAt(PlaceAll(w, a, ss).value, X, Y, Z) == World.GetBlockAt(w, X, Y, Z)
    decreases |ss|
  {
    if ss != [] {
      PlaceFirst(w, a, ss, X, Y, Z);
      var w1 := PlaceStamp(w, a, ss[0]).value;
      PlaceAllUntouched(w1, a, ss[1..], X, Y, Z);
    }
  }

  /** Stamps that only fill leave a non-empty world cell as it was. */
  lemma {:induction false} PlaceAllFillOnly(w: World.World, a: Corner, ss: seq<Stamp>, X: int, Y: int, Z: int, b: BlockType)
    requires Placeable(w, a, ss)
    requires forall i :: 0 <= i < |ss| && Hits(a, ss[i], X, Y, Z) ==> !ss[i].override
    requires World.GetBlockAt(w, X, Y, Z) == Ok(b) && b != Empty
    ensures PlaceAll(w, a, ss).Ok?
    ensures World.GetBlockAt(PlaceAll(w, a, ss).value, X, Y, Z) == Ok(b)
    decreases |ss|
  {
    if ss != [] {
      PlaceFirst(w, a, ss, X, Y, Z);
      var w1 := PlaceStamp(w, a, ss[0]).value;
      PlaceAllFillOnly(w1, a, ss[1..], X, Y, Z, b);
    }
  }

  /** When the last stamp landing on a world cell overrides, the cell ends as that stamp's block. */
  lemma {:induction false} PlaceAllLastOverride(w: World.World, a: Corner, ss: seq<Stamp>, k: nat, X: int, Y: int, Z: int)
    requires Placeable(w, a, ss)
    requires k < |ss| && Hits(a, ss[k], X, Y, Z) && ss[k].override
    requires forall i :: k < i < |ss| ==> !Hits(a, ss[i], X, Y, Z)
    ensures PlaceAll(w, a, ss).Ok?
    ensures World.GetBlockAt(PlaceAll(w, a, ss).value, X, Y, Z) == Ok(ss[k].block)
    decreases k, 1
  {
    if k == 0 {
      PlaceFirst(w, a, ss, X, Y, Z);
      var rest := ss[1..];
      forall i | 0 <= i < |rest| ensures !Hits(a, rest[i], X, Y, Z) {
        assert rest[i] == ss[i + 1];
      }
      PlaceAllUntouched(PlaceStamp(w, a, ss[0]).value, a, rest, X, Y, Z);
    } else {
      LaterLastOverride(w, a, ss, k, X, Y, Z);
    }
  }

  lemma {:induction false} LaterLastOverride(w: World.World, a: Corner, ss: seq<Stamp>, k: nat, X: int, Y: int, Z: int)
    requires Placeable(w, a, ss)
    requires 0 < k < |ss| && Hits(a, ss[k], X, Y, Z) && ss[k].override
    requires forall i :: k < i < |ss| ==> !Hits(a, ss[i], X, Y, Z)
    ensures PlaceAll(w, a, ss).Ok?
    ensures World.GetBlockAt(PlaceAll(w, a, ss).value, X, Y, Z) == Ok(ss[k].block)
    decreases k, 0
  {
    PlaceFirst(w, a, ss, X, Y, Z);
    var rest := ss[1..];
    forall i | k - 1 < i < |rest| ensures !Hits(a, rest[i], X, Y, Z) {
      assert rest[i] == ss[i + 1];
    }
    assert rest[k - 1] == ss[k];
    PlaceAllLastOverride(PlaceStamp(w, a, ss[0]).value, a, rest, k - 1, X, Y, Z);
  }

  /**
   * A cell holding `t` keeps it when every stamp landing on it writes `t`:
   * an override rewrites it and a fill finds it taken.
   */
  lemma {:induction false} PlaceAllKeeps(w: World.World, a: Corner, ss: seq<Stamp>, X: int, Y: int, Z: int, t: BlockType)
    requires Placeable(w, a, ss)
    requires forall i :: 0 <= i < |ss| && Hits(a, ss[i], X, Y, Z) ==> ss[i].block == t && (ss[i].override || t != Empty)
    requires World.GetBlockAt(w, X, Y, Z) == Ok(t)
    ensures PlaceAll(w, a, ss).Ok?
    ensures World.GetBlockAt(PlaceAll(w, a, ss).value, X, Y, Z) == Ok(t)
    decreases |ss|
  {
    if ss != [] {
      PlaceFirst(w, a, ss, X, Y, Z);
      var rest := ss[1..];
      forall i | 0 <= i < |rest| && Hits(a, rest[i], X, Y, Z) ensures rest[i].block == t && (rest[i].override || t != Empty) {
        assert rest[i] == ss[i + 1];
      }
      PlaceAllKeeps(PlaceStamp(w, a, ss[0]).value, a, rest, X, Y, Z, t);
    }
  }

  /** Placing two lists in turn is placing their concatenation. */
  lemma {:induction false} PlaceAllAppend(w: World.World, a: Corner, s1: seq<Stamp>, s2: seq<Stamp>)
    requires a in w
    ensures PlaceAll(w, a, s1 + s2) ==
      match PlaceAll(w, a, s1)
      case Ok(v) => PlaceAll(v, a, s2)
      case Err(f) => Err(f)
    decreases |s1|
  {
    if s1 == [] {
      assert s1 + s2 == s2;
    } else {
      assert (s1 + s2)[0] == s1[0] && (s1 + s2)[1..] == s1[1..] + s2;
      var r := PlaceStamp(w, a, s1[0]);
      if r.Ok? {
        PlaceAllAppend(r.value, a, s1[1..], s2);
      }
    }
  }

  /** Every stamp landing on a world cell overrides with the same block: the cell ends as that block. */
  lemma PlaceAllOverrides(w: World.World, a: Corner, ss: seq<Stamp>, k: nat, X: int, Y: int, Z: int, t: BlockType)
    requires Placeable(w, a, ss)
    requires k < |ss| && Hits(a, ss[k], X, Y, Z)
    requires OverridesWith(a, ss, X, Y, Z, t)
    ensures PlaceAll(w, a, ss).Ok?
    ensures World.GetBlockAt(PlaceAll(w, a, ss).value, X, Y, Z) == Ok(t)
  {
    var j := FirstHit(a, ss, k, X, Y, Z);
    SplitAtHit(w, a, ss, j, X, Y, Z);
    SuffixOverrides(a, ss, j, X, Y, Z, t);
    OverridesAfterMisses(w, a, ss[..j], ss[j..], X, Y, Z, t);
  }

  /** Every stamp of `ss` that lands on the cell overrides it with `t`. */
  predicate OverridesWith(a: Corner, ss: seq<Stamp>, X: int, Y: int, Z: int, t: BlockType) {
    forall i :: 0 <= i < |ss| && Hits(a, ss[i], X, Y, Z) ==> ss[i].override && ss[i].block == t
  }

  /** A suffix of the list still overrides the cell only with `t`. */
  lemma SuffixOverrides(a: Corner, ss: seq<Stamp>, j: nat, X: int, Y: int, Z: int, t: BlockType)
    requires j <= |ss| && OverridesWith(a, ss, X, Y, Z, t)
    ensures OverridesWith(a, ss[j..], X, Y, Z, t)
  {
    assert forall i :: 0 <= i < |ss[j..]| ==> ss[j..][i] == ss[j + i];
  }

  /** A suffix of the list still only fills the cell with `t`. */
  lemma SuffixFills(a: Corner, ss: seq<Stamp>, j: nat, X: int, Y: int, Z: int, t: BlockType)
    requires j <= |ss| && FillsWith(a, ss, X, Y, Z, t)
    ensures FillsWith(a, ss[j..], X, Y, Z, t)
  {
    assert forall i :: 0 <= i < |ss[j..]| ==> ss[j..][i] == ss[j + i];
  }

  /** Stamps that miss the cell, then a list whose first stamp lands on it and all of whose hits override with `t`. */
  lemma OverridesAfterMisses(w: World.World, a: Corner, s1: seq<Stamp>, s2: seq<Stamp>, X: int, Y: int, Z: int, t: BlockType)
    requires Placeable(w, a, s1) && AllFit(w, a, s2)
    requires Misses(a, s1, X, Y, Z)
    requires s2 != [] && Hits(a, s2[0], X, Y, Z)
    requires OverridesWith(a, s2, X, Y, Z, t)
    ensures PlaceAll(w, a, s1 + s2).Ok?
    ensures World.GetBlockAt(PlaceAll(w, a, s1 + s2).value, X, Y, Z) == Ok(t)
  {
    PlaceAllAppend(w, a, s1, s2);
    PlaceAllUntouched(w, a, s1, X, Y, Z);
    PlaceAllDecorates(w, a, s1);
    var w1 := PlaceAll(w, a, s1).value;
    DecoratedKeepsLinks(w, w1);
    FitsKept(w, w1, a, s2);
    FirstOverrides(w1, a, s2, X, Y, Z, t);
  }

  /** The first stamp overrides the cell with `t`, and the rest keep it. */
  lemma FirstOverrides(w: World.World, a: Corner, ss: seq<Stamp>, X: int, Y: int, Z: int, t: BlockType)
    requires Placeable(w, a, ss) && ss != [] && Hits(a, ss[0], X, Y, Z)
    requires OverridesWith(a, ss, X, Y, Z, t)
    ensures PlaceAll(w, a, ss).Ok?
    ensures World.GetBlockAt(PlaceAll(w, a, ss).value, X, Y, Z) == Ok(t)
  {
    PlaceFirst(w, a, ss, X, Y, Z);
    var rest := ss[1..];
    forall i | 0 <= i < |rest| && Hits(a, rest[i], X, Y, Z) ensures rest[i].override && rest[i].block == t {
      assert rest[i] == ss[i + 1];
    }
    PlaceAllKeeps(PlaceStamp(w, a, ss[0]).value, a, rest, X, Y, Z, t);
  }

  /**
   * Every stamp landing on an empty world cell only fills, with the same
   * block: the first of them fills the cell and the rest leave it.
   */
  lemma PlaceAllFills(w: World.World, a: Corner, ss: seq<Stamp>, k: nat, X: int, Y: int, Z: int, t: BlockType)
    requires Placeable(w, a, ss)
    requires k < |ss| && Hits(a, ss[k], X, Y, Z)
    requires FillsWith(a, ss, X, Y, Z, t)
    requires t != Empty && World.GetBlockAt(w, X, Y, Z) == Ok(Empty)
    ensures PlaceAll(w, a, ss).Ok?
    ensures World.GetBlockAt(PlaceAll(w, a, ss).value, X, Y, Z) == Ok(t)
  {
    var j := FirstHit(a, ss, k, X, Y, Z);
    SplitAtHit(w, a, ss, j, X, Y, Z);
    SuffixFills(a, ss, j, X, Y, Z, t);
    FillsAfterMisses(w, a, ss[..j], ss[j..], X, Y, Z, t);
  }

  /** The first stamp of the list that lands on world cell (X, Y, Z). */
  lemma {:induction false} FirstHit(a: Corner, ss: seq<Stamp>, k: nat, X: int, Y: int, Z: int) returns (j: nat)
    requires k < |ss| && Hits(a, ss[k], X, Y, Z)
    ensures j <= k && Hits(a, ss[j], X, Y, Z)
    ensures forall i :: 0 <= i < j ==> !Hits(a, ss[i], X, Y, Z)
    decreases k
  {
    if i :| 0 <= i < k && Hits(a, ss[i], X, Y, Z) {
      j := FirstHit(a, ss, i, X, Y, Z);
    } else {
      j := k;
    }
  }

  /** Cutting the list at its first hit: a prefix that misses and a suffix that starts on the cell. */
  lemma SplitAtHit(w: World.World, a: Corner, ss: seq<Stamp>, j: nat, X: int, Y: int, Z: int)
    requires Placeable(w, a, ss) && j < |ss| && Hits(a, ss[j], X, Y, Z)
    requires forall i :: 0 <= i < j ==> !Hits(a, ss[i], X, Y, Z)
    ensures ss == ss[..j] + ss[j..]
    ensures Placeable(w, a, ss[..j]) && AllFit(w, a, ss[j..])
    ensures Misses(a, ss[..j], X, Y, Z)
    ensures ss[j..] != [] && Hits(a, ss[j..][0], X, Y, Z)
  {
    assert forall i :: 0 <= i < |ss[..j]| ==> ss[..j][i] == ss[i];
    assert forall i :: 0 <= i < |ss[j..]| ==> ss[j..][i] == ss[j + i];
  }

  /** Stamps that miss the empty cell, then a list whose first stamp fills it and whose rest only fill. */
  lemma FillsAfterMisses(w: World.World, a: Corner, s1: seq<Stamp>, s2: seq<Stamp>, X: int, Y: int, Z: int, t: BlockType)
    requires Placeable(w, a, s1) && AllFit(w, a, s2)
    requires Misses(a, s1, X, Y, Z)
    requires s2 != [] && Hits(a, s2[0], X, Y, Z)
    requires FillsWith(a, s2, X, Y, Z, t)
    requires t != Empty && World.GetBlockAt(w, X, Y, Z) == Ok(Empty)
    ensures PlaceAll(w, a, s1 + s2).Ok?
    ensures World.GetBlockAt(PlaceAll(w, a, s1 + s2).value, X, Y, Z) == Ok(t)
  {
    PlaceAllAppend(w, a, s1, s2);
    PlaceAllUntouched(w, a, s1, X, Y, Z);
    PlaceAllDecorates(w, a, s1);
    var w1 := PlaceAll(w, a, s1).value;
    DecoratedKeepsLinks(w, w1);
    FitsKept(w, w1, a, s2);
    FirstFills(w1, a, s2, X, Y, Z, t);
  }

  /** The first stamp fills the empty cell, and the rest only fill. */
  lemma FirstFills(w: World.World, a: Corner, ss: seq<Stamp>, X: int, Y: int, Z: int, t: BlockType)
    requires Placeable(w, a, ss) && ss != [] && Hits(a, ss[0], X, Y, Z)
    requires FillsWith(a, ss, X, Y, Z, t)
    requires t != Empty && World.GetBlockAt(w, X, Y, Z) == Ok(Empty)
    ensures PlaceAll(w, a, ss).Ok?
    ensures World.GetBlockAt(PlaceAll(w, a, ss).value, X, Y, Z) == Ok(t)
  {
    PlaceFirst(w, a, ss, X, Y, Z);
    var w1 := PlaceStamp(w, a, ss[0]).value;
    var rest := ss[1..];
    forall i | 0 <= i < |rest| && Hits(a, rest[i], X, Y, Z) ensures !rest[i].override {
      assert rest[i] == ss[i + 1];
    }
    PlaceAllFillOnly(w1, a, rest, X, Y, Z, t);
  }

  /** A cell the first list leaves as `b`, not empty, keeps `b` when the second list only fills it. */
  lemma AppendKeeps(w: World.World, a: Corner, s1: seq<Stamp>, s2: seq<Stamp>, X: int, Y: int, Z: int, b: BlockType, t: BlockType)
    requires Placeable(w, a, s1) && AllFit(w, a, s2)
    requires PlaceAll(w, a, s1).Ok? && World.GetBlockAt(PlaceAll(w, a, s1).value, X, Y, Z) == Ok(b) && b != Empty
    requires FillsWith(a, s2, X, Y, Z, t)
    ensures PlaceAll(w, a, s1 + s2).Ok?
    ensures World.GetBlockAt(PlaceAll(w, a, s1 + s2).value, X, Y, Z) == Ok(b)
  {
    PlaceAllAppend(w, a, s1, s2);
    PlaceAllDecorates(w, a, s1);
    var w1 := PlaceAll(w, a, s1).value;
    DecoratedKeepsLinks(w, w1);
    FitsKept(w, w1, a, s2);
    PlaceAllFillOnly(w1, a, s2, X, Y, Z, b);
  }

  /** An empty cell the first list misses ends as `t` when the second list fills it with `t`. */
  lemma AppendFills(w: World.World, a: Corner, s1: seq<Stamp>, s2: seq<Stamp>, k: nat, X: int, Y: int, Z: int, t: BlockType)
    requires Placeable(w, a, s1) && AllFit(w, a, s2)
    requires Misses(a, s1, X, Y, Z)
    requires k < |s2| && Hits(a, s2[k], X, Y, Z)
    requires FillsWith(a, s2, X, Y, Z, t)
    requires t != Empty && World.GetBlockAt(w, X, Y, Z) == Ok(Empty)
    ensures PlaceAll(w, a, s1 + s2).Ok?
    ensures World.GetBlockAt(PlaceAll(w, a, s1 + s2).value, X, Y, Z) == Ok(t)
  {
    PlaceAllAppend(w, a, s1, s2);
    PlaceAllUntouched(w, a, s1, X, Y, Z);
    PlaceAllDecorates(w, a, s1);
    var w1 := PlaceAll(w, a, s1).value;
    DecoratedKeepsLinks(w, w1);
    FitsKept(w, w1, a, s2);
    PlaceAllFills(w1, a, s2, k, X, Y, Z, t);
  }

  /** With the eight chunks around resident, every offset within one chunk width is reachable. */
  lemma SurroundedReachable(w: World.World, a: Corner, x: int, z: int)
    requires Settled(w, a) && Neighbourhood(w, a)
    requires -16 <= x < 32 && -16 <= z < 32
    ensures Reachable(w, a, x, z)
  {
    TargetCorner(a, x, z);
    RingAdjacent(a);
    var n := Target(a, x, z);
    if n != a {
      assert Adjacent(a, n);
    }
  }

  /** Stamps near a chunk whose eight neighbours are resident all fit. */
  lemma NearFits(w: World.World, a: Corner, ss: seq<Stamp>)
    requires Settled(w, a) && Neighbourhood(w, a)
    requires forall i :: 0 <= i < |ss| ==> Near(ss[i])
    ensures AllFit(w, a, ss)
  {
    forall i | 0 <= i < |ss| ensures Fits(w, a, ss[i]) {
      SurroundedReachable(w, a, ss[i].x, ss[i].z);
    }
  }

  // ------------------------------------------------------- what the shapes leave

  /** A cell of the oak relative to its base: the trunk column, or the canopy over its top. */
  predicate TreeCell(len: int, dx: int, dy: int, dz: int) {
    (dx == 0 && dz == 0 && 0 <= dy < len) || Canopy(dx, dy - len, dz)
  }

  /** An oak whose trunk stands in the chunk and which fits in height has all its stamps near the chunk. */
  lemma TreeParts(w: World.World, a: Corner, x: int, y: int, z: int, len: int)
    requires World.Aligned(w) && World.Linked(w) && a in w && Neighbourhood(w, a)
    requires 0 <= x < 16 && 0 <= z < 16 && 0 <= y && 3 <= len && y + len < 256
    ensures TreeStamps(x, y, z, len) == YRun(x, z, y, y + len, OakLog, true) + Leaves(x, y + len, z)
    ensures Placeable(w, a, YRun(x, z, y, y + len, OakLog, true))
    ensures AllFit(w, a, Leaves(x, y + len, z))
  {
    var trunk := YRun(x, z, y, y + len, OakLog, true);
    var leaves := Leaves(x, y + len, z);
    forall i | 0 <= i < |trunk| ensures Near(trunk[i]) {
      YRunHas(x, z, y, y + len, OakLog, true, trunk[i]);
    }
    forall i | 0 <= i < |leaves| ensures Near(leaves[i]) {
      LeavesHas(x, y + len, z, leaves[i]);
    }
    NearFits(w, a, trunk);
    NearFits(w, a, leaves);
  }

  /** Every log of the trunk that lands on a trunk cell overrides it with a log, and one of them does. */
  lemma TrunkOverrides(a: Corner, x: int, y: int, z: int, len: int, X: int, Y: int, Z: int) returns (k: nat)
    requires X == a.x + x && Z == a.z + z && y <= Y < y + len
    ensures k < |YRun(x, z, y, y + len, OakLog, true)| && Hits(a, YRun(x, z, y, y + len, OakLog, true)[k], X, Y, Z)
    ensures OverridesWith(a, YRun(x, z, y, y + len, OakLog, true), X, Y, Z, OakLog)
  {
    var trunk := YRun(x, z, y, y + len, OakLog, true);
    var log := Stamp(x, Y, z, OakLog, true);
    YRunHas(x, z, y, y + len, OakLog, true, log);
    k :| 0 <= k < |trunk| && trunk[k] == log;
    forall j | 0 <= j < |trunk| && Hits(a, trunk[j], X, Y, Z) ensures trunk[j].override && trunk[j].block == OakLog {
      YRunHas(x, z, y, y + len, OakLog, true, trunk[j]);
    }
  }

  /**
   * Logs that override a cell, then leaves that only fill it: the cell
   * ends as a log.
   */
  lemma LogsUnderLeaves(w: World.World, a: Corner, trunk: seq<Stamp>, leaves: seq<Stamp>, k: nat, X: int, Y: int, Z: int)
    requires Placeable(w, a, trunk) && AllFit(w, a, leaves)
    requires k < |trunk| && Hits(a, trunk[k], X, Y, Z) && OverridesWith(a, trunk, X, Y, Z, OakLog)
    requires FillsWith(a, leaves, X, Y, Z, OakLeaves)
    ensures PlaceAll(w, a, trunk + leaves).Ok?
    ensures World.GetBlockAt(PlaceAll(w, a, trunk + leaves).value, X, Y, Z) == Ok(OakLog)
  {
    PlaceAllOverrides(w, a, trunk, k, X, Y, Z, OakLog);
    AppendKeeps(w, a, trunk, leaves, X, Y, Z, OakLog, OakLeaves);
  }

  /** Every stamp of `ss` that lands on the cell writes `t` without overriding. */
  predicate FillsWith(a: Corner, ss: seq<Stamp>, X: int, Y: int, Z: int, t: BlockType) {
    forall i :: 0 <= i < |ss| && Hits(a, ss[i], X, Y, Z) ==> !ss[i].override && ss[i].block == t
  }

  /** The leaf loops only fill. */
  lemma LeavesOnlyFill(a: Corner, x: int, top: int, z: int, X: int, Y: int, Z: int)
    ensures FillsWith(a, Leaves(x, top, z), X, Y, Z, OakLeaves)
  {
    var leaves := Leaves(x, top, z);
    forall j | 0 <= j < |leaves| && Hits(a, leaves[j], X, Y, Z) ensures !leaves[j].override && leaves[j].block == OakLeaves {
      LeavesHas(x, top, z, leaves[j]);
    }
  }

  /**
   * `placeTree` with the trunk's column in the chunk and the eight
   * neighbours resident succeeds, and every cell of the trunk ends as a
   * log: the logs override and the leaves that reach the trunk only fill.
   */
  lemma TreeTrunkStands(w: World.World, a: Corner, x: int, y: int, z: int, len: int, X: int, Y: int, Z: int)
    requires World.Aligned(w) && World.Linked(w) && a in w && Neighbourhood(w, a)
    requires 0 <= x < 16 && 0 <= z < 16 && 0 <= y && 3 <= len && y + len < 256
    requires X == a.x + x && Z == a.z + z && y <= Y < y + len
    ensures PlaceAll(w, a, TreeStamps(x, y, z, len)).Ok?
    ensures World.GetBlockAt(PlaceAll(w, a, TreeStamps(x, y, z, len)).value, X, Y, Z) == Ok(OakLog)
  {
    TreeParts(w, a, x, y, z, len);
    TrunkUnderLeaves(w, a, x, y, z, len, X, Y, Z);
  }

  /** A trunk cell once the two parts of the oak are known to fit. */
  lemma TrunkUnderLeaves(w: World.World, a: Corner, x: int, y: int, z: int, len: int, X: int, Y: int, Z: int)
    requires Placeable(w, a, YRun(x, z, y, y + len, OakLog, true)) && AllFit(w, a, Leaves(x, y + len, z))
    requires X == a.x + x && Z == a.z + z && y <= Y < y + len
    ensures PlaceAll(w, a, YRun(x, z, y, y + len, OakLog, true) + Leaves(x, y + len, z)).Ok?
    ensures World.GetBlockAt(PlaceAll(w, a, YRun(x, z, y, y + len, OakLog, true) + Leaves(x, y + len, z)).value, X, Y, Z) == Ok(OakLog)
  {
    var k := TrunkOverrides(a, x, y, z, len, X, Y, Z);
    LeavesOnlyFill(a, x, y + len, z, X, Y, Z);
    LogsUnderLeaves(w, a, YRun(x, z, y, y + len, OakLog, true), Leaves(x, y + len, z), k, X, Y, Z);
  }

  /** A canopy cell off the trunk, empty before, once the two parts are known to fit. */
  lemma LeafAfterTrunk(w: World.World, a: Corner, x: int, y: int, z: int, len: int, X: int, Y: int, Z: int)
    requires Placeable(w, a, YRun(x, z, y, y + len, OakLog, true)) && AllFit(w, a, Leaves(x, y + len, z))
    requires Canopy(X - a.x - x, Y - y - len, Z - a.z - z) && !(X == a.x + x && Z == a.z + z && Y < y + len)
    requires World.GetBlockAt(w, X, Y, Z) == Ok(Empty)
    ensures PlaceAll(w, a, YRun(x, z, y, y + len, OakLog, true) + Leaves(x, y + len, z)).Ok?
    ensures World.GetBlockAt(PlaceAll(w, a, YRun(x, z, y, y + len, OakLog, true) + Leaves(x, y + len, z)).value, X, Y, Z) == Ok(OakLeaves)
  {
    TrunkMisses(a, x, y, z, len, X, Y, Z);
    var k := LeafIndex(a, x, y + len, z, X, Y, Z);
    LeavesOnlyFill(a, x, y + len, z, X, Y, Z);
    AppendFills(w, a, YRun(x, z, y, y + len, OakLog, true), Leaves(x, y + len, z), k, X, Y, Z, OakLeaves);
  }

  /** No log lands on a cell off the trunk's column or above it. */
  lemma TrunkMisses(a: Corner, x: int, y: int, z: int, len: int, X: int, Y: int, Z: int)
    requires !(X == a.x + x && Z == a.z + z && y <= Y < y + len)
    ensures Misses(a, YRun(x, z, y, y + len, OakLog, true), X, Y, Z)
  {
    var trunk := YRun(x, z, y, y + len, OakLog, true);
    forall j | 0 <= j < |trunk| ensures !Hits(a, trunk[j], X, Y, Z) {
      YRunHas(x, z, y, y + len, OakLog, true, trunk[j]);
    }
  }

  /** The leaf stamp that lands on a canopy cell. */
  lemma LeafIndex(a: Corner, x: int, top: int, z: int, X: int, Y: int, Z: int) returns (k: nat)
    requires Canopy(X - a.x - x, Y - top, Z - a.z - z)
    ensures k < |Leaves(x, top, z)| && Hits(a, Leaves(x, top, z)[k], X, Y, Z)
  {
    var leaves := Leaves(x, top, z);
    var leaf := Stamp(X - a.x, Y, Z - a.z, OakLeaves, false);
    LeavesHas(x, top, z, leaf);
    k :| 0 <= k < |leaves| && leaves[k] == leaf;
  }

  /** A canopy cell off the trunk that was empty ends as leaves. */
  lemma TreeLeafGrows(w: World.World, a: Corner, x: int, y: int, z: int, len: int, X: int, Y: int, Z: int)
    requires World.Aligned(w) && World.Linked(w) && a in w && Neighbourhood(w, a)
    requires 0 <= x < 16 && 0 <= z < 16 && 0 <= y && 3 <= len && y + len < 256
    requires Canopy(X - a.x - x, Y - y - len, Z - a.z - z) && !(X == a.x + x && Z == a.z + z && Y < y + len)
    requires World.GetBlockAt(w, X, Y, Z) == Ok(Empty)
    ensures PlaceAll(w, a, TreeStamps(x, y, z, len)).Ok?
    ensures World.GetBlockAt(PlaceAll(w, a, TreeStamps(x, y, z, len)).value, X, Y, Z) == Ok(OakLeaves)
  {
    TreeParts(w, a, x, y, z, len);
    LeafAfterTrunk(w, a, x, y, z, len, X, Y, Z);
  }

  /** Every world cell outside the oak reads as before. */
  lemma TreeOutside(w: World.World, a: Corner, x: int, y: int, z: int, len: int, X: int, Y: int, Z: int)
    requires World.Aligned(w) && World.Linked(w) && a in w && Neighbourhood(w, a)
    requires 0 <= x < 16 && 0 <= z < 16 && 0 <= y && 3 <= len && y + len < 256
    requires !TreeCell(len, X - a.x - x, Y - y, Z - a.z - z)
    ensures PlaceAll(w, a, TreeStamps(x, y, z, len)).Ok?
    ensures World.GetBlockAt(PlaceAll(w, a, TreeStamps(x, y, z, len)).value, X, Y, Z) == World.GetBlockAt(w, X, Y, Z)
  {
    var ss := TreeStamps(x, y, z, len);
    forall j | 0 <= j < |ss| ensures Near(ss[j]) && !Hits(a, ss[j], X, Y, Z) {
      TreeFootprint(x, y, z, len, ss[j]);
    }
    NearFits(w, a, ss);
    PlaceAllUntouched(w, a, ss, X, Y, Z);
  }

  /** A cell of the pyramid relative to its base: at height h, the square of half-width 15 - h. */
  predicate PyramidCell(dx: int, dy: int, dz: int) {
    0 <= dy <= 15 && -(15 - dy) <= dx <= 15 - dy && -(15 - dy) <= dz <= 15 - dy
  }

  lemma PyramidFits(w: World.World, a: Corner, x: int, y: int, z: int)
    requires Settled(w, a) && Neighbourhood(w, a)
    requires 0 <= x < 16 && 0 <= z < 16 && 0 <= y && y + 15 < 256
    ensures AllFit(w, a, PyramidStamps(x, y, z))
  {
    var ss := PyramidStamps(x, y, z);
    forall j | 0 <= j < |ss| ensures Near(ss[j]) {
      PyramidFootprint(x, y, z, ss[j]);
    }
    NearFits(w, a, ss);
  }

  /** `placePyramid` whose base fits under the build limit turns every cell of the pyramid to sandstone. */
  lemma PyramidStands(w: World.World, a: Corner, x: int, y: int, z: int, X: int, Y: int, Z: int)
    requires World.Aligned(w) && World.Linked(w) && a in w && Neighbourhood(w, a)
    requires 0 <= x < 16 && 0 <= z < 16 && 0 <= y && y + 15 < 256
    requires PyramidCell(X - a.x - x, Y - y, Z - a.z - z)
    ensures PlaceAll(w, a, PyramidStamps(x, y, z)).Ok?
    ensures World.GetBlockAt(PlaceAll(w, a, PyramidStamps(x, y, z)).value, X, Y, Z) == Ok(Sandstone)
  {
    var ss := PyramidStamps(x, y, z);
    PyramidFits(w, a, x, y, z);
    var st := Stamp(X - a.x, Y, Z - a.z, Sandstone, true);
    PyramidFootprint(x, y, z, st);
    var k :| 0 <= k < |ss| && ss[k] == st;
    forall j | 0 <= j < |ss| && Hits(a, ss[j], X, Y, Z) ensures ss[j].override && ss[j].block == Sandstone {
      PyramidFootprint(x, y, z, ss[j]);
    }
    PlaceAllOverrides(w, a, ss, k, X, Y, Z, Sandstone);
  }

  /** Every world cell outside the pyramid reads as before. */
  lemma PyramidOutside(w: World.World, a: Corner, x: int, y: int, z: int, X: int, Y: int, Z: int)
    requires World.Aligned(w) && World.Linked(w) && a in w && Neighbourhood(w, a)
    requires 0 <= x < 16 && 0 <= z < 16 && 0 <= y && y + 15 < 256
    requires !PyramidCell(X - a.x - x, Y - y, Z - a.z - z)
    ensures PlaceAll(w, a, PyramidStamps(x, y, z)).Ok?
    ensures World.GetBlockAt(PlaceAll(w, a, PyramidStamps(x, y, z)).value, X, Y, Z) == World.GetBlockAt(w, X, Y, Z)
  {
    var ss := PyramidStamps(x, y, z);
    PyramidFits(w, a, x, y, z);
    forall j | 0 <= j < |ss| ensures !Hits(a, ss[j], X, Y, Z) {
      PyramidFootprint(x, y, z, ss[j]);
    }
    PlaceAllUntouched(w, a, ss, X, Y, Z);
  }

  // ------------------------------------------------ the neighbour biome test

  /** Following a chain of links; a missing link is a null-pointer fault. */
  function FollowPath(w: World.World, a: Corner, path: seq<Direction>): (r: Result<Corner>)
    requires a in w
    ensures r.Ok? ==> r.value in w
    decreases |path|
  {
    if path == [] then Ok(a)
    else
      var n :- Follow(w, a, path[0]);
      FollowPath(w, n, path[1..])
  }

  /** Where a chain of steps ends. */
  function End(a: Corner, path: seq<Direction>): Corner
    decreases |path|
  {
    if path == [] then a else End(World.Step(a, path[0]), path[1..])
  }

  /** Every corner the chain passes through, after the start, is resident. */
  predicate Clear(w: World.World, a: Corner, path: seq<Direction>)
    decreases |path|
  {
    path == [] || (World.Step(a, path[0]) in w && Clear(w, World.Step(a, path[0]), path[1..]))
  }

  predicate LevelPath(path: seq<Direction>) {
    forall i :: 0 <= i < |path| ==> World.Level(path[i])
  }

  /** In a linked table a chain of links reaches its end exactly when every chunk on the way is resident. */
  lemma {:induction false} FollowPathLinked(w: World.World, a: Corner, path: seq<Direction>)
    requires World.Linked(w) && a in w && LevelPath(path)
    ensures FollowPath(w, a, path) == if Clear(w, a, path) then Ok(End(a, path)) else Err(NullChunk)
    decreases |path|
  {
    if path != [] {
      FollowLinked(w, a, path[0]);
      var n := World.Step(a, path[0]);
      if n in w {
        assert LevelPath(path[1..]) by {
          forall i | 0 <= i < |path| - 1 ensures World.Level(path[1..][i]) {
            assert path[1..][i] == path[i + 1];
          }
        }
        FollowPathLinked(w, n, path[1..]);
      }
    }
  }

  /** The `&&` chain of the test: each chunk's biome in turn, stopping at the first mismatch. */
  function BiomesMatch(w: World.World, a: Corner, b: Biome, paths: seq<seq<Direction>>): Result<bool>
    requires a in w
    decreases |paths|
  {
    if paths == [] then Ok(true)
    else
      var e :- FollowPath(w, a, paths[0]);
      if w[e].biome != b then Ok(false) else BiomesMatch(w, a, b, paths[1..])
  }

  lemma {:induction false} ClearEnd(w: World.World, a: Corner, path: seq<Direction>)
    requires a in w && Clear(w, a, path)
    ensures End(a, path) in w
    decreases |path|
  {
    if path != [] {
      ClearEnd(w, World.Step(a, path[0]), path[1..]);
    }
  }

  /** The chain ends at a resident chunk of biome `b`. */
  predicate EndsIn(w: World.World, a: Corner, path: seq<Direction>, b: Biome) {
    Clear(w, a, path) && End(a, path) in w && w[End(a, path)].biome == b
  }

  predicate LevelPaths(paths: seq<seq<Direction>>) {
    forall i :: 0 <= i < |paths| ==> LevelPath(paths[i])
  }

  /**
   * In a linked table the chain answers true exactly when every path is
   * clear and ends in biome `b`; when every path is clear it never faults.
   */
  lemma {:induction false} BiomesMatchLinked(w: World.World, a: Corner, b: Biome, paths: seq<seq<Direction>>)
    requires World.Linked(w) && a in w && LevelPaths(paths)
    ensures BiomesMatch(w, a, b, paths) == Ok(true) <==> forall i :: 0 <= i < |paths| ==> EndsIn(w, a, paths[i], b)
    ensures (forall i :: 0 <= i < |paths| ==> Clear(w, a, paths[i])) ==> BiomesMatch(w, a, b, paths).Ok?
    decreases |paths|
  {
    if paths != [] {
      FollowPathLinked(w, a, paths[0]);
      if Clear(w, a, paths[0]) {
        ClearEnd(w, a, paths[0]);
      }
      var rest := paths[1..];
      assert LevelPaths(rest) by {
        forall i | 0 <= i < |rest| ensures LevelPath(rest[i]) {
          assert rest[i] == paths[i + 1];
        }
      }
      BiomesMatchLinked(w, a, b, rest);
      assert forall i :: 0 <= i < |rest| ==> rest[i] == paths[i + 1];
      assert (forall i :: 0 <= i < |paths| ==> EndsIn(w, a, paths[i], b)) <==>
        EndsIn(w, a, paths[0], b) && forall i :: 0 <= i < |rest| ==> EndsIn(w, a, rest[i], b);
    }
  }

  /** The eight chains `checkNeighborType` follows as written: the (-x, +z) diagonal appears twice. */
  const AsWrittenPaths: seq<seq<Direction>> :=
    [[XPos], [XNeg], [ZPos], [ZNeg], [XPos, ZPos], [XPos, ZNeg], [XNeg, ZPos], [XNeg, ZPos]]

  /** The eight chains it evidently means: the four sides and the four diagonals. */
  const NeighborPaths: seq<seq<Direction>> :=
    [[XPos], [XNeg], [ZPos], [ZNeg], [XPos, ZPos], [XPos, ZNeg], [XNeg, ZPos], [XNeg, ZNeg]]

  /** `checkNeighborType` as written. */
  function CheckNeighborTypeAsWritten(w: World.World, a: Corner, b: Biome): Result<bool>
    requires a in w
  {
    BiomesMatch(w, a, b, AsWrittenPaths)
  }

  /** `checkNeighborType` with the last chain going to the (-x, -z) diagonal. */
  function CheckNeighborType(w: World.World, a: Corner, b: Biome): Result<bool>
    requires a in w
  {
    BiomesMatch(w, a, b, NeighborPaths)
  }

  /** A chunk on the same 16-grid as `a`, one of the eight around it. */
  predicate Adjacent(a: Corner, e: Corner) {
    && e != a
    && a.x - 16 <= e.x <= a.x + 16 && a.z - 16 <= e.z <= a.z + 16
    && (e.x - a.x) % 16 == 0 && (e.z - a.z) % 16 == 0
  }

  /** The corner across the (-x, -z) diagonal. */
  function SouthWest(a: Corner): Corner {
    Corner(a.x - 16, a.z - 16)
  }

  /** The eight chunks around `a` are resident and of biome `b`. */
  ghost predicate Surrounded(w: World.World, a: Corner, b: Biome) {
    forall e :: Adjacent(a, e) ==> e in w && w[e].biome == b
  }

  /** The same, except for the (-x, -z) diagonal. */
  ghost predicate SurroundedButSouthWest(w: World.World, a: Corner, b: Biome) {
    forall e :: Adjacent(a, e) && e != SouthWest(a) ==> e in w && w[e].biome == b
  }

  /** The eight chunks around `a` are resident. */
  ghost predicate Neighbourhood(w: World.World, a: Corner) {
    forall e :: Adjacent(a, e) ==> e in w
  }

  lemma AdjacentCases(a: Corner, e: Corner)
    ensures Adjacent(a, e) <==>
      || e == Corner(a.x + 16, a.z) || e == Corner(a.x - 16, a.z)
      || e == Corner(a.x, a.z + 16) || e == Corner(a.x, a.z - 16)
      || e == Corner(a.x + 16, a.z + 16) || e == Corner(a.x + 16, a.z - 16)
      || e == Corner(a.x - 16, a.z + 16) || e == SouthWest(a)
  {
    var dx, dz := e.x - a.x, e.z - a.z;
    if Adjacent(a, e) {
      assert dx == -16 || dx == 0 || dx == 16;
      assert dz == -16 || dz == 0 || dz == 16;
    }
  }

  lemma OneStep(w: World.World, a: Corner, d: Direction, b: Biome)
    ensures EndsIn(w, a, [d], b) <==> World.Step(a, d) in w && w[World.Step(a, d)].biome == b
  {
    assert [d][1..] == [];
    assert Clear(w, a, [d]) <==> World.Step(a, d) in w;
    assert End(a, [d]) == World.Step(a, d);
  }

  lemma TwoSteps(w: World.World, a: Corner, d1: Direction, d2: Direction, b: Biome)
    ensures var m := World.Step(a, d1); var n := World.Step(m, d2);
      EndsIn(w, a, [d1, d2], b) <==> m in w && n in w && w[n].biome == b
  {
    var m := World.Step(a, d1);
    assert [d1, d2][1..] == [d2];
    assert [d2][1..] == [];
    assert Clear(w, a, [d1, d2]) <==> m in w && Clear(w, m, [d2]);
    assert Clear(w, m, [d2]) <==> World.Step(m, d2) in w;
    assert End(a, [d1, d2]) == End(m, [d2]) == World.Step(m, d2);
  }

  /** The seven distinct chains the test follows as written, one by one. */
  predicate SevenEnds(w: World.World, a: Corner, b: Biome) {
    && EndsIn(w, a, [XPos], b) && EndsIn(w, a, [XNeg], b) && EndsIn(w, a, [ZPos], b) && EndsIn(w, a, [ZNeg], b)
    && EndsIn(w, a, [XPos, ZPos], b) && EndsIn(w, a, [XPos, ZNeg], b) && EndsIn(w, a, [XNeg, ZPos], b)
  }

  /** Each chain of the corrected test, one by one. */
  predicate EightEnds(w: World.World, a: Corner, b: Biome) {
    SevenEnds(w, a, b) && EndsIn(w, a, [XNeg, ZNeg], b)
  }

  lemma NeighborPathsEight(w: World.World, a: Corner, b: Biome)
    ensures LevelPaths(NeighborPaths)
    ensures (forall i :: 0 <= i < |NeighborPaths| ==> EndsIn(w, a, NeighborPaths[i], b)) <==> EightEnds(w, a, b)
  {
    var ps := NeighborPaths;
    assert ps[0] == [XPos] && ps[1] == [XNeg] && ps[2] == [ZPos] && ps[3] == [ZNeg];
    assert ps[4] == [XPos, ZPos] && ps[5] == [XPos, ZNeg] && ps[6] == [XNeg, ZPos] && ps[7] == [XNeg, ZNeg];
  }

  /** The chains of the corrected test end at exactly the eight corners around `a`. */
  lemma EightSurrounded(w: World.World, a: Corner, b: Biome)
    ensures EightEnds(w, a, b) <==> Surrounded(w, a, b)
  {
    OneStep(w, a, XPos, b);
    OneStep(w, a, XNeg, b);
    OneStep(w, a, ZPos, b);
    OneStep(w, a, ZNeg, b);
    TwoSteps(w, a, XPos, ZPos, b);
    TwoSteps(w, a, XPos, ZNeg, b);
    TwoSteps(w, a, XNeg, ZPos, b);
    TwoSteps(w, a, XNeg, ZNeg, b);
    RingAdjacent(a);
    if EightEnds(w, a, b) {
      forall e | Adjacent(a, e) ensures e in w && w[e].biome == b {
        AdjacentCases(a, e);
      }
    }
  }

  /** With the eight around resident, every chain of the corrected test is clear. */
  lemma NeighborPathsClear(w: World.World, a: Corner)
    requires Neighbourhood(w, a)
    ensures forall i :: 0 <= i < |NeighborPaths| ==> Clear(w, a, NeighborPaths[i])
  {
    var ps := NeighborPaths;
    RingAdjacent(a);
    assert ps[0] == [XPos] && ps[1] == [XNeg] && ps[2] == [ZPos] && ps[3] == [ZNeg];
    assert ps[4] == [XPos, ZPos] && ps[5] == [XPos, ZNeg] && ps[6] == [XNeg, ZPos] && ps[7] == [XNeg, ZNeg];
    assert [XPos][1..] == [] && [XNeg][1..] == [] && [ZPos][1..] == [] && [ZNeg][1..] == [];
    assert [XPos, ZPos][1..] == [ZPos] && [XPos, ZNeg][1..] == [ZNeg] && [XNeg, ZPos][1..] == [ZPos] && [XNeg, ZNeg][1..] == [ZNeg];
  }

  /** The eight corners around `a`, one for each side and diagonal. */
  lemma RingAdjacent(a: Corner)
    ensures Adjacent(a, Corner(a.x + 16, a.z)) && Adjacent(a, Corner(a.x - 16, a.z))
    ensures Adjacent(a, Corner(a.x, a.z + 16)) && Adjacent(a, Corner(a.x, a.z - 16))
    ensures Adjacent(a, Corner(a.x + 16, a.z + 16)) && Adjacent(a, Corner(a.x + 16, a.z - 16))
    ensures Adjacent(a, Corner(a.x - 16, a.z + 16)) && Adjacent(a, SouthWest(a))
  {
  }

  /**
   * In a linked table the corrected test answers true exactly when the
   * eight chunks around are resident and of biome `b`, and it answers
   * without faulting whenever the eight are resident.
   */
  lemma CheckNeighborTypeRule(w: World.World, a: Corner, b: Biome)
    requires World.Linked(w) && a in w
    ensures CheckNeighborType(w, a, b) == Ok(true) <==> Surrounded(w, a, b)
    ensures Neighbourhood(w, a) ==> CheckNeighborType(w, a, b).Ok?
  {
    NeighborPathsEight(w, a, b);
    EightSurrounded(w, a, b);
    if Neighbourhood(w, a) {
      NeighborPathsClear(w, a);
    }
    BiomesMatchLinked(w, a, b, NeighborPaths);
  }

  lemma AsWrittenPathsSeven(w: World.World, a: Corner, b: Biome)
    ensures LevelPaths(AsWrittenPaths)
    ensures (forall i :: 0 <= i < |AsWrittenPaths| ==> EndsIn(w, a, AsWrittenPaths[i], b)) <==> SevenEnds(w, a, b)
  {
    var ps := AsWrittenPaths;
    assert ps[0] == [XPos] && ps[1] == [XNeg] && ps[2] == [ZPos] && ps[3] == [ZNeg];
    assert ps[4] == [XPos, ZPos] && ps[5] == [XPos, ZNeg] && ps[6] == [XNeg, ZPos] && ps[7] == [XNeg, ZPos];
  }

  /** The chains of the test as written end at the corners around `a` other than the (-x, -z) diagonal. */
  lemma SevenSurrounded(w: World.World, a: Corner, b: Biome)
    ensures SevenEnds(w, a, b) <==> SurroundedButSouthWest(w, a, b)
  {
    OneStep(w, a, XPos, b);
    OneStep(w, a, XNeg, b);
    OneStep(w, a, ZPos, b);
    OneStep(w, a, ZNeg, b);
    TwoSteps(w, a, XPos, ZPos, b);
    TwoSteps(w, a, XPos, ZNeg, b);
    TwoSteps(w, a, XNeg, ZPos, b);
    RingAdjacent(a);
    if SevenEnds(w, a, b) {
      forall e | Adjacent(a, e) && e != SouthWest(a) ensures e in w && w[e].biome == b {
        AdjacentCases(a, e);
      }
    }
  }

  /** With the eight around resident, every chain of the test as written is clear. */
  lemma AsWrittenPathsClear(w: World.World, a: Corner)
    requires Neighbourhood(w, a)
    ensures forall i :: 0 <= i < |AsWrittenPaths| ==> Clear(w, a, AsWrittenPaths[i])
  {
    var ps := AsWrittenPaths;
    RingAdjacent(a);
    assert ps[0] == [XPos] && ps[1] == [XNeg] && ps[2] == [ZPos] && ps[3] == [ZNeg];
    assert ps[4] == [XPos, ZPos] && ps[5] == [XPos, ZNeg] && ps[6] == [XNeg, ZPos] && ps[7] == [XNeg, ZPos];
    assert [XPos][1..] == [] && [XNeg][1..] == [] && [ZPos][1..] == [] && [ZNeg][1..] == [];
    assert [XPos, ZPos][1..] == [ZPos] && [XPos, ZNeg][1..] == [ZNeg] && [XNeg, ZPos][1..] == [ZPos];
  }

  /**
   * The test as written answers true exactly when the chunks around `a`
   * other than the (-x, -z) diagonal are resident and of biome `b`: that
   * diagonal is never looked at.
   */
  lemma CheckNeighborTypeAsWrittenRule(w: World.World, a: Corner, b: Biome)
    requires World.Linked(w) && a in w
    ensures CheckNeighborTypeAsWritten(w, a, b) == Ok(true) <==> SurroundedButSouthWest(w, a, b)
    ensures Neighbourhood(w, a) ==> CheckNeighborTypeAsWritten(w, a, b).Ok?
  {
    AsWrittenPathsSeven(w, a, b);
    SevenSurrounded(w, a, b);
    if Neighbourhood(w, a) {
      AsWrittenPathsClear(w, a);
    }
    BiomesMatchLinked(w, a, b, AsWrittenPaths);
  }

  /**
   * The discrepancy: with the (-x, -z) diagonal resident but of another
   * biome and every other neighbour matching, the test as written says
   * true while the corrected one says false.
   */
  lemma AsWrittenMissesSouthWest(w: World.World, a: Corner, b: Biome)
    requires World.Linked(w) && a in w
    requires SurroundedButSouthWest(w, a, b) && SouthWest(a) in w && w[SouthWest(a)].biome != b
    ensures CheckNeighborTypeAsWritten(w, a, b) == Ok(true)
    ensures CheckNeighborType(w, a, b) == Ok(false)
  {
    CheckNeighborTypeAsWrittenRule(w, a, b);
    SouthWestOdd(w, a, b);
    var r := CheckNeighborType(w, a, b);
    CheckNeighborTypeRule(w, a, b);
    assert r.Ok? && r != Ok(true);
    assert !r.value;
  }

  /** The chunks around `a` other than the (-x, -z) diagonal, and that diagonal too, are all eight. */
  lemma SouthWestOdd(w: World.World, a: Corner, b: Biome)
    requires SurroundedButSouthWest(w, a, b) && SouthWest(a) in w && w[SouthWest(a)].biome != b
    ensures Neighbourhood(w, a) && !Surrounded(w, a, b)
  {
    RingAdjacent(a);
  }
}
