/**
 * One 16 x 256 x 16 column of the world: its block store with the flat
 * index and unsigned-conversion behaviour of the accessors, its neighbour
 * links, its two state machines and the geometry it stages for upload.
 */
module Chunks {
  import opened Results
  import opened Blocks
  import opened Numerics

  /** Number of cells in a chunk. */
  const Volume: nat := 65536
  /** 2^32: values of `unsigned int` are taken modulo this. */
  const U32: nat := 0x1_0000_0000

  type Grid = s: seq<BlockType> | |s| == Volume witness seq(65536, _ => Empty)

  /** The world-space corner (minX, minZ) of a chunk; chunks are found by it. */
  datatype Corner = Corner(x: int, z: int)

  /** An interleaved vertex: world position, face normal, atlas coordinates and the animation flag. */
  datatype Vertex = Vertex(pos: Vec3, nor: Vec3, uv: Tile, animated: bool)

  /** Vertex and index lists built off the main thread and waiting to be uploaded. */
  datatype Staged = Staged(opaqueVerts: seq<Vertex>, opaqueIdx: seq<nat>, clearVerts: seq<Vertex>, clearIdx: seq<nat>)

  const NoGeometry := Staged([], [], [], [])

  /**
   * A chunk. `neighbors` maps a direction to the corner of the linked
   * neighbour; a direction that is absent is a null pointer.
   */
  datatype Chunk = Chunk(
    blocks: Grid,
    minX: int,
    minZ: int,
    neighbors: map<Direction, Corner>,
    biome: Biome,
    genState: GenState,
    vboState: VboState,
    vboDirty: bool,
    vboReady: bool,
    staged: Staged)
  {
    function CornerOf(): Corner { Corner(minX, minZ) }
  }

  /** The constructor the terrain uses: all cells empty, no neighbours, nothing generated or built. */
  function NewChunk(x: int, z: int): (c: Chunk)
    ensures forall i :: 0 <= i < Volume ==> c.blocks[i] == Empty
    ensures c.CornerOf() == Corner(x, z) && c.neighbors == map[]
    ensures c.genState == Ungenerated && c.vboState == VboNone && !c.vboDirty && !c.vboReady
  {
    Chunk(seq(65536, _ => Empty), x, z, map[], Grassland, Ungenerated, VboNone, false, false, NoGeometry)
  }

  predicate InBounds(p: Vec3) {
    0 <= p.x < 16 && 0 <= p.y < 256 && 0 <= p.z < 16
  }

  /** Storage position of an in-bounds cell. */
  function Index(p: Vec3): nat
    requires InBounds(p)
  {
    p.x + 16 * p.y + 4096 * p.z
  }

  /** The cell of an in-bounds position. */
  function Cell(c: Chunk, p: Vec3): BlockType
    requires InBounds(p)
  {
    IndexInRange(p);
    c.blocks[Index(p)]
  }

  /** `static_cast<unsigned int>(v)`: two's complement reinterpretation. */
  function Unsigned(v: int): nat {
    v % U32
  }

  /** `x + 16 * y + 16 * 256 * z` evaluated in `unsigned int` arithmetic. */
  function FlatIndex(x: int, y: int, z: int): nat {
    (Unsigned(x) + 16 * Unsigned(y) + 4096 * Unsigned(z)) % U32
  }

  /** The storage index maps the chunk's cells one-to-one onto [0, 65536). */
  lemma IndexInRange(p: Vec3)
    requires InBounds(p)
    ensures Index(p) < Volume
    ensures FlatIndex(p.x, p.y, p.z) == Index(p)
  {
    SmallUnsigned(p.x);
    SmallUnsigned(p.y);
    SmallUnsigned(p.z);
    assert 16 * p.y <= 16 * 255 && 4096 * p.z <= 4096 * 15;
    SmallMod(Index(p));
  }

  lemma SmallUnsigned(v: int)
    requires 0 <= v < 256
    ensures Unsigned(v) == v
  {
    SmallMod(v);
  }

  lemma SmallMod(v: int)
    requires 0 <= v < U32
    ensures v % U32 == v
  {
  }

  /** Decoding a storage index: the inverse of `Index`. */
  function CellAt(i: nat): (p: Vec3)
    requires i < Volume
    ensures InBounds(p) && Index(p) == i
  {
    DecodeIndex(i);
    Vec3(i % 16, (i / 16) % 256, i / 4096)
  }

  lemma DecodeIndex(i: nat)
    requires i < Volume
    ensures (i / 16) % 256 < 256 && i / 4096 < 16
    ensures i % 16 + 16 * ((i / 16) % 256) + 4096 * (i / 4096) == i
  {
    var q, r := i / 16, i % 16;
    assert i == 16 * q + r;
    var y, z := q % 256, q / 256;
    assert q == 256 * z + y;
    assert 4096 * z <= i < 4096 * z + 4096;
  }

  /** Distinct in-bounds cells have distinct storage positions. */
  lemma {:induction false} IndexInjective(p: Vec3, q: Vec3)
    requires InBounds(p) && InBounds(q) && Index(p) == Index(q)
    ensures p == q
  {
    var k := (p.y - q.y) + 256 * (p.z - q.z);
    assert p.x - q.x == -16 * k;
    assert k == 0;
    assert p.y - q.y == -256 * (p.z - q.z);
  }

  /** `Chunk::getBlockAt`: `array::at` on the unsigned flat index. */
  function GetBlockAt(c: Chunk, x: int, y: int, z: int): (r: Result<BlockType>)
    ensures InBounds(Vec3(x, y, z)) ==> r == Ok(Cell(c, Vec3(x, y, z)))
    ensures r.Err? ==> r.fault == OutOfRange
  {
    var i := FlatIndex(x, y, z);
    var r := if i < Volume then Ok(c.blocks[i]) else Err(OutOfRange);
    if InBounds(Vec3(x, y, z)) then IndexInRange(Vec3(x, y, z)); r else r
  }

  /**
   * `Chunk::setBlockAt`: the guard `> 65536` and then `array::at`, both on
   * the unsigned flat index, so an out-of-range axis is only caught when the
   * sum leaves the array.
   */
  function SetBlockAt(c: Chunk, x: int, y: int, z: int, t: BlockType): (r: Result<Chunk>)
    ensures r.Ok? <==> FlatIndex(x, y, z) < Volume
    ensures r.Err? ==> r.fault == OutOfRange
    ensures r.Ok? ==> r.value == c.(blocks := r.value.blocks)
  {
    var i := FlatIndex(x, y, z);
    if i > Volume then Err(OutOfRange)
    else if i == Volume then Err(OutOfRange)
    else Ok(c.(blocks := c.blocks[i := t]))
  }

  /** Writing an in-bounds cell succeeds, then reads back, and leaves every other cell as it was. */
  lemma ReadAfterWrite(c: Chunk, p: Vec3, q: Vec3, t: BlockType)
    requires InBounds(p) && InBounds(q)
    ensures SetBlockAt(c, p.x, p.y, p.z, t).Ok?
    ensures Cell(SetBlockAt(c, p.x, p.y, p.z, t).value, q) == if p == q then t else Cell(c, q)
  {
    IndexInRange(p);
    IndexInRange(q);
    if p != q && Index(p) == Index(q) {
      IndexInjective(p, q);
    }
  }

  /**
   * The guard does not check each axis: writing at height 256 lands in the
   * bottom cell of the next z row instead of failing.
   */
  lemma SetBlockAtAliases(c: Chunk, t: BlockType)
    ensures SetBlockAt(c, 0, 256, 0, t).Ok?
    ensures Cell(SetBlockAt(c, 0, 256, 0, t).value, Vec3(0, 0, 1)) == t
  {
    assert FlatIndex(0, 256, 0) == 4096 == Index(Vec3(0, 0, 1));
  }

  /**
   * `getHeightAt`: scanning down from 255 to 1, the first non-empty height,
   * or -1. Height 0 is never reported.
   */
  function HeightAt(c: Chunk, x: int, z: int): (r: Result<int>)
    ensures 0 <= x < 16 && 0 <= z < 16 ==> r.Ok? && TopOfColumn(c, x, z, 255, r.value)
  {
    HeightScan(c, x, z, 255)
  }

  /**
   * `h` is the highest height in [1, top] whose cell is not empty, or -1
   * when all of them are empty.
   */
  ghost predicate TopOfColumn(c: Chunk, x: int, z: int, top: int, h: int)
    requires 0 <= x < 16 && 0 <= z < 16 && top < 256
  {
    && (h == -1 || (1 <= h <= top && Cell(c, Vec3(x, h, z)) != Empty))
    && (forall y :: h < y <= top && 1 <= y ==> Cell(c, Vec3(x, y, z)) == Empty)
  }

  function HeightScan(c: Chunk, x: int, z: int, i: int): (r: Result<int>)
    requires i < 256
    ensures 0 <= x < 16 && 0 <= z < 16 ==> r.Ok? && TopOfColumn(c, x, z, i, r.value)
    decreases i
  {
    if i <= 0 then Ok(-1)
    else
      var b :- GetBlockAt(c, x, i, z);
      if b != Empty then Ok(i) else HeightScan(c, x, z, i - 1)
  }

  /** `crossBorder`: the neighbouring position lies outside [0,15] x [0,255] x [0,15]. */
  predicate CrossBorder(p: Vec3, d: Vec3) {
    var q := p.Plus(d);
    q.x < 0 || q.x > 15 || q.y < 0 || q.y > 255 || q.z < 0 || q.z > 15
  }

  /** The cell lies on the side of the chunk facing `d`. */
  predicate OnSide(p: Vec3, d: Direction) {
    match d
    case XPos => p.x == 15
    case XNeg => p.x == 0
    case YPos => p.y == 255
    case YNeg => p.y == 0
    case ZPos => p.z == 15
    case ZNeg => p.z == 0
  }

  /** From an in-bounds cell, one step along `d` leaves the chunk exactly from the cells on that side. */
  lemma CrossBorderOnSide(p: Vec3, d: Direction)
    requires InBounds(p)
    ensures CrossBorder(p, Unit(d)) <==> OnSide(p, d)
  {
  }

  /**
   * The wrap in `createVBOdata`: C++ `%`, then negative remainders shifted
   * up by `m`; the chunk's width 16 and height 256 are the two moduli used.
   */
  function Wrap(v: int, m: int): (r: int)
    requires m == 16 || m == 256
    ensures -m < v < 2 * m ==> 0 <= r < m && r == v % m
  {
    var r := CRem(v, m);
    if r < 0 then m + r else r
  }

  /**
   * Where a crossed sample lands: the wrapped coordinates are the in-bounds
   * cell of the neighbour that touches the sampling cell, i.e. the step
   * taken back by one chunk width along the crossed axis.
   */
  function WrapSample(p: Vec3, d: Direction): (q: Vec3)
    requires InBounds(p)
    ensures InBounds(q)
    ensures CrossBorder(p, Unit(d)) && d in Horizontal ==>
      q == p.Plus(Unit(d)).Minus(Vec3(16 * Unit(d).x, 0, 16 * Unit(d).z))
  {
    var s := p.Plus(Unit(d));
    Vec3(Wrap(s.x, 16), Wrap(s.y, 256), Wrap(s.z, 16))
  }

  /** `SendVBOdata`: the staged geometry goes to the GPU, the chunk becomes drawable. */
  function SendVboData(c: Chunk): (r: Chunk)
    ensures r.vboState == VboDone && r.vboReady && r.staged == NoGeometry
    ensures r == c.(vboState := r.vboState, vboReady := r.vboReady, staged := r.staged)
  {
    c.(vboState := VboDone, vboReady := true, staged := NoGeometry)
  }

  /** `deleteVBOdata`: tearing down a chunk that has no uploaded geometry is a continuity error. */
  function DeleteVboData(c: Chunk): (r: Result<Chunk>)
    ensures r.Err? <==> !c.vboReady
    ensures r.Err? ==> r.fault == LogicError
    ensures r.Ok? ==> r.value.vboState == VboNone && !r.value.vboReady
    ensures r.Ok? ==> r.value == c.(vboState := r.value.vboState, vboReady := r.value.vboReady)
  {
    if !c.vboReady then Err(LogicError) else Ok(c.(vboState := VboNone, vboReady := false))
  }
}
