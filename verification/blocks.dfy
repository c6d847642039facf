/**
 * The static tables of the voxel engine: block kinds, the two per-chunk
 * state machines, biomes, the six face directions, the unit-cube face table
 * used to build meshes, the texture-atlas table and the clear/animated sets.
 */
module Blocks {
  import opened Results

  datatype BlockType =
    | Empty | Grass | Dirt | Stone | Water | Snow | Lava | Bedrock
    | OakLog | OakLeaves | Sand | Sandstone | Cactus | Ice

  /** Terrain generation progress of a chunk, in the order it advances. */
  datatype GenState = Ungenerated | TerrainRunning | TerrainDone | PopulationRunning | GenComplete

  /** Position of a generation state in the order the scheduler moves through. */
  function Rank(g: GenState): nat {
    match g
    case Ungenerated => 0
    case TerrainRunning => 1
    case TerrainDone => 2
    case PopulationRunning => 3
    case GenComplete => 4
  }

  /** Progress of a chunk's geometry (vertex buffer) build. */
  datatype VboState = VboNone | VboWaiting | VboRunning | VboDone

  datatype Biome = Grassland | Mountain | Desert | Snowland

  datatype Direction = XPos | XNeg | YPos | YNeg | ZPos | ZNeg

  /** The enumerator's numeric value. */
  function Ordinal(d: Direction): nat {
    match d
    case XPos => 0
    case XNeg => 1
    case YPos => 2
    case YNeg => 3
    case ZPos => 4
    case ZNeg => 5
  }

  /** The four directions along which chunks have neighbours. */
  const Horizontal: set<Direction> := {XPos, XNeg, ZPos, ZNeg}

  /** 0 for the x axis, 1 for y, 2 for z. */
  function Axis(d: Direction): nat {
    match d
    case XPos => 0
    case XNeg => 0
    case YPos => 1
    case YNeg => 1
    case ZPos => 2
    case ZNeg => 2
  }

  predicate Positive(d: Direction) {
    d == XPos || d == YPos || d == ZPos
  }

  datatype Vec3 = Vec3(x: int, y: int, z: int) {
    function Plus(o: Vec3): Vec3 { Vec3(x + o.x, y + o.y, z + o.z) }
    function Minus(o: Vec3): Vec3 { Vec3(x - o.x, y - o.y, z - o.z) }
    function Coord(axis: nat): int requires axis < 3 {
      if axis == 0 then x else if axis == 1 then y else z
    }
  }

  /** The unit vector pointing along `d`, built from its axis and sign. */
  function Unit(d: Direction): Vec3 {
    var s := if Positive(d) then 1 else -1;
    if Axis(d) == 0 then Vec3(s, 0, 0) else if Axis(d) == 1 then Vec3(0, s, 0) else Vec3(0, 0, s)
  }

  /** The `oppositeDirection` table of the chunk store. */
  function Opposite(d: Direction): (r: Direction)
    ensures r != d && Axis(r) == Axis(d) && Positive(r) != Positive(d)
    ensures Unit(r) == Vec3(-Unit(d).x, -Unit(d).y, -Unit(d).z)
    ensures d in Horizontal <==> r in Horizontal
  {
    match d
    case XPos => XNeg
    case XNeg => XPos
    case YPos => YNeg
    case YNeg => YPos
    case ZPos => ZNeg
    case ZNeg => ZPos
  }

  /** Taking the opposite twice gives back the direction. */
  lemma OppositeInvolution(d: Direction)
    ensures Opposite(Opposite(d)) == d
  {
  }

  /** An atlas cell offset, in units of one sixteenth of the texture atlas. */
  datatype Tile = Tile(u: int, v: int)

  datatype VertexData = VertexData(pos: Vec3, uv: Tile)

  datatype BlockFace = BlockFace(direction: Direction, directionVec: Vec3, vertices: seq<VertexData>)

  /** The texture-space corners a face's vertices take, in order. */
  const QuadUV: seq<Tile> := [Tile(0, 0), Tile(1, 0), Tile(1, 1), Tile(0, 1)]

  /** A corner of the unit cube lying on the plane of the face in direction `d`. */
  predicate CornerOnPlane(d: Direction, p: Vec3) {
    && 0 <= p.x <= 1 && 0 <= p.y <= 1 && 0 <= p.z <= 1
    && p.Coord(Axis(d)) == (if Positive(d) then 1 else 0)
  }

  /** A face's four corners: distinct unit-cube corners on the face's plane. */
  predicate OnFacePlane(f: BlockFace) {
    var v := f.vertices;
    && |v| == 4
    && CornerOnPlane(f.direction, v[0].pos) && CornerOnPlane(f.direction, v[1].pos)
    && CornerOnPlane(f.direction, v[2].pos) && CornerOnPlane(f.direction, v[3].pos)
    && v[0].pos != v[1].pos && v[0].pos != v[2].pos && v[0].pos != v[3].pos
    && v[1].pos != v[2].pos && v[1].pos != v[3].pos && v[2].pos != v[3].pos
  }

  /** The components of `e` along the two in-plane axes of `d`, taken cyclically after `d`'s axis. */
  function InPlane(d: Direction, e: Vec3): (int, int) {
    match d
    case XPos => (e.y, e.z)
    case XNeg => (e.y, e.z)
    case YPos => (e.z, e.x)
    case YNeg => (e.z, e.x)
    case ZPos => (e.x, e.y)
    case ZNeg => (e.x, e.y)
  }

  /**
   * The corners form a parallelogram wound counter-clockwise as seen from
   * outside the cube: in the face's plane the second edge is the first
   * turned a quarter turn toward the normal's side.
   */
  predicate FrontFacing(f: BlockFace)
    requires |f.vertices| == 4
  {
    var v := f.vertices;
    var e1 := InPlane(f.direction, v[1].pos.Minus(v[0].pos));
    var e2 := InPlane(f.direction, v[2].pos.Minus(v[1].pos));
    && (if Positive(f.direction) then e2 == (-e1.1, e1.0) else e2 == (e1.1, -e1.0))
    && v[0].pos.Plus(v[2].pos) == v[1].pos.Plus(v[3].pos)
  }

  /**
   * The i-th entry of the face table: the face of direction number i, with
   * that direction's unit normal, corners on its plane wound outward, and
   * the standard texture corners.
   */
  predicate FaceAt(f: BlockFace, i: nat) {
    && Ordinal(f.direction) == i
    && f.directionVec == Unit(f.direction)
    && OnFacePlane(f)
    && FrontFacing(f)
    && f.vertices[0].uv == QuadUV[0] && f.vertices[1].uv == QuadUV[1]
    && f.vertices[2].uv == QuadUV[2] && f.vertices[3].uv == QuadUV[3]
  }

  function Quad(d: Direction, n: Vec3, a: Vec3, b: Vec3, c: Vec3, e: Vec3): BlockFace {
    BlockFace(d, n, [VertexData(a, QuadUV[0]), VertexData(b, QuadUV[1]), VertexData(c, QuadUV[2]), VertexData(e, QuadUV[3])])
  }

  function FaceXPos(): BlockFace {
    Quad(XPos, Vec3(1, 0, 0), Vec3(1, 0, 1), Vec3(1, 0, 0), Vec3(1, 1, 0), Vec3(1, 1, 1))
  }

  function FaceXNeg(): BlockFace {
    Quad(XNeg, Vec3(-1, 0, 0), Vec3(0, 0, 0), Vec3(0, 0, 1), Vec3(0, 1, 1), Vec3(0, 1, 0))
  }

  function FaceYPos(): BlockFace {
    Quad(YPos, Vec3(0, 1, 0), Vec3(0, 1, 1), Vec3(1, 1, 1), Vec3(1, 1, 0), Vec3(0, 1, 0))
  }

  function FaceYNeg(): BlockFace {
    Quad(YNeg, Vec3(0, -1, 0), Vec3(0, 0, 0), Vec3(1, 0, 0), Vec3(1, 0, 1), Vec3(0, 0, 1))
  }

  function FaceZPos(): BlockFace {
    Quad(ZPos, Vec3(0, 0, 1), Vec3(0, 0, 1), Vec3(1, 0, 1), Vec3(1, 1, 1), Vec3(0, 1, 1))
  }

  function FaceZNeg(): BlockFace {
    Quad(ZNeg, Vec3(0, 0, -1), Vec3(1, 0, 0), Vec3(0, 0, 0), Vec3(0, 1, 0), Vec3(1, 1, 0))
  }

  /** The order in which the `adjacentFaces` table lists its faces: enumerator order. */
  const FaceOrder: seq<Direction> := [XPos, XNeg, YPos, YNeg, ZPos, ZNeg]

  /** The entry of the `adjacentFaces` table for direction `d`. */
  function AdjacentFace(d: Direction): (f: BlockFace)
    ensures f.direction == d && f.directionVec == Unit(d) && |f.vertices| == 4
  {
    match d
    case XPos => FaceXPos()
    case XNeg => FaceXNeg()
    case YPos => FaceYPos()
    case YNeg => FaceYNeg()
    case ZPos => FaceZPos()
    case ZNeg => FaceZNeg()
  }

  /**
   * Every entry of the table is a face of the unit cube: on the plane of its
   * direction, wound outward, with the standard texture corners.
   */
  lemma FaceTable(d: Direction)
    ensures FaceAt(AdjacentFace(d), Ordinal(d))
  {
    match d
    case XPos => FaceXPosWellFormed();
    case XNeg => FaceXNegWellFormed();
    case YPos => FaceYPosWellFormed();
    case YNeg => FaceYNegWellFormed();
    case ZPos => FaceZPosWellFormed();
    case ZNeg => FaceZNegWellFormed();
  }

  /** The corners of every table entry lie on its direction's plane of the unit cube. */
  lemma FaceOnPlane(d: Direction)
    ensures OnFacePlane(AdjacentFace(d))
  {
    FaceTable(d);
  }

  lemma FaceXPosWellFormed() ensures FaceAt(FaceXPos(), 0) {}
  lemma FaceXNegWellFormed() ensures FaceAt(FaceXNeg(), 1) {}
  lemma FaceYPosWellFormed() ensures FaceAt(FaceYPos(), 2) {}
  lemma FaceYNegWellFormed() ensures FaceAt(FaceYNeg(), 3) {}
  lemma FaceZPosWellFormed() ensures FaceAt(FaceZPos(), 4) {}
  lemma FaceZNegWellFormed() ensures FaceAt(FaceZNeg(), 5) {}

  /** A direction map giving `side` to the four horizontal faces. */
  function Sides(side: Tile, bottom: Tile, top: Tile): map<Direction, Tile> {
    map[XNeg := side, XPos := side, ZNeg := side, ZPos := side, YNeg := bottom, YPos := top]
  }

  /** A direction map giving one tile to every face. */
  function Uniform(t: Tile): map<Direction, Tile> {
    Sides(t, t, t)
  }

  /** Every kind but `Empty`, in declaration order. */
  const Solid: set<BlockType> :=
    {Grass, Dirt, Stone, Water, Snow, Lava, Bedrock, OakLog, OakLeaves, Sand, Sandstone, Cactus, Ice}

  /** The row of the atlas table for one block kind. */
  function AtlasRow(t: BlockType): map<Direction, Tile> {
    match t
    case Dirt => Uniform(Tile(2, 15))
    case Stone => Uniform(Tile(1, 15))
    case Snow => Sides(Tile(4, 11), Tile(2, 15), Tile(2, 11))
    case Water => Uniform(Tile(13, 3))
    case Grass => Sides(Tile(3, 15), Tile(2, 15), Tile(8, 13))
    case Lava => Uniform(Tile(13, 1))
    case Bedrock => Uniform(Tile(1, 14))
    case OakLog => Sides(Tile(4, 14), Tile(5, 14), Tile(5, 14))
    case OakLeaves => Uniform(Tile(5, 12))
    case Sand => Uniform(Tile(2, 14))
    case Sandstone => Sides(Tile(0, 3), Tile(0, 2), Tile(0, 4))
    case Cactus => Sides(Tile(6, 11), Tile(7, 11), Tile(5, 11))
    case Ice => Uniform(Tile(3, 11))
    case Empty => map[]
  }

  /** The `blockUVs` atlas table: the tile of each block kind on each face. */
  function BlockUVs(): (table: map<BlockType, map<Direction, Tile>>)
    ensures forall t :: t in table <==> t != Empty
    ensures forall t, d :: t in table ==> d in table[t]
    ensures forall t, d :: t in table && d in table[t] ==> 0 <= table[t][d].u < 16 && 0 <= table[t][d].v < 16
  {
    AtlasRowsComplete();
    map t | t in Solid :: AtlasRow(t)
  }

  /** Every kind but `Empty` has a full row of in-atlas tiles. */
  lemma AtlasRowsComplete()
    ensures forall t :: t in Solid <==> t != Empty
    ensures forall t, d :: t != Empty ==> d in AtlasRow(t)
    ensures forall t, d :: t != Empty ==> 0 <= AtlasRow(t)[d].u < 16 && 0 <= AtlasRow(t)[d].v < 16
  {
    forall t: BlockType ensures t in Solid <==> t != Empty {
      match t
      case Empty =>
      case _ =>
    }
    forall t: BlockType | t != Empty ensures FullRow(AtlasRow(t)) {
      RowComplete(t);
    }
  }

  /** A row with a tile of the 16 x 16 atlas for every face. */
  predicate FullRow(row: map<Direction, Tile>) {
    forall d :: d in row && InAtlas(row[d])
  }

  predicate InAtlas(t: Tile) {
    0 <= t.u < 16 && 0 <= t.v < 16
  }

  lemma SidesFull(side: Tile, bottom: Tile, top: Tile)
    requires InAtlas(side) && InAtlas(bottom) && InAtlas(top)
    ensures FullRow(Sides(side, bottom, top))
  {
    forall d ensures d in Sides(side, bottom, top) && InAtlas(Sides(side, bottom, top)[d]) {
      match d
      case XPos =>
      case XNeg =>
      case YPos =>
      case YNeg =>
      case ZPos =>
      case ZNeg =>
    }
  }

  lemma RowComplete(t: BlockType)
    requires t != Empty
    ensures FullRow(AtlasRow(t))
  {
    match t
    case Dirt => SidesFull(Tile(2, 15), Tile(2, 15), Tile(2, 15));
    case Stone => SidesFull(Tile(1, 15), Tile(1, 15), Tile(1, 15));
    case Snow => SidesFull(Tile(4, 11), Tile(2, 15), Tile(2, 11));
    case Water => SidesFull(Tile(13, 3), Tile(13, 3), Tile(13, 3));
    case Grass => SidesFull(Tile(3, 15), Tile(2, 15), Tile(8, 13));
    case Lava => SidesFull(Tile(13, 1), Tile(13, 1), Tile(13, 1));
    case Bedrock => SidesFull(Tile(1, 14), Tile(1, 14), Tile(1, 14));
    case OakLog => SidesFull(Tile(4, 14), Tile(5, 14), Tile(5, 14));
    case OakLeaves => SidesFull(Tile(5, 12), Tile(5, 12), Tile(5, 12));
    case Sand => SidesFull(Tile(2, 14), Tile(2, 14), Tile(2, 14));
    case Sandstone => SidesFull(Tile(0, 3), Tile(0, 2), Tile(0, 4));
    case Cactus => SidesFull(Tile(6, 11), Tile(7, 11), Tile(5, 11));
    case Ice => SidesFull(Tile(3, 11), Tile(3, 11), Tile(3, 11));
  }

  /** `blockUVs.at(t).at(d)`: fails exactly for the one kind the table has no row for. */
  function UvOffset(t: BlockType, d: Direction): (r: Result<Tile>)
    ensures r.Ok? <==> t != Empty
    ensures r.Err? ==> r.fault == OutOfRange
  {
    var table := BlockUVs();
    if t in table && d in table[t] then Ok(table[t][d]) else Err(OutOfRange)
  }

  const ClearBlocks: set<BlockType> := {Empty, Water, Lava, Ice}
  const AnimatedBlocks: set<BlockType> := {Water, Lava}

  /** Blocks through which neighbouring faces stay visible. */
  predicate IsClear(t: BlockType) {
    t in ClearBlocks
  }

  /** Blocks whose texture scrolls; every one of them is also clear. */
  function IsAnimated(t: BlockType): (r: bool)
    ensures r ==> IsClear(t) && t != Empty
  {
    t in AnimatedBlocks
  }
}
