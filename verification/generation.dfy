/**
 * Terrain generation of one chunk (`Generation::GenerateChunk` and the
 * column fillers). The noise-derived quantities of a column (temperature,
 * humidity and blended surface height) and the 3-D cave field are inputs;
 * the model follows what the fillers write, in the order they write it.
 */
module Generation {
  import opened Results
  import opened Blocks
  import opened Chunks
  import opened Numerics

  /** One `setBlockAt` of a column fill: a height and the block written there. */
  datatype Write = Write(y: int, block: BlockType)

  /**
   * The noise-derived values of one world column: temperature and humidity
   * after their smoothstep, and the blended surface height as a float.
   */
  datatype Column = Column(temperature: real, humidity: real, height: real)

  /** The sign test on the 3-D cave noise: true where a cave is carved. */
  type CaveField = (int, int, int) -> bool

  /** The biome of a column: warm columns are grassland or desert, cold ones mountain or snow. */
  function SelectBiome(temperature: real, humidity: real): Biome {
    if temperature > 0.5 then (if humidity > 0.5 then Grassland else Desert)
    else (if humidity > 0.5 then Mountain else Snowland)
  }

  /** The block a cave-aware range writes at height `y`: caves only exist in [0, 128]. */
  function CaveFill(cave: CaveField, x: int, z: int, y: int, b: BlockType): BlockType {
    if 0 <= y <= 128 && cave(x, y, z) then (if y >= 25 then Empty else Lava) else b
  }

  /** `SetRangeAndGenCaves`: heights `start` to `end` inclusive, bottom up. */
  function RangeWithCaves(cave: CaveField, x: int, z: int, start: int, end: int, b: BlockType): (ws: seq<Write>)
    ensures forall i :: 0 <= i < |ws| ==> start <= ws[i].y <= end
    decreases end - start
  {
    if start > end then [] else [Write(start, CaveFill(cave, x, z, start, b))] + RangeWithCaves(cave, x, z, start + 1, end, b)
  }

  /** `SetRange`: heights `start` to `end` inclusive, bottom up, no caves. */
  function PlainRange(start: int, end: int, b: BlockType): (ws: seq<Write>)
    ensures forall i :: 0 <= i < |ws| ==> start <= ws[i].y <= end
    decreases end - start
  {
    if start > end then [] else [Write(start, b)] + PlainRange(start + 1, end, b)
  }

  /**
   * The integer conversions the fillers make of the float surface height:
   * the surface `top`, the top of the sub-soil `below` (converted from
   * `height - 1`), and the two float comparisons.
   */
  datatype Surface = Surface(top: int, below: int, peak: bool, flooded: bool)

  function SurfaceOf(h: real): Surface {
    Surface(Trunc(h), Trunc(h - 1.0), h > 200.0, h < 138.0)
  }

  /** A surface height the column fillers keep inside the chunk: at least 1 and below 256. */
  predicate SaneHeight(h: real) {
    1.0 <= h < 256.0
  }

  /** A sane height converts to a surface in [1, 255] with the sub-soil ending just below it. */
  lemma SaneSurface(h: real)
    requires SaneHeight(h)
    ensures Sane(SurfaceOf(h))
    ensures SurfaceOf(h).flooded <==> SurfaceOf(h).top < 138
    ensures SurfaceOf(h).peak ==> SurfaceOf(h).top >= 200
  {
  }

  /** `SetMountain`: stone up to the surface, snow on peaks above 200, water up to 138 in valleys. */
  function MountainWrites(cave: CaveField, x: int, z: int, s: Surface): seq<Write> {
    RangeWithCaves(cave, x, z, 1, s.top, Stone)
    + [Write(s.top, if s.peak then Snow else Stone)]
    + (if s.flooded then RangeWithCaves(cave, x, z, s.top, 138, Water) else [])
  }

  /** `SetGrassland`: stone to 128, dirt to below the surface, grass on top, water up to 138. */
  function GrasslandWrites(cave: CaveField, x: int, z: int, s: Surface): seq<Write> {
    RangeWithCaves(cave, x, z, 1, 128, Stone)
    + RangeWithCaves(cave, x, z, 128, s.below, Dirt)
    + [Write(s.top, Grass)]
    + (if s.flooded then RangeWithCaves(cave, x, z, s.top, 138, Water) else [])
  }

  /** `SetDesert`: stone to 128, sand above it up to the surface, no water. */
  function DesertWrites(cave: CaveField, x: int, z: int, s: Surface): seq<Write> {
    RangeWithCaves(cave, x, z, 1, 128, Stone)
    + RangeWithCaves(cave, x, z, 128, s.below, Sand)
    + [Write(s.top, Sand)]
  }

  /** `SetSnow`: like grassland with a snow top, and water to 137 under an ice sheet at 138. */
  function SnowWrites(cave: CaveField, x: int, z: int, s: Surface): seq<Write> {
    RangeWithCaves(cave, x, z, 1, 128, Stone)
    + RangeWithCaves(cave, x, z, 128, s.below, Dirt)
    + [Write(s.top, Snow)]
    + (if s.flooded then PlainRange(s.top, 137, Water) + [Write(138, Ice)] else [])
  }

  /** Everything written into one column: the biome's filler, then bedrock at height 0. */
  function ColumnWrites(b: Biome, cave: CaveField, x: int, z: int, s: Surface): seq<Write> {
    Fill(b, cave, x, z, s) + [Write(0, Bedrock)]
  }

  /** The filler of biome `b`. */
  function Fill(b: Biome, cave: CaveField, x: int, z: int, s: Surface): seq<Write> {
    match b
    case Mountain => MountainWrites(cave, x, z, s)
    case Grassland => GrasslandWrites(cave, x, z, s)
    case Desert => DesertWrites(cave, x, z, s)
    case Snowland => SnowWrites(cave, x, z, s)
  }

  /** The block at height `y` after the writes: the last write to `y` wins, `d` if there is none. */
  function LastWrite(ws: seq<Write>, y: int, d: BlockType): BlockType {
    if ws == [] then d
    else if ws[|ws| - 1].y == y then ws[|ws| - 1].block
    else LastWrite(ws[..|ws| - 1], y, d)
  }

  /** Writing `a` and then `b` leaves what `b` writes over what `a` left. */
  lemma {:induction false} LastWriteAppend(a: seq<Write>, b: seq<Write>, y: int, d: BlockType)
    ensures LastWrite(a + b, y, d) == LastWrite(b, y, LastWrite(a, y, d))
    decreases |b|
  {
    if b == [] {
      assert a + b == a;
    } else {
      var b' := b[..|b| - 1];
      assert (a + b)[..|a + b| - 1] == a + b';
      LastWriteAppend(a, b', y, d);
    }
  }

  /** After a cave-aware range, every height in it holds the range's block or its cave. */
  lemma {:induction false} RangeWithCavesLast(cave: CaveField, x: int, z: int, start: int, end: int, b: BlockType, y: int, d: BlockType)
    ensures LastWrite(RangeWithCaves(cave, x, z, start, end, b), y, d)
         == if start <= y <= end then CaveFill(cave, x, z, y, b) else d
    decreases end - start
  {
    if start <= end {
      var head := [Write(start, CaveFill(cave, x, z, start, b))];
      var rest := RangeWithCaves(cave, x, z, start + 1, end, b);
      LastWriteAppend(head, rest, y, d);
      RangeWithCavesLast(cave, x, z, start + 1, end, b, y, LastWrite(head, y, d));
      assert head[..0] == [];
    }
  }

  /** After a plain range, every height in it holds the range's block. */
  lemma {:induction false} PlainRangeLast(start: int, end: int, b: BlockType, y: int, d: BlockType)
    ensures LastWrite(PlainRange(start, end, b), y, d) == if start <= y <= end then b else d
    decreases end - start
  {
    if start <= end {
      var head := [Write(start, b)];
      LastWriteAppend(head, PlainRange(start + 1, end, b), y, d);
      PlainRangeLast(start + 1, end, b, y, LastWrite(head, y, d));
      assert head[..0] == [];
    }
  }

  lemma SingleWrite(w: Write, y: int, d: BlockType)
    ensures LastWrite([w], y, d) == if w.y == y then w.block else d
  {
    assert [w][..0] == [];
  }

  /**
   * The column as layers, read bottom up: bedrock at 0; stone (with caves)
   * to 128; the biome's sub-soil from 128 to just below the surface; the
   * surface block; water (or water under ice) from the surface up to the
   * sea level 138 where the surface is lower. Above all of it the column
   * keeps `d`.
   */
  function Layered(b: Biome, cave: CaveField, x: int, z: int, s: Surface, y: int, d: BlockType): BlockType {
    var top := s.top;
    var flooded := s.flooded;
    if y == 0 then Bedrock
    else match b
      case Mountain =>
        if flooded && top <= y <= 138 then CaveFill(cave, x, z, y, Water)
        else if y == top then (if s.peak then Snow else Stone)
        else if 1 <= y < top then CaveFill(cave, x, z, y, Stone)
        else d
      case Grassland =>
        if flooded && top <= y <= 138 then CaveFill(cave, x, z, y, Water)
        else SoilAndStone(cave, x, z, top, Grass, Dirt, y, d)
      case Desert =>
        SoilAndStone(cave, x, z, top, Sand, Sand, y, d)
      case Snowland =>
        if flooded && y == 138 then Ice
        else if flooded && top <= y <= 137 then Water
        else SoilAndStone(cave, x, z, top, Snow, Dirt, y, d)
  }

  /** The layers below the surface shared by grassland, desert and snow. */
  function SoilAndStone(cave: CaveField, x: int, z: int, top: int, surface: BlockType, soil: BlockType, y: int, d: BlockType): BlockType {
    if y == top then surface
    else if 128 <= y < top then CaveFill(cave, x, z, y, soil)
    else if 1 <= y <= 128 then CaveFill(cave, x, z, y, Stone)
    else d
  }

  /** Heights in [0, 256) throughout. */
  predicate InHeight(ws: seq<Write>) {
    forall i :: 0 <= i < |ws| ==> 0 <= ws[i].y < 256
  }

  lemma JoinInHeight(a: seq<Write>, b: seq<Write>)
    requires InHeight(a) && InHeight(b)
    ensures InHeight(a + b)
  {
    forall i | 0 <= i < |a + b| ensures 0 <= (a + b)[i].y < 256 {
      if i >= |a| {
        assert (a + b)[i] == b[i - |a|];
      }
    }
  }

  /** The conversions of a sane height: a surface in [1, 255], sub-soil ending just below it. */
  predicate Sane(s: Surface) {
    1 <= s.top <= 255 && s.below == s.top - 1
  }

  /** Every write of a column with a sane surface stays in [0, 256). */
  lemma ColumnWritesInHeight(b: Biome, cave: CaveField, x: int, z: int, s: Surface)
    requires Sane(s)
    ensures InHeight(ColumnWrites(b, cave, x, z, s))
  {
    var s1 := RangeWithCaves(cave, x, z, 1, 128, Stone);
    match b
    case Mountain =>
      var a := RangeWithCaves(cave, x, z, 1, s.top, Stone);
      var w := if s.flooded then RangeWithCaves(cave, x, z, s.top, 138, Water) else [];
      JoinInHeight(a, [Write(s.top, if s.peak then Snow else Stone)]);
      JoinInHeight(a + [Write(s.top, if s.peak then Snow else Stone)], w);
    case Grassland =>
      var s2 := RangeWithCaves(cave, x, z, 128, s.below, Dirt);
      var w := if s.flooded then RangeWithCaves(cave, x, z, s.top, 138, Water) else [];
      JoinInHeight(s1, s2);
      JoinInHeight(s1 + s2, [Write(s.top, Grass)]);
      JoinInHeight(s1 + s2 + [Write(s.top, Grass)], w);
    case Desert =>
      var s2 := RangeWithCaves(cave, x, z, 128, s.below, Sand);
      JoinInHeight(s1, s2);
      JoinInHeight(s1 + s2, [Write(s.top, Sand)]);
    case Snowland =>
      var s2 := RangeWithCaves(cave, x, z, 128, s.below, Dirt);
      var w := if s.flooded then PlainRange(s.top, 137, Water) + [Write(138, Ice)] else [];
      if s.flooded {
        JoinInHeight(PlainRange(s.top, 137, Water), [Write(138, Ice)]);
      }
      JoinInHeight(s1, s2);
      JoinInHeight(s1 + s2, [Write(s.top, Snow)]);
      JoinInHeight(s1 + s2 + [Write(s.top, Snow)], w);
    JoinInHeight(Fill(b, cave, x, z, s), [Write(0, Bedrock)]);
  }

  /** For a sane surface, applying a column's writes in order leaves exactly its layers. */
  lemma ColumnLayers(b: Biome, cave: CaveField, x: int, z: int, s: Surface, y: int, d: BlockType)
    requires Sane(s)
    ensures LastWrite(ColumnWrites(b, cave, x, z, s), y, d) == Layered(b, cave, x, z, s, y, d)
  {
    var fill := Fill(b, cave, x, z, s);
    LastWriteAppend(fill, [Write(0, Bedrock)], y, d);
    SingleWrite(Write(0, Bedrock), y, LastWrite(fill, y, d));
    if y != 0 {
      FillLayers(b, cave, x, z, s, y, d);
    }
  }

  /** Above the bedrock, the biome's filler alone decides the layers. */
  lemma FillLayers(b: Biome, cave: CaveField, x: int, z: int, s: Surface, y: int, d: BlockType)
    requires Sane(s) && y != 0
    ensures LastWrite(Fill(b, cave, x, z, s), y, d) == Layered(b, cave, x, z, s, y, d)
  {
    match b
    case Mountain => MountainLayers(cave, x, z, s, y, d);
    case Grassland => GrasslandLayers(cave, x, z, s, y, d);
    case Desert => Soil(cave, x, z, s.top, Sand, Sand, y, d);
    case Snowland => SnowLayers(cave, x, z, s, y, d);
  }

  lemma MountainLayers(cave: CaveField, x: int, z: int, s: Surface, y: int, d: BlockType)
    requires Sane(s) && y != 0
    ensures LastWrite(MountainWrites(cave, x, z, s), y, d) == Layered(Mountain, cave, x, z, s, y, d)
  {
    var a := RangeWithCaves(cave, x, z, 1, s.top, Stone);
    var t := [Write(s.top, if s.peak then Snow else Stone)];
    var w := if s.flooded then RangeWithCaves(cave, x, z, s.top, 138, Water) else [];
    RangeWithCavesLast(cave, x, z, 1, s.top, Stone, y, d);
    LastWriteAppend(a, t, y, d);
    SingleWrite(t[0], y, LastWrite(a, y, d));
    LastWriteAppend(a + t, w, y, d);
    if s.flooded {
      RangeWithCavesLast(cave, x, z, s.top, 138, Water, y, LastWrite(a + t, y, d));
    }
  }

  lemma GrasslandLayers(cave: CaveField, x: int, z: int, s: Surface, y: int, d: BlockType)
    requires Sane(s) && y != 0
    ensures LastWrite(GrasslandWrites(cave, x, z, s), y, d) == Layered(Grassland, cave, x, z, s, y, d)
  {
    var s1 := RangeWithCaves(cave, x, z, 1, 128, Stone);
    var s2 := RangeWithCaves(cave, x, z, 128, s.below, Dirt);
    var t := [Write(s.top, Grass)];
    var w := if s.flooded then RangeWithCaves(cave, x, z, s.top, 138, Water) else [];
    Soil(cave, x, z, s.top, Grass, Dirt, y, d);
    LastWriteAppend(s1 + s2 + t, w, y, d);
    if s.flooded {
      RangeWithCavesLast(cave, x, z, s.top, 138, Water, y, LastWrite(s1 + s2 + t, y, d));
    }
  }

  lemma SnowLayers(cave: CaveField, x: int, z: int, s: Surface, y: int, d: BlockType)
    requires Sane(s) && y != 0
    ensures LastWrite(SnowWrites(cave, x, z, s), y, d) == Layered(Snowland, cave, x, z, s, y, d)
  {
    var s1 := RangeWithCaves(cave, x, z, 1, 128, Stone);
    var s2 := RangeWithCaves(cave, x, z, 128, s.below, Dirt);
    var t := [Write(s.top, Snow)];
    Soil(cave, x, z, s.top, Snow, Dirt, y, d);
    if s.flooded {
      var l := LastWrite(s1 + s2 + t, y, d);
      var water := PlainRange(s.top, 137, Water);
      assert SnowWrites(cave, x, z, s) == (s1 + s2 + t) + (water + [Write(138, Ice)]);
      LastWriteAppend(s1 + s2 + t, water + [Write(138, Ice)], y, d);
      LastWriteAppend(water, [Write(138, Ice)], y, l);
      PlainRangeLast(s.top, 137, Water, y, l);
      SingleWrite(Write(138, Ice), y, LastWrite(water, y, l));
    } else {
      assert SnowWrites(cave, x, z, s) == s1 + s2 + t;
    }
  }

  /** Stone to 128, then soil to below the surface, then the surface block. */
  lemma Soil(cave: CaveField, x: int, z: int, top: int, surface: BlockType, soil: BlockType, y: int, d: BlockType)
    requires 1 <= top
    ensures LastWrite(RangeWithCaves(cave, x, z, 1, 128, Stone) + RangeWithCaves(cave, x, z, 128, top - 1, soil)
      + [Write(top, surface)], y, d) == SoilAndStone(cave, x, z, top, surface, soil, y, d)
  {
    var s1, s2 := RangeWithCaves(cave, x, z, 1, 128, Stone), RangeWithCaves(cave, x, z, 128, top - 1, soil);
    RangeWithCavesLast(cave, x, z, 1, 128, Stone, y, d);
    var l1 := LastWrite(s1, y, d);
    LastWriteAppend(s1, s2, y, d);
    RangeWithCavesLast(cave, x, z, 128, top - 1, soil, y, l1);
    LastWriteAppend(s1 + s2, [Write(top, surface)], y, d);
    SingleWrite(Write(top, surface), y, LastWrite(s1 + s2, y, d));
  }

  /**
   * One column's writes through `Chunk::setBlockAt` at local column
   * (`lx`, `lz`), first to last; the first failing write ends the fill.
   */
  function ApplyWrites(c: Chunk, lx: int, lz: int, ws: seq<Write>): (r: Result<Chunk>)
    ensures r.Ok? ==> r.value == c.(blocks := r.value.blocks)
    ensures r.Err? ==> r.fault == OutOfRange
    decreases |ws|
  {
    if ws == [] then Ok(c)
    else
      var c1 :- SetBlockAt(c, lx, ws[0].y, lz, ws[0].block);
      ApplyWrites(c1, lx, lz, ws[1..])
  }

  /**
   * Writes at in-range heights into an in-range column all succeed; the
   * column then holds the last write to each height and every other column
   * is untouched.
   */
  lemma {:induction false} ApplyWritesColumn(c: Chunk, lx: int, lz: int, ws: seq<Write>)
    requires 0 <= lx < 16 && 0 <= lz < 16 && InHeight(ws)
    ensures ApplyWrites(c, lx, lz, ws).Ok?
    ensures forall q :: InBounds(q) ==> (Cell(ApplyWrites(c, lx, lz, ws).value, q)
      == if q.x == lx && q.z == lz then LastWrite(ws, q.y, Cell(c, q)) else Cell(c, q))
    decreases |ws|
  {
    if ws != [] {
      var w := ws[0];
      var p := Vec3(lx, w.y, lz);
      assert InBounds(p);
      ReadAfterWrite(c, p, p, w.block);
      var c1 := SetBlockAt(c, lx, w.y, lz, w.block).value;
      assert InHeight(ws[1..]) by {
        forall i | 0 <= i < |ws[1..]| ensures 0 <= ws[1..][i].y < 256 {
          assert ws[1..][i] == ws[i + 1];
        }
      }
      ApplyWritesColumn(c1, lx, lz, ws[1..]);
      assert [w] + ws[1..] == ws;
      forall q | InBounds(q)
        ensures Cell(ApplyWrites(c, lx, lz, ws).value, q)
          == if q.x == lx && q.z == lz then LastWrite(ws, q.y, Cell(c, q)) else Cell(c, q)
      {
        ReadAfterWrite(c, p, q, w.block);
        LastWriteAppend([w], ws[1..], q.y, Cell(c, q));
        SingleWrite(w, q.y, Cell(c, q));
      }
    }
  }

  /** The noise of every world column: an input of the generator. */
  type Columns = (int, int) -> Column

  /** The biome of the world column at (`x`, `z`). */
  function BiomeAt(column: Columns, x: int, z: int): Biome {
    SelectBiome(column(x, z).temperature, column(x, z).humidity)
  }

  /** What the loop body derives for each world column: its biome, and the writes of its fill. */
  type Biomes = (int, int) -> Biome
  type Plans = (int, int) -> seq<Write>

  /** The writes `GenerateChunk` makes into world column (`x`, `z`). */
  function ColumnPlan(column: Columns, cave: CaveField, x: int, z: int): seq<Write> {
    ColumnWrites(BiomeAt(column, x, z), cave, x, z, SurfaceOf(column(x, z).height))
  }

  function PlansOf(column: Columns, cave: CaveField): Plans {
    (x, z) => ColumnPlan(column, cave, x, z)
  }

  function BiomesOf(column: Columns): Biomes {
    (x, z) => BiomeAt(column, x, z)
  }

  /**
   * One step of the nested loop in `GenerateChunk`: the column at offset
   * (`i`, `j`) from the corner, written through the chunk's `setBlockAt` at
   * local column (x - minX, z - minZ). The centre column (8, 8) also
   * decides the chunk's biome.
   */
  function FillColumn(c: Chunk, plans: Plans, biomes: Biomes, xCorner: int, zCorner: int, i: int, j: int): (r: Result<Chunk>)
    ensures r.Ok? ==> r.value == c.(blocks := r.value.blocks, biome := r.value.biome)
    ensures r.Err? ==> r.fault == OutOfRange
  {
    var x := xCorner + i;
    var z := zCorner + j;
    var c1 := if i == 8 && j == 8 then c.(biome := biomes(x, z)) else c;
    ApplyWrites(c1, x - c.minX, z - c.minZ, plans(x, z))
  }

  /** Loop steps `k` to 255; step `k` visits column (k / 16, k % 16), x outer and z inner. */
  function FillFrom(c: Chunk, plans: Plans, biomes: Biomes, xCorner: int, zCorner: int, k: int): (r: Result<Chunk>)
    requires 0 <= k <= 256
    ensures r.Ok? ==> r.value == c.(blocks := r.value.blocks, biome := r.value.biome)
    ensures r.Err? ==> r.fault == OutOfRange
    decreases 256 - k
  {
    if k == 256 then Ok(c)
    else
      var c1 :- FillColumn(c, plans, biomes, xCorner, zCorner, k / 16, k % 16);
      FillFrom(c1, plans, biomes, xCorner, zCorner, k + 1)
  }

  /**
   * `Generation::GenerateChunk`: the 16 x 16 columns from the corner that
   * is the multiple of 16 at or below the given position, each filled for
   * the biome its temperature and humidity select.
   */
  function GenerateChunk(c: Chunk, column: Columns, cave: CaveField, xChunk: int, zChunk: int): (r: Result<Chunk>)
    ensures r.Ok? ==> r.value == c.(blocks := r.value.blocks, biome := r.value.biome)
    ensures r.Err? ==> r.fault == OutOfRange
  {
    FillFrom(c, PlansOf(column, cave), BiomesOf(column), FloorTo(xChunk, 16), FloorTo(zChunk, 16), 0)
  }

  /** Every column of the chunk with corner (`minX`, `minZ`) writes only at heights in [0, 256). */
  ghost predicate PlansInHeight(plans: Plans, minX: int, minZ: int) {
    forall x, z :: minX <= x < minX + 16 && minZ <= z < minZ + 16 ==> InHeight(plans(x, z))
  }

  /** Local cell `q` after its column's plan, holding `d` before. */
  function Planned(plans: Plans, minX: int, minZ: int, q: Vec3, d: BlockType): BlockType {
    LastWrite(plans(minX + q.x, minZ + q.z), q.y, d)
  }

  /** The state of `c0` after loop steps 0 to `k - 1`. */
  ghost predicate FilledUpTo(c0: Chunk, c: Chunk, plans: Plans, biomes: Biomes, k: int) {
    && c == c0.(blocks := c.blocks, biome := c.biome)
    && c.biome == (if k > 136 then biomes(c0.minX + 8, c0.minZ + 8) else c0.biome)
    && forall q :: InBounds(q) ==> (Cell(c, q)
         == if 16 * q.x + q.z < k then Planned(plans, c0.minX, c0.minZ, q, Cell(c0, q)) else Cell(c0, q))
  }

  /** Loop step `k` covers exactly the cells with `16 x + z == k`. */
  lemma StepColumn(k: int, x: int, z: int)
    requires 0 <= k < 256 && 0 <= x < 16 && 0 <= z < 16
    ensures 16 * x + z == k <==> x == k / 16 && z == k % 16
  {
  }

  /** A loop step applies its own column's plan there and leaves the other columns as they were. */
  lemma FillColumnCells(c: Chunk, plans: Plans, biomes: Biomes, i: int, j: int)
    requires 0 <= i < 16 && 0 <= j < 16 && InHeight(plans(c.minX + i, c.minZ + j))
    ensures FillColumn(c, plans, biomes, c.minX, c.minZ, i, j).Ok?
    ensures FillColumn(c, plans, biomes, c.minX, c.minZ, i, j).value.biome
      == if i == 8 && j == 8 then biomes(c.minX + i, c.minZ + j) else c.biome
    ensures forall q :: InBounds(q) ==> (Cell(FillColumn(c, plans, biomes, c.minX, c.minZ, i, j).value, q)
      == if q.x == i && q.z == j then Planned(plans, c.minX, c.minZ, q, Cell(c, q)) else Cell(c, q))
  {
    var x := c.minX + i;
    var z := c.minZ + j;
    var c1 := if i == 8 && j == 8 then c.(biome := biomes(x, z)) else c;
    assert (c.minX + i) - c.minX == i && (c.minZ + j) - c.minZ == j;
    ApplyWritesColumn(c1, i, j, plans(x, z));
    var r := ApplyWrites(c1, i, j, plans(x, z));
    assert FillColumn(c, plans, biomes, c.minX, c.minZ, i, j) == r;
    forall q | InBounds(q)
      ensures Cell(r.value, q) == if q.x == i && q.z == j then Planned(plans, c.minX, c.minZ, q, Cell(c, q)) else Cell(c, q)
    {
      PlanCell(c, c1, r.value, plans, i, j, q);
    }
  }

  lemma PlanCell(c: Chunk, c1: Chunk, r: Chunk, plans: Plans, i: int, j: int, q: Vec3)
    requires InBounds(q) && c1.blocks == c.blocks && c1.minX == c.minX && c1.minZ == c.minZ
    requires Cell(r, q) == if q.x == i && q.z == j then LastWrite(plans(c.minX + i, c.minZ + j), q.y, Cell(c1, q)) else Cell(c1, q)
    ensures Cell(r, q) == if q.x == i && q.z == j then Planned(plans, c.minX, c.minZ, q, Cell(c, q)) else Cell(c, q)
  {
  }

  lemma FillColumnStep(c0: Chunk, c: Chunk, plans: Plans, biomes: Biomes, k: int)
    requires 0 <= k < 256 && PlansInHeight(plans, c0.minX, c0.minZ)
    requires FilledUpTo(c0, c, plans, biomes, k)
    ensures FillColumn(c, plans, biomes, c0.minX, c0.minZ, k / 16, k % 16).Ok?
    ensures FilledUpTo(c0, FillColumn(c, plans, biomes, c0.minX, c0.minZ, k / 16, k % 16).value, plans, biomes, k + 1)
  {
    assert InHeight(plans(c.minX + k / 16, c.minZ + k % 16));
    FillColumnCells(c, plans, biomes, k / 16, k % 16);
    var r := FillColumn(c, plans, biomes, c0.minX, c0.minZ, k / 16, k % 16).value;
    forall q | InBounds(q)
      ensures Cell(r, q)
        == if 16 * q.x + q.z < k + 1 then Planned(plans, c0.minX, c0.minZ, q, Cell(c0, q)) else Cell(c0, q)
    {
      StepColumn(k, q.x, q.z);
    }
  }

  lemma {:induction false} FillFromFills(c0: Chunk, c: Chunk, plans: Plans, biomes: Biomes, k: int)
    requires 0 <= k <= 256 && PlansInHeight(plans, c0.minX, c0.minZ)
    requires FilledUpTo(c0, c, plans, biomes, k)
    ensures FillFrom(c, plans, biomes, c0.minX, c0.minZ, k).Ok?
    ensures FilledUpTo(c0, FillFrom(c, plans, biomes, c0.minX, c0.minZ, k).value, plans, biomes, 256)
    decreases 256 - k
  {
    if k < 256 {
      FillColumnStep(c0, c, plans, biomes, k);
      FillFromFills(c0, FillColumn(c, plans, biomes, c0.minX, c0.minZ, k / 16, k % 16).value, plans, biomes, k + 1);
    }
  }

  /** Every column of the chunk with corner (`minX`, `minZ`) has a sane surface height. */
  ghost predicate SaneHeights(column: Columns, minX: int, minZ: int) {
    forall x, z :: minX <= x < minX + 16 && minZ <= z < minZ + 16 ==> SaneHeight(column(x, z).height)
  }

  /**
   * Generating a chunk-aligned chunk whose columns have sane heights
   * succeeds, gives every cell the layered profile of its column's biome
   * and surface (cells above the surface keep what they held), takes the
   * biome of the centre column and changes nothing else.
   */
  lemma GenerateChunkLayers(c: Chunk, column: Columns, cave: CaveField)
    requires c.minX % 16 == 0 && c.minZ % 16 == 0
    requires SaneHeights(column, c.minX, c.minZ)
    ensures GenerateChunk(c, column, cave, c.minX, c.minZ).Ok?
    ensures forall q :: InBounds(q) ==> (Cell(GenerateChunk(c, column, cave, c.minX, c.minZ).value, q)
      == Layered(BiomeAt(column, c.minX + q.x, c.minZ + q.z), cave, c.minX + q.x, c.minZ + q.z,
           SurfaceOf(column(c.minX + q.x, c.minZ + q.z).height), q.y, Cell(c, q)))
    ensures GenerateChunk(c, column, cave, c.minX, c.minZ).value.biome == BiomeAt(column, c.minX + 8, c.minZ + 8)
  {
    PlannedChunk(c, column, cave);
    FloorToUnique(c.minX, 16, c.minX);
    FloorToUnique(c.minZ, 16, c.minZ);
    ChunkLayered(c, FillFrom(c, PlansOf(column, cave), BiomesOf(column), c.minX, c.minZ, 0).value, column, cave);
  }

  /** A chunk whose every column has had its plan applied holds the layered profile everywhere. */
  lemma ChunkLayered(c: Chunk, r: Chunk, column: Columns, cave: CaveField)
    requires SaneHeights(column, c.minX, c.minZ)
    requires FilledUpTo(c, r, PlansOf(column, cave), BiomesOf(column), 256)
    ensures forall q :: InBounds(q) ==> (Cell(r, q)
      == Layered(BiomeAt(column, c.minX + q.x, c.minZ + q.z), cave, c.minX + q.x, c.minZ + q.z,
           SurfaceOf(column(c.minX + q.x, c.minZ + q.z).height), q.y, Cell(c, q)))
  {
    forall q | InBounds(q)
      ensures Cell(r, q) == Layered(BiomeAt(column, c.minX + q.x, c.minZ + q.z), cave, c.minX + q.x, c.minZ + q.z,
        SurfaceOf(column(c.minX + q.x, c.minZ + q.z).height), q.y, Cell(c, q))
    {
      assert 16 * q.x + q.z < 256;
      PlannedLayers(column, cave, c.minX, c.minZ, q, Cell(c, q));
    }
  }

  /** With a sane surface height, a column's plan leaves its layered profile. */
  lemma PlannedLayers(column: Columns, cave: CaveField, minX: int, minZ: int, q: Vec3, d: BlockType)
    requires SaneHeight(column(minX + q.x, minZ + q.z).height)
    ensures Planned(PlansOf(column, cave), minX, minZ, q, d)
      == Layered(BiomeAt(column, minX + q.x, minZ + q.z), cave, minX + q.x, minZ + q.z,
           SurfaceOf(column(minX + q.x, minZ + q.z).height), q.y, d)
  {
    SaneSurface(column(minX + q.x, minZ + q.z).height);
    PlannedSurface(column, cave, minX, minZ, q, d, SurfaceOf(column(minX + q.x, minZ + q.z).height));
  }

  /** The same, for any sane surface the column's plan is built on. */
  lemma PlannedSurface(column: Columns, cave: CaveField, minX: int, minZ: int, q: Vec3, d: BlockType, s: Surface)
    requires Sane(s)
    requires ColumnPlan(column, cave, minX + q.x, minZ + q.z)
      == ColumnWrites(BiomeAt(column, minX + q.x, minZ + q.z), cave, minX + q.x, minZ + q.z, s)
    ensures Planned(PlansOf(column, cave), minX, minZ, q, d)
      == Layered(BiomeAt(column, minX + q.x, minZ + q.z), cave, minX + q.x, minZ + q.z, s, q.y, d)
  {
    PlannedFrom(PlansOf(column, cave), ColumnPlan(column, cave, minX + q.x, minZ + q.z), minX, minZ, q, d);
    forall x, z
      ensures LastWrite(ColumnWrites(BiomeAt(column, x, z), cave, x, z, s), q.y, d) == Layered(BiomeAt(column, x, z), cave, x, z, s, q.y, d)
    {
      ColumnLayers(BiomeAt(column, x, z), cave, x, z, s, q.y, d);
    }
  }

  /** A cell's plan is its column's writes. */
  lemma PlannedFrom(plans: Plans, ws: seq<Write>, minX: int, minZ: int, q: Vec3, d: BlockType)
    requires plans(minX + q.x, minZ + q.z) == ws
    ensures Planned(plans, minX, minZ, q, d) == LastWrite(ws, q.y, d)
  {
  }

  /** The fold over the chunk's columns applies every column's plan. */
  lemma PlannedChunk(c: Chunk, column: Columns, cave: CaveField)
    requires SaneHeights(column, c.minX, c.minZ)
    ensures FillFrom(c, PlansOf(column, cave), BiomesOf(column), c.minX, c.minZ, 0).Ok?
    ensures FilledUpTo(c, FillFrom(c, PlansOf(column, cave), BiomesOf(column), c.minX, c.minZ, 0).value,
      PlansOf(column, cave), BiomesOf(column), 256)
  {
    var plans, biomes := PlansOf(column, cave), BiomesOf(column);
    forall x, z | c.minX <= x < c.minX + 16 && c.minZ <= z < c.minZ + 16 ensures InHeight(plans(x, z)) {
      SaneSurface(column(x, z).height);
      ColumnWritesInHeight(BiomeAt(column, x, z), cave, x, z, SurfaceOf(column(x, z).height));
    }
    FillFromFills(c, c, plans, biomes, 0);
  }

  /** `CanPlaceTree`: trees grow on grass or dirt. */
  function CanPlaceTree(c: Chunk, x: int, y: int, z: int): (r: Result<bool>)
    ensures InBounds(Vec3(x, y, z)) ==> r == Ok(Cell(c, Vec3(x, y, z)) in {Grass, Dirt})
    ensures r.Err? ==> r.fault == OutOfRange
  {
    var b :- GetBlockAt(c, x, y, z);
    Ok(b == Grass || b == Dirt)
  }

  /** `CanPlaceCactus`: cacti grow on sand. */
  function CanPlaceCactus(c: Chunk, x: int, y: int, z: int): (r: Result<bool>)
    ensures InBounds(Vec3(x, y, z)) ==> r == Ok(Cell(c, Vec3(x, y, z)) == Sand)
    ensures r.Err? ==> r.fault == OutOfRange
  {
    var b :- GetBlockAt(c, x, y, z);
    Ok(b == Sand)
  }

  /** `CanPlaceSnowTree`: snow trees grow on snow. */
  function CanPlaceSnowTree(c: Chunk, x: int, y: int, z: int): (r: Result<bool>)
    ensures InBounds(Vec3(x, y, z)) ==> r == Ok(Cell(c, Vec3(x, y, z)) == Snow)
    ensures r.Err? ==> r.fault == OutOfRange
  {
    var b :- GetBlockAt(c, x, y, z);
    Ok(b == Snow)
  }
}
