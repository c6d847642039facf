/**
 * The body of the population worker (`populationworker::run`): a first
 * pass over the 256 columns that may raise a pyramid, then a second pass
 * that may grow an oak, a cactus or a snow tree, each decided from the
 * noise sample of the column and the chunk as the earlier steps left it.
 */
module Populate {
  import opened Results
  import opened Blocks
  import opened Chunks
  import opened Footprints
  import Generation
  import World
  import Population

  /** `Noise::random1` at a world column; the hashing itself is an input of the model. */
  type Noise = (int, int) -> real

  /** The odds of the worker's table: a column decorates when its sample exceeds them. */
  const PyramidOdds: real := 0.99995
  const GrasslandOdds: real := 0.975
  const DesertOdds: real := 0.985
  const SnowlandOdds: real := 0.999

  /** What the second pass decides to grow at a column, and the height it is placed at. */
  datatype Plant = NoPlant | OakAt(y: int) | CactusAt(y: int) | SnowTreeAt(y: int)

  // ------------------------------------------------------------- cactus

  /** `placeCactus`: three cactus blocks written straight into the chunk, without resolution or rebuild flag. */
  function PlaceCactus(c: Chunk, x: int, y: int, z: int): (r: Result<Chunk>)
    ensures r.Ok? ==> r.value == c.(blocks := r.value.blocks)
    ensures r.Err? ==> r.fault == OutOfRange
  {
    var c1 :- Chunks.SetBlockAt(c, x, y, z, Cactus);
    var c2 :- Chunks.SetBlockAt(c1, x, y + 1, z, Cactus);
    Chunks.SetBlockAt(c2, x, y + 2, z, Cactus)
  }

  /** A cactus whose three cells lie in the chunk is a column of three cactus blocks and nothing else. */
  lemma CactusColumn(c: Chunk, x: int, y: int, z: int, q: Vec3)
    requires InBounds(Vec3(x, y, z)) && y + 2 < 256 && InBounds(q)
    ensures PlaceCactus(c, x, y, z).Ok?
    ensures Cell(PlaceCactus(c, x, y, z).value, q) == if q.x == x && q.z == z && y <= q.y <= y + 2 then Cactus else Cell(c, q)
  {
    ReadAfterWrite(c, Vec3(x, y, z), q, Cactus);
    var c1 := Chunks.SetBlockAt(c, x, y, z, Cactus).value;
    ReadAfterWrite(c1, Vec3(x, y + 1, z), q, Cactus);
    var c2 := Chunks.SetBlockAt(c1, x, y + 1, z, Cactus).value;
    ReadAfterWrite(c2, Vec3(x, y + 2, z), q, Cactus);
  }

  // ------------------------------------------------------------- decisions

  /**
   * The second pass's choice at local column (x, z), read from chunk `c`:
   * grassland grows an oak one above the surface, desert a cactus one above
   * it, snow a snow tree at the surface, each above its odds, below its
   * height limit and on its ground. Reading the ground can throw.
   */
  function PlantAt(c: Chunk, noise: Noise, x: int, z: int): (r: Result<Plant>)
  {
    var pop := noise(c.minX + x, c.minZ + z);
    if pop > GrasslandOdds && c.biome == Grassland then
      var h :- HeightAt(c, x, z);
      if h < 220 then
        var ok :- Generation.CanPlaceTree(c, x, h, z);
        Ok(if ok then OakAt(h + 1) else NoPlant)
      else Ok(NoPlant)
    else if pop > DesertOdds && c.biome == Desert then
      var h :- HeightAt(c, x, z);
      if h < 220 then
        var ok :- Generation.CanPlaceCactus(c, x, h, z);
        Ok(if ok then CactusAt(h + 1) else NoPlant)
      else Ok(NoPlant)
    else if pop > SnowlandOdds && c.biome == Snowland then
      var h :- HeightAt(c, x, z);
      if h < 180 then
        var ok :- Generation.CanPlaceSnowTree(c, x, h, z);
        Ok(if ok then SnowTreeAt(h) else NoPlant)
      else Ok(NoPlant)
    else Ok(NoPlant)
  }

  /** The decision table in terms of the biome, the sample, the surface height and the block there. */
  function Expected(b: Biome, pop: real, h: int, ground: BlockType): Plant {
    if pop > GrasslandOdds && b == Grassland then
      (if h < 220 && (ground == Grass || ground == Dirt) then OakAt(h + 1) else NoPlant)
    else if pop > DesertOdds && b == Desert then
      (if h < 220 && ground == Sand then CactusAt(h + 1) else NoPlant)
    else if pop > SnowlandOdds && b == Snowland then
      (if h < 180 && ground == Snow then SnowTreeAt(h) else NoPlant)
    else NoPlant
  }

  /**
   * For a column with a block above the bedrock, the choice follows the
   * table at the column's surface: the highest non-empty cell in [1, 255].
   */
  lemma PlantRule(c: Chunk, noise: Noise, x: int, z: int)
    requires 0 <= x < 16 && 0 <= z < 16
    ensures HeightAt(c, x, z).Ok? && TopOfColumn(c, x, z, 255, HeightAt(c, x, z).value)
    ensures var h := HeightAt(c, x, z).value;
      1 <= h ==> PlantAt(c, noise, x, z) == Ok(Expected(c.biome, noise(c.minX + x, c.minZ + z), h, Cell(c, Vec3(x, h, z))))
  {
  }

  /** Below every odds of the table nothing grows. */
  lemma PlantQuiet(c: Chunk, noise: Noise, x: int, z: int)
    requires noise(c.minX + x, c.minZ + z) <= GrasslandOdds
    ensures PlantAt(c, noise, x, z) == Ok(NoPlant)
  {
  }

  // ------------------------------------------------------------- growing

  /**
   * Placing the chosen plant at local column (x, z). The trunk length and
   * the segment count are drawn from the sample at (minX + x, minZ + x):
   * the engine passes the local x twice.
   */
  function Grow(w: World.World, a: Corner, noise: Noise, x: int, z: int, p: Plant): (r: Result<World.World>)
    requires a in w
    ensures r.Ok? ==> a in r.value && Population.Decorated(w, r.value)
  {
    match p
    case NoPlant => Ok(w)
    case OakAt(y) =>
      var ss := TreeStamps(x, y, z, TrunkLength(noise(w[a].minX + x, w[a].minZ + x)));
      Population.PlaceAllDecorates(w, a, ss);
      Population.PlaceAll(w, a, ss)
    case CactusAt(y) =>
      var c :- PlaceCactus(w[a], x, y, z);
      Population.OneChunkDecorates(w, w[a := c], a);
      Ok(w[a := c])
    case SnowTreeAt(y) =>
      var ss := SnowTreeStamps(x, y, z, SegmentCount(noise(w[a].minX + x, w[a].minZ + x)));
      Population.PlaceAllDecorates(w, a, ss);
      Population.PlaceAll(w, a, ss)
  }

  /**
   * A step of the first pass given the verdict of the neighbour test: a
   * pyramid on a rare desert column when the verdict is true. The verdict is
   * consulted, and a fault in it surfaces, only above the odds in a desert
   * chunk.
   */
  function PyramidStepWith(w: World.World, a: Corner, noise: Noise, x: int, z: int, verdict: Result<bool>): (r: Result<World.World>)
    requires a in w
    ensures r.Ok? ==> a in r.value && Population.Decorated(w, r.value)
  {
    var c := w[a];
    if noise(c.minX + x, c.minZ + z) > PyramidOdds then
      var h :- HeightAt(c, x, z);
      if c.biome == Desert then
        var ok :- verdict;
        if ok then
          Population.PlaceAllDecorates(w, a, PyramidStamps(x, h, z));
          Population.PlaceAll(w, a, PyramidStamps(x, h, z))
        else Ok(w)
      else Ok(w)
    else Ok(w)
  }

  /** One step of the first pass as `run` takes it: gated by `checkNeighborType` as written. */
  function PyramidStep(w: World.World, a: Corner, noise: Noise, x: int, z: int): (r: Result<World.World>)
    requires a in w
    ensures r.Ok? ==> a in r.value && Population.Decorated(w, r.value)
  {
    PyramidStepWith(w, a, noise, x, z, Population.CheckNeighborTypeAsWritten(w, a, Desert))
  }

  /** The same step gated by the corrected test, which also looks at the (-x, -z) diagonal. */
  function PyramidStepCorrected(w: World.World, a: Corner, noise: Noise, x: int, z: int): (r: Result<World.World>)
    requires a in w
    ensures r.Ok? ==> a in r.value && Population.Decorated(w, r.value)
  {
    PyramidStepWith(w, a, noise, x, z, Population.CheckNeighborType(w, a, Desert))
  }

  /** One step of the second pass: decide from the chunk as it now stands, then grow. */
  function FeatureStep(w: World.World, a: Corner, noise: Noise, x: int, z: int): (r: Result<World.World>)
    requires a in w
    ensures r.Ok? ==> a in r.value && Population.Decorated(w, r.value)
  {
    var p :- PlantAt(w[a], noise, x, z);
    Grow(w, a, noise, x, z, p)
  }

  /**
   * The first `k` steps of the first pass, x outer and z inner: step k is
   * column (k / 16, k % 16). The pass only decorates, and steps that each
   * leave the world as it is make a pass that does too.
   */
  function PyramidPass(w: World.World, a: Corner, noise: Noise, k: nat): (r: Result<World.World>)
    requires a in w && k <= 256
    ensures r.Ok? ==> a in r.value && Population.Decorated(w, r.value)
    ensures PyramidIdle(w, a, noise) ==> r == Ok(w)
  {
    if k == 0 then Ok(w)
    else
      var w1 :- PyramidPass(w, a, noise, k - 1);
      PyramidStep(w1, a, noise, (k - 1) / 16, (k - 1) % 16)
  }

  /** The first `k` steps of the second pass, in the same order, with the same two guarantees. */
  function FeaturePass(w: World.World, a: Corner, noise: Noise, k: nat): (r: Result<World.World>)
    requires a in w && k <= 256
    ensures r.Ok? ==> a in r.value && Population.Decorated(w, r.value)
    ensures FeatureIdle(w, a, noise) ==> r == Ok(w)
  {
    if k == 0 then Ok(w)
    else
      var w1 :- FeaturePass(w, a, noise, k - 1);
      FeatureStep(w1, a, noise, (k - 1) / 16, (k - 1) % 16)
  }

  /**
   * `run` up to the insertion into the populated set: both passes over all
   * 256 columns. The worker changes only block contents and rebuild flags:
   * every chunk stays resident with its corner, links, biome and states.
   */
  function Populate(w: World.World, a: Corner, noise: Noise): (r: Result<World.World>)
    requires a in w
    ensures r.Ok? ==> Population.Decorated(w, r.value)
  {
    var w1 :- PyramidPass(w, a, noise, 256);
    FeaturePass(w1, a, noise, 256)
  }

  // ------------------------------------------------------------- properties

  /** Every step of the first pass over the chunk's columns leaves `w` as it is. */
  ghost predicate PyramidIdle(w: World.World, a: Corner, noise: Noise) {
    a in w && forall x, z | 0 <= x < 16 && 0 <= z < 16 :: PyramidStep(w, a, noise, x, z) == Ok(w)
  }

  /** Every step of the second pass over the chunk's columns leaves `w` as it is. */
  ghost predicate FeatureIdle(w: World.World, a: Corner, noise: Noise) {
    a in w && forall x, z | 0 <= x < 16 && 0 <= z < 16 :: FeatureStep(w, a, noise, x, z) == Ok(w)
  }

  /** Every sample of the chunk's 256 world columns is at most `odds`. */
  ghost predicate QuietBelow(noise: Noise, c: Chunk, odds: real) {
    forall X, Z :: c.minX <= X < c.minX + 16 && c.minZ <= Z < c.minZ + 16 ==> noise(X, Z) <= odds
  }

  /** A step raises nothing where the sample stays at or below the pyramid odds. */
  lemma PyramidStepQuiet(w: World.World, a: Corner, noise: Noise, x: int, z: int)
    requires a in w && noise(w[a].minX + x, w[a].minZ + z) <= PyramidOdds
    ensures PyramidStep(w, a, noise, x, z) == Ok(w)
  {
    var r := PyramidStep(w, a, noise, x, z);
    assert r == Ok(w);
  }

  /** A step over a column of a chunk outside the desert raises nothing. */
  lemma PyramidStepOutside(w: World.World, a: Corner, noise: Noise, x: int, z: int)
    requires a in w && 0 <= x < 16 && 0 <= z < 16 && w[a].biome != Desert
    ensures PyramidStep(w, a, noise, x, z) == Ok(w)
  {
    var r := PyramidStep(w, a, noise, x, z);
    assert HeightAt(w[a], x, z).Ok?;
    assert r == Ok(w);
  }

  /**
   * Above the odds in a desert chunk, the neighbour test as written decides
   * the step: a fault in it is the step's fault, false leaves the world as
   * it is, and true places the pyramid on the column's surface.
   */
  lemma PyramidStepRaises(w: World.World, a: Corner, noise: Noise, x: int, z: int)
    requires a in w && 0 <= x < 16 && 0 <= z < 16
    requires w[a].biome == Desert && noise(w[a].minX + x, w[a].minZ + z) > PyramidOdds
    ensures Population.CheckNeighborTypeAsWritten(w, a, Desert) == Ok(false) ==> PyramidStep(w, a, noise, x, z) == Ok(w)
    ensures Population.CheckNeighborTypeAsWritten(w, a, Desert).Err? ==> PyramidStep(w, a, noise, x, z).Err?
    ensures HeightAt(w[a], x, z).Ok?
    ensures Population.CheckNeighborTypeAsWritten(w, a, Desert) == Ok(true) ==>
      PyramidStep(w, a, noise, x, z) == Population.PlaceAll(w, a, PyramidStamps(x, HeightAt(w[a], x, z).value, z))
  {
    var r := PyramidStep(w, a, noise, x, z);
    var h := HeightAt(w[a], x, z);
    assert h.Ok?;
    var ok := Population.CheckNeighborTypeAsWritten(w, a, Desert);
    if ok == Ok(false) {
      assert r == Ok(w);
    } else if ok.Err? {
      assert r == Err(ok.fault);
    }
  }

  /** Outside the desert the first pass raises nothing. */
  lemma NoPyramidOutsideDesert(w: World.World, a: Corner, noise: Noise)
    requires a in w && w[a].biome != Desert
    ensures PyramidPass(w, a, noise, 256) == Ok(w)
  {
    forall x, z | 0 <= x < 16 && 0 <= z < 16 ensures PyramidStep(w, a, noise, x, z) == Ok(w) {
      PyramidStepOutside(w, a, noise, x, z);
    }
    assert PyramidIdle(w, a, noise);
  }

  /** When no sample reaches the pyramid odds the first pass raises nothing. */
  lemma NoPyramidWhenQuiet(w: World.World, a: Corner, noise: Noise)
    requires a in w && QuietBelow(noise, w[a], PyramidOdds)
    ensures PyramidPass(w, a, noise, 256) == Ok(w)
  {
    forall x, z | 0 <= x < 16 && 0 <= z < 16 ensures PyramidStep(w, a, noise, x, z) == Ok(w) {
      assert noise(w[a].minX + x, w[a].minZ + z) <= PyramidOdds;
      PyramidStepQuiet(w, a, noise, x, z);
    }
    assert PyramidIdle(w, a, noise);
  }

  /** When no sample reaches the lowest odds of the table the second pass grows nothing. */
  lemma NothingGrowsWhenQuiet(w: World.World, a: Corner, noise: Noise)
    requires a in w && QuietBelow(noise, w[a], GrasslandOdds)
    ensures FeaturePass(w, a, noise, 256) == Ok(w)
  {
    forall x, z | 0 <= x < 16 && 0 <= z < 16 ensures FeatureStep(w, a, noise, x, z) == Ok(w) {
      assert noise(w[a].minX + x, w[a].minZ + z) <= GrasslandOdds;
      PlantQuiet(w[a], noise, x, z);
    }
    assert FeatureIdle(w, a, noise);
  }

  /** A chunk whose samples stay at or below the lowest odds is left exactly as it was. */
  lemma QuietPopulate(w: World.World, a: Corner, noise: Noise)
    requires a in w && QuietBelow(noise, w[a], GrasslandOdds)
    ensures Populate(w, a, noise) == Ok(w)
  {
    NoPyramidWhenQuiet(w, a, noise);
    NothingGrowsWhenQuiet(w, a, noise);
  }

  /** Mountain chunks have no entry in the table: the second pass grows nothing on them. */
  lemma MountainStaysBare(w: World.World, a: Corner, noise: Noise)
    requires a in w && w[a].biome == Mountain
    ensures FeaturePass(w, a, noise, 256) == Ok(w)
  {
    forall x, z | 0 <= x < 16 && 0 <= z < 16 ensures FeatureStep(w, a, noise, x, z) == Ok(w) {
      assert PlantAt(w[a], noise, x, z) == Ok(NoPlant);
    }
    assert FeatureIdle(w, a, noise);
  }

  /** `run` on a mountain chunk changes nothing. */
  lemma MountainPopulate(w: World.World, a: Corner, noise: Noise)
    requires a in w && w[a].biome == Mountain
    ensures Populate(w, a, noise) == Ok(w)
  {
    NoPyramidOutsideDesert(w, a, noise);
    MountainStaysBare(w, a, noise);
  }

  /** A step leaves the world as it is at or below the odds, outside the desert and on a false verdict. */
  lemma PyramidStepWithIdle(w: World.World, a: Corner, noise: Noise, x: int, z: int, verdict: Result<bool>)
    requires a in w && 0 <= x < 16 && 0 <= z < 16
    requires noise(w[a].minX + x, w[a].minZ + z) <= PyramidOdds || w[a].biome != Desert || verdict == Ok(false)
    ensures PyramidStepWith(w, a, noise, x, z, verdict) == Ok(w)
  {
    assert HeightAt(w[a], x, z).Ok?;
  }

  /** A step that changes something was above the odds in a desert chunk with a true verdict. */
  lemma PyramidStepWithGate(w: World.World, a: Corner, noise: Noise, x: int, z: int, verdict: Result<bool>)
    requires a in w && 0 <= x < 16 && 0 <= z < 16
    requires PyramidStepWith(w, a, noise, x, z, verdict) != Ok(w) && PyramidStepWith(w, a, noise, x, z, verdict).Ok?
    ensures noise(w[a].minX + x, w[a].minZ + z) > PyramidOdds
    ensures w[a].biome == Desert && verdict == Ok(true)
  {
    if noise(w[a].minX + x, w[a].minZ + z) <= PyramidOdds || w[a].biome != Desert || verdict == Ok(false) {
      PyramidStepWithIdle(w, a, noise, x, z, verdict);
    }
  }

  /**
   * In a linked table a pyramid step of `run` changes something only for a
   * sample above the pyramid odds in a desert chunk whose surrounding chunks
   * other than the (-x, -z) diagonal are resident and desert.
   */
  lemma PyramidGate(w: World.World, a: Corner, noise: Noise, x: int, z: int)
    requires World.Linked(w) && a in w && 0 <= x < 16 && 0 <= z < 16
    requires PyramidStep(w, a, noise, x, z) != Ok(w) && PyramidStep(w, a, noise, x, z).Ok?
    ensures noise(w[a].minX + x, w[a].minZ + z) > PyramidOdds
    ensures w[a].biome == Desert && Population.SurroundedButSouthWest(w, a, Desert)
  {
    PyramidStepWithGate(w, a, noise, x, z, Population.CheckNeighborTypeAsWritten(w, a, Desert));
    Population.CheckNeighborTypeAsWrittenRule(w, a, Desert);
  }

  /** With the corrected test a step changes something only when all eight surrounding chunks are desert. */
  lemma PyramidGateCorrected(w: World.World, a: Corner, noise: Noise, x: int, z: int)
    requires World.Linked(w) && a in w && 0 <= x < 16 && 0 <= z < 16
    requires PyramidStepCorrected(w, a, noise, x, z) != Ok(w) && PyramidStepCorrected(w, a, noise, x, z).Ok?
    ensures noise(w[a].minX + x, w[a].minZ + z) > PyramidOdds
    ensures w[a].biome == Desert && Population.Surrounded(w, a, Desert)
  {
    PyramidStepWithGate(w, a, noise, x, z, Population.CheckNeighborType(w, a, Desert));
    Population.CheckNeighborTypeRule(w, a, Desert);
  }

  /**
   * The discrepancy at the level of a step: beside a non-desert (-x, -z)
   * diagonal, with the other seven surrounding chunks desert, `run` places a
   * pyramid where the corrected step leaves the world as it is.
   */
  lemma PyramidIgnoresSouthWest(w: World.World, a: Corner, noise: Noise, x: int, z: int)
    requires World.Linked(w) && a in w && 0 <= x < 16 && 0 <= z < 16
    requires w[a].biome == Desert && noise(w[a].minX + x, w[a].minZ + z) > PyramidOdds
    requires Population.SurroundedButSouthWest(w, a, Desert)
    requires Population.SouthWest(a) in w && w[Population.SouthWest(a)].biome != Desert
    ensures HeightAt(w[a], x, z).Ok?
    ensures PyramidStep(w, a, noise, x, z) == Population.PlaceAll(w, a, PyramidStamps(x, HeightAt(w[a], x, z).value, z))
    ensures PyramidStepCorrected(w, a, noise, x, z) == Ok(w)
  {
    Population.AsWrittenMissesSouthWest(w, a, Desert);
    PyramidStepRaises(w, a, noise, x, z);
  }
}
