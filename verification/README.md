# Mini-Minecraft chunk pipeline, modelled in Dafny

This project models the core of Mini-Minecraft's world. The world is a table of 16 x 256 x 16 chunks that a scheduler moves through several stages:
- terrain generation;
- decoration with trees, cacti and pyramids;
- geometry building;
- buffer upload and teardown.

The model follows the C++ sources under `assignment_package/src/scene/`:
- `terrain.cpp`: the chunk table, key packing, world block access, chunk instantiation and linking, and the per-frame scheduler;
- `chunk.cpp`: the block store, geometry states and the face builder;
- `generation.cpp`: the column fills;
- `populationworker.cpp`: cross-chunk placement, the decoration shapes and the worker's `run`;
- `chunkhelper.h`: the tables.

Each module is one file:

| module | file | models |
|---|---|---|
| `Results` | results.dfy | the exceptions the code throws (`std::out_of_range`, `std::logic_error`, null dereference) as a `Result` |
| `Numerics` | numerics.dfy | C++ truncating `/` and `%`, float-to-int truncation, flooring to a multiple |
| `Blocks` | blocks.dfy | the enums, direction vectors, `oppositeDirection`, `adjacentFaces`, `blockUVs`, `clearBlocks`, `animatedBocks` |
| `Keys` | keys.dfy | `toKey` / `toCoords` on 64-bit words made of two 32-bit halves |
| `Chunks` | chunks.dfy | a chunk's flat block array, its accessors, `getHeightAt`, `crossBorder`, buffer upload and deletion |
| `World` | world.dfy | the chunk table: `hasChunkAt`, `getChunkAt`, `getBlockAt`, `setBlockAt`, `instantiateChunkAt`, `linkNeighbor` |
| `Generation` | generation.dfy | `SetRangeAndGenCaves`, `SetRange`, the four biome fillers, `GenerateChunk`, the `CanPlace*` tests |
| `Footprints` | footprints.dfy | the cells written by `placeTree`, `placePyramid` and `placeSnowTree`, in write order |
| `Population` | population.dfy | `setNeighbor`, `placeAcrossChunks` and `checkNeighborType` |
| `Populate` | populate.dfy | `placeCactus` and the two passes of `populationworker::run` |
| `Mesh` | mesh.dfy | `createVBOdata`, `appendVBOData`, `combineVBO` |
| `Scheduler` | terrain.dfy | `checkVBOState`, the update functions, `checkNeighborStatus*`, the spawn functions, `GenerateNew` |

The chunk table maps each chunk's corner to its chunk. `Keys.KeyInjective` proves packing is one-to-one on 32-bit coordinates, so within that range corners stand in for packed keys. Corners also stand in for the pointers the chunks hold to each other. The scheduler's state is the chunk table plus the eight sets the terrain keeps. `Scheduler.Valid` is the invariant it keeps between frames, and it has four parts:
- links are mutual and geometric;
- resident chunks are exactly the tiles of dispatched zones;
- each queue holds chunks in the state it expects;
- no chunk in the ring of eight around a chunk being decorated is itself being decorated.

A frame (`GenerateNew`) and each finishing worker job keep the invariant, and no chunk's generation state ever moves backwards.

## Model

| member | source | states |
|---|---|---|
| Numerics.CDiv | assignment_package/src/scene/populationworker.cpp:89-92 | integer division truncates toward zero: the remainder a - m*q lies in [0, m) for a non-negative dividend and in (-m, 0] for a negative one |
| Numerics.CDivUnique | assignment_package/src/scene/populationworker.cpp:89-92 | that remainder condition determines the quotient: any q meeting it is the truncated quotient |
| Numerics.CDivOdd | assignment_package/src/scene/populationworker.cpp:89-92 | truncation is symmetric: the quotient of -a is the negated quotient of a |
| Numerics.CRem | assignment_package/src/scene/terrain.cpp:217-229 | the remainder satisfies a = m*q + r with the sign of the dividend and magnitude below m, as C++ `%` does |
| Numerics.Trunc | assignment_package/src/scene/generation.cpp:78-114 | converting a float height to int truncates toward zero: within one unit below a non-negative value, within one above a negative one |
| Numerics.FloorTo | assignment_package/src/scene/terrain.cpp:66 | `floor(v / m) * m` is the unique multiple of m with c <= v < c + m |
| Numerics.FloorToUnique | assignment_package/src/scene/terrain.cpp:66 | any multiple of m in (v - m, v] is the floored value |
| Blocks.Opposite | assignment_package/src/scene/chunk.cpp:36-43 | the opposite direction is on the same axis with the other sign, its unit vector is negated, and it is horizontal iff the original is |
| Blocks.AdjacentFace | assignment_package/src/scene/chunkhelper.h:78-109 | the face entry for a direction carries that direction, its unit normal and four corners |
| Blocks.FaceTable | assignment_package/src/scene/chunkhelper.h:78-109 | each face entry sits at the position of its enumerator in the table |
| Blocks.FaceOnPlane | assignment_package/src/scene/chunkhelper.h:78-109 | the four corners of a face lie on the cell's side facing its direction, at distinct corners |
| Blocks.BlockUVs | assignment_package/src/scene/chunkhelper.h:111-191 | the atlas table has a row for exactly the non-empty block kinds, every row covers all six faces, and every tile lies in the 16 x 16 atlas |
| Blocks.AtlasRowsComplete | assignment_package/src/scene/chunkhelper.h:111-191 | every non-empty kind has a tile for every face, inside the atlas; `Empty` has none |
| Blocks.UvOffset | assignment_package/src/scene/chunk.cpp:175 | looking up a block's tile succeeds exactly for non-empty kinds, and `.at` throws out-of-range otherwise |
| Blocks.IsAnimated | assignment_package/src/scene/chunkhelper.h:203-211 | every animated kind is also clear and non-empty |
| Keys.ToKey | assignment_package/src/scene/terrain.cpp:25-53 | unpacking a packed key gives back both 32-bit coordinates, negative ones included |
| Keys.KeyInjective | assignment_package/src/scene/terrain.cpp:25-38 | distinct coordinate pairs pack to distinct keys |
| Keys.PackedHalves | assignment_package/src/scene/terrain.cpp:25-38 | the masking in `toKey` leaves x's low word in the high half and z's low word in the low half |
| Keys.UnpackHalves | assignment_package/src/scene/terrain.cpp:41-53 | `toCoords` reads the two halves back as signed 32-bit values |
| Keys.Pow2Add | assignment_package/src/scene/terrain.cpp:25-53 | powers of two multiply by adding exponents, which the bit-level model of the masks rests on |
| Keys.AndTopBit | assignment_package/src/scene/terrain.cpp:47 | masking with the top bit is non-zero iff the value is at least that bit |
| Chunks.NewChunk | assignment_package/src/scene/chunk.cpp:6-10 | a new chunk is all empty, at its corner, unlinked, ungenerated, with no geometry and no flags |
| Chunks.IndexInjective | assignment_package/src/scene/chunk.cpp:18-20 | two in-range cells never share a flat index |
| Chunks.CellAt | assignment_package/src/scene/chunk.cpp:18-20 | every flat index below 65536 is the index of exactly one in-range cell |
| Chunks.GetBlockAt | assignment_package/src/scene/chunk.cpp:18-25 | an in-range read returns the cell, and any failure is out-of-range |
| Chunks.SetBlockAt | assignment_package/src/scene/chunk.cpp:28-33 | a write succeeds iff the wrapped flat index is below 65536, and it changes only the blocks |
| Chunks.ReadAfterWrite | assignment_package/src/scene/chunk.cpp:18-33 | after an in-range write, the written cell reads the new kind and every other cell is unchanged |
| Chunks.SetBlockAtAliases | assignment_package/src/scene/chunk.cpp:28-33 | y = 256 is not rejected and lands on cell (0, 0, 1), because the index test checks only the flat index |
| Chunks.HeightAt | assignment_package/src/scene/chunk.cpp:231-238 | for an in-range column the height is the highest non-empty cell in [1, 255], or -1 when there is none |
| Chunks.HeightScan | assignment_package/src/scene/chunk.cpp:232-237 | the downward scan from i finds the highest non-empty cell in [1, i], or -1 |
| Chunks.CrossBorderOnSide | assignment_package/src/scene/chunk.cpp:209-215 | a cell's step along a unit direction crosses the border iff the cell is on that side of the chunk |
| Chunks.Wrap | assignment_package/src/scene/chunk.cpp:129-141 | the truncating remainder plus the negative fix-up is the ordinary remainder for offsets within one chunk width |
| Chunks.WrapSample | assignment_package/src/scene/chunk.cpp:123-142 | the wrapped neighbour cell is in range and is the stepped cell moved one chunk width back across the border |
| Chunks.SendVboData | assignment_package/src/scene/chunk.cpp:68-99 | the upload marks the geometry done and ready, clears the staged data, and changes nothing else |
| Chunks.DeleteVboData | assignment_package/src/scene/chunk.cpp:101-108 | deletion throws a logic error exactly when the geometry is not ready; otherwise it resets the state to none and not ready |
| World.ChunkCorner | assignment_package/src/scene/terrain.cpp:66 | the chunk corner of a column is the 16-aligned corner whose chunk contains it |
| World.ChunkCornerUnique | assignment_package/src/scene/terrain.cpp:66 | a 16-aligned corner containing the column is the chunk corner |
| World.GetChunkAt | assignment_package/src/scene/terrain.cpp:82-107 | the lookup succeeds iff a chunk is resident at the column's corner, and the chunk found contains the column |
| World.LinksMutual | assignment_package/src/scene/chunk.cpp:45-54 | in a linked table, following a link and then the opposite link comes back |
| World.Link | assignment_package/src/scene/chunk.cpp:45-54 | linking sets one neighbour pointer and the rebuild flag, and keeps the other pointers |
| World.LinkNeighbor | assignment_package/src/scene/chunk.cpp:45-54 | both chunks point at each other through opposite directions, and no other chunk changes |
| World.LinkIfPresent | assignment_package/src/scene/terrain.cpp:114-129 | linking with a possibly absent neighbour changes only links and flags, and only of the two chunks involved |
| World.LinkIfPresentAt | assignment_package/src/scene/terrain.cpp:114-129 | after the step a chunk has a link in a direction iff it had one or it is one of the two endpoints of a present neighbour |
| World.LinkStep | assignment_package/src/scene/terrain.cpp:114-129 | each linking step of instantiation makes one more direction of the new chunk consistent |
| World.InstantiateChunkAt | assignment_package/src/scene/terrain.cpp:109-131 | instantiation adds exactly the new corner to the table |
| World.InstantiateFrame | assignment_package/src/scene/terrain.cpp:109-131 | the new chunk is fresh up to links and flags, other chunks change only links and flags, and chunks not adjacent do not change |
| World.InstantiateAligned | assignment_package/src/scene/terrain.cpp:109-131 | every chunk still sits at the corner that keys it |
| World.InstantiateLinks | assignment_package/src/scene/terrain.cpp:109-131 | after instantiation every resident horizontal neighbour pair is linked both ways, and no link dangles |
| World.GetBlockAt | assignment_package/src/scene/terrain.cpp:57-76 | a read throws iff no chunk is resident; out-of-height reads are empty; otherwise it reads the chunk's local cell |
| World.ReadSameBlocks | assignment_package/src/scene/terrain.cpp:57-76 | reads depend only on the chunks' block arrays |
| World.MarkBoundaries | assignment_package/src/scene/terrain.cpp:217-229 | the boundary checks change only rebuild flags |
| World.MarkBoundariesFlags | assignment_package/src/scene/terrain.cpp:217-229 | a chunk gets flagged iff it was flagged or it is the neighbour across the written cell's side and the cell beyond is occupied |
| World.SideCorners | assignment_package/src/scene/terrain.cpp:217-229 | the `% 16` tests on a possibly negative coordinate detect exactly the chunk's first and last columns |
| World.SetBlockAtUnchecked | assignment_package/src/scene/terrain.cpp:204-234 | the write as written (no height check) keeps the set of resident chunks |
| World.SetBlockAtHeightAliases | assignment_package/src/scene/terrain.cpp:204-234 | as written, writing at y = 256 overwrites the cell one step along z at height 0; the corrected write changes nothing |
| World.SetBlockAtHeightThrows | assignment_package/src/scene/terrain.cpp:204-234 | as written, writing at y = 256 on the chunk's last z column throws out-of-range; the corrected write changes nothing |
| World.SetBlockAt | assignment_package/src/scene/terrain.cpp:204-234 | corrected: a write throws iff no chunk is resident, keeps the table's keys, and leaves the world as it is out of height (the code as written aliases or throws there, see `World.SetBlockAtHeightAliases`) |
| World.SetBlockAtMarks | assignment_package/src/scene/terrain.cpp:204-234 | only the owning chunk's blocks change; a chunk's flag is set iff it was set, owns the cell, or is a marked neighbour |
| World.ReadAfterSet | assignment_package/src/scene/terrain.cpp:57-76 | after an in-height write, that position reads the new kind and every other position reads as before |
| Generation.RangeWithCaves | assignment_package/src/scene/generation.cpp:55-70 | the cave-aware range writes only heights in [start, end] |
| Generation.RangeWithCavesLast | assignment_package/src/scene/generation.cpp:55-70 | after the range, each height in it holds the block, or empty or lava where a cave is carved at or below 128 |
| Generation.PlainRange | assignment_package/src/scene/generation.cpp:72-76 | the plain range writes only heights in [start, end] |
| Generation.PlainRangeLast | assignment_package/src/scene/generation.cpp:72-76 | after the range, each height in it holds the block and the others keep what they held |
| Generation.LastWriteAppend | assignment_package/src/scene/generation.cpp:78-114 | writing one sequence after another leaves the second's writes over what the first left |
| Generation.SaneSurface | assignment_package/src/scene/generation.cpp:78-114 | a height in [1, 256) truncates to a surface in [1, 255], with sub-soil just below, and the float water and peak tests agree with the integer surface |
| Generation.ColumnWritesInHeight | assignment_package/src/scene/generation.cpp:78-160 | every write of a column with a sane surface stays inside the chunk's height |
| Generation.ColumnLayers | assignment_package/src/scene/generation.cpp:78-160 | the cell each column fill leaves at each height is the biome's layered profile |
| Generation.MountainLayers | assignment_package/src/scene/generation.cpp:78-89 | mountain: stone with caves, snow on peaks above 200, water up to 138 in valleys |
| Generation.GrasslandLayers | assignment_package/src/scene/generation.cpp:91-98 | grassland: stone to 128, dirt below the surface, grass on top, water up to 138 |
| Generation.SnowLayers | assignment_package/src/scene/generation.cpp:106-114 | snow: stone, dirt, a snow top, water to 137 under ice at 138 |
| Generation.Soil | assignment_package/src/scene/generation.cpp:91-104 | the stone, soil and surface writes leave stone or caves below 128, soil up to the surface and the surface block on top |
| Generation.ApplyWrites | assignment_package/src/scene/generation.cpp:51-53 | applying a column's writes changes only blocks, and a failure is out-of-range |
| Generation.ApplyWritesColumn | assignment_package/src/scene/generation.cpp:51-53 | in-height writes to one column succeed, each cell of the column holds its last write, and other columns are untouched |
| Generation.FillColumn | assignment_package/src/scene/generation.cpp:124-161 | one column of the loop changes only blocks and the biome |
| Generation.FillColumnCells | assignment_package/src/scene/generation.cpp:124-161 | one column writes its plan into that column only, and only the centre column (8, 8) sets the biome |
| Generation.FillFromFills | assignment_package/src/scene/generation.cpp:124-161 | the loop from column k on fills every remaining column with its plan |
| Generation.GenerateChunk | assignment_package/src/scene/generation.cpp:118-164 | generation changes only blocks and the biome, and any failure is out-of-range |
| Generation.GenerateChunkLayers | assignment_package/src/scene/generation.cpp:118-164 | with sane heights, generation succeeds, every cell gets its column's biome profile with bedrock at 0, and the biome is the centre column's |
| Generation.CanPlaceTree | assignment_package/src/scene/generation.cpp:167-173 | an in-range cell accepts a tree iff it is grass or dirt |
| Generation.CanPlaceCactus | assignment_package/src/scene/generation.cpp:175-177 | an in-range cell accepts a cactus iff it is sand |
| Generation.CanPlaceSnowTree | assignment_package/src/scene/generation.cpp:179-181 | an in-range cell accepts a snow tree iff it is snow |
| Footprints.TrunkLength | assignment_package/src/scene/populationworker.cpp:51 | for a sample in [0, 1) the oak trunk is 4 to 6 blocks long |
| Footprints.TreeFootprint | assignment_package/src/scene/populationworker.cpp:50-79 | the oak writes exactly a log column of the trunk's length (overriding) and the leaf canopy around its top (filling) |
| Footprints.LeavesHas | assignment_package/src/scene/populationworker.cpp:56-77 | the leaf loops write exactly the canopy cells, as filling leaves |
| Footprints.PyramidFootprint | assignment_package/src/scene/populationworker.cpp:87-98 | the pyramid writes exactly the stepped sandstone layers, each overriding |
| Footprints.PyramidFromHas | assignment_package/src/scene/populationworker.cpp:90-97 | the layers from h on are exactly the pyramid cells at or above y + h |
| Footprints.Layer1Table | assignment_package/src/scene/populationworker.cpp:102-111 | the first mask is the 8 x 8 square less, at each corner, the corner cell and its two neighbours |
| Footprints.Layer2Table | assignment_package/src/scene/populationworker.cpp:113-122 | the second mask is the inner 6 x 6 square less its corners |
| Footprints.Layer3Table | assignment_package/src/scene/populationworker.cpp:124-129 | the cap mask is the 4 x 4 square less its corners |
| Footprints.SegmentCount | assignment_package/src/scene/populationworker.cpp:131 | for a sample in [0, 1) the snow tree has 2 to 7 segments |
| Footprints.MaskFromHas | assignment_package/src/scene/populationworker.cpp:142-163 | the mask loops write exactly the set cells of the mask, as filling leaves |
| Footprints.SnowTreeFootprint | assignment_package/src/scene/populationworker.cpp:100-173 | the snow tree's logs are exactly the 2 x 2 trunk, overriding, of height 6 + 4n; everything else it writes is filling leaves inside the 8 x 8 box above height 6 |
| Footprints.SnowTreeCap | assignment_package/src/scene/populationworker.cpp:166-172 | at the cap's height, the tree writes leaves exactly where the cap mask is set |
| Footprints.CapMask | assignment_package/src/scene/populationworker.cpp:124-129 | the cap writes leaves exactly on the 4 x 4 square less its corners |
| Population.Writes | assignment_package/src/scene/populationworker.cpp:9-17 | a non-overriding placement throws iff the index is out of range; in range it writes iff it overrides or the cell is empty |
| Population.PlaceHere | assignment_package/src/scene/populationworker.cpp:40-46 | placing in the chunk itself fails iff the index is out of range, and changes only blocks |
| Population.SetNeighbor | assignment_package/src/scene/populationworker.cpp:9-17 | placing in a neighbour fails iff the index is out of range, and changes only blocks and the rebuild flag |
| Population.WritePolicy | assignment_package/src/scene/populationworker.cpp:9-17 | a placement writes the cell iff it overrides or the cell was empty, changes no other cell, and flags the neighbour iff it wrote |
| Population.Follow | assignment_package/src/scene/populationworker.cpp:25-36 | following a link yields a resident chunk or a null dereference |
| Population.FollowLinked | assignment_package/src/scene/populationworker.cpp:25-36 | in a linked table a link is followed iff the chunk one width away is resident |
| Population.PlaceAcrossChunks | assignment_package/src/scene/populationworker.cpp:19-48 | placement across chunks keeps the set of resident chunks |
| Population.PlaceAcrossResolves | assignment_package/src/scene/populationworker.cpp:19-48 | for offsets within one chunk on each side, placement reaches the chunk that owns the world cell, at the right local cell |
| Population.ResolvesDiagonal | assignment_package/src/scene/populationworker.cpp:34-38 | a diagonal offset reaches its chunk through the x neighbour and then its z neighbour |
| Population.ResolvedReads | assignment_package/src/scene/populationworker.cpp:19-48 | after placement, the world cell reads the block iff the placement overrides or the cell was empty, and every other cell reads as before |
| Population.PlaceAcrossDecorates | assignment_package/src/scene/populationworker.cpp:19-48 | placement changes only blocks and rebuild flags |
| Population.PlaceAllDecorates | assignment_package/src/scene/populationworker.cpp:50-173 | a whole shape's placements change only blocks and rebuild flags |
| Population.PlaceStampReads | assignment_package/src/scene/populationworker.cpp:19-48 | one placement of a shape writes its world cell under the override rule and leaves all others |
| Population.PlaceAllUntouched | assignment_package/src/scene/populationworker.cpp:50-173 | a cell no placement of the shape hits keeps its block |
| Population.PlaceAllFillOnly | assignment_package/src/scene/populationworker.cpp:50-173 | an occupied cell that only filling placements hit keeps its block |
| Population.PlaceAllLastOverride | assignment_package/src/scene/populationworker.cpp:50-173 | a cell whose last hit overrides holds that placement's block |
| Population.PlaceAllAppend | assignment_package/src/scene/populationworker.cpp:50-173 | placing two shape parts in turn is placing their concatenation |
| Population.PlaceAllFills | assignment_package/src/scene/populationworker.cpp:50-173 | an empty cell hit only by filling placements of one kind ends up holding that kind |
| Population.TreeTrunkStands | assignment_package/src/scene/populationworker.cpp:50-79 | every trunk cell of an oak holds a log, whatever the leaves do |
| Population.TreeLeafGrows | assignment_package/src/scene/populationworker.cpp:50-79 | an empty canopy cell off the trunk ends up as leaves |
| Population.TreeOutside | assignment_package/src/scene/populationworker.cpp:50-79 | an oak leaves every cell outside its trunk and canopy unchanged |
| Population.PyramidStands | assignment_package/src/scene/populationworker.cpp:87-98 | every cell of the stepped pyramid holds sandstone |
| Population.PyramidOutside | assignment_package/src/scene/populationworker.cpp:87-98 | a pyramid leaves every cell outside its layers unchanged |
| Population.FollowPath | assignment_package/src/scene/populationworker.cpp:176-185 | a chain of links yields a resident chunk or a null dereference |
| Population.FollowPathLinked | assignment_package/src/scene/populationworker.cpp:176-185 | in a linked table a chain of links reaches its end iff every chunk on the way is resident |
| Population.BiomesMatchLinked | assignment_package/src/scene/populationworker.cpp:176-185 | the chained biome tests succeed iff every path ends in the biome, and they cannot throw when every path is clear |
| Population.CheckNeighborTypeRule | assignment_package/src/scene/populationworker.cpp:176-185 | the corrected test holds iff all eight surrounding chunks are resident and of the biome, and it cannot throw when they are all resident |
| Population.CheckNeighborTypeAsWrittenRule | assignment_package/src/scene/populationworker.cpp:176-185 | the test as written holds iff the seven chunks other than the south-west one are of the biome |
| Population.AsWrittenMissesSouthWest | assignment_package/src/scene/populationworker.cpp:183-184 | with every neighbour of the biome except a resident south-west one, the test as written passes where the corrected one fails |
| Population.SouthWestOdd | assignment_package/src/scene/populationworker.cpp:183-184 | such a neighbourhood is fully resident and is not surrounded by the biome |
| Populate.PlaceCactus | assignment_package/src/scene/populationworker.cpp:81-85 | the cactus changes only the chunk's blocks, and any failure is out-of-range |
| Populate.CactusColumn | assignment_package/src/scene/populationworker.cpp:81-85 | an in-range cactus is three cactus blocks stacked from y, and no other cell changes |
| Populate.PlantRule | assignment_package/src/scene/populationworker.cpp:210-234 | on a column whose surface is above the bedrock, the choice is an oak one above grass or dirt below 220 in grassland, a cactus one above sand below 220 in desert, or a snow tree on snow below 180 in snowland, each only above its odds |
| Populate.PlantQuiet | assignment_package/src/scene/populationworker.cpp:188-192 | a column whose sample is at most the lowest odds grows nothing |
| Populate.Grow | assignment_package/src/scene/populationworker.cpp:213-232 | growing the chosen plant only decorates the table |
| Populate.PyramidStep | assignment_package/src/scene/populationworker.cpp:195-206 | one step of the first pass, gated by `checkNeighborType` as written, only decorates the table |
| Populate.PyramidStepCorrected | assignment_package/src/scene/populationworker.cpp:195-206 | corrected: the same step gated by the eight-neighbour test only decorates the table |
| Populate.FeatureStep | assignment_package/src/scene/populationworker.cpp:210-234 | one step of the second pass only decorates the table |
| Populate.PyramidPass | assignment_package/src/scene/populationworker.cpp:195-208 | the first pass only decorates, and leaves the world unchanged when each of its steps does |
| Populate.FeaturePass | assignment_package/src/scene/populationworker.cpp:210-235 | the second pass only decorates, and leaves the world unchanged when each of its steps does |
| Populate.Populate | assignment_package/src/scene/populationworker.cpp:187-238 | the worker changes only block contents and rebuild flags: every chunk keeps its corner, links, biome and states |
| Populate.PyramidStepQuiet | assignment_package/src/scene/populationworker.cpp:201 | no pyramid rises where the sample is at most 0.99995 |
| Populate.PyramidStepOutside | assignment_package/src/scene/populationworker.cpp:203 | no pyramid rises outside the desert |
| Populate.PyramidStepRaises | assignment_package/src/scene/populationworker.cpp:176-205 | above the odds in a desert chunk the as-written neighbour test decides: its fault is the step's fault, false leaves the world as it is, and true places the pyramid stamps on the column's surface |
| Populate.NoPyramidOutsideDesert | assignment_package/src/scene/populationworker.cpp:195-208 | the first pass changes nothing outside the desert |
| Populate.NoPyramidWhenQuiet | assignment_package/src/scene/populationworker.cpp:195-208 | the first pass changes nothing when no sample exceeds the pyramid odds |
| Populate.NothingGrowsWhenQuiet | assignment_package/src/scene/populationworker.cpp:210-235 | the second pass changes nothing when no sample exceeds the grassland odds |
| Populate.QuietPopulate | assignment_package/src/scene/populationworker.cpp:187-238 | a chunk whose samples all stay at or below the lowest odds is left as it is |
| Populate.MountainStaysBare | assignment_package/src/scene/populationworker.cpp:210-235 | the second pass grows nothing in the mountains |
| Populate.MountainPopulate | assignment_package/src/scene/populationworker.cpp:187-238 | the worker leaves a mountain chunk as it is |
| Populate.PyramidGate | assignment_package/src/scene/populationworker.cpp:176-205 | a step of `run` that changes something had a sample above the odds, in a desert chunk whose surrounding chunks other than the (-x, -z) diagonal are desert |
| Populate.PyramidGateCorrected | assignment_package/src/scene/populationworker.cpp:176-205 | corrected: a step that changes something had a sample above the odds, in a desert chunk whose eight surrounding chunks are all desert |
| Populate.PyramidIgnoresSouthWest | assignment_package/src/scene/populationworker.cpp:176-205 | beside a non-desert (-x, -z) diagonal with the other seven desert, `run` places the pyramid where the corrected step leaves the world as it is |
| Mesh.Sample | assignment_package/src/scene/chunk.cpp:120-145 | the adjacent sample crosses iff the cell is on that side; inside it reads the next cell, across it reads the neighbour's wrapped cell, or empty when the neighbour is null |
| Mesh.FaceVertices | assignment_package/src/scene/chunk.cpp:170-207 | a face emits four vertices, each with the face's normal and the block's animation flag |
| Mesh.FaceVerticesOnPlane | assignment_package/src/scene/chunk.cpp:170-207 | the four vertices are distinct corners of the cell on the face's side |
| Mesh.FaceVerticesInBox | assignment_package/src/scene/chunk.cpp:170-207 | the vertices of an in-range cell lie within the chunk's world-space box |
| Mesh.CellQuadsFrom | assignment_package/src/scene/chunk.cpp:119-155 | a cell emits four vertices per shown face, none when empty, all in the chunk's box and flagged as its kind |
| Mesh.InteriorFaceRule | assignment_package/src/scene/chunk.cpp:146-154 | inside the chunk, an opaque block shows a face toward a clear cell, and a clear non-empty block shows one only toward an empty cell |
| Mesh.SharedFaceOnce | assignment_package/src/scene/chunk.cpp:146-154 | a face between two cells of the chunk is emitted by at most one of them |
| Mesh.OccludedEmitsNothing | assignment_package/src/scene/chunk.cpp:146-154 | a block whose six samples are all opaque emits nothing |
| Mesh.IsolatedBlockEmitsSix | assignment_package/src/scene/chunk.cpp:119-155 | an interior opaque block surrounded by empty cells emits six quads (24 vertices) |
| Mesh.LoopCell | assignment_package/src/scene/chunk.cpp:114-116 | the builder's n-th visited cell, x outermost, then y, then z, is in range |
| Mesh.MeshUpTo | assignment_package/src/scene/chunk.cpp:114-158 | the first n cells yield four vertices per opaque-list face and per clear-list face, with no animated vertex in the opaque list, all in the chunk's box |
| Mesh.CombineVbo | assignment_package/src/scene/chunk.cpp:217-229 | as written: vertices are copied, and six indices shifted by 4k are pushed for the k-th vertex |
| Mesh.PerVertexIndicesAt | assignment_package/src/scene/chunk.cpp:217-229 | as written: entry 6k + j is 4k plus the j-th entry of the (0,1,2,0,2,3) pattern |
| Mesh.CombineVboOverruns | assignment_package/src/scene/chunk.cpp:217-229 | as written: for n >= 1 vertices, the last index is 4n - 1, at least n, so past the vertex buffer |
| Mesh.QuadIndices | assignment_package/src/scene/chunk.cpp:217-229 | corrected: six indices per quad, all below the vertex count |
| Mesh.QuadIndicesAt | assignment_package/src/scene/chunk.cpp:217-229 | corrected: quad q draws its own four vertices as triangles (0,1,2) and (0,2,3) |
| Mesh.CombineQuads | assignment_package/src/scene/chunk.cpp:217-229 | corrected: the vertices are unchanged, there are six indices per quad, and every index is in range |
| Mesh.Build | assignment_package/src/scene/chunk.cpp:110-168 | as written: the staged vertices are the face builder's, with no animated vertex in the opaque list and every vertex in the chunk's box; each list has six indices per vertex following the shifted pattern, and a non-empty list's last index is past its last vertex |
| Mesh.PerVertexGroups | assignment_package/src/scene/chunk.cpp:217-229 | as written: index i of the list is 4(i / 6) plus the pattern entry i % 6, and a non-empty list ends at or past its vertex count |
| Mesh.BuildCorrected | assignment_package/src/scene/chunk.cpp:110-168 | corrected: the same vertices, whole quads, six indices per quad and every index in range |
| Mesh.BuildsShareVertices | assignment_package/src/scene/chunk.cpp:161-162 | the as-written and corrected builds stage the same vertices, and a non-empty opaque list gets different indices |
| Scheduler.CheckVbo | assignment_package/src/scene/terrain.cpp:163-171 | a dirty chunk not being built is queued, marked waiting and cleaned; a chunk with no geometry is always queued; nothing else changes |
| Scheduler.CheckVboStates | assignment_package/src/scene/terrain.cpp:358-376 | each drawn chunk is checked, and the build queue grows by exactly the checked chunks that are queued |
| Scheduler.SpawnVboWorker | assignment_package/src/scene/terrain.cpp:262-266 | launching a geometry job marks only that chunk as building |
| Scheduler.UpdateVboThreads | assignment_package/src/scene/terrain.cpp:268-277 | every finished geometry job is uploaded, the finished set empties, and no other chunk changes |
| Scheduler.Retire | assignment_package/src/scene/terrain.cpp:302-319 | a chunk being built stays; any other entry ends with no geometry and not ready |
| Scheduler.TearDown | assignment_package/src/scene/terrain.cpp:302-319 | entries being built stay queued and all others are retired and dequeued; a waiting one also leaves the build queue; nothing else changes |
| Scheduler.RetireAll | assignment_package/src/scene/terrain.cpp:302-319 | exactly the queued chunks not being built are retired, and links and generation states are kept |
| Scheduler.LaunchBuilds | assignment_package/src/scene/terrain.cpp:321-329 | a queued chunk is launched and dequeued iff its neighbours are complete and it is not already building; nothing else changes |
| Scheduler.UpdateVboGenQueue | assignment_package/src/scene/terrain.cpp:300-330 | the queue update throws a logic error iff a deletion entry has no geometry or has unready finished geometry; otherwise it changes only the chunks and the two geometry queues |
| Scheduler.SpawnPopulationWorker | assignment_package/src/scene/terrain.cpp:254-260 | launching decoration marks only that chunk as decorating |
| Scheduler.PopulationStep | assignment_package/src/scene/terrain.cpp:184-192 | a queued chunk with settled surroundings is launched and dequeued; otherwise nothing changes |
| Scheduler.DispatchPopulation | assignment_package/src/scene/terrain.cpp:184-192 | the walk only dequeues chunks, marks exactly the dequeued ones as decorating, and keeps geometry states and links |
| Scheduler.UpdateGenerationThreads | assignment_package/src/scene/terrain.cpp:173-202 | the update empties both finished sets and changes only the chunks and the population queue |
| Scheduler.CollectTerrain | assignment_package/src/scene/terrain.cpp:176-181 | finished terrain chunks become terrain-done and join the population queue, and nothing else changes |
| Scheduler.CollectPopulation | assignment_package/src/scene/terrain.cpp:195-199 | finished decoration chunks become complete, no state moves back, and nothing else changes |
| Scheduler.ZoneOf | assignment_package/src/scene/terrain.cpp:344-354 | a corner's zone is the 64-aligned corner of the 64 x 64 square that contains it |
| Scheduler.ZoneTilesExact | assignment_package/src/scene/terrain.cpp:236-252 | a zone's tiles are exactly the 16-aligned corners whose zone it is |
| Scheduler.InstantiateZone | assignment_package/src/scene/terrain.cpp:236-252 | the zone loop adds exactly its first k tiles, fresh, and keeps the table aligned and linked |
| Scheduler.ZoneStep | assignment_package/src/scene/terrain.cpp:240-246 | one step adds one fresh tile marked terrain-running, and touches others only in links and flags |
| Scheduler.SpawnGenerationWorker | assignment_package/src/scene/terrain.cpp:236-252 | the zone is recorded, its 16 tiles are added fresh, other chunks change only in links and flags, and the table stays aligned and linked |
| Scheduler.VisitZone | assignment_package/src/scene/terrain.cpp:344-354 | a zone is recorded, and generated only when it was new |
| Scheduler.DispatchZones | assignment_package/src/scene/terrain.cpp:344-354 | after the sweep a zone is recorded iff it was before or the sweep visits it, and no chunk is lost |
| Scheduler.ZoneSweep | assignment_package/src/scene/terrain.cpp:344-354 | the sweep visits (2 GENSIZE + 2)^2 zone corners, and a corner is visited iff it is 64-aligned and lies from GENSIZE zones below to GENSIZE + 1 zones above the player's zone on each axis |
| Scheduler.FloorToReal | assignment_package/src/scene/terrain.cpp:342-343 | flooring a float coordinate gives the multiple of m at or below it and within m of it |
| Scheduler.NeighborStatusExact | assignment_package/src/scene/terrain.cpp:279-284 | the status test holds iff the chunk and every resident horizontal neighbour is in the status |
| Scheduler.DiagonalsIgnored | assignment_package/src/scene/terrain.cpp:279-284 | the status test does not depend on chunks other than the four horizontal neighbours |
| Scheduler.PopulationCheckExact | assignment_package/src/scene/terrain.cpp:286-298 | the population test holds iff all eight surrounding chunks are resident and terrain-done or complete |
| Scheduler.RingSymmetric | assignment_package/src/scene/terrain.cpp:286-298 | the surrounding relation is symmetric and irreflexive |
| Scheduler.SpawnExclusive | assignment_package/src/scene/terrain.cpp:184-192 | launching decoration after a passing population test keeps every chunk in the ring of eight around a decorating chunk from being decorated too |
| Scheduler.DispatchPopulationExclusive | assignment_package/src/scene/terrain.cpp:184-192 | the whole walk keeps that exclusion and keeps the queue's entries terrain-done |
| Scheduler.FreshZone | assignment_package/src/scene/terrain.cpp:344-354 | a zone not yet recorded has none of its tiles resident |
| Scheduler.SpawnCover | assignment_package/src/scene/terrain.cpp:236-252 | after a spawn, resident chunks are still exactly the tiles of recorded zones |
| Scheduler.SpawnKept | assignment_package/src/scene/terrain.cpp:236-252 | a spawn on a new zone keeps every existing chunk's states, and adds only fresh chunks |
| Scheduler.SpawnValid | assignment_package/src/scene/terrain.cpp:236-252 | spawning a new zone keeps the scheduler's invariant |
| Scheduler.DispatchZonesValid | assignment_package/src/scene/terrain.cpp:344-354 | the zone sweep keeps the invariant and every existing chunk's states |
| Scheduler.CheckVboStatesValid | assignment_package/src/scene/terrain.cpp:358-376 | the draw loop keeps the invariant, links and generation states |
| Scheduler.LeavingValid | assignment_package/src/scene/terrain.cpp:378-385 | queueing for deletion the chunks that left the draw set keeps the invariant |
| Scheduler.UpdateVboThreadsValid | assignment_package/src/scene/terrain.cpp:268-277 | uploading finished geometry keeps the invariant, links and generation states |
| Scheduler.TearDownValid | assignment_package/src/scene/terrain.cpp:302-319 | the teardown loop keeps the invariant |
| Scheduler.LaunchBuildsValid | assignment_package/src/scene/terrain.cpp:321-329 | the build loop keeps the invariant |
| Scheduler.UpdateVboGenQueueValid | assignment_package/src/scene/terrain.cpp:300-330 | under the invariant the queue update never throws, and it keeps the invariant, links and generation states |
| Scheduler.CollectTerrainValid | assignment_package/src/scene/terrain.cpp:176-181 | draining finished terrain jobs keeps the invariant and moves no state back |
| Scheduler.DispatchPopulationValid | assignment_package/src/scene/terrain.cpp:184-192 | the population walk keeps the invariant and moves no state back |
| Scheduler.CollectPopulationValid | assignment_package/src/scene/terrain.cpp:195-199 | draining finished decoration jobs keeps the invariant and moves no state back |
| Scheduler.UpdateGenerationThreadsValid | assignment_package/src/scene/terrain.cpp:173-202 | the generation update keeps the invariant, links and geometry states, and moves no state back |
| Scheduler.GenerateNewValid | assignment_package/src/scene/terrain.cpp:340-390 | a frame never throws under the invariant, keeps it, moves no generation state back, and records every zone of the sweep box around the player |
| Scheduler.EndOfFrameTearsDown | assignment_package/src/scene/terrain.cpp:268-330 | a deletion-queue entry whose geometry job has finished is uploaded and then torn down in the same frame: it ends with no geometry, not ready, and out of the deletion queue |
| Scheduler.DeletedWhileBuilding | assignment_package/src/scene/terrain.cpp:268-390 | over a whole frame, a chunk queued for deletion while its geometry job was running, whose job has since finished, never ends the frame ready: it has no geometry and has left the deletion queue |
| Scheduler.PlayerZoneDispatched | assignment_package/src/scene/terrain.cpp:340-353 | after a frame the 64 x 64 zone containing the player's position is recorded |
| Scheduler.TerrainJobDone | assignment_package/src/scene/blocktypeworker.cpp:10-17 | a finished terrain job changes only that chunk's blocks and biome and reports it as generated |
| Scheduler.TerrainJobValid | assignment_package/src/scene/blocktypeworker.cpp:10-17 | a finished terrain job keeps the invariant and every chunk's states |
| Scheduler.PopulationJobDone | assignment_package/src/scene/populationworker.cpp:187-238 | a finished decoration job, running `run` as written, changes only blocks and rebuild flags and reports the chunk as populated |
| Scheduler.PopulationJobValid | assignment_package/src/scene/populationworker.cpp:187-238 | a finished decoration job keeps the invariant and every chunk's states |
| Scheduler.VboJobDone | assignment_package/src/scene/vboworker.cpp:8-13 | a finished geometry job stages that chunk's as-written geometry only and reports it as built |
| Scheduler.VboJobValid | assignment_package/src/scene/vboworker.cpp:8-13 | a finished geometry job keeps the invariant and every chunk's states |

## Left out

- Noise: the height blends, temperature and humidity smoothsteps, cave noise and `Noise::random1` are inputs (functions over world coordinates), not computed. Float rounding inside them is not modelled.
- Threads, locks and job timing: a worker job's effect is applied whole, between frames, by `TerrainJobDone`, `PopulationJobDone` and `VboJobDone`. Races that finish a job inside a frame are not modelled. The population test only keeps a decorating chunk's ring of eight free of other decoration, so two chunks 32 apart can be decorated at once and both write into the chunk between them. The model applies those two jobs one after the other, and the interleaving of their writes is not modelled.
- Hash-set iteration order: the order in which `updateGenerationThreads` walks the population queue is an input sequence. The other passes give the same result in any order, so they are modelled as set and map comprehensions.
- Pointers: chunk pointers and `uPtr` ownership are modelled as corners keying an immutable table. A null pointer dereference is the `NullChunk` fault.
- `Terrain::draw`, `IntertiaCenter`, `SendVBOdata`'s OpenGL calls, shaders and the player are left out. Positions enter `GenerateNew` as real numbers; the inertia centre is a parameter.
- `appendVBOData`'s humidity channel (a float blend that reads `m_neighbors[...]->humidity` without a null check) is not modelled. Vertices carry the block's atlas tile and animation flag.
- The humidity set by `GenerateChunk` is not modelled.
- The destructor and the chunk constructor that takes a state are left out; the terrain starts from `Scheduler.Initial`.
- Populate.PlantRule: states the choice only for columns with a block above the bedrock. An all-empty column gives height -1, and the cell read at -1 then wraps to another index; that case is not stated.
- Populate.PyramidStepRaises: where a pyramid rises it states the placement; the cells are stated by `Population.PyramidStands` and `Population.PyramidOutside` when the pyramid fits in height. A pyramid whose base is above 240 (placements at y >= 256) is not stated.
- World coordinates: corners and block coordinates are unbounded integers. The engine holds them in 32-bit `int`s, and `minX + x`, the neighbour keys `x +- 16` and `static_cast<int>(floor(p / 64.f)) * 64` can overflow there. Overflow is not modelled, so corners stand in for packed keys only within the 32-bit range, where `Keys.KeyInjective` applies. `World.ChunkCorner` and `Numerics.FloorTo` model `floor(x / 16.f) * 16` as exact integer flooring, which matches the float computation only while |x| < 2^24; beyond that the conversion to float rounds.
- Population.PlaceAcrossChunks: its own contract states only that the table keeps its chunks. What a placement writes is stated by `Population.PlaceAcrossResolves` and `Population.ResolvedReads` for offsets within one chunk width, which is every offset the placement shapes use.
- Scheduler.UpdateGenerationThreads: its own contract is the frame. The per-chunk effects are stated on `CollectTerrain`, `PopulationStep`, `DispatchPopulation` and `CollectPopulation`.
- Generation.GenerateChunk: its contract states the frame. The cell contents are stated by `Generation.GenerateChunkLayers`, for chunk-aligned corners and heights in [1, 256). A height outside that range writes outside the column and is not stated.
- Footprints.TrunkLength, Footprints.SegmentCount: the float products are modelled on reals with truncation. Float rounding is not modelled.
- Keys: `toKey` and `toCoords` are modelled on 32-bit halves of the 64-bit word. The shift of a negative value is written out as the two's-complement bit pattern.

## Findings

| source | as written | input that shows it | evidently intended | confidence | as-written member | corrected member |
|---|---|---|---|---|---|---|
| assignment_package/src/scene/chunk.cpp:217-229 | `combineVBO` pushes six indices per vertex, shifting by 4 each time | any non-empty vertex list, e.g. the 4 vertices of one face: the indices reach 15 for a 4-vertex buffer | six indices per quad of four vertices, so each quad draws its own two triangles | not executed | Mesh.CombineVbo, Mesh.CombineVboOverruns, Mesh.Build | Mesh.CombineQuads, Mesh.BuildCorrected |
| assignment_package/src/scene/populationworker.cpp:176-185 | the last two tests both check the XNEG neighbour's ZPOS neighbour | a desert chunk whose other seven surrounding chunks are desert and whose south-west (XNEG then ZNEG) chunk is grassland: the test passes | all four diagonals are tested, the last one being XNEG then ZNEG | not executed | Population.CheckNeighborTypeAsWrittenRule, Population.AsWrittenMissesSouthWest, Populate.PyramidIgnoresSouthWest | Population.CheckNeighborTypeRule, Populate.PyramidGateCorrected |
| assignment_package/src/scene/terrain.cpp:204-234 | `Terrain::setBlockAt` passes y to the chunk unchecked, unlike `getBlockAt` | y = 256 at local (0, 0): the flat index 4096 passes the chunk's check and overwrites local cell (0, 0, 1); at local z = 15 it throws out-of-range | out-of-height writes are ignored, as `getBlockAt` ignores out-of-height reads | not executed | World.SetBlockAtHeightAliases, World.SetBlockAtHeightThrows | World.SetBlockAt |
