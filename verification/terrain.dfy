/**
 * The terrain's scheduler (`Terrain` in terrain.cpp): the generation and
 * geometry state machines of the chunks and the set-valued queues that
 * drive them. `GenerateNew` advances everything once per frame; in between,
 * worker jobs finish and report back through the completed-job sets.
 */
module Scheduler {
  import opened Results
  import opened Blocks
  import opened Chunks
  import opened Numerics
  import World
  import Generation
  import Population
  import Populate
  import Mesh

  /** `GENSIZE`: zones are dispatched and chunks drawn this many zones either side of the centre. */
  const GenSize: int := 4

  /**
   * The scheduler's state. Chunk pointers are identified by the corner
   * that keys them in the chunk table, and a zone's packed key by its
   * corner, since packing is one-to-one on corners.
   */
  datatype Terrain = Terrain(
    chunks: World.World,          // m_chunks
    zones: set<Corner>,           // m_generatedTerrain: zones whose generation was dispatched
    generated: set<Corner>,       // m_generatedChunks: terrain jobs finished, not yet drained
    populationQueue: set<Corner>, // m_PopulatonQueue
    populated: set<Corner>,       // m_populatedChunks: population jobs finished, not yet drained
    buildQueue: set<Corner>,      // m_VBOGenerationQueue
    deletionQueue: set<Corner>,   // m_VBODeletionQueue
    built: set<Corner>,           // m_VBOChunks: geometry jobs finished, not yet uploaded
    lastDraw: set<Corner>)        // m_chunksLastGen

  /** A freshly constructed terrain: no chunks, no zones, every queue empty. */
  const Initial := Terrain(map[], {}, {}, {}, {}, {}, {}, {}, {})

  /** Every queued or recorded chunk is resident: the source's pointers are never dangling. */
  predicate Tracked(t: Terrain) {
    && t.generated <= t.chunks.Keys && t.populationQueue <= t.chunks.Keys && t.populated <= t.chunks.Keys
    && t.buildQueue <= t.chunks.Keys && t.deletionQueue <= t.chunks.Keys && t.built <= t.chunks.Keys
    && t.lastDraw <= t.chunks.Keys
  }

  // ------------------------------------------------------------ geometry state

  /**
   * `checkVBOState` on one chunk: the chunk as it leaves, and whether it
   * joins the build queue. A dirty chunk that is not being built is queued,
   * marked waiting and cleaned; a chunk with no geometry is always queued.
   */
  function CheckVbo(c: Chunk): (r: (Chunk, bool))
    ensures r.0 == c.(vboState := r.0.vboState, vboDirty := r.0.vboDirty)
    ensures !r.0.vboDirty || r.0.vboState == VboRunning
    ensures r.0.vboState != c.vboState ==> c.vboDirty && r.0.vboState == VboWaiting
    ensures !c.vboDirty || c.vboState == VboRunning ==> r.0 == c
    ensures c.vboDirty && c.vboState != VboRunning ==> r.1 && r.0.vboState == VboWaiting
    ensures r.1 ==> r.0.vboState == VboWaiting || r.0.vboState == VboNone
    ensures r.0.vboState == VboNone ==> r.1
    ensures !r.1 ==> r.0 == c
  {
    if c.vboDirty && c.vboState != VboRunning then (c.(vboState := VboWaiting, vboDirty := false), true)
    else if c.vboState == VboNone then (c, true)
    else (c, false)
  }

  /** `checkVBOState` applied to every chunk of `s` that is resident; the checks touch disjoint chunks. */
  function CheckVboStates(t: Terrain, s: set<Corner>): (r: Terrain)
    ensures r.chunks.Keys == t.chunks.Keys
    ensures r == t.(chunks := r.chunks, buildQueue := r.buildQueue)
    ensures forall a :: a in t.chunks ==> r.chunks[a] == if a in s then CheckVbo(t.chunks[a]).0 else t.chunks[a]
    ensures forall a :: a in r.buildQueue <==> a in t.buildQueue || (a in s && a in t.chunks && CheckVbo(t.chunks[a]).1)
  {
    var chunks := map a | a in t.chunks :: if a in s then CheckVbo(t.chunks[a]).0 else t.chunks[a];
    var queued := set a | a in s && a in t.chunks && CheckVbo(t.chunks[a]).1;
    t.(chunks := chunks, buildQueue := t.buildQueue + queued)
  }

  /** `spawnVBOWorker`, state effect only: the chunk's geometry is now being built. */
  function SpawnVboWorker(w: World.World, a: Corner): (r: World.World)
    requires a in w
    ensures r.Keys == w.Keys && r[a] == w[a].(vboState := VboRunning)
    ensures forall e :: e in w && e != a ==> r[e] == w[e]
  {
    w[a := w[a].(vboState := VboRunning)]
  }

  /** `updateVBOThreads`: every chunk whose geometry job finished is uploaded, and the set is emptied. */
  function UpdateVboThreads(t: Terrain): (r: Terrain)
    ensures r == t.(chunks := r.chunks, built := {})
    ensures r.chunks.Keys == t.chunks.Keys
    ensures forall a :: a in t.chunks && a in t.built ==> r.chunks[a] == SendVboData(t.chunks[a])
    ensures forall a :: a in t.chunks && a !in t.built ==> r.chunks[a] == t.chunks[a]
  {
    var chunks := map a | a in t.chunks :: if a in t.built then SendVboData(t.chunks[a]) else t.chunks[a];
    t.(chunks := chunks, built := {})
  }

  /** An entry of the deletion queue that the teardown loop cannot handle: `logic_error` in the source. */
  predicate Broken(c: Chunk) {
    c.vboState == VboNone || (c.vboState == VboDone && !c.vboReady)
  }

  /**
   * The teardown of one deletion-queue entry: uploaded geometry is
   * deleted, a waiting chunk goes back to no geometry (deleting what it
   * had uploaded, if anything), and a chunk being built stays as it is.
   */
  function Retire(c: Chunk): (r: Chunk)
    requires !Broken(c)
    ensures c.vboState == VboRunning ==> r == c
    ensures c.vboState != VboRunning ==> r == c.(vboState := VboNone, vboReady := false)
  {
    match c.vboState
    case VboDone => DeleteVboData(c).value
    case VboWaiting =>
      var c1 := c.(vboState := VboNone);
      if c1.vboReady then DeleteVboData(c1).value else c1
    case VboRunning => c
  }

  /**
   * `checkNeighborStatus`: the chunk is in `status`, and so is each of its
   * four horizontal neighbours that is linked. Diagonals are not looked at.
   */
  function CheckNeighborStatus(w: World.World, a: Corner, status: GenState): bool
    requires a in w
  {
    var c := w[a];
    && c.genState == status
    && InStateOrNull(w, c, XPos, status) && InStateOrNull(w, c, XNeg, status)
    && InStateOrNull(w, c, ZPos, status) && InStateOrNull(w, c, ZNeg, status)
  }

  /** The neighbour of `c` along `d` is null or in `status`. */
  predicate InStateOrNull(w: World.World, c: Chunk, d: Direction, status: GenState) {
    d in c.neighbors && c.neighbors[d] in w ==> w[c.neighbors[d]].genState == status
  }

  /**
   * The teardown loop of `updateVBOGenQueue` when no entry is broken: every
   * entry not being built is retired and leaves the queue, a waiting one
   * also leaves the build queue, and entries being built stay queued.
   */
  function TearDown(t: Terrain): (r: Terrain)
    requires Tracked(t) && forall a :: a in t.deletionQueue ==> !Broken(t.chunks[a])
    ensures r == t.(chunks := r.chunks, buildQueue := r.buildQueue, deletionQueue := r.deletionQueue)
    ensures SameShape(t.chunks, r.chunks) && GenKept(t.chunks, r.chunks)
    ensures forall a :: a in r.deletionQueue <==> a in t.deletionQueue && t.chunks[a].vboState == VboRunning
    ensures forall a :: a in r.buildQueue <==> a in t.buildQueue && !(a in t.deletionQueue && t.chunks[a].vboState == VboWaiting)
    ensures forall a :: a in t.chunks && a in t.deletionQueue && t.chunks[a].vboState != VboRunning ==>
      r.chunks[a] == t.chunks[a].(vboState := VboNone, vboReady := false)
    ensures forall a :: a in t.chunks && !(a in t.deletionQueue && t.chunks[a].vboState != VboRunning) ==> r.chunks[a] == t.chunks[a]
  {
    var d := t.deletionQueue;
    var waiting := set a | a in d && t.chunks[a].vboState == VboWaiting;
    t.(chunks := RetireAll(t.chunks, d), buildQueue := t.buildQueue - waiting,
       deletionQueue := set a | a in d && t.chunks[a].vboState == VboRunning)
  }

  /** Retires every chunk of `d`, leaving the others alone. */
  function RetireAll(w: World.World, d: set<Corner>): (r: World.World)
    requires forall a :: a in d && a in w ==> !Broken(w[a])
    ensures SameShape(w, r) && GenKept(w, r)
    ensures forall a :: a in w && a in d && w[a].vboState != VboRunning ==>
      r[a] == w[a].(vboState := VboNone, vboReady := false)
    ensures forall a :: a in w && !(a in d && w[a].vboState != VboRunning) ==> r[a] == w[a]
  {
    map a | a in w :: if a in d then Retire(w[a]) else w[a]
  }

  /**
   * The build loop of `updateVBOGenQueue`: exactly the queued chunks that
   * pass `checkNeighborStatus(c, GEN_COMPLETE)` and are not being built get
   * a geometry job and leave the queue. A job only changes the geometry
   * state, which no later test of the loop reads.
   */
  function LaunchBuilds(t: Terrain): (r: Terrain)
    requires t.buildQueue <= t.chunks.Keys
    ensures r == t.(chunks := r.chunks, buildQueue := r.buildQueue)
    ensures SameShape(t.chunks, r.chunks) && GenKept(t.chunks, r.chunks)
    ensures r.buildQueue <= t.buildQueue
    ensures forall a :: a in t.buildQueue ==>
      (a !in r.buildQueue <==> CheckNeighborStatus(t.chunks, a, GenComplete) && t.chunks[a].vboState != VboRunning)
    ensures forall a :: a in t.chunks && a in t.buildQueue && a !in r.buildQueue ==> r.chunks[a] == t.chunks[a].(vboState := VboRunning)
    ensures forall a :: a in t.chunks && !(a in t.buildQueue && a !in r.buildQueue) ==> r.chunks[a] == t.chunks[a]
  {
    var launch := set a | a in t.buildQueue && CheckNeighborStatus(t.chunks, a, GenComplete) && t.chunks[a].vboState != VboRunning;
    var w := map a | a in t.chunks :: if a in launch then t.chunks[a].(vboState := VboRunning) else t.chunks[a];
    t.(chunks := w, buildQueue := t.buildQueue - launch)
  }

  /**
   * `updateVBOGenQueue`: the teardown loop throws `logic_error` on an entry
   * with no geometry, and `deleteVBOdata` throws on uploaded geometry that
   * is not ready; otherwise the teardown and then the build loop run.
   */
  function UpdateVboGenQueue(t: Terrain): (r: Result<Terrain>)
    requires Tracked(t)
    ensures r.Err? <==> exists a :: a in t.deletionQueue && Broken(t.chunks[a])
    ensures r.Err? ==> r.fault == LogicError
    ensures r.Ok? ==> r.value == t.(chunks := r.value.chunks, buildQueue := r.value.buildQueue, deletionQueue := r.value.deletionQueue)
    ensures r.Ok? ==> SameShape(t.chunks, r.value.chunks) && GenKept(t.chunks, r.value.chunks)
  {
    if exists a :: a in t.deletionQueue && Broken(t.chunks[a]) then Err(LogicError)
    else Ok(LaunchBuilds(TearDown(t)))
  }

  // ---------------------------------------------------------- generation state

  /** The neighbour of `c` along `d` is linked, resident, and done with its terrain or complete. */
  predicate Settled(w: World.World, c: Chunk, d: Direction) {
    && d in c.neighbors && c.neighbors[d] in w
    && (w[c.neighbors[d]].genState == TerrainDone || w[c.neighbors[d]].genState == GenComplete)
  }

  /**
   * `checkNeighborStatusPopulation`: the four horizontal neighbours are
   * settled and then, reached through the west and east neighbours, the
   * four diagonal ones. A null link fails the test.
   */
  function CheckNeighborStatusPopulation(w: World.World, a: Corner): bool
    requires a in w
  {
    var c := w[a];
    var first := Settled(w, c, XPos) && Settled(w, c, XNeg) && Settled(w, c, ZPos) && Settled(w, c, ZNeg);
    if first then
      var west, east := w[c.neighbors[XNeg]], w[c.neighbors[XPos]];
      Settled(w, west, ZPos) && Settled(w, west, ZNeg) && Settled(w, east, ZPos) && Settled(w, east, ZNeg)
    else false
  }

  /** `spanwnPopulationWorker`, state effect only: the chunk's decoration is now running. */
  function SpawnPopulationWorker(w: World.World, a: Corner): (r: World.World)
    requires a in w
    ensures r.Keys == w.Keys && r[a] == w[a].(genState := PopulationRunning)
    ensures forall e :: e in w && e != a ==> r[e] == w[e]
  {
    w[a := w[a].(genState := PopulationRunning)]
  }

  /**
   * The population-queue loop of `updateGenerationThreads`, visiting the
   * queue in `order` (the hash set's iteration order): a chunk whose
   * neighbourhood is settled gets a population job and leaves the queue.
   * A job changes the chunk's state, which later tests in the same loop see.
   */
  function DispatchPopulation(t: Terrain, order: seq<Corner>): (r: Terrain)
    requires forall i :: 0 <= i < |order| ==> order[i] in t.chunks
    ensures PopMoved(t, r)
    decreases |order|
  {
    if order == [] then t
    else
      var t1 := PopulationStep(t, order[0]);
      var r := DispatchPopulation(t1, order[1..]);
      PopMovedTrans(t, t1, r);
      r
  }

  /** One visit of the population-queue loop, to the chunk at `a`. */
  function PopulationStep(t: Terrain, a: Corner): (r: Terrain)
    requires a in t.chunks
    ensures PopMoved(t, r)
    ensures r == t || (a in t.populationQueue && r.populationQueue == t.populationQueue - {a})
  {
    if a in t.populationQueue && CheckNeighborStatusPopulation(t.chunks, a)
    then t.(chunks := SpawnPopulationWorker(t.chunks, a), populationQueue := t.populationQueue - {a})
    else t
  }

  /**
   * `r` is `t` after some population jobs: only the population queue and the
   * chunks changed, the queue only shrank, and exactly the chunks that left
   * it changed, each to a running decoration.
   */
  predicate PopMoved(t: Terrain, r: Terrain) {
    && r == t.(chunks := r.chunks, populationQueue := r.populationQueue)
    && r.populationQueue <= t.populationQueue
    && SameShape(t.chunks, r.chunks) && VboKept(t.chunks, r.chunks)
    && (forall a :: a in t.chunks && !(a in t.populationQueue && a !in r.populationQueue) ==> r.chunks[a] == t.chunks[a])
    && (forall a :: a in t.populationQueue && a !in r.populationQueue ==>
         a in t.chunks && r.chunks[a] == t.chunks[a].(genState := PopulationRunning))
  }

  lemma PopMovedTrans(t: Terrain, m: Terrain, r: Terrain)
    requires PopMoved(t, m) && PopMoved(m, r)
    ensures PopMoved(t, r)
  {
  }

  /** `order` lists the set `s`, each element once. */
  predicate Enumerates(order: seq<Corner>, s: set<Corner>) {
    && (forall i :: 0 <= i < |order| ==> order[i] in s)
    && (forall a :: a in s ==> a in order)
    && (forall i, j :: 0 <= i < j < |order| ==> order[i] != order[j])
  }

  /**
   * `updateGenerationThreads`: chunks whose terrain job finished become
   * terrain-done and join the population queue; the queue is then walked
   * in `order`; finally chunks whose population job finished become complete.
   */
  function UpdateGenerationThreads(t: Terrain, order: seq<Corner>): (r: Terrain)
    requires Tracked(t) && Enumerates(order, t.populationQueue + t.generated)
    ensures r.chunks.Keys == t.chunks.Keys
    ensures r == t.(chunks := r.chunks, generated := {}, populationQueue := r.populationQueue, populated := {})
  {
    var t1 := CollectTerrain(t);
    var t2 := DispatchPopulation(t1, order);
    CollectPopulation(t2)
  }

  /** The first loop of `updateGenerationThreads`: finished terrain jobs become terrain-done and queue for decoration. */
  function CollectTerrain(t: Terrain): (r: Terrain)
    requires Tracked(t)
    ensures r == t.(chunks := r.chunks, generated := {}, populationQueue := t.populationQueue + t.generated)
    ensures SameShape(t.chunks, r.chunks) && VboKept(t.chunks, r.chunks)
    ensures forall a :: a in t.generated ==> r.chunks[a].genState == TerrainDone
    ensures forall a :: a in t.chunks ==> r.chunks[a] == t.chunks[a].(genState := r.chunks[a].genState)
    ensures forall a :: a in t.chunks && a !in t.generated ==> r.chunks[a] == t.chunks[a]
  {
    var w := map a | a in t.chunks :: if a in t.generated then t.chunks[a].(genState := TerrainDone) else t.chunks[a];
    t.(chunks := w, generated := {}, populationQueue := t.populationQueue + t.generated)
  }

  /** The last loop of `updateGenerationThreads`: finished population jobs become complete. */
  function CollectPopulation(t: Terrain): (r: Terrain)
    requires t.populated <= t.chunks.Keys
    ensures r == t.(chunks := r.chunks, populated := {})
    ensures SameShape(t.chunks, r.chunks) && VboKept(t.chunks, r.chunks)
    ensures forall a :: a in t.populated ==> r.chunks[a].genState == GenComplete
    ensures forall a :: a in t.chunks ==> r.chunks[a] == t.chunks[a].(genState := r.chunks[a].genState)
    ensures forall a :: a in t.chunks && a !in t.populated ==> r.chunks[a] == t.chunks[a]
    ensures Progress(t.chunks, r.chunks)
  {
    var w := map a | a in t.chunks :: if a in t.populated then t.chunks[a].(genState := GenComplete) else t.chunks[a];
    t.(chunks := w, populated := {})
  }

  // ------------------------------------------------------------------- zones

  /** The corner of the 64 x 64 generation zone that holds chunk corner `a`. */
  function ZoneOf(a: Corner): (z: Corner)
    ensures z.x <= a.x < z.x + 64 && z.z <= a.z < z.z + 64
    ensures z.x % 64 == 0 && z.z % 64 == 0
  {
    Corner(FloorTo(a.x, 64), FloorTo(a.z, 64))
  }

  /** Chunk `k` of zone `z` in dispatch order, x outer and z inner: offsets {0, 16, 32, 48} on each axis. */
  function ZoneCorner(z: Corner, k: int): Corner {
    Corner(z.x + 16 * (k / 4), z.z + 16 * (k % 4))
  }

  /** The first `k` chunk corners of zone `z` in dispatch order. */
  function TilesBelow(z: Corner, k: int): set<Corner> {
    set i | 0 <= i < k :: ZoneCorner(z, i)
  }

  /** A chunk just dispatched for generation: terrain running, no geometry. */
  predicate Fresh(c: Chunk) {
    c.genState == TerrainRunning && c.vboState == VboNone && !c.vboReady
  }

  /** The 16 chunk corners of zone `z`. */
  function ZoneTiles(z: Corner): set<Corner> {
    TilesBelow(z, 16)
  }

  /**
   * The first `k` iterations of the loop in `spanwGenerationWorker`: each
   * instantiates a chunk, linking it to its resident neighbours, and marks
   * its terrain as running.
   */
  function InstantiateZone(w: World.World, z: Corner, k: nat): (r: World.World)
    requires z.x % 16 == 0 && z.z % 16 == 0 && k <= 16
    ensures r.Keys == w.Keys + TilesBelow(z, k)
    ensures forall i :: 0 <= i < k ==> ZoneCorner(z, i) in r && Fresh(r[ZoneCorner(z, i)])
    ensures forall a :: a in w && a !in TilesBelow(z, k) ==> r[a] == w[a].(neighbors := r[a].neighbors, vboDirty := r[a].vboDirty)
    ensures World.Aligned(w) ==> World.Aligned(r)
    ensures World.Linked(w) ==> World.Linked(r)
  {
    if k == 0 then w
    else
      var w1 := InstantiateZone(w, z, k - 1);
      TilesBelowStep(w.Keys, z, k);
      ZoneStepKeepsFresh(w1, z, k);
      ZoneStep(w1, z, k - 1)
  }

  /** `v` has the chunks of `w`, each with the same corner and links. */
  predicate SameShape(w: World.World, v: World.World) {
    && v.Keys == w.Keys
    && forall e :: e in w ==> v[e].neighbors == w[e].neighbors && v[e].CornerOf() == w[e].CornerOf()
  }

  /** Changing anything but corners and links keeps a table aligned and linked. */
  lemma SameShapeLinks(w: World.World, v: World.World)
    requires SameShape(w, v)
    ensures World.Aligned(w) ==> World.Aligned(v)
    ensures World.Linked(w) ==> World.Linked(v)
  {
    if World.Linked(w) {
      forall a | a in v ensures World.GeometricAt(v[a], a) {
        assert World.GeometricAt(w[a], a);
      }
    }
  }

  /** One iteration of the zone loop: instantiate chunk `j` of the zone and mark its terrain running. */
  function ZoneStep(w: World.World, z: Corner, j: int): (r: World.World)
    requires z.x % 16 == 0 && z.z % 16 == 0 && 0 <= j < 16
    ensures r.Keys == w.Keys + {ZoneCorner(z, j)}
    ensures Fresh(r[ZoneCorner(z, j)])
    ensures forall e :: e in w && e != ZoneCorner(z, j) ==> r[e] == w[e].(neighbors := r[e].neighbors, vboDirty := r[e].vboDirty)
    ensures World.Aligned(w) ==> World.Aligned(r)
    ensures World.Linked(w) ==> World.Linked(r)
  {
    var a := ZoneCorner(z, j);
    assert a.x % 16 == 0 && a.z % 16 == 0;
    var w2 := World.InstantiateChunkAt(w, a.x, a.z);
    ZoneStepFacts(w, a);
    w2[a := w2[a].(genState := TerrainRunning)]
  }

  lemma ZoneStepFacts(w: World.World, a: Corner)
    requires a.x % 16 == 0 && a.z % 16 == 0
    ensures var w2 := World.InstantiateChunkAt(w, a.x, a.z);
      var r := w2[a := w2[a].(genState := TerrainRunning)];
      && r[a].vboState == VboNone && !r[a].vboReady
      && (forall e :: e in w && e != a ==> r[e] == w[e].(neighbors := r[e].neighbors, vboDirty := r[e].vboDirty))
      && (World.Aligned(w) ==> World.Aligned(r))
      && (World.Linked(w) ==> World.Linked(r))
  {
    var w2 := World.InstantiateChunkAt(w, a.x, a.z);
    var r := w2[a := w2[a].(genState := TerrainRunning)];
    World.InstantiateFrame(w, a.x, a.z, a);
    forall e | e in w && e != a
      ensures r[e] == w[e].(neighbors := r[e].neighbors, vboDirty := r[e].vboDirty)
    {
      World.InstantiateFrame(w, a.x, a.z, e);
    }
    assert SameShape(w2, r);
    SameShapeLinks(w2, r);
    if World.Aligned(w) { World.InstantiateAligned(w, a.x, a.z); }
    if World.Linked(w) { World.InstantiateLinks(w, a.x, a.z); }
  }

  /** Growing the prefix by one adds chunk `k - 1`. */
  lemma TilesBelowStep(keys: set<Corner>, z: Corner, k: int)
    requires k >= 1
    ensures TilesBelow(z, k) == TilesBelow(z, k - 1) + {ZoneCorner(z, k - 1)}
    ensures keys + TilesBelow(z, k) == keys + TilesBelow(z, k - 1) + {ZoneCorner(z, k - 1)}
  {
    assert TilesBelow(z, k) == TilesBelow(z, k - 1) + {ZoneCorner(z, k - 1)};
  }

  /** The chunks of the zone instantiated so far stay fresh when the next one is instantiated. */
  lemma ZoneStepKeepsFresh(w: World.World, z: Corner, k: int)
    requires z.x % 16 == 0 && z.z % 16 == 0 && 1 <= k <= 16
    requires forall i :: 0 <= i < k - 1 ==> ZoneCorner(z, i) in w && Fresh(w[ZoneCorner(z, i)])
    ensures var r := ZoneStep(w, z, k - 1);
      forall i :: 0 <= i < k ==> ZoneCorner(z, i) in r && Fresh(r[ZoneCorner(z, i)])
  {
    var r := ZoneStep(w, z, k - 1);
    forall i | 0 <= i < k ensures ZoneCorner(z, i) in r && Fresh(r[ZoneCorner(z, i)]) {
      var e := ZoneCorner(z, i);
      if e != ZoneCorner(z, k - 1) {
        assert e in w && Fresh(w[e]);
        assert r[e] == w[e].(neighbors := r[e].neighbors, vboDirty := r[e].vboDirty);
      }
    }
  }

  /**
   * `spanwGenerationWorker`, state effect only: the zone is recorded as
   * dispatched and its 16 chunks are instantiated with their terrain running.
   */
  function SpawnGenerationWorker(t: Terrain, z: Corner): (r: Terrain)
    requires z.x % 16 == 0 && z.z % 16 == 0
    ensures r == t.(zones := t.zones + {z}, chunks := r.chunks)
    ensures r.chunks.Keys == t.chunks.Keys + ZoneTiles(z)
    ensures forall i :: 0 <= i < 16 ==> ZoneCorner(z, i) in r.chunks && Fresh(r.chunks[ZoneCorner(z, i)])
    ensures forall a :: a in t.chunks && a !in ZoneTiles(z) ==>
      r.chunks[a] == t.chunks[a].(neighbors := r.chunks[a].neighbors, vboDirty := r.chunks[a].vboDirty)
    ensures World.Aligned(t.chunks) ==> World.Aligned(r.chunks)
    ensures World.Linked(t.chunks) ==> World.Linked(r.chunks)
  {
    t.(zones := t.zones + {z}, chunks := InstantiateZone(t.chunks, z, 16))
  }

  /** One visit of the zone loop: the zone is dispatched unless it already was. */
  function VisitZone(t: Terrain, z: Corner): (r: Terrain)
    requires z.x % 64 == 0 && z.z % 64 == 0
    ensures r == t.(zones := t.zones + {z}, chunks := r.chunks)
    ensures t.chunks.Keys <= r.chunks.Keys
  {
    if z in t.zones then t else SpawnGenerationWorker(t, z)
  }

  /** The zone loop of `GenerateNew`: each zone of `zs` not yet dispatched is dispatched, in order. */
  function DispatchZones(t: Terrain, zs: seq<Corner>): (r: Terrain)
    requires forall i :: 0 <= i < |zs| ==> zs[i].x % 64 == 0 && zs[i].z % 64 == 0
    ensures r == t.(zones := r.zones, chunks := r.chunks)
    ensures forall z :: z in r.zones <==> z in t.zones || z in zs
    ensures t.chunks.Keys <= r.chunks.Keys
    decreases |zs|
  {
    if zs == [] then t
    else
      DispatchZones(VisitZone(t, zs[0]), zs[1..])
  }

  /**
   * The zones the loop of `GenerateNew` visits around zone corner (`x0`, `z0`),
   * x outer, z inner, 64 apart: exactly the 64-aligned corners from
   * GENSIZE zones below to GENSIZE + 1 zones above on each axis.
   */
  function ZoneSweep(x0: int, z0: int): (zs: seq<Corner>)
    requires x0 % 64 == 0 && z0 % 64 == 0
    ensures |zs| == (2 * GenSize + 2) * (2 * GenSize + 2)
    ensures forall i :: 0 <= i < |zs| ==> zs[i].x % 64 == 0 && zs[i].z % 64 == 0
    ensures forall c :: c in zs <==>
      && c.x % 64 == 0 && c.z % 64 == 0
      && x0 - GenSize * 64 <= c.x <= x0 + (GenSize + 1) * 64
      && z0 - GenSize * 64 <= c.z <= z0 + (GenSize + 1) * 64
  {
    var n := 2 * GenSize + 2;
    var zs := seq(n * n, i requires 0 <= i < n * n =>
      Corner(x0 - GenSize * 64 + 64 * (i / n), z0 - GenSize * 64 + 64 * (i % n)));
    SweepGrid(x0, z0, zs);
    zs
  }

  /** A 10 x 10 grid laid out x outer, z inner, 64 apart, holds exactly the 64-aligned corners of its box. */
  lemma SweepGrid(x0: int, z0: int, zs: seq<Corner>)
    requires x0 % 64 == 0 && z0 % 64 == 0
    requires |zs| == 100
    requires forall i :: 0 <= i < |zs| ==> zs[i] == Corner(x0 - 256 + 64 * (i / 10), z0 - 256 + 64 * (i % 10))
    ensures forall c :: c in zs <==>
      && c.x % 64 == 0 && c.z % 64 == 0
      && x0 - 256 <= c.x <= x0 + 320
      && z0 - 256 <= c.z <= z0 + 320
  {
    forall c | c in zs
      ensures c.x % 64 == 0 && c.z % 64 == 0
      ensures x0 - 256 <= c.x <= x0 + 320 && z0 - 256 <= c.z <= z0 + 320
    {
      var i :| 0 <= i < |zs| && zs[i] == c;
      assert 0 <= i / 10 < 10 && 0 <= i % 10 < 10;
    }
    forall c: Corner | c.x % 64 == 0 && c.z % 64 == 0 && x0 - 256 <= c.x <= x0 + 320 && z0 - 256 <= c.z <= z0 + 320
      ensures c in zs
    {
      var p := (c.x - x0 + 256) / 64;
      var q := (c.z - z0 + 256) / 64;
      assert c.x == x0 - 256 + 64 * p && c.z == z0 - 256 + 64 * q;
      assert 0 <= p < 10 && 0 <= q < 10;
      var i := 10 * p + q;
      assert i / 10 == p && i % 10 == q;
      assert zs[i] == c;
    }
  }

  /** The chunk corners the draw loop of `GenerateNew` finds resident around (`x0`, `z0`), 16 apart. */
  function DrawSet(w: World.World, x0: int, z0: int): set<Corner> {
    set a | a in w && a.x % 16 == 0 && a.z % 16 == 0
      && x0 - GenSize * 64 <= a.x <= x0 + (GenSize + 1) * 64
      && z0 - GenSize * 64 <= a.z <= z0 + (GenSize + 1) * 64
  }

  /** The chunks that were drawn last frame, are not drawn now, and have geometry: they are queued for deletion. */
  function Leaving(t: Terrain, cur: set<Corner>): set<Corner> {
    set a | a in t.lastDraw && a !in cur && a in t.chunks && t.chunks[a].vboState != VboNone
  }

  /** `static_cast<int>(floor(v / m)) * m` on a float coordinate: the multiple of `m` at or below `v`, within `m` of it. */
  function FloorToReal(v: real, m: int): (c: int)
    requires m > 0
    ensures c % m == 0
    ensures c as real <= v < (c + m) as real
  {
    var q := (v / m as real).Floor;
    MultipleMod(q, m);
    FloorScale(v, m, q);
    q * m
  }

  /** Scaling `q <= v / m < q + 1` by a positive `m`. */
  lemma FloorScale(v: real, m: int, q: int)
    requires m > 0 && q as real <= v / m as real < (q + 1) as real
    ensures (q * m) as real <= v < (q * m + m) as real
  {
    var mr, k := m as real, v / m as real;
    var lo, hi := (q * m) as real, (q * m + m) as real;
    assert v == k * mr;
    assert lo == (q as real) * mr && hi == (q as real + 1.0) * mr;
    assert (q as real) * mr <= k * mr;
    assert k * mr < (q as real + 1.0) * mr;
    assert lo <= v;
    assert v < hi;
  }

  /**
   * `GenerateNew` for the player at (`px`, `pz`) with inertia centre
   * (`ix`, `iz`); `order` is the iteration order of the population queue
   * once the finished terrain jobs have joined it.
   */
  function GenerateNew(t: Terrain, px: real, pz: real, ix: real, iz: real, order: seq<Corner>): (r: Result<Terrain>)
    requires Tracked(t) && Enumerates(order, t.populationQueue + t.generated)
  {
    var t1 := DispatchZones(t, ZoneSweep(FloorToReal(px, 64), FloorToReal(pz, 64)));
    var cur := DrawSet(t1.chunks, FloorToReal(ix, 16), FloorToReal(iz, 16));
    var t2 := CheckVboStates(t1, cur);
    var t3 := t2.(deletionQueue := t2.deletionQueue + Leaving(t2, cur), lastDraw := cur);
    var t4 := UpdateGenerationThreads(t3, order);
    UpdateVboGenQueue(UpdateVboThreads(t4))
  }

  // ------------------------------------------------------------ finished jobs

  /** A terrain job finishing: `Generation::GenerateChunk` fills the chunk and it is reported as generated. */
  function TerrainJobDone(t: Terrain, a: Corner, column: Generation.Columns, cave: Generation.CaveField): (r: Result<Terrain>)
    requires a in t.chunks && t.chunks[a].genState == TerrainRunning
    ensures r.Ok? ==> r.value == t.(chunks := r.value.chunks, generated := t.generated + {a})
    ensures r.Ok? ==> r.value.chunks.Keys == t.chunks.Keys
    ensures r.Ok? ==> r.value.chunks[a] == t.chunks[a].(blocks := r.value.chunks[a].blocks, biome := r.value.chunks[a].biome)
    ensures r.Ok? ==> forall e :: e in t.chunks && e != a ==> r.value.chunks[e] == t.chunks[e]
    ensures r.Ok? ==> SameShape(t.chunks, r.value.chunks) && StatesKept(t.chunks, r.value.chunks)
  {
    var c :- Generation.GenerateChunk(t.chunks[a], column, cave, t.chunks[a].minX, t.chunks[a].minZ);
    Ok(t.(chunks := t.chunks[a := c], generated := t.generated + {a}))
  }

  /** A population job finishing: `populationworker::run` decorates the chunk and reports it as populated. */
  function PopulationJobDone(t: Terrain, a: Corner, noise: Populate.Noise): (r: Result<Terrain>)
    requires a in t.chunks && t.chunks[a].genState == PopulationRunning
    ensures r.Ok? ==> r.value == t.(chunks := r.value.chunks, populated := t.populated + {a})
    ensures r.Ok? ==> Population.Decorated(t.chunks, r.value.chunks)
    ensures r.Ok? ==> SameShape(t.chunks, r.value.chunks) && StatesKept(t.chunks, r.value.chunks)
  {
    var w :- Populate.Populate(t.chunks, a, noise);
    DecoratedFrame(t.chunks, w);
    Ok(t.(chunks := w, populated := t.populated + {a}))
  }

  /** A geometry job finishing: `createVBOdata` stages the chunk's geometry and the chunk is reported as built. */
  function VboJobDone(t: Terrain, a: Corner): (r: Terrain)
    requires a in t.chunks && t.chunks[a].vboState == VboRunning
    ensures r == t.(chunks := r.chunks, built := t.built + {a})
    ensures a in r.chunks && r.chunks == t.chunks[a := t.chunks[a].(staged := r.chunks[a].staged)]
    ensures SameShape(t.chunks, r.chunks) && StatesKept(t.chunks, r.chunks)
  {
    var c := t.chunks[a];
    var nb := map d | d in c.neighbors && c.neighbors[d] in t.chunks :: t.chunks[c.neighbors[d]];
    var staged := Mesh.Build(c, nb);
    StagedFrame(t.chunks, a, staged);
    t.(chunks := t.chunks[a := c.(staged := staged)], built := t.built + {a})
  }

  /** Decoration moves no link and changes no state. */
  lemma DecoratedFrame(w: World.World, v: World.World)
    requires Population.Decorated(w, v)
    ensures SameShape(w, v) && StatesKept(w, v)
  {
    forall e | e in w ensures v[e].neighbors == w[e].neighbors && v[e].CornerOf() == w[e].CornerOf() {
      assert v[e] == w[e].(blocks := v[e].blocks, vboDirty := v[e].vboDirty);
    }
  }

  /** Staging geometry on one chunk moves no link and changes no state. */
  lemma StagedFrame(w: World.World, a: Corner, s: Staged)
    requires a in w
    ensures var v := w[a := w[a].(staged := s)];
      SameShape(w, v) && StatesKept(w, v)
  {
  }

  // --------------------------------------------------------------- invariants

  /** Zones sit on multiples of 64, and the resident chunks are exactly the chunks of dispatched zones. */
  ghost predicate ZonesCover(t: Terrain) {
    && (forall z :: z in t.zones ==> z.x % 64 == 0 && z.z % 64 == 0)
    && (forall a :: CoveredAt(t, a))
  }

  /** Corner `a` is resident exactly when it is a chunk corner of a dispatched zone. */
  ghost predicate CoveredAt(t: Terrain, a: Corner) {
    a in t.chunks <==> a.x % 16 == 0 && a.z % 16 == 0 && ZoneOf(a) in t.zones
  }

  /** Moving no chunk and dispatching no zone keeps the cover. */
  lemma CoverKept(t: Terrain, r: Terrain)
    requires ZonesCover(t) && r.zones == t.zones && r.chunks.Keys == t.chunks.Keys
    ensures ZonesCover(r)
  {
    forall a ensures CoveredAt(r, a) {
      assert CoveredAt(t, a);
    }
  }

  /** A state in which a chunk's terrain may be read by a neighbour's decoration. */
  predicate SettledState(g: GenState) {
    g == TerrainDone || g == GenComplete
  }

  /**
   * Each generation queue holds chunks in the state it expects: finished
   * terrain jobs are still running, the population queue holds chunks done
   * with their terrain, and finished population jobs are still running.
   */
  predicate GenQueues(t: Terrain) {
    && (forall a :: a in t.generated ==> a in t.chunks && t.chunks[a].genState == TerrainRunning)
    && (forall a :: a in t.populationQueue ==> a in t.chunks && t.chunks[a].genState == TerrainDone)
    && (forall a :: a in t.populated ==> a in t.chunks && t.chunks[a].genState == PopulationRunning)
  }

  /** The corner reached from `a` by a step along `dx` and then one along `dz`. */
  function Diagonal(a: Corner, dx: Direction, dz: Direction): Corner {
    World.Step(World.Step(a, dx), dz)
  }

  /** The eight chunk corners around `a`: the four horizontal neighbours and the four diagonal ones. */
  function Ring(a: Corner): set<Corner> {
    World.Around(a) + {Diagonal(a, XNeg, ZPos), Diagonal(a, XNeg, ZNeg), Diagonal(a, XPos, ZPos), Diagonal(a, XPos, ZNeg)}
  }

  /**
   * No chunk in the ring of eight around a chunk being decorated is itself
   * being decorated. Two decorating chunks 32 apart are allowed, although
   * both write into the chunk between them.
   */
  predicate PopExclusive(w: World.World) {
    forall a, b :: a in w && b in w && b in Ring(a) && w[a].genState == PopulationRunning ==> w[b].genState != PopulationRunning
  }

  /**
   * The geometry queues hold chunks in the states the teardown and build
   * loops expect: the build queue holds waiting chunks and chunks with no
   * geometry, the deletion queue never holds a chunk with no geometry,
   * finished geometry jobs are still running, and finished geometry is
   * always ready to draw.
   */
  predicate VboQueues(t: Terrain) {
    && (forall a :: a in t.buildQueue ==> a in t.chunks && (t.chunks[a].vboState == VboWaiting || t.chunks[a].vboState == VboNone))
    && (forall a :: a in t.deletionQueue ==> a in t.chunks && t.chunks[a].vboState != VboNone)
    && (forall a :: a in t.built ==> a in t.chunks && t.chunks[a].vboState == VboRunning)
    && (forall a :: a in t.chunks && t.chunks[a].vboState == VboDone ==> t.chunks[a].vboReady)
  }

  /** Everything the scheduler keeps true between frames. */
  ghost predicate Valid(t: Terrain) {
    && Tracked(t)
    && World.Aligned(t.chunks) && World.Linked(t.chunks)
    && ZonesCover(t)
    && GenQueues(t)
    && PopExclusive(t.chunks)
    && VboQueues(t)
  }

  /** Every chunk of `w` is still in `v`, its generation state no earlier. */
  predicate Progress(w: World.World, v: World.World) {
    forall a :: a in w ==> a in v && Rank(w[a].genState) <= Rank(v[a].genState)
  }

  /** The terrain as constructed satisfies the invariant. */
  lemma InitialValid()
    ensures Valid(Initial)
  {
  }

  // ------------------------------------------------------- population dispatch

  /**
   * Starting a decoration that passed `checkNeighborStatusPopulation` keeps
   * the rings exclusive: every chunk in its ring is settled, so none
   * is being decorated, and it is in the ring of none that is.
   */
  lemma SpawnExclusive(w: World.World, a: Corner)
    requires World.Linked(w) && PopExclusive(w) && a in w
    requires w[a].genState != PopulationRunning && CheckNeighborStatusPopulation(w, a)
    ensures PopExclusive(SpawnPopulationWorker(w, a))
  {
    PopulationCheckExact(w, a);
    ExclusiveAfterSpawn(w, SpawnPopulationWorker(w, a), a);
  }

  /** Only `a` changed, and everything around it is settled: no two running chunks are near. */
  lemma ExclusiveAfterSpawn(w: World.World, v: World.World, a: Corner)
    requires PopExclusive(w) && a in w && v.Keys == w.Keys
    requires forall e :: e in w && e != a ==> v[e].genState == w[e].genState
    requires forall b :: b in Ring(a) ==> SettledAt(w, b)
    ensures PopExclusive(v)
  {
    forall x, y | x in v && y in v && y in Ring(x) && v[x].genState == PopulationRunning
      ensures v[y].genState != PopulationRunning
    {
      RingSymmetric(x, y);
      ExclusivePair(w, v, a, x, y);
    }
  }

  /** One pair of `ExclusiveAfterSpawn`, from the facts about it alone. */
  lemma ExclusivePair(w: World.World, v: World.World, a: Corner, x: Corner, y: Corner)
    requires x in w && y in w && x in v && y in v && a in w
    requires x != a ==> v[x].genState == w[x].genState
    requires y != a ==> v[y].genState == w[y].genState
    requires x in Ring(y) && x != y
    requires y in Ring(x) && w[x].genState == PopulationRunning ==> w[y].genState != PopulationRunning
    requires y in Ring(a) ==> SettledAt(w, y)
    requires x in Ring(a) ==> SettledAt(w, x)
    requires y in Ring(x) && v[x].genState == PopulationRunning
    ensures v[y].genState != PopulationRunning
  {
  }

  /**
   * The population-queue loop keeps the rings exclusive and leaves
   * the queue holding only chunks done with their terrain.
   */
  lemma {:induction false} DispatchPopulationExclusive(t: Terrain, order: seq<Corner>)
    requires forall i :: 0 <= i < |order| ==> order[i] in t.chunks
    requires World.Linked(t.chunks) && PopExclusive(t.chunks)
    requires forall a :: a in t.populationQueue ==> a in t.chunks && t.chunks[a].genState == TerrainDone
    ensures var r := DispatchPopulation(t, order);
      && PopExclusive(r.chunks)
      && forall a :: a in r.populationQueue ==> r.chunks[a].genState == TerrainDone
    decreases |order|
  {
    if order != [] {
      var t1 := PopulationStep(t, order[0]);
      PopulationStepExclusive(t, order[0]);
      DispatchPopulationExclusive(t1, order[1..]);
    }
  }

  /** One visit of the loop keeps the table linked, the rings exclusive and the queue terrain-done. */
  lemma PopulationStepExclusive(t: Terrain, a: Corner)
    requires a in t.chunks && World.Linked(t.chunks) && PopExclusive(t.chunks)
    requires forall e :: e in t.populationQueue ==> e in t.chunks && t.chunks[e].genState == TerrainDone
    ensures var r := PopulationStep(t, a);
      && World.Linked(r.chunks) && PopExclusive(r.chunks)
      && forall e :: e in r.populationQueue ==> e in r.chunks && r.chunks[e].genState == TerrainDone
  {
    var r := PopulationStep(t, a);
    SameShapeLinks(t.chunks, r.chunks);
    if r != t {
      SpawnExclusive(t.chunks, a);
    }
  }

  /**
   * The generation update keeps the invariant, moves every chunk's
   * generation state forward only, and changes no link or geometry state.
   */
  lemma UpdateGenerationThreadsValid(t: Terrain, order: seq<Corner>)
    requires Valid(t) && Enumerates(order, t.populationQueue + t.generated)
    ensures var r := UpdateGenerationThreads(t, order);
      Valid(r) && Progress(t.chunks, r.chunks) && SameShape(t.chunks, r.chunks) && VboKept(t.chunks, r.chunks)
  {
    var t1 := CollectTerrain(t);
    CollectTerrainValid(t);
    var t2 := DispatchPopulation(t1, order);
    DispatchPopulationValid(t1, order);
    var r := CollectPopulation(t2);
    CollectPopulationValid(t2);
    ProgressTrans(t.chunks, t1.chunks, t2.chunks);
    ProgressTrans(t.chunks, t2.chunks, r.chunks);
  }

  lemma CollectTerrainValid(t: Terrain)
    requires Valid(t)
    ensures var r := CollectTerrain(t);
      Valid(r) && Progress(t.chunks, r.chunks)
  {
    var r := CollectTerrain(t);
    SameShapeLinks(t.chunks, r.chunks);
    PopExclusiveFewer(t.chunks, r.chunks);
    CoverKept(t, r);
    assert GenQueues(r);
    assert VboQueues(r);
  }

  lemma DispatchPopulationValid(t: Terrain, order: seq<Corner>)
    requires Valid(t) && t.generated == {}
    requires forall i :: 0 <= i < |order| ==> order[i] in t.chunks
    ensures var r := DispatchPopulation(t, order);
      Valid(r) && Progress(t.chunks, r.chunks)
  {
    var r := DispatchPopulation(t, order);
    DispatchPopulationExclusive(t, order);
    SameShapeLinks(t.chunks, r.chunks);
    CoverKept(t, r);
    assert Tracked(r);
    assert GenQueues(r);
    VboQueuesKept(t, r);
    PopMovedProgress(t, r);
  }

  /** Population jobs started on terrain-done chunks only move states forward. */
  lemma PopMovedProgress(t: Terrain, r: Terrain)
    requires PopMoved(t, r)
    requires forall a :: a in t.populationQueue ==> a in t.chunks && t.chunks[a].genState == TerrainDone
    ensures Progress(t.chunks, r.chunks)
  {
    forall a | a in t.chunks ensures a in r.chunks && Rank(t.chunks[a].genState) <= Rank(r.chunks[a].genState) {
      if a in t.populationQueue && a !in r.populationQueue {
        assert t.chunks[a].genState == TerrainDone;
      }
    }
  }

  lemma CollectPopulationValid(t: Terrain)
    requires Valid(t)
    ensures var r := CollectPopulation(t);
      Valid(r) && Progress(t.chunks, r.chunks)
  {
    var r := CollectPopulation(t);
    SameShapeLinks(t.chunks, r.chunks);
    PopExclusiveFewer(t.chunks, r.chunks);
    CoverKept(t, r);
    assert Tracked(r);
    assert GenQueues(r);
    VboQueuesKept(t, r);
  }

  lemma ProgressTrans(u: World.World, v: World.World, w: World.World)
    requires Progress(u, v) && Progress(v, w)
    ensures Progress(u, w)
  {
  }

  // ------------------------------------------------------------ neighbourhoods

  /** The ring around `a` is the corners at most one chunk width away on each axis, other than `a`. */
  lemma RingOffsets(a: Corner, b: Corner)
    ensures b in Ring(a) <==>
      && (b.x == a.x - 16 || b.x == a.x || b.x == a.x + 16)
      && (b.z == a.z - 16 || b.z == a.z || b.z == a.z + 16)
      && b != a
  {
  }

  /** Being in each other's ring is symmetric, and no corner is in its own ring. */
  lemma RingSymmetric(a: Corner, b: Corner)
    ensures b in Ring(a) <==> a in Ring(b)
    ensures a !in Ring(a)
  {
    RingOffsets(a, b);
    RingOffsets(b, a);
    RingOffsets(a, a);
  }

  /** Chunk `b` is resident and settled. */
  predicate SettledAt(w: World.World, b: Corner) {
    b in w && SettledState(w[b].genState)
  }

  /** In a linked table, the link of `a` along a horizontal direction names the chunk one width away, if resident. */
  lemma LinkAt(w: World.World, a: Corner, d: Direction)
    requires World.Linked(w) && a in w && World.Level(d)
    ensures d in w[a].neighbors <==> World.Step(a, d) in w
    ensures d in w[a].neighbors ==> w[a].neighbors[d] == World.Step(a, d)
  {
    assert World.GeometricAt(w[a], a);
  }

  /** The link test of `checkNeighborStatusPopulation` for one direction, read geometrically. */
  lemma SettledLink(w: World.World, a: Corner, d: Direction)
    requires World.Linked(w) && a in w && World.Level(d)
    ensures Settled(w, w[a], d) <==> SettledAt(w, World.Step(a, d))
  {
    LinkAt(w, a, d);
  }

  /**
   * In a linked table, `checkNeighborStatusPopulation` holds exactly when
   * all eight chunks around the chunk are resident and settled.
   */
  lemma PopulationCheckExact(w: World.World, a: Corner)
    requires World.Linked(w) && a in w
    ensures CheckNeighborStatusPopulation(w, a) <==> forall b :: b in Ring(a) ==> SettledAt(w, b)
  {
    var west, east := World.Step(a, XNeg), World.Step(a, XPos);
    SettledLink(w, a, XPos);
    SettledLink(w, a, XNeg);
    SettledLink(w, a, ZPos);
    SettledLink(w, a, ZNeg);
    var eight := EightSettled(w, a);
    if west in w && east in w {
      LinkAt(w, a, XNeg);
      LinkAt(w, a, XPos);
      SettledLink(w, west, ZPos);
      SettledLink(w, west, ZNeg);
      SettledLink(w, east, ZPos);
      SettledLink(w, east, ZNeg);
      assert CheckNeighborStatusPopulation(w, a) == eight;
    } else {
      assert !CheckNeighborStatusPopulation(w, a) && !eight;
    }
    RingSettled(w, a);
  }

  /** The eight chunks around `a`, named one by one, are resident and settled. */
  predicate EightSettled(w: World.World, a: Corner) {
    && SettledAt(w, World.Step(a, XPos)) && SettledAt(w, World.Step(a, XNeg))
    && SettledAt(w, World.Step(a, ZPos)) && SettledAt(w, World.Step(a, ZNeg))
    && SettledAt(w, Diagonal(a, XNeg, ZPos)) && SettledAt(w, Diagonal(a, XNeg, ZNeg))
    && SettledAt(w, Diagonal(a, XPos, ZPos)) && SettledAt(w, Diagonal(a, XPos, ZNeg))
  }

  lemma RingSettled(w: World.World, a: Corner)
    ensures EightSettled(w, a) <==> forall b :: b in Ring(a) ==> SettledAt(w, b)
  {
    if EightSettled(w, a) {
      forall b | b in Ring(a) ensures SettledAt(w, b) {
      }
    }
  }

  /**
   * In a linked table, `checkNeighborStatus` holds exactly when the chunk
   * and each resident horizontal neighbour are in `status`.
   */
  lemma NeighborStatusExact(w: World.World, a: Corner, status: GenState)
    requires World.Linked(w) && a in w
    ensures CheckNeighborStatus(w, a, status) <==>
      w[a].genState == status && forall b :: b in World.Around(a) && b in w ==> w[b].genState == status
  {
    forall d | World.Level(d) ensures (d in w[a].neighbors <==> World.Step(a, d) in w) && (d in w[a].neighbors ==> w[a].neighbors[d] == World.Step(a, d)) {
      assert World.GeometricAt(w[a], a);
    }
  }

  /**
   * The geometry gate does not look at diagonal neighbours: changing the
   * state of a chunk that is neither `a` nor one of its four horizontal
   * neighbours leaves the outcome as it was.
   */
  lemma DiagonalsIgnored(w: World.World, a: Corner, status: GenState, b: Corner, g: GenState)
    requires World.Linked(w) && a in w && b in w && b != a && b !in World.Around(a)
    ensures CheckNeighborStatus(w[b := w[b].(genState := g)], a, status) == CheckNeighborStatus(w, a, status)
  {
    var v := w[b := w[b].(genState := g)];
    assert SameShape(w, v);
    SameShapeLinks(w, v);
    NeighborStatusExact(w, a, status);
    NeighborStatusExact(v, a, status);
  }

  // -------------------------------------------------------------------- zones

  /**
   * The chunks a dispatch instantiates are exactly the multiples of 16
   * whose zone is the dispatched one: the 16 corners at offsets
   * {0, 16, 32, 48} on each axis.
   */
  lemma ZoneTilesExact(z: Corner, a: Corner)
    requires z.x % 64 == 0 && z.z % 64 == 0
    ensures a in ZoneTiles(z) <==> a.x % 16 == 0 && a.z % 16 == 0 && ZoneOf(a) == z
  {
    if a in ZoneTiles(z) {
      var k :| 0 <= k < 16 && ZoneCorner(z, k) == a;
      AxisInZone(z.x, k / 4);
      AxisInZone(z.z, k % 4);
    }
    if a.x % 16 == 0 && a.z % 16 == 0 && ZoneOf(a) == z {
      var i := AxisOffset(z.x, a.x);
      var j := AxisOffset(z.z, a.z);
      var k := 4 * i + j;
      assert k / 4 == i && k % 4 == j;
      assert ZoneCorner(z, k) == a;
    }
  }

  /** Along one axis, offset `i` of a zone is a multiple of 16 inside the zone. */
  lemma AxisInZone(zx: int, i: int)
    requires zx % 64 == 0 && 0 <= i < 4
    ensures (zx + 16 * i) % 16 == 0 && FloorTo(zx + 16 * i, 64) == zx
  {
    var q := zx / 64;
    assert zx + 16 * i == (4 * q + i) * 16;
    MultipleMod(4 * q + i, 16);
    FloorToUnique(zx + 16 * i, 64, zx);
  }

  /** Along one axis, a multiple of 16 inside the zone is one of its four offsets. */
  lemma AxisOffset(zx: int, ax: int) returns (i: int)
    requires zx % 64 == 0 && ax % 16 == 0 && FloorTo(ax, 64) == zx
    ensures 0 <= i < 4 && ax == zx + 16 * i
  {
    var q := zx / 64;
    assert zx == (4 * q) * 16;
    MultipleMod(4 * q, 16);
    var p := ax / 16;
    assert ax == 16 * p;
    i := p - 4 * q;
  }

  /** A zone not yet dispatched has none of its chunks resident. */
  lemma FreshZone(t: Terrain, z: Corner)
    requires ZonesCover(t) && z.x % 64 == 0 && z.z % 64 == 0 && z !in t.zones
    ensures forall a :: a in ZoneTiles(z) ==> a !in t.chunks
  {
    forall a | a in ZoneTiles(z) ensures a !in t.chunks {
      ZoneTilesExact(z, a);
      assert CoveredAt(t, a);
    }
  }

  // ------------------------------------------------------------------ frames

  /** `v` has the chunks of `w` with the same geometry states and ready flags. */
  predicate VboKept(w: World.World, v: World.World) {
    && v.Keys == w.Keys
    && forall a :: a in w ==> v[a].vboState == w[a].vboState && v[a].vboReady == w[a].vboReady
  }

  /** `v` has the chunks of `w` with the same generation states. */
  predicate GenKept(w: World.World, v: World.World) {
    && v.Keys == w.Keys
    && forall a :: a in w ==> v[a].genState == w[a].genState
  }

  /** Every chunk of `w` is in `v` with the same states and ready flag. */
  predicate StatesKept(w: World.World, v: World.World) {
    forall a :: a in w ==> a in v && v[a].genState == w[a].genState && v[a].vboState == w[a].vboState && v[a].vboReady == w[a].vboReady
  }

  /** The geometry invariant needs only the geometry queues and the chunks' geometry states. */
  lemma VboQueuesKept(t: Terrain, r: Terrain)
    requires VboQueues(t) && VboKept(t.chunks, r.chunks)
    requires r.buildQueue == t.buildQueue && r.deletionQueue == t.deletionQueue && r.built == t.built
    ensures VboQueues(r)
  {
  }

  /** The generation invariants need only the generation queues and the chunks' generation states. */
  lemma GenQueuesKept(t: Terrain, r: Terrain)
    requires GenQueues(t) && PopExclusive(t.chunks) && GenKept(t.chunks, r.chunks)
    requires r.generated == t.generated && r.populationQueue == t.populationQueue && r.populated == t.populated
    ensures GenQueues(r) && PopExclusive(r.chunks)
  {
  }

  /** Taking chunks out of decoration keeps decorations apart. */
  lemma PopExclusiveFewer(w: World.World, v: World.World)
    requires PopExclusive(w) && v.Keys == w.Keys
    requires forall a :: a in v && v[a].genState == PopulationRunning ==> w[a].genState == PopulationRunning
    ensures PopExclusive(v)
  {
  }

  // --------------------------------------------------------- zone dispatching

  /**
   * Dispatching a zone not yet dispatched keeps the invariant, leaves every
   * resident chunk in its states, and adds only fresh chunks.
   */
  lemma SpawnValid(t: Terrain, z: Corner)
    requires Valid(t) && z.x % 64 == 0 && z.z % 64 == 0 && z !in t.zones
    ensures var r := SpawnGenerationWorker(t, z);
      Valid(r) && StatesKept(t.chunks, r.chunks)
  {
    var r := SpawnGenerationWorker(t, z);
    SpawnKept(t, z);
    SpawnCover(t, z);
    GrowValid(t, r);
  }

  /** A dispatch leaves resident chunks in their states and adds only fresh chunks. */
  lemma SpawnKept(t: Terrain, z: Corner)
    requires ZonesCover(t) && z.x % 64 == 0 && z.z % 64 == 0 && z !in t.zones
    ensures var r := SpawnGenerationWorker(t, z);
      && StatesKept(t.chunks, r.chunks)
      && forall a :: a in r.chunks && a !in t.chunks ==> Fresh(r.chunks[a])
  {
    var r := SpawnGenerationWorker(t, z);
    FreshZone(t, z);
    forall a | a in r.chunks && a !in t.chunks ensures Fresh(r.chunks[a]) {
      var k :| 0 <= k < 16 && ZoneCorner(z, k) == a;
    }
  }

  /** A dispatch keeps the resident chunks exactly those of dispatched zones. */
  lemma SpawnCover(t: Terrain, z: Corner)
    requires ZonesCover(t) && z.x % 64 == 0 && z.z % 64 == 0
    ensures ZonesCover(SpawnGenerationWorker(t, z))
  {
    CoverGrow(t, SpawnGenerationWorker(t, z), z);
  }

  /** Adding a zone together with exactly its chunks keeps the cover. */
  lemma CoverGrow(t: Terrain, r: Terrain, z: Corner)
    requires ZonesCover(t) && z.x % 64 == 0 && z.z % 64 == 0
    requires r.zones == t.zones + {z} && r.chunks.Keys == t.chunks.Keys + ZoneTiles(z)
    ensures ZonesCover(r)
  {
    forall a ensures CoveredAt(r, a) {
      ZoneTilesExact(z, a);
      assert CoveredAt(t, a);
    }
  }

  /**
   * Adding fresh chunks, linked and covered by zones, with every queue and
   * every resident chunk's states as they were, keeps the invariant.
   */
  lemma GrowValid(t: Terrain, r: Terrain)
    requires Valid(t)
    requires r == t.(zones := r.zones, chunks := r.chunks)
    requires StatesKept(t.chunks, r.chunks)
    requires forall a :: a in r.chunks && a !in t.chunks ==> Fresh(r.chunks[a])
    requires World.Aligned(r.chunks) && World.Linked(r.chunks) && ZonesCover(r)
    ensures Valid(r)
  {
    assert Tracked(r);
    assert GenQueues(r);
    assert PopExclusive(r.chunks);
    assert VboQueues(r);
  }

  lemma StatesKeptTrans(u: World.World, v: World.World, w: World.World)
    requires StatesKept(u, v) && StatesKept(v, w)
    ensures StatesKept(u, w)
  {
  }

  /**
   * The zone loop keeps the invariant and leaves every resident chunk in
   * its states: a zone already dispatched is never dispatched again, so no
   * resident chunk is ever instantiated over.
   */
  lemma VisitZoneValid(t: Terrain, z: Corner)
    requires Valid(t) && z.x % 64 == 0 && z.z % 64 == 0
    ensures Valid(VisitZone(t, z)) && StatesKept(t.chunks, VisitZone(t, z).chunks)
  {
    if z !in t.zones { SpawnValid(t, z); }
  }

  lemma {:induction false} DispatchZonesValid(t: Terrain, zs: seq<Corner>)
    requires Valid(t)
    requires forall i :: 0 <= i < |zs| ==> zs[i].x % 64 == 0 && zs[i].z % 64 == 0
    ensures Valid(DispatchZones(t, zs)) && StatesKept(t.chunks, DispatchZones(t, zs).chunks)
    decreases |zs|
  {
    if zs != [] {
      var t1 := VisitZone(t, zs[0]);
      VisitZoneValid(t, zs[0]);
      DispatchZonesValid(t1, zs[1..]);
      StatesKeptTrans(t.chunks, t1.chunks, DispatchZones(t1, zs[1..]).chunks);
    }
  }

  // ------------------------------------------------------ geometry invariants

  /** Checking the drawn chunks keeps the invariant and changes no generation state or link. */
  lemma CheckVboStatesValid(t: Terrain, s: set<Corner>)
    requires Valid(t)
    ensures var r := CheckVboStates(t, s);
      Valid(r) && GenKept(t.chunks, r.chunks) && SameShape(t.chunks, r.chunks)
  {
    var r := CheckVboStates(t, s);
    assert SameShape(t.chunks, r.chunks);
    SameShapeLinks(t.chunks, r.chunks);
    assert GenKept(t.chunks, r.chunks);
    CoverKept(t, r);
    GenQueuesKept(t, r);
    assert VboQueues(r);
  }

  /** Queueing the chunks that left the drawn area, and recording the new one, keeps the invariant. */
  lemma LeavingValid(t: Terrain, cur: set<Corner>)
    requires Valid(t) && cur <= t.chunks.Keys
    ensures Valid(t.(deletionQueue := t.deletionQueue + Leaving(t, cur), lastDraw := cur))
  {
    CoverKept(t, t.(deletionQueue := t.deletionQueue + Leaving(t, cur), lastDraw := cur));
  }

  /** Uploading finished geometry keeps the invariant: those chunks are now done and ready. */
  lemma UpdateVboThreadsValid(t: Terrain)
    requires Valid(t)
    ensures var r := UpdateVboThreads(t);
      Valid(r) && GenKept(t.chunks, r.chunks) && SameShape(t.chunks, r.chunks)
  {
    var r := UpdateVboThreads(t);
    assert SameShape(t.chunks, r.chunks);
    SameShapeLinks(t.chunks, r.chunks);
    assert GenKept(t.chunks, r.chunks);
    CoverKept(t, r);
    GenQueuesKept(t, r);
    assert VboQueues(r);
  }

  /**
   * Under the invariant the teardown loop never meets an entry it cannot
   * handle: the `logic_error` of `updateVBOGenQueue` is unreachable, and
   * the invariant holds afterwards.
   */
  lemma UpdateVboGenQueueValid(t: Terrain)
    requires Valid(t)
    ensures UpdateVboGenQueue(t).Ok?
    ensures var r := UpdateVboGenQueue(t).value;
      Valid(r) && GenKept(t.chunks, r.chunks) && SameShape(t.chunks, r.chunks)
  {
    assert forall a :: a in t.deletionQueue ==> !Broken(t.chunks[a]);
    var t1 := TearDown(t);
    TearDownValid(t);
    LaunchBuildsValid(t1);
  }

  lemma TearDownValid(t: Terrain)
    requires Valid(t)
    requires forall a :: a in t.deletionQueue ==> !Broken(t.chunks[a])
    ensures Valid(TearDown(t))
  {
    var r := TearDown(t);
    SameShapeLinks(t.chunks, r.chunks);
    CoverKept(t, r);
    GenQueuesKept(t, r);
    assert VboQueues(r);
  }

  lemma LaunchBuildsValid(t: Terrain)
    requires Valid(t)
    ensures Valid(LaunchBuilds(t))
  {
    var r := LaunchBuilds(t);
    SameShapeLinks(t.chunks, r.chunks);
    CoverKept(t, r);
    GenQueuesKept(t, r);
    assert VboQueues(r);
  }
  // --------------------------------------------------------------- one frame

  /** Keeping every generation state, or every state, is progress. */
  lemma KeptProgress(w: World.World, v: World.World)
    requires GenKept(w, v) || StatesKept(w, v)
    ensures Progress(w, v)
  {
  }

  /**
   * One call of `GenerateNew` from a state satisfying the invariant never
   * throws, keeps the invariant, moves every chunk's generation state
   * forward only, and leaves every zone of the sweep around the player
   * dispatched.
   */
  lemma GenerateNewValid(t: Terrain, px: real, pz: real, ix: real, iz: real, order: seq<Corner>)
    requires Valid(t) && Enumerates(order, t.populationQueue + t.generated)
    ensures GenerateNew(t, px, pz, ix, iz, order).Ok?
    ensures var r := GenerateNew(t, px, pz, ix, iz, order).value;
      && Valid(r) && Progress(t.chunks, r.chunks)
      && forall z :: z in ZoneSweep(FloorToReal(px, 64), FloorToReal(pz, 64)) ==> z in r.zones
  {
    var zs := ZoneSweep(FloorToReal(px, 64), FloorToReal(pz, 64));
    var t1 := DispatchZones(t, zs);
    DispatchZonesValid(t, zs);
    KeptProgress(t.chunks, t1.chunks);
    var cur := DrawSet(t1.chunks, FloorToReal(ix, 16), FloorToReal(iz, 16));
    var t2 := CheckVboStates(t1, cur);
    CheckVboStatesValid(t1, cur);
    KeptProgress(t1.chunks, t2.chunks);
    ProgressTrans(t.chunks, t1.chunks, t2.chunks);
    var t3 := t2.(deletionQueue := t2.deletionQueue + Leaving(t2, cur), lastDraw := cur);
    LeavingValid(t2, cur);
    var t4 := UpdateGenerationThreads(t3, order);
    UpdateGenerationThreadsValid(t3, order);
    ProgressTrans(t.chunks, t3.chunks, t4.chunks);
    var t5 := UpdateVboThreads(t4);
    UpdateVboThreadsValid(t4);
    KeptProgress(t4.chunks, t5.chunks);
    ProgressTrans(t.chunks, t4.chunks, t5.chunks);
    UpdateVboGenQueueValid(t5);
    var r := UpdateVboGenQueue(t5).value;
    KeptProgress(t5.chunks, r.chunks);
    ProgressTrans(t.chunks, t5.chunks, r.chunks);
  }

  /**
   * The end of a frame for a chunk that is queued for deletion and whose
   * geometry job has finished: `updateVBOThreads` uploads it, and the
   * teardown loop then deletes the upload and drops the chunk from the
   * queue, so it leaves the frame with no geometry and not ready.
   */
  lemma EndOfFrameTearsDown(t: Terrain, a: Corner)
    requires Valid(t) && a in t.deletionQueue && a in t.built
    ensures UpdateVboGenQueue(UpdateVboThreads(t)).Ok?
    ensures var r := UpdateVboGenQueue(UpdateVboThreads(t)).value;
      && a in r.chunks && r.chunks[a].vboState == VboNone && !r.chunks[a].vboReady
      && a !in r.deletionQueue
  {
    var t5 := UpdateVboThreads(t);
    UpdateVboThreadsValid(t);
    assert t5.chunks[a].vboState == VboDone;
    UpdateVboGenQueueValid(t5);
    var t6 := TearDown(t5);
    assert t6.chunks[a] == t5.chunks[a].(vboState := VboNone, vboReady := false);
    assert a !in t6.buildQueue;
    assert LaunchBuilds(t6).chunks[a] == t6.chunks[a];
  }

  /**
   * A chunk queued for deletion while its geometry was being built, whose
   * job finished before the frame, ends the frame torn down: no geometry,
   * not ready, and out of the deletion queue.
   */
  lemma DeletedWhileBuilding(t: Terrain, px: real, pz: real, ix: real, iz: real, order: seq<Corner>, a: Corner)
    requires Valid(t) && Enumerates(order, t.populationQueue + t.generated)
    requires a in t.deletionQueue && a in t.built
    ensures GenerateNew(t, px, pz, ix, iz, order).Ok?
    ensures var r := GenerateNew(t, px, pz, ix, iz, order).value;
      && a in r.chunks && r.chunks[a].vboState == VboNone && !r.chunks[a].vboReady
      && a !in r.deletionQueue
  {
    var zs := ZoneSweep(FloorToReal(px, 64), FloorToReal(pz, 64));
    var t1 := DispatchZones(t, zs);
    DispatchZonesValid(t, zs);
    var cur := DrawSet(t1.chunks, FloorToReal(ix, 16), FloorToReal(iz, 16));
    var t2 := CheckVboStates(t1, cur);
    CheckVboStatesValid(t1, cur);
    var t3 := t2.(deletionQueue := t2.deletionQueue + Leaving(t2, cur), lastDraw := cur);
    LeavingValid(t2, cur);
    var t4 := UpdateGenerationThreads(t3, order);
    UpdateGenerationThreadsValid(t3, order);
    assert a in t4.deletionQueue && a in t4.built;
    EndOfFrameTearsDown(t4, a);
  }

  /** The sweep around a zone corner includes that zone. */
  lemma SweepHasOrigin(x0: int, z0: int)
    requires x0 % 64 == 0 && z0 % 64 == 0
    ensures Corner(x0, z0) in ZoneSweep(x0, z0)
  {
    var n := 2 * GenSize + 2;
    var i := GenSize * n + GenSize;
    assert i / n == GenSize && i % n == GenSize;
    assert ZoneSweep(x0, z0)[i] == Corner(x0, z0);
  }

  /** After a frame the zone the player stands in is dispatched. */
  lemma PlayerZoneDispatched(t: Terrain, px: real, pz: real, ix: real, iz: real, order: seq<Corner>)
    requires Valid(t) && Enumerates(order, t.populationQueue + t.generated)
    ensures GenerateNew(t, px, pz, ix, iz, order).Ok?
    ensures var r := GenerateNew(t, px, pz, ix, iz, order).value;
      exists z :: z in r.zones && z.x as real <= px < (z.x + 64) as real && z.z as real <= pz < (z.z + 64) as real
  {
    GenerateNewValid(t, px, pz, ix, iz, order);
    var x0, z0 := FloorToReal(px, 64), FloorToReal(pz, 64);
    SweepHasOrigin(x0, z0);
    var r := GenerateNew(t, px, pz, ix, iz, order).value;
    assert Corner(x0, z0) in r.zones;
  }
  /** A finished job that keeps the links, the cover and every chunk's states, and reports a chunk in the state its report queue expects, keeps the invariant. */
  lemma JobValid(t: Terrain, r: Terrain)
    requires Valid(t) && r.zones == t.zones && r.chunks.Keys == t.chunks.Keys
    requires r.populationQueue == t.populationQueue && r.buildQueue == t.buildQueue && r.deletionQueue == t.deletionQueue
    requires r.lastDraw == t.lastDraw
    requires t.generated <= r.generated && t.populated <= r.populated && t.built <= r.built
    requires World.Aligned(r.chunks) && World.Linked(r.chunks) && ZonesCover(r) && StatesKept(t.chunks, r.chunks)
    requires GenQueues(r) && (forall e :: e in r.built ==> e in r.chunks && r.chunks[e].vboState == VboRunning)
    ensures Valid(r)
  {
    assert Tracked(r);
    assert PopExclusive(r.chunks);
    assert VboQueues(r);
  }

  /** A terrain job finishing between frames keeps the invariant and every chunk's states. */
  lemma TerrainJobValid(t: Terrain, a: Corner, column: Generation.Columns, cave: Generation.CaveField)
    requires Valid(t) && a in t.chunks && t.chunks[a].genState == TerrainRunning
    ensures var r := TerrainJobDone(t, a, column, cave);
      r.Ok? ==> Valid(r.value) && StatesKept(t.chunks, r.value.chunks)
  {
    var r := TerrainJobDone(t, a, column, cave);
    if r.Ok? {
      var v := r.value;
      SameShapeLinks(t.chunks, v.chunks);
      CoverKept(t, v);
      JobValid(t, v);
    }
  }

  /** A population job finishing between frames keeps the invariant and every chunk's states. */
  lemma PopulationJobValid(t: Terrain, a: Corner, noise: Populate.Noise)
    requires Valid(t) && a in t.chunks && t.chunks[a].genState == PopulationRunning
    ensures var r := PopulationJobDone(t, a, noise);
      r.Ok? ==> Valid(r.value) && StatesKept(t.chunks, r.value.chunks)
  {
    var r := PopulationJobDone(t, a, noise);
    if r.Ok? {
      PopulatedValid(t, a, r.value);
    }
  }

  /** Reporting a decorated chunk as populated keeps the invariant, whatever the decoration wrote. */
  lemma PopulatedValid(t: Terrain, a: Corner, v: Terrain)
    requires Valid(t) && a in t.chunks && t.chunks[a].genState == PopulationRunning
    requires v == t.(chunks := v.chunks, populated := t.populated + {a})
    requires SameShape(t.chunks, v.chunks) && StatesKept(t.chunks, v.chunks)
    ensures Valid(v) && StatesKept(t.chunks, v.chunks)
  {
    SameShapeLinks(t.chunks, v.chunks);
    CoverKept(t, v);
    JobValid(t, v);
  }

  /** A geometry job finishing between frames keeps the invariant and every chunk's states. */
  lemma VboJobValid(t: Terrain, a: Corner)
    requires Valid(t) && a in t.chunks && t.chunks[a].vboState == VboRunning
    ensures var r := VboJobDone(t, a);
      Valid(r) && StatesKept(t.chunks, r.chunks)
  {
    var r := VboJobDone(t, a);
    SameShapeLinks(t.chunks, r.chunks);
    CoverKept(t, r);
    JobValid(t, r);
  }


}
