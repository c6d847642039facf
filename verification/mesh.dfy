/**
 * Geometry of a chunk (`createVBOdata`, `appendVBOData`, `combineVBO`):
 * which block faces are emitted, the four vertices of each, and the index
 * lists handed to the GPU.
 */
module Mesh {
  import opened Results
  import opened Blocks
  import opened Chunks

  /** The neighbour chunks the builder follows; a missing direction is a null pointer. */
  type Neighbours = map<Direction, Chunk>

  /**
   * The block next to `p` in direction `d` and whether the step crossed the
   * chunk border. Crossing into a missing neighbour reads `Empty`.
   */
  function Sample(c: Chunk, nb: Neighbours, p: Vec3, d: Direction): (s: (BlockType, bool))
    requires InBounds(p)
    ensures s.1 <==> OnSide(p, d)
    ensures !s.1 ==> InBounds(p.Plus(Unit(d))) && s.0 == Cell(c, p.Plus(Unit(d)))
    ensures s.1 && d !in nb ==> s.0 == Empty
    ensures s.1 && d in nb ==> s.0 == Cell(nb[d], WrapSample(p, d))
  {
    CrossBorderOnSide(p, d);
    if CrossBorder(p, Unit(d)) then
      if d !in nb then (Empty, true) else (Cell(nb[d], WrapSample(p, d)), true)
    else
      (Cell(c, p.Plus(Unit(d))), false)
  }

  /**
   * The visibility rule: an opaque block shows a face toward any clear
   * block; a clear block shows a face only toward empty space inside its
   * own chunk.
   */
  predicate Visible(t: BlockType, adj: BlockType, crossed: bool) {
    if IsClear(t) then adj == Empty && !crossed else IsClear(adj)
  }

  /** The block at `p` is not empty and shows its face in direction `d`. */
  predicate Emits(c: Chunk, nb: Neighbours, p: Vec3, d: Direction)
    requires InBounds(p)
  {
    var s := Sample(c, nb, p, d);
    Cell(c, p) != Empty && Visible(Cell(c, p), s.0, s.1)
  }

  /** World position of the cell's minimum corner. */
  function WorldCell(c: Chunk, p: Vec3): Vec3 {
    Vec3(c.minX + p.x, p.y, c.minZ + p.z)
  }

  /**
   * `appendVBOData`: the face's four corners placed at the block, with the
   * face normal, the atlas tile of the block kind plus the corner's offset,
   * and the animation flag. The humidity channel is not modelled.
   */
  function FaceVertices(c: Chunk, d: Direction, t: BlockType, p: Vec3): (vs: seq<Vertex>)
    requires t != Empty
    ensures |vs| == 4
    ensures forall v :: v in vs ==> v.nor == Unit(d) && v.animated == IsAnimated(t)
  {
    var f := AdjacentFace(d);
    var tile := TileOf(t, d);
    var base := WorldCell(c, p);
    var v := f.vertices;
    [PlaceCorner(v[0], base, f.directionVec, tile, IsAnimated(t)),
     PlaceCorner(v[1], base, f.directionVec, tile, IsAnimated(t)),
     PlaceCorner(v[2], base, f.directionVec, tile, IsAnimated(t)),
     PlaceCorner(v[3], base, f.directionVec, tile, IsAnimated(t))]
  }

  /**
   * The four emitted corners are distinct corners of the block's cell, all
   * on the side of the cell facing `d`.
   */
  lemma FaceVerticesOnPlane(c: Chunk, d: Direction, t: BlockType, p: Vec3)
    requires t != Empty
    ensures var vs, base := FaceVertices(c, d, t, p), WorldCell(c, p);
      && CornerOnPlane(d, vs[0].pos.Minus(base)) && CornerOnPlane(d, vs[1].pos.Minus(base))
      && CornerOnPlane(d, vs[2].pos.Minus(base)) && CornerOnPlane(d, vs[3].pos.Minus(base))
      && vs[0].pos != vs[1].pos && vs[0].pos != vs[2].pos && vs[0].pos != vs[3].pos
      && vs[1].pos != vs[2].pos && vs[1].pos != vs[3].pos && vs[2].pos != vs[3].pos
  {
    var f, base := AdjacentFace(d), WorldCell(c, p);
    var vs := FaceVertices(c, d, t, p);
    FaceOnPlane(d);
    PlaceCornerBack(f.vertices[0].pos, base);
    PlaceCornerBack(f.vertices[1].pos, base);
    PlaceCornerBack(f.vertices[2].pos, base);
    PlaceCornerBack(f.vertices[3].pos, base);
    assert vs[0].pos == f.vertices[0].pos.Plus(base);
    assert vs[1].pos == f.vertices[1].pos.Plus(base);
    assert vs[2].pos == f.vertices[2].pos.Plus(base);
    assert vs[3].pos == f.vertices[3].pos.Plus(base);
  }

  /** The corners of a face lie within the block's cell, hence within the chunk's box. */
  lemma FaceVerticesInBox(c: Chunk, d: Direction, t: BlockType, p: Vec3)
    requires t != Empty && InBounds(p)
    ensures forall v :: v in FaceVertices(c, d, t, p) ==> InWorldBox(c, v.pos)
  {
    var vs, base := FaceVertices(c, d, t, p), WorldCell(c, p);
    FaceVerticesOnPlane(c, d, t, p);
    assert vs == [vs[0], vs[1], vs[2], vs[3]];
    assert InWorldBox(c, vs[0].pos) && InWorldBox(c, vs[1].pos) && InWorldBox(c, vs[2].pos) && InWorldBox(c, vs[3].pos);
  }

  /** The atlas tile of a non-empty block kind on face `d`; the lookup cannot fail. */
  function TileOf(t: BlockType, d: Direction): Tile
    requires t != Empty
  {
    UvOffset(t, d).value
  }

  /** One corner of the face table moved to `base`, with the block's atlas tile added to its texture corner. */
  function PlaceCorner(vd: VertexData, base: Vec3, n: Vec3, tile: Tile, animated: bool): Vertex {
    Vertex(vd.pos.Plus(base), n, Tile(tile.u + vd.uv.u, tile.v + vd.uv.v), animated)
  }

  lemma PlaceCornerBack(a: Vec3, base: Vec3)
    ensures a.Plus(base).Minus(base) == a
  {
  }

  /** The vertices a block emits, faces taken in table order from position `i` on. */
  function CellQuadsFrom(c: Chunk, nb: Neighbours, p: Vec3, i: nat): (vs: seq<Vertex>)
    requires InBounds(p) && i <= 6
    ensures |vs| == 4 * ShownFaces(c, nb, p, i)
    ensures Cell(c, p) == Empty ==> vs == []
    ensures forall v :: v in vs ==> InWorldBox(c, v.pos) && v.animated == IsAnimated(Cell(c, p))
    decreases 6 - i
  {
    if i == 6 then []
    else
      var d := FaceOrder[i];
      var rest := CellQuadsFrom(c, nb, p, i + 1);
      if Emits(c, nb, p, d) then
        var vs := FaceVertices(c, d, Cell(c, p), p);
        FaceVerticesInBox(c, d, Cell(c, p), p);
        assert forall v :: v in vs + rest ==> v in vs || v in rest;
        vs + rest
      else rest
  }

  /** How many of the faces from position `i` of the table on the block shows. */
  function ShownFaces(c: Chunk, nb: Neighbours, p: Vec3, i: nat): nat
    requires InBounds(p) && i <= 6
    decreases 6 - i
  {
    if i == 6 then 0
    else (if Emits(c, nb, p, FaceOrder[i]) then 1 else 0) + ShownFaces(c, nb, p, i + 1)
  }

  /** Four vertices per quad: any number of quads makes whole quads. */
  lemma {:induction false} WholeQuads(k: nat)
    ensures (4 * k) % 4 == 0
  {
    if k > 0 {
      WholeQuads(k - 1);
      assert 4 * k == 4 * (k - 1) + 4;
    }
  }

  /** The vertices one cell contributes. */
  function CellQuads(c: Chunk, nb: Neighbours, p: Vec3): seq<Vertex>
    requires InBounds(p)
  {
    CellQuadsFrom(c, nb, p, 0)
  }

  /** A position inside the chunk's world-space box (faces lie on its cells' boundaries). */
  predicate InWorldBox(c: Chunk, q: Vec3) {
    c.minX <= q.x <= c.minX + 16 && 0 <= q.y <= 256 && c.minZ <= q.z <= c.minZ + 16
  }

  /** Within the chunk, the visibility rule reduces to the kinds of the two cells. */
  lemma InteriorFaceRule(c: Chunk, nb: Neighbours, p: Vec3, d: Direction)
    requires InBounds(p) && InBounds(p.Plus(Unit(d)))
    ensures var a, b := Cell(c, p), Cell(c, p.Plus(Unit(d)));
      Emits(c, nb, p, d) <==> (a != Empty && !IsClear(a) && IsClear(b)) || (IsClear(a) && a != Empty && b == Empty)
  {
    CrossBorderOnSide(p, d);
  }

  /** The face shared by two cells of a chunk is emitted by at most one of them. */
  lemma SharedFaceOnce(c: Chunk, nb: Neighbours, p: Vec3, d: Direction)
    requires InBounds(p) && InBounds(p.Plus(Unit(d)))
    ensures var q := p.Plus(Unit(d)); !(Emits(c, nb, p, d) && Emits(c, nb, q, Opposite(d)))
  {
    var q := p.Plus(Unit(d));
    assert q.Plus(Unit(Opposite(d))) == p;
    InteriorFaceRule(c, nb, p, d);
    InteriorFaceRule(c, nb, q, Opposite(d));
  }

  /** A block whose six samples are all opaque blocks shows nothing. */
  lemma {:induction false} OccludedEmitsNothing(c: Chunk, nb: Neighbours, p: Vec3, i: nat)
    requires InBounds(p) && i <= 6
    requires forall d :: !IsClear(Sample(c, nb, p, d).0)
    ensures CellQuadsFrom(c, nb, p, i) == []
    decreases 6 - i
  {
    if i < 6 {
      OccludedEmitsNothing(c, nb, p, i + 1);
    }
  }

  /** An opaque block away from the chunk's sides, with empty space all round, shows all six faces. */
  lemma IsolatedBlockEmitsSix(c: Chunk, nb: Neighbours, p: Vec3)
    requires 0 < p.x < 15 && 0 < p.y < 255 && 0 < p.z < 15
    requires Cell(c, p) != Empty && !IsClear(Cell(c, p))
    requires forall d :: Cell(c, p.Plus(Unit(d))) == Empty
    ensures |CellQuads(c, nb, p)| == 24
  {
    forall d ensures Emits(c, nb, p, d) {
      InteriorFaceRule(c, nb, p, d);
    }
    CountAllFaces(c, nb, p, 0);
  }

  lemma {:induction false} CountAllFaces(c: Chunk, nb: Neighbours, p: Vec3, i: nat)
    requires InBounds(p) && i <= 6
    requires forall d :: Emits(c, nb, p, d)
    ensures |CellQuadsFrom(c, nb, p, i)| == 4 * (6 - i)
    decreases 6 - i
  {
    if i < 6 {
      CountAllFaces(c, nb, p, i + 1);
    }
  }

  /** The `n`-th cell the builder visits: x outermost, then y, then z. */
  function LoopCell(n: nat): (p: Vec3)
    requires n < Volume
    ensures InBounds(p)
  {
    Vec3(n / 4096, (n / 16) % 256, n % 16)
  }

  /**
   * The opaque and clear vertex lists after visiting the first `n` cells in
   * loop order. Each list holds whole quads, opaque vertices are never
   * animated, and every vertex lies within the chunk's box.
   */
  function MeshUpTo(c: Chunk, nb: Neighbours, n: nat): (m: (seq<Vertex>, seq<Vertex>))
    requires n <= Volume
    ensures |m.0| == 4 * QuadsUpTo(c, nb, n, false) && |m.1| == 4 * QuadsUpTo(c, nb, n, true)
    ensures forall v :: v in m.0 ==> !v.animated && InWorldBox(c, v.pos)
    ensures forall v :: v in m.1 ==> InWorldBox(c, v.pos)
  {
    if n == 0 then ([], [])
    else
      var prev := MeshUpTo(c, nb, n - 1);
      var p := LoopCell(n - 1);
      var t := Cell(c, p);
      var q := CellQuads(c, nb, p);
      if t == Empty then prev
      else if IsClear(t) then
        assert forall v :: v in prev.1 + q ==> v in prev.1 || v in q;
        (prev.0, prev.1 + q)
      else
        assert forall v :: v in prev.0 + q ==> v in prev.0 || v in q;
        (prev.0 + q, prev.1)
  }

  /** The number of faces shown by the clear (or by the opaque) blocks among the first `n` cells. */
  function QuadsUpTo(c: Chunk, nb: Neighbours, n: nat, clear: bool): nat
    requires n <= Volume
  {
    if n == 0 then 0
    else
      var p := LoopCell(n - 1);
      var own := if Cell(c, p) != Empty && IsClear(Cell(c, p)) == clear then ShownFaces(c, nb, p, 0) else 0;
      QuadsUpTo(c, nb, n - 1, clear) + own
  }

  /** The index pattern of one quad: triangles (0,1,2) and (0,2,3). */
  const QuadPattern: seq<nat> := [0, 1, 2, 0, 2, 3]

  /** The pattern shifted to start at vertex `base`. */
  function Shifted(base: nat): (g: seq<nat>)
    ensures |g| == 6
    ensures forall j :: 0 <= j < 6 ==> g[j] == base + QuadPattern[j]
  {
    [base, base + 1, base + 2, base, base + 2, base + 3]
  }

  /** What `combineVBO` emits for `n` vertices: one shifted pattern per vertex, the shift growing by 4. */
  function PerVertexIndices(n: nat): (idx: seq<nat>)
    ensures |idx| == 6 * n
  {
    if n == 0 then [] else PerVertexIndices(n - 1) + Shifted(4 * (n - 1))
  }

  /** `combineVBO` as written: the vertices are copied, and six indices are pushed per vertex. */
  method CombineVbo(data: seq<Vertex>) returns (verts: seq<Vertex>, idx: seq<nat>)
    ensures verts == data
    ensures idx == PerVertexIndices(|data|)
  {
    verts, idx := [], [];
    var maxIdx := 0;
    var i := 0;
    while i < |data|
      invariant 0 <= i <= |data|
      invariant verts == data[..i]
      invariant idx == PerVertexIndices(i)
      invariant maxIdx == 4 * i
    {
      verts := verts + [data[i]];
      idx := idx + [0 + maxIdx, 1 + maxIdx, 2 + maxIdx, 0 + maxIdx, 2 + maxIdx, 3 + maxIdx];
      maxIdx := maxIdx + 4;
      i := i + 1;
    }
  }

  /** The `k`-th group of six indices addresses vertices 4k .. 4k+3. */
  lemma {:induction false} PerVertexIndicesAt(n: nat, k: nat, j: nat)
    requires k < n && j < 6
    ensures PerVertexIndices(n)[6 * k + j] == 4 * k + QuadPattern[j]
  {
    if k < n - 1 {
      PerVertexIndicesAt(n - 1, k, j);
    }
  }

  /**
   * With per-vertex groups the largest index is 4n - 1, past the last of the
   * n vertices: e.g. one quad (4 vertices) yields indices up to 15.
   */
  lemma CombineVboOverruns(n: nat)
    requires n >= 1
    ensures PerVertexIndices(n)[6 * n - 1] == 4 * n - 1
    ensures 4 * n - 1 >= n
  {
    PerVertexIndicesAt(n, n - 1, 5);
  }

  /** The intended index list: one shifted pattern per quad of four vertices. */
  function QuadIndices(quads: nat): (idx: seq<nat>)
    ensures |idx| == 6 * quads
    ensures forall i :: 0 <= i < |idx| ==> idx[i] < 4 * quads
  {
    if quads == 0 then [] else QuadIndices(quads - 1) + Shifted(4 * (quads - 1))
  }

  /** Quad `q` of the intended list draws its own four vertices as two triangles. */
  lemma {:induction false} QuadIndicesAt(quads: nat, q: nat, j: nat)
    requires q < quads && j < 6
    ensures QuadIndices(quads)[6 * q + j] == 4 * q + QuadPattern[j]
  {
    if q < quads - 1 {
      QuadIndicesAt(quads - 1, q, j);
    }
  }

  /** The intended `combineVBO`: the vertices unchanged, six indices per quad, all of them in range. */
  function CombineQuads(data: seq<Vertex>): (r: (seq<Vertex>, seq<nat>))
    requires |data| % 4 == 0
    ensures r.0 == data
    ensures |r.1| == 6 * (|data| / 4)
    ensures forall i :: 0 <= i < |r.1| ==> r.1[i] < |data|
  {
    (data, QuadIndices(|data| / 4))
  }

  /**
   * `createVBOdata` as written: the geometry of the whole chunk, staged with
   * the index lists `combineVBO` emits, six per vertex. Every vertex lies in
   * the chunk's world box and opaque vertices are never animated, but a
   * non-empty list has indices past its last vertex.
   */
  function Build(c: Chunk, nb: Neighbours): (s: Staged)
    ensures (s.opaqueVerts, s.clearVerts) == MeshUpTo(c, nb, Volume)
    ensures |s.opaqueIdx| == 6 * |s.opaqueVerts| && |s.clearIdx| == 6 * |s.clearVerts|
    ensures forall i :: 0 <= i < |s.opaqueIdx| ==> s.opaqueIdx[i] == 4 * (i / 6) + QuadPattern[i % 6]
    ensures forall i :: 0 <= i < |s.clearIdx| ==> s.clearIdx[i] == 4 * (i / 6) + QuadPattern[i % 6]
    ensures |s.opaqueVerts| > 0 ==> s.opaqueIdx[|s.opaqueIdx| - 1] >= |s.opaqueVerts|
    ensures |s.clearVerts| > 0 ==> s.clearIdx[|s.clearIdx| - 1] >= |s.clearVerts|
    ensures forall v :: v in s.opaqueVerts ==> !v.animated
    ensures forall v :: v in s.opaqueVerts + s.clearVerts ==> InWorldBox(c, v.pos)
  {
    var m := MeshUpTo(c, nb, Volume);
    PerVertexGroups(|m.0|);
    PerVertexGroups(|m.1|);
    Staged(m.0, PerVertexIndices(|m.0|), m.1, PerVertexIndices(|m.1|))
  }

  /** Every group of six in the as-written list follows the shifted pattern, and a non-empty list ends past its vertices. */
  lemma PerVertexGroups(n: nat)
    ensures forall i :: 0 <= i < 6 * n ==> PerVertexIndices(n)[i] == 4 * (i / 6) + QuadPattern[i % 6]
    ensures n > 0 ==> PerVertexIndices(n)[6 * n - 1] >= n
  {
    if n > 0 {
      CombineVboOverruns(n);
    }
    forall i | 0 <= i < 6 * n ensures PerVertexIndices(n)[i] == 4 * (i / 6) + QuadPattern[i % 6] {
      assert 6 * (i / 6) + i % 6 == i;
      PerVertexIndicesAt(n, i / 6, i % 6);
    }
  }

  /** `createVBOdata` with the intended index lists: the same vertices, every index in range. */
  function BuildCorrected(c: Chunk, nb: Neighbours): (s: Staged)
    ensures (s.opaqueVerts, s.clearVerts) == MeshUpTo(c, nb, Volume)
    ensures |s.opaqueVerts| % 4 == 0 && |s.opaqueIdx| == 6 * (|s.opaqueVerts| / 4)
    ensures |s.clearVerts| % 4 == 0 && |s.clearIdx| == 6 * (|s.clearVerts| / 4)
    ensures forall i :: 0 <= i < |s.opaqueIdx| ==> s.opaqueIdx[i] < |s.opaqueVerts|
    ensures forall i :: 0 <= i < |s.clearIdx| ==> s.clearIdx[i] < |s.clearVerts|
    ensures forall v :: v in s.opaqueVerts ==> !v.animated
    ensures forall v :: v in s.opaqueVerts + s.clearVerts ==> InWorldBox(c, v.pos)
  {
    var m := MeshUpTo(c, nb, Volume);
    WholeQuads(QuadsUpTo(c, nb, Volume, false));
    WholeQuads(QuadsUpTo(c, nb, Volume, true));
    var o := CombineQuads(m.0);
    var t := CombineQuads(m.1);
    Staged(o.0, o.1, t.0, t.1)
  }

  /** The two builds stage the same vertices and differ only in the index lists. */
  lemma BuildsShareVertices(c: Chunk, nb: Neighbours)
    ensures Build(c, nb).opaqueVerts == BuildCorrected(c, nb).opaqueVerts
    ensures Build(c, nb).clearVerts == BuildCorrected(c, nb).clearVerts
    ensures |Build(c, nb).opaqueVerts| > 0 ==> Build(c, nb).opaqueIdx != BuildCorrected(c, nb).opaqueIdx
  {
    var s := Build(c, nb);
    var u := BuildCorrected(c, nb);
    if |s.opaqueVerts| > 0 {
      var n := |s.opaqueVerts|;
      var i := |s.opaqueIdx| - 1;
      assert s.opaqueIdx[i] >= n;
    }
  }
}
