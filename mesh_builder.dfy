/**
 * Chunk addressing and face-culling mesh extraction (meshes/chunk_mesh_builder.py).
 *
 * A world voxel position is turned into a chunk index by floor division by CHUNK_SIZE on
 * each axis; a neighbour outside the world counts as solid. The mesh builder scans every
 * voxel of a chunk and writes six vertices of five byte attributes (x, y, z, voxel id,
 * face id) for each face whose neighbour is air, into a preallocated buffer.
 */
module ChunkMeshBuilder {
  import opened Settings

  /** The sentinel index of a position outside the world. */
  const OUT_OF_WORLD: int := -1

  // ---------------------------------------------------------------------------
  // Chunk addressing
  // ---------------------------------------------------------------------------

  predicate InWorld(c: IVec3)
  {
    0 <= c.x < WORLD_WIDTH && 0 <= c.y < WORLD_HEIGHT && 0 <= c.z < WORLD_DEPTH
  }

  /** The chunk holding a world voxel position (Python's `//` is Dafny's `/` here). */
  function ChunkOf(world: IVec3): IVec3
  {
    IVec3(world.x / CHUNK_SIZE, world.y / CHUNK_SIZE, world.z / CHUNK_SIZE)
  }

  /** The linear index of a chunk: x fastest, then z, then y. */
  function ChunkIndexOf(c: IVec3): int
  {
    c.x + WORLD_WIDTH * c.z + WORLD_AREA * c.y
  }

  /** The inverse of ChunkIndexOf on the world's index range. */
  function ChunkCoords(index: int): IVec3
  {
    IVec3(index % WORLD_WIDTH, index / WORLD_AREA, (index / WORLD_WIDTH) % WORLD_DEPTH)
  }

  lemma ChunkCoordsOfIndex(c: IVec3)
    requires InWorld(c)
    ensures 0 <= ChunkIndexOf(c) < WORLD_VOLUME
    ensures ChunkCoords(ChunkIndexOf(c)) == c
  {
    var i := ChunkIndexOf(c);
    assert i == c.x + WORLD_WIDTH * (c.z + WORLD_DEPTH * c.y);
    assert i / WORLD_WIDTH == c.z + WORLD_DEPTH * c.y;
    assert i / WORLD_AREA == c.y;
  }

  lemma ChunkIndexOfCoords(index: int)
    requires 0 <= index < WORLD_VOLUME
    ensures InWorld(ChunkCoords(index))
    ensures ChunkIndexOf(ChunkCoords(index)) == index
  {
    var q := index / WORLD_WIDTH;
    assert index == index % WORLD_WIDTH + WORLD_WIDTH * q;
    assert q == q % WORLD_DEPTH + WORLD_DEPTH * (q / WORLD_DEPTH);
    assert q / WORLD_DEPTH == index / WORLD_AREA;
  }

  /** Distinct in-world chunks have distinct indices. */
  lemma ChunkIndexInjective(a: IVec3, b: IVec3)
    requires InWorld(a) && InWorld(b) && a != b
    ensures ChunkIndexOf(a) != ChunkIndexOf(b)
  {
    ChunkCoordsOfIndex(a);
    ChunkCoordsOfIndex(b);
  }

  /** get_chunk_index: the index of the chunk holding a world voxel, or OUT_OF_WORLD. */
  function GetChunkIndex(world: IVec3): (r: int)
    ensures r == OUT_OF_WORLD <==> !InWorld(ChunkOf(world))
    ensures r != OUT_OF_WORLD ==> 0 <= r < WORLD_VOLUME
  {
    var c := ChunkOf(world);
    if !InWorld(c) then OUT_OF_WORLD
    else ChunkIndexOf(c)
  }

  /** An in-world position's index decodes back to the chunk that holds it. */
  lemma GetChunkIndexDecodes(world: IVec3)
    requires GetChunkIndex(world) != OUT_OF_WORLD
    ensures ChunkCoords(GetChunkIndex(world)) == ChunkOf(world)
  {
    ChunkCoordsOfIndex(ChunkOf(world));
  }

  // ---------------------------------------------------------------------------
  // Neighbour lookup
  // ---------------------------------------------------------------------------

  /** Every chunk of the world holds CHUNK_VOLUME voxel ids (world.voxels' shape). */
  predicate WorldShaped(w: seq<seq<int>>)
  {
    |w| == WORLD_VOLUME && forall i :: 0 <= i < |w| ==> |w[i]| == CHUNK_VOLUME
  }

  /** The index in a chunk's voxel array of a local position, each axis taken modulo CHUNK_SIZE. */
  function LocalIndex(local: IVec3): (r: int)
    ensures 0 <= r < CHUNK_VOLUME
  {
    local.x % CHUNK_SIZE + local.z % CHUNK_SIZE * CHUNK_SIZE + local.y % CHUNK_SIZE * CHUNK_AREA
  }

  /** A local coordinate one step outside the chunk wraps to the opposite layer. */
  lemma LocalIndexWraps(y: int, z: int)
    requires 0 <= y < CHUNK_SIZE && 0 <= z < CHUNK_SIZE
    ensures LocalIndex(IVec3(-1, y, z)) == CHUNK_SIZE - 1 + z * CHUNK_SIZE + y * CHUNK_AREA
    ensures LocalIndex(IVec3(CHUNK_SIZE, y, z)) == z * CHUNK_SIZE + y * CHUNK_AREA
    ensures LocalIndex(IVec3(y, -1, z)) == y + z * CHUNK_SIZE + (CHUNK_SIZE - 1) * CHUNK_AREA
    ensures LocalIndex(IVec3(y, z, -1)) == y + (CHUNK_SIZE - 1) * CHUNK_SIZE + z * CHUNK_AREA
  {
  }

  /** The voxel id at a world position, or None outside the world. */
  function VoxelAtWorld(w: seq<seq<int>>, world: IVec3): Option<int>
    requires WorldShaped(w)
  {
    var ci := GetChunkIndex(world);
    if ci == OUT_OF_WORLD then None else Some(w[ci][LocalIndex(world)])
  }

  /** is_void: air at the neighbour; a neighbour outside the world is solid. */
  function IsVoid(local: IVec3, world: IVec3, w: seq<seq<int>>): (r: bool)
    requires WorldShaped(w)
    ensures GetChunkIndex(world) == OUT_OF_WORLD ==> !r
    ensures GetChunkIndex(world) != OUT_OF_WORLD ==>
              (r <==> w[GetChunkIndex(world)][LocalIndex(local)] == 0)
  {
    var ci := GetChunkIndex(world);
    if ci == OUT_OF_WORLD then false
    else w[ci][LocalIndex(local)] == 0
  }

  /** When the local position agrees with the world position modulo CHUNK_SIZE, is_void reads
      exactly the world voxel at that position. */
  lemma IsVoidReadsWorldVoxel(local: IVec3, world: IVec3, w: seq<seq<int>>)
    requires WorldShaped(w)
    requires local.x % CHUNK_SIZE == world.x % CHUNK_SIZE
    requires local.y % CHUNK_SIZE == world.y % CHUNK_SIZE
    requires local.z % CHUNK_SIZE == world.z % CHUNK_SIZE
    ensures IsVoid(local, world, w) <==> VoxelAtWorld(w, world) == Some(0)
  {
    assert LocalIndex(local) == LocalIndex(world);
  }

  // ---------------------------------------------------------------------------
  // Vertices and faces
  // ---------------------------------------------------------------------------

  /** One vertex as written by add_data: five byte attributes. */
  datatype Vertex = Vertex(x: int, y: int, z: int, voxelId: int, faceId: int)

  function Attrs(v: Vertex): seq<int>
  {
    [v.x, v.y, v.z, v.voxelId, v.faceId]
  }

  /** The attributes of a vertex list, in order. */
  function Flatten(vs: seq<Vertex>): (r: seq<int>)
    ensures |r| == 5 * |vs|
  {
    if vs == [] then [] else Flatten(vs[..|vs| - 1]) + Attrs(vs[|vs| - 1])
  }

  lemma {:induction false} FlattenAt(vs: seq<Vertex>, i: int)
    requires 0 <= i < 5 * |vs|
    ensures Flatten(vs)[i] == Attrs(vs[i / 5])[i % 5]
  {
    var n := |vs| - 1;
    if i < 5 * n {
      FlattenAt(vs[..n], i);
    }
  }

  datatype Face = Top | Bottom | Right | Left | Back | Front
  {
    /** The face id written with every vertex of the face. */
    function Id(): (r: int)
      ensures 0 <= r <= 5
    {
      match this
      case Top => 0
      case Bottom => 1
      case Right => 2
      case Left => 3
      case Back => 4
      case Front => 5
    }
  }

  /** The unit step from a voxel to the neighbour across a face. */
  function Offset(f: Face): IVec3
  {
    match f
    case Top => IVec3(0, 1, 0)
    case Bottom => IVec3(0, -1, 0)
    case Right => IVec3(1, 0, 0)
    case Left => IVec3(-1, 0, 0)
    case Back => IVec3(0, 0, -1)
    case Front => IVec3(0, 0, 1)
  }

  function Plus(p: IVec3, d: IVec3): IVec3
  {
    IVec3(p.x + d.x, p.y + d.y, p.z + d.z)
  }

  /** The voxel's corner coordinate on the face's axis: +1 on the positive side. */
  function PlaneCoord(base: int, step: int): int
  {
    if step > 0 then base + 1 else base
  }

  /** The six vertices (two triangles) of face f of the voxel at local position p, in the
      order the source emits them. */
  function FaceVertices(f: Face, p: IVec3, id: int): (r: seq<Vertex>)
    ensures |r| == 6
    ensures forall i :: 0 <= i < 6 ==> r[i].voxelId == id && r[i].faceId == f.Id()
    // every vertex lies on the plane shared with the neighbour across f, at a corner of the voxel
    ensures forall i :: 0 <= i < 6 ==>
              (if Offset(f).x != 0 then r[i].x == PlaneCoord(p.x, Offset(f).x) else p.x <= r[i].x <= p.x + 1)
              && (if Offset(f).y != 0 then r[i].y == PlaneCoord(p.y, Offset(f).y) else p.y <= r[i].y <= p.y + 1)
              && (if Offset(f).z != 0 then r[i].z == PlaneCoord(p.z, Offset(f).z) else p.z <= r[i].z <= p.z + 1)
  {
    var x, y, z, n := p.x, p.y, p.z, f.Id();
    match f
    case Top =>
      var v0, v1, v2, v3 := Vertex(x, y + 1, z, id, n), Vertex(x + 1, y + 1, z, id, n),
                            Vertex(x + 1, y + 1, z + 1, id, n), Vertex(x, y + 1, z + 1, id, n);
      [v0, v3, v2, v0, v2, v1]
    case Bottom =>
      var v0, v1, v2, v3 := Vertex(x, y, z, id, n), Vertex(x + 1, y, z, id, n),
                            Vertex(x + 1, y, z + 1, id, n), Vertex(x, y, z + 1, id, n);
      [v0, v2, v3, v0, v1, v2]
    case Right =>
      var v0, v1, v2, v3 := Vertex(x + 1, y, z, id, n), Vertex(x + 1, y + 1, z, id, n),
                            Vertex(x + 1, y + 1, z + 1, id, n), Vertex(x + 1, y, z + 1, id, n);
      [v0, v1, v2, v0, v2, v3]
    case Left =>
      var v0, v1, v2, v3 := Vertex(x, y, z, id, n), Vertex(x, y + 1, z, id, n),
                            Vertex(x, y + 1, z + 1, id, n), Vertex(x, y, z + 1, id, n);
      [v0, v2, v1, v0, v3, v2]
    case Back =>
      var v0, v1, v2, v3 := Vertex(x, y, z, id, n), Vertex(x, y + 1, z, id, n),
                            Vertex(x + 1, y + 1, z, id, n), Vertex(x + 1, y, z, id, n);
      [v0, v1, v2, v0, v2, v3]
    case Front =>
      var v0, v1, v2, v3 := Vertex(x, y, z + 1, id, n), Vertex(x, y + 1, z + 1, id, n),
                            Vertex(x + 1, y + 1, z + 1, id, n), Vertex(x + 1, y, z + 1, id, n);
      [v0, v2, v1, v0, v3, v2]
  }

  /** The face's 30 entries: coordinates within [0, CHUNK_SIZE], then voxel id and face id. */
  lemma FaceEntries(f: Face, p: IVec3, id: int)
    requires 0 <= p.x < CHUNK_SIZE && 0 <= p.y < CHUNK_SIZE && 0 <= p.z < CHUNK_SIZE
    ensures |Flatten(FaceVertices(f, p, id))| == 30
    ensures forall i :: 0 <= i < 30 && i % 5 < 3 ==> 0 <= Flatten(FaceVertices(f, p, id))[i] <= CHUNK_SIZE
    ensures forall i :: 0 <= i < 30 && i % 5 == 3 ==> Flatten(FaceVertices(f, p, id))[i] == id
    ensures forall i :: 0 <= i < 30 && i % 5 == 4 ==> Flatten(FaceVertices(f, p, id))[i] == f.Id()
  {
    var vs := FaceVertices(f, p, id);
    forall i | 0 <= i < 30
      ensures Flatten(vs)[i] == Attrs(vs[i / 5])[i % 5]
    {
      FlattenAt(vs, i);
    }
  }

  // ---------------------------------------------------------------------------
  // The mesh, as a specification
  // ---------------------------------------------------------------------------

  /** The world position of a local voxel of the chunk at chunk position cpos. */
  function WorldOf(cpos: IVec3, p: IVec3): IVec3
  {
    IVec3(p.x + cpos.x * CHUNK_SIZE, p.y + cpos.y * CHUNK_SIZE, p.z + cpos.z * CHUNK_SIZE)
  }

  predicate InChunk(p: IVec3)
  {
    0 <= p.x < CHUNK_SIZE && 0 <= p.y < CHUNK_SIZE && 0 <= p.z < CHUNK_SIZE
  }

  /** The 30 entries of face f of the voxel at p. */
  function FaceData(f: Face, p: IVec3, id: int): (r: seq<int>)
    ensures |r| == 30
  {
    Flatten(FaceVertices(f, p, id))
  }

  /** The neighbour test of face f of the voxel at local position p. */
  predicate FaceVisible(w: seq<seq<int>>, cpos: IVec3, p: IVec3, f: Face)
    requires WorldShaped(w)
  {
    IsVoid(Plus(p, Offset(f)), Plus(WorldOf(cpos, p), Offset(f)), w)
  }

  /** The entries emitted for face f of a solid voxel: the face if its neighbour is void. */
  function FaceOut(w: seq<seq<int>>, cpos: IVec3, p: IVec3, id: int, f: Face): seq<int>
    requires WorldShaped(w)
  {
    if FaceVisible(w, cpos, p, f) then FaceData(f, p, id) else []
  }

  /** The visible faces of a solid voxel in the order top, bottom, right, left, back, front. */
  function SolidVoxelData(w: seq<seq<int>>, cpos: IVec3, p: IVec3, id: int): seq<int>
    requires WorldShaped(w)
  {
    FaceOut(w, cpos, p, id, Top) + FaceOut(w, cpos, p, id, Bottom)
    + FaceOut(w, cpos, p, id, Right) + FaceOut(w, cpos, p, id, Left)
    + FaceOut(w, cpos, p, id, Back) + FaceOut(w, cpos, p, id, Front)
  }

  /** Index of local position p in a chunk's voxel array (the scan's own formula). */
  function VoxelIndex(p: IVec3): (r: int)
    ensures InChunk(p) ==> 0 <= r < CHUNK_VOLUME
  {
    p.x + CHUNK_SIZE * p.z + CHUNK_AREA * p.y
  }

  /** The entries emitted for the voxel at p: nothing for air, else its visible faces in the
      order top, bottom, right, left, back, front. */
  function VoxelData(chunk: seq<int>, cpos: IVec3, w: seq<seq<int>>, p: IVec3): seq<int>
    requires |chunk| == CHUNK_VOLUME && WorldShaped(w) && InChunk(p)
  {
    var id := chunk[VoxelIndex(p)];
    if id == 0 then [] else SolidVoxelData(w, cpos, p, id)
  }

  /** The local position of entry i of a chunk's voxel array: the inverse of VoxelIndex. */
  function VoxelPos(i: int): IVec3
  {
    IVec3(i % CHUNK_SIZE, i / CHUNK_AREA, (i / CHUNK_SIZE) % CHUNK_SIZE)
  }

  lemma VoxelPosOfIndex(p: IVec3)
    requires InChunk(p)
    ensures 0 <= VoxelIndex(p) < CHUNK_VOLUME
    ensures VoxelPos(VoxelIndex(p)) == p
  {
    var i := VoxelIndex(p);
    assert i == p.x + CHUNK_SIZE * (p.z + CHUNK_SIZE * p.y);
    assert i / CHUNK_SIZE == p.z + CHUNK_SIZE * p.y;
    assert i / CHUNK_AREA == p.y;
  }

  lemma VoxelIndexOfPos(i: int)
    requires 0 <= i < CHUNK_VOLUME
    ensures InChunk(VoxelPos(i))
    ensures VoxelIndex(VoxelPos(i)) == i
  {
    var q := i / CHUNK_SIZE;
    assert i == i % CHUNK_SIZE + CHUNK_SIZE * q;
    assert q == q % CHUNK_SIZE + CHUNK_SIZE * (q / CHUNK_SIZE);
    assert q / CHUNK_SIZE == i / CHUNK_AREA;
  }

  /** The entries each of the first n voxels of the chunk's voxel array emits, in array order.
      The count and the chunk are both named in the decreases clause so that the full table is
      unfolded on demand rather than all at once. */
  function VoxelOutputs(chunk: seq<int>, cpos: IVec3, w: seq<seq<int>>, n: int): (t: seq<seq<int>>)
    requires |chunk| == CHUNK_VOLUME && WorldShaped(w) && 0 <= n <= CHUNK_VOLUME
    ensures |t| == n
    decreases n, chunk
  {
    if n == 0 then []
    else
      VoxelIndexOfPos(n - 1);
      VoxelOutputs(chunk, cpos, w, n - 1) + [VoxelData(chunk, cpos, w, VoxelPos(n - 1))]
  }

  /** What every voxel of the chunk emits, indexed like the chunk's voxel array. */
  function VoxelTable(chunk: seq<int>, cpos: IVec3, w: seq<seq<int>>): (t: seq<seq<int>>)
    requires |chunk| == CHUNK_VOLUME && WorldShaped(w)
    ensures |t| == CHUNK_VOLUME
  {
    VoxelOutputs(chunk, cpos, w, CHUNK_VOLUME)
  }

  lemma {:induction false} VoxelOutputsAt(chunk: seq<int>, cpos: IVec3, w: seq<seq<int>>, n: int, i: int)
    requires |chunk| == CHUNK_VOLUME && WorldShaped(w) && 0 <= i < n <= CHUNK_VOLUME
    ensures InChunk(VoxelPos(i))
    ensures VoxelOutputs(chunk, cpos, w, n)[i] == VoxelData(chunk, cpos, w, VoxelPos(i))
  {
    VoxelIndexOfPos(i);
    if i < n - 1 {
      VoxelOutputsAt(chunk, cpos, w, n - 1, i);
    }
  }

  lemma VoxelTableAt(chunk: seq<int>, cpos: IVec3, w: seq<seq<int>>, p: IVec3)
    requires |chunk| == CHUNK_VOLUME && WorldShaped(w) && InChunk(p)
    ensures 0 <= VoxelIndex(p) < CHUNK_VOLUME
    ensures VoxelTable(chunk, cpos, w)[VoxelIndex(p)] == VoxelData(chunk, cpos, w, p)
    ensures chunk[VoxelIndex(p)] == 0 ==> VoxelTable(chunk, cpos, w)[VoxelIndex(p)] == []
    ensures chunk[VoxelIndex(p)] != 0 ==>
              VoxelTable(chunk, cpos, w)[VoxelIndex(p)] == SolidVoxelData(w, cpos, p, chunk[VoxelIndex(p)])
  {
    VoxelPosOfIndex(p);
    VoxelOutputsAt(chunk, cpos, w, CHUNK_VOLUME, VoxelIndex(p));
  }

  // The scan is specified by three nested recursions over such a table. Each names the table
  // in its decreases clause as well as the count, so that a call with a constant count (the
  // full CHUNK_SIZE) is unfolded on demand rather than all at once.

  /** The entries of the first n voxels of column (x, y), z innermost as in the scan. */
  function ColumnData(t: seq<seq<int>>, x: int, y: int, n: int): seq<int>
    requires |t| == CHUNK_VOLUME && 0 <= x < CHUNK_SIZE && 0 <= y < CHUNK_SIZE && 0 <= n <= CHUNK_SIZE
    decreases n, t
  {
    if n == 0 then [] else ColumnData(t, x, y, n - 1) + t[VoxelIndex(IVec3(x, y, n - 1))]
  }

  /** The entries of the first n columns of layer x. */
  function LayerData(t: seq<seq<int>>, x: int, n: int): seq<int>
    requires |t| == CHUNK_VOLUME && 0 <= x < CHUNK_SIZE && 0 <= n <= CHUNK_SIZE
    decreases n, t
  {
    if n == 0 then [] else LayerData(t, x, n - 1) + ColumnData(t, x, n - 1, CHUNK_SIZE)
  }

  /** The entries of the first n layers: everything the scan writes before layer n. */
  function MeshPrefix(t: seq<seq<int>>, n: int): seq<int>
    requires |t| == CHUNK_VOLUME && 0 <= n <= CHUNK_SIZE
    decreases n, t
  {
    if n == 0 then [] else MeshPrefix(t, n - 1) + LayerData(t, n - 1, CHUNK_SIZE)
  }

  /** The whole mesh of a chunk: what build_chunk_mesh writes before trimming. */
  function ChunkMeshData(chunk: seq<int>, cpos: IVec3, w: seq<seq<int>>): seq<int>
    requires |chunk| == CHUNK_VOLUME && WorldShaped(w)
  {
    MeshPrefix(VoxelTable(chunk, cpos, w), CHUNK_SIZE)
  }

  lemma {:induction false} ColumnDataGrows(t: seq<seq<int>>, x: int, y: int, m: int, n: int)
    requires |t| == CHUNK_VOLUME && 0 <= x < CHUNK_SIZE && 0 <= y < CHUNK_SIZE && 0 <= m <= n <= CHUNK_SIZE
    ensures |ColumnData(t, x, y, m)| <= |ColumnData(t, x, y, n)|
  {
    if m < n {
      ColumnDataGrows(t, x, y, m, n - 1);
    }
  }

  lemma {:induction false} LayerDataGrows(t: seq<seq<int>>, x: int, m: int, n: int)
    requires |t| == CHUNK_VOLUME && 0 <= x < CHUNK_SIZE && 0 <= m <= n <= CHUNK_SIZE
    ensures |LayerData(t, x, m)| <= |LayerData(t, x, n)|
  {
    if m < n {
      LayerDataGrows(t, x, m, n - 1);
    }
  }

  lemma {:induction false} MeshPrefixGrows(t: seq<seq<int>>, m: int, n: int)
    requires |t| == CHUNK_VOLUME && 0 <= m <= n <= CHUNK_SIZE
    ensures |MeshPrefix(t, m)| <= |MeshPrefix(t, n)|
  {
    if m < n {
      MeshPrefixGrows(t, m, n - 1);
    }
  }

  /** What the scan has written once column (x, y) is done fits in the whole mesh. */
  lemma ColumnFits(t: seq<seq<int>>, x: int, y: int)
    requires |t| == CHUNK_VOLUME && 0 <= x < CHUNK_SIZE && 0 <= y < CHUNK_SIZE
    ensures |MeshPrefix(t, x)| + |LayerData(t, x, y)| + |ColumnData(t, x, y, CHUNK_SIZE)|
            <= |MeshPrefix(t, CHUNK_SIZE)|
  {
    LayerDataGrows(t, x, y + 1, CHUNK_SIZE);
    MeshPrefixGrows(t, x + 1, CHUNK_SIZE);
    assert LayerData(t, x, y + 1) == LayerData(t, x, y) + ColumnData(t, x, y, CHUNK_SIZE);
    assert MeshPrefix(t, x + 1) == MeshPrefix(t, x) + LayerData(t, x, CHUNK_SIZE);
  }

  // ---------------------------------------------------------------------------
  // Properties of the emitted mesh
  // ---------------------------------------------------------------------------

  /** The number of faces of the voxel at p whose neighbour is void. */
  function VisibleFaces(w: seq<seq<int>>, cpos: IVec3, p: IVec3): (n: int)
    requires WorldShaped(w)
    ensures 0 <= n <= 6
  {
    (if FaceVisible(w, cpos, p, Top) then 1 else 0)
    + (if FaceVisible(w, cpos, p, Bottom) then 1 else 0)
    + (if FaceVisible(w, cpos, p, Right) then 1 else 0)
    + (if FaceVisible(w, cpos, p, Left) then 1 else 0)
    + (if FaceVisible(w, cpos, p, Back) then 1 else 0)
    + (if FaceVisible(w, cpos, p, Front) then 1 else 0)
  }

  /** Air emits nothing; a solid voxel emits 30 entries per face whose neighbour is void. */
  lemma VoxelDataSize(chunk: seq<int>, cpos: IVec3, w: seq<seq<int>>, p: IVec3)
    requires |chunk| == CHUNK_VOLUME && WorldShaped(w) && InChunk(p)
    ensures chunk[VoxelIndex(p)] == 0 ==> VoxelData(chunk, cpos, w, p) == []
    ensures chunk[VoxelIndex(p)] != 0 ==> |VoxelData(chunk, cpos, w, p)| == 30 * VisibleFaces(w, cpos, p)
  {
  }

  lemma ModShift(a: int, c: int)
    ensures (a + c * CHUNK_SIZE) % CHUNK_SIZE == a % CHUNK_SIZE
  {
    var q := a / CHUNK_SIZE;
    assert a + c * CHUNK_SIZE == (q + c) * CHUNK_SIZE + a % CHUNK_SIZE;
  }

  /** The neighbour test of a face reads the world voxel across that face. */
  lemma FaceTestReadsNeighbour(w: seq<seq<int>>, cpos: IVec3, p: IVec3, f: Face)
    requires WorldShaped(w)
    ensures FaceVisible(w, cpos, p, f) <==> VoxelAtWorld(w, Plus(WorldOf(cpos, p), Offset(f))) == Some(0)
  {
    var l, g := Plus(p, Offset(f)), Plus(WorldOf(cpos, p), Offset(f));
    assert g.x == l.x + cpos.x * CHUNK_SIZE && g.y == l.y + cpos.y * CHUNK_SIZE && g.z == l.z + cpos.z * CHUNK_SIZE;
    ModShift(l.x, cpos.x);
    ModShift(l.y, cpos.y);
    ModShift(l.z, cpos.z);
    IsVoidReadsWorldVoxel(l, g, w);
  }

  /** The neighbours of the voxel at p agree with the given voxel ids across each face. */
  predicate NeighboursAre(w: seq<seq<int>>, cpos: IVec3, p: IVec3, air: bool)
    requires WorldShaped(w)
  {
    forall f: Face :: (VoxelAtWorld(w, Plus(WorldOf(cpos, p), Offset(f))) == Some(0)) == air
  }

  /** A solid voxel whose six neighbours are all solid emits nothing. */
  lemma EnclosedVoxelEmitsNothing(chunk: seq<int>, cpos: IVec3, w: seq<seq<int>>, p: IVec3)
    requires |chunk| == CHUNK_VOLUME && WorldShaped(w) && InChunk(p)
    requires NeighboursAre(w, cpos, p, false)
    ensures VoxelData(chunk, cpos, w, p) == []
  {
    FaceTestReadsNeighbour(w, cpos, p, Top);
    FaceTestReadsNeighbour(w, cpos, p, Bottom);
    FaceTestReadsNeighbour(w, cpos, p, Right);
    FaceTestReadsNeighbour(w, cpos, p, Left);
    FaceTestReadsNeighbour(w, cpos, p, Back);
    FaceTestReadsNeighbour(w, cpos, p, Front);
    VoxelDataSize(chunk, cpos, w, p);
  }

  /** A solid voxel whose six neighbours are all air emits all six faces: 180 entries. */
  lemma IsolatedVoxelEmitsSixFaces(chunk: seq<int>, cpos: IVec3, w: seq<seq<int>>, p: IVec3)
    requires |chunk| == CHUNK_VOLUME && WorldShaped(w) && InChunk(p) && chunk[VoxelIndex(p)] != 0
    requires NeighboursAre(w, cpos, p, true)
    ensures |VoxelData(chunk, cpos, w, p)| == 180
  {
    FaceTestReadsNeighbour(w, cpos, p, Top);
    FaceTestReadsNeighbour(w, cpos, p, Bottom);
    FaceTestReadsNeighbour(w, cpos, p, Right);
    FaceTestReadsNeighbour(w, cpos, p, Left);
    FaceTestReadsNeighbour(w, cpos, p, Back);
    FaceTestReadsNeighbour(w, cpos, p, Front);
    VoxelDataSize(chunk, cpos, w, p);
  }

  /** No face is emitted towards the outside of the world: the world's boundary is closed. */
  lemma BoundaryFaceNotEmitted(w: seq<seq<int>>, cpos: IVec3, p: IVec3, id: int, f: Face)
    requires WorldShaped(w)
    requires !InWorld(ChunkOf(Plus(WorldOf(cpos, p), Offset(f))))
    ensures FaceOut(w, cpos, p, id, f) == []
  {
    assert !FaceVisible(w, cpos, p, f);
  }

  /** The voxels on the world's outer layer have no face towards the outside. */
  lemma WorldBoundaryClosed(w: seq<seq<int>>, cpos: IVec3, p: IVec3, id: int)
    requires WorldShaped(w)
    ensures WorldOf(cpos, p).y == 0 ==> FaceOut(w, cpos, p, id, Bottom) == []
    ensures WorldOf(cpos, p).x == 0 ==> FaceOut(w, cpos, p, id, Left) == []
    ensures WorldOf(cpos, p).z == 0 ==> FaceOut(w, cpos, p, id, Back) == []
    ensures WorldOf(cpos, p).y == WORLD_HEIGHT * CHUNK_SIZE - 1 ==> FaceOut(w, cpos, p, id, Top) == []
    ensures WorldOf(cpos, p).x == WORLD_WIDTH * CHUNK_SIZE - 1 ==> FaceOut(w, cpos, p, id, Right) == []
    ensures WorldOf(cpos, p).z == WORLD_DEPTH * CHUNK_SIZE - 1 ==> FaceOut(w, cpos, p, id, Front) == []
  {
    var g := WorldOf(cpos, p);
    if g.y == 0 { BoundaryFaceNotEmitted(w, cpos, p, id, Bottom); }
    if g.x == 0 { BoundaryFaceNotEmitted(w, cpos, p, id, Left); }
    if g.z == 0 { BoundaryFaceNotEmitted(w, cpos, p, id, Back); }
    if g.y == WORLD_HEIGHT * CHUNK_SIZE - 1 { BoundaryFaceNotEmitted(w, cpos, p, id, Top); }
    if g.x == WORLD_WIDTH * CHUNK_SIZE - 1 { BoundaryFaceNotEmitted(w, cpos, p, id, Right); }
    if g.z == WORLD_DEPTH * CHUNK_SIZE - 1 { BoundaryFaceNotEmitted(w, cpos, p, id, Front); }
  }

  lemma AirVoxelEmitsNothing(chunk: seq<int>, cpos: IVec3, w: seq<seq<int>>, p: IVec3)
    requires |chunk| == CHUNK_VOLUME && WorldShaped(w) && InChunk(p) && chunk[VoxelIndex(p)] == 0
    ensures VoxelData(chunk, cpos, w, p) == []
  {
  }

  /** Every voxel of the chunk is air. */
  predicate AllAir(chunk: seq<int>)
  {
    forall i :: 0 <= i < |chunk| ==> chunk[i] == 0
  }

  /** A table in which no voxel emits anything. */
  predicate Silent(t: seq<seq<int>>)
  {
    forall i :: 0 <= i < |t| ==> t[i] == []
  }

  lemma {:induction false} SilentColumn(t: seq<seq<int>>, x: int, y: int, n: int)
    requires |t| == CHUNK_VOLUME && Silent(t) && 0 <= x < CHUNK_SIZE && 0 <= y < CHUNK_SIZE && 0 <= n <= CHUNK_SIZE
    ensures ColumnData(t, x, y, n) == []
  {
    if n > 0 {
      SilentColumn(t, x, y, n - 1);
    }
  }

  lemma {:induction false} SilentLayer(t: seq<seq<int>>, x: int, n: int)
    requires |t| == CHUNK_VOLUME && Silent(t) && 0 <= x < CHUNK_SIZE && 0 <= n <= CHUNK_SIZE
    ensures LayerData(t, x, n) == []
  {
    if n > 0 {
      SilentLayer(t, x, n - 1);
      SilentColumn(t, x, n - 1, CHUNK_SIZE);
    }
  }

  lemma {:induction false} SilentPrefix(t: seq<seq<int>>, n: int)
    requires |t| == CHUNK_VOLUME && Silent(t) && 0 <= n <= CHUNK_SIZE
    ensures MeshPrefix(t, n) == []
  {
    if n > 0 {
      SilentPrefix(t, n - 1);
      SilentLayer(t, n - 1, CHUNK_SIZE);
    }
  }

  /** A chunk of air yields an empty mesh. */
  lemma AirChunkMeshEmpty(chunk: seq<int>, cpos: IVec3, w: seq<seq<int>>)
    requires |chunk| == CHUNK_VOLUME && WorldShaped(w) && AllAir(chunk)
    ensures ChunkMeshData(chunk, cpos, w) == []
  {
    var t := VoxelTable(chunk, cpos, w);
    forall i | 0 <= i < |t|
      ensures t[i] == []
    {
      VoxelOutputsAt(chunk, cpos, w, CHUNK_VOLUME, i);
      VoxelIndexOfPos(i);
      AirVoxelEmitsNothing(chunk, cpos, w, VoxelPos(i));
    }
    SilentPrefix(t, CHUNK_SIZE);
  }

  // ---------------------------------------------------------------------------
  // The builder
  // ---------------------------------------------------------------------------

  /** add_data: writes the vertices' attributes one after the other from index and returns
      the index one past the last entry written. */
  method AddData(buf: array<int>, index: nat, vertices: seq<Vertex>) returns (next: nat)
    requires index + 5 * |vertices| <= buf.Length
    modifies buf
    ensures next == index + 5 * |vertices|
    ensures buf[..index] == old(buf[..index])
    ensures buf[index..next] == Flatten(vertices)
    ensures buf[next..] == old(buf[next..])
  {
    next := index;
    for i := 0 to |vertices|
      invariant next == index + 5 * i
      invariant buf[..index] == old(buf[..index])
      invariant buf[index..next] == Flatten(vertices[..i])
      invariant buf[index + 5 * |vertices|..] == old(buf[index + 5 * |vertices|..])
    {
      var attrs := Attrs(vertices[i]);
      for j := 0 to 5
        invariant next == index + 5 * i + j
        invariant buf[..index] == old(buf[..index])
        invariant buf[index..next] == Flatten(vertices[..i]) + attrs[..j]
        invariant buf[index + 5 * |vertices|..] == old(buf[index + 5 * |vertices|..])
      {
        buf[next] := attrs[j];
        next := next + 1;
      }
      assert vertices[..i + 1][..i] == vertices[..i];
    }
    assert vertices[..|vertices|] == vertices;
  }

  lemma AppendAssoc(a: seq<int>, b: seq<int>, c: seq<int>)
    ensures a + b + c == a + (b + c)
  {
  }

  /** One face of the voxel at p: emitted when its neighbour is void. */
  method EmitFace(buf: array<int>, index: nat, w: seq<seq<int>>, cpos: IVec3, p: IVec3, id: int, f: Face)
    returns (next: nat)
    requires WorldShaped(w)
    requires index + |FaceOut(w, cpos, p, id, f)| <= buf.Length
    modifies buf
    ensures next == index + |FaceOut(w, cpos, p, id, f)|
    ensures buf[..next] == old(buf[..index]) + FaceOut(w, cpos, p, id, f)
  {
    next := index;
    if IsVoid(Plus(p, Offset(f)), Plus(WorldOf(cpos, p), Offset(f)), w) {
      next := AddData(buf, index, FaceVertices(f, p, id));
      assert buf[..next] == buf[..index] + buf[index..next];
    }
  }

  /** The body of the scan for one solid voxel: its six face tests in source order. */
  method EmitSolidVoxel(buf: array<int>, index: nat, w: seq<seq<int>>, cpos: IVec3, p: IVec3, id: int)
    returns (next: nat)
    requires WorldShaped(w)
    requires index + |SolidVoxelData(w, cpos, p, id)| <= buf.Length
    modifies buf
    ensures next == index + |SolidVoxelData(w, cpos, p, id)|
    ensures buf[..next] == old(buf[..index]) + SolidVoxelData(w, cpos, p, id)
  {
    ghost var start := buf[..index];
    ghost var f0, f1, f2 := FaceOut(w, cpos, p, id, Top), FaceOut(w, cpos, p, id, Bottom), FaceOut(w, cpos, p, id, Right);
    ghost var f3, f4, f5 := FaceOut(w, cpos, p, id, Left), FaceOut(w, cpos, p, id, Back), FaceOut(w, cpos, p, id, Front);
    next := EmitFace(buf, index, w, cpos, p, id, Top);
    next := EmitFace(buf, next, w, cpos, p, id, Bottom);
    AppendAssoc(start, f0, f1);
    next := EmitFace(buf, next, w, cpos, p, id, Right);
    AppendAssoc(start, f0 + f1, f2);
    next := EmitFace(buf, next, w, cpos, p, id, Left);
    AppendAssoc(start, f0 + f1 + f2, f3);
    next := EmitFace(buf, next, w, cpos, p, id, Back);
    AppendAssoc(start, f0 + f1 + f2 + f3, f4);
    next := EmitFace(buf, next, w, cpos, p, id, Front);
    AppendAssoc(start, f0 + f1 + f2 + f3 + f4, f5);
  }

  /** The body of the scan for the voxel at p: nothing for air, else its visible faces. */
  method ScanVoxel(buf: array<int>, index: nat, chunk: seq<int>, cpos: IVec3, w: seq<seq<int>>, p: IVec3)
    returns (next: nat)
    requires |chunk| == CHUNK_VOLUME && WorldShaped(w) && InChunk(p)
    requires index + |VoxelTable(chunk, cpos, w)[VoxelIndex(p)]| <= buf.Length
    modifies buf
    ensures next == index + |VoxelTable(chunk, cpos, w)[VoxelIndex(p)]|
    ensures buf[..next] == old(buf[..index]) + VoxelTable(chunk, cpos, w)[VoxelIndex(p)]
  {
    VoxelTableAt(chunk, cpos, w, p);
    next := index;
    var voxelId := chunk[p.x + CHUNK_SIZE * p.z + CHUNK_AREA * p.y];
    if voxelId != 0 {
      next := EmitSolidVoxel(buf, index, w, cpos, p, voxelId);
    }
  }

  /** The innermost loop of the scan: the voxels of column (x, y), z ascending. */
  method ScanColumn(buf: array<int>, index: nat, chunk: seq<int>, cpos: IVec3, w: seq<seq<int>>, x: int, y: int)
    returns (next: nat)
    requires |chunk| == CHUNK_VOLUME && WorldShaped(w) && 0 <= x < CHUNK_SIZE && 0 <= y < CHUNK_SIZE
    requires index + |ColumnData(VoxelTable(chunk, cpos, w), x, y, CHUNK_SIZE)| <= buf.Length
    modifies buf
    ensures next == index + |ColumnData(VoxelTable(chunk, cpos, w), x, y, CHUNK_SIZE)|
    ensures buf[..next] == old(buf[..index]) + ColumnData(VoxelTable(chunk, cpos, w), x, y, CHUNK_SIZE)
  {
    ghost var t := VoxelTable(chunk, cpos, w);
    ghost var start := buf[..index];
    next := index;
    for z := 0 to CHUNK_SIZE
      invariant next <= buf.Length
      invariant next == index + |ColumnData(t, x, y, z)|
      invariant buf[..next] == start + ColumnData(t, x, y, z)
    {
      ColumnDataGrows(t, x, y, z + 1, CHUNK_SIZE);
      assert ColumnData(t, x, y, z + 1) == ColumnData(t, x, y, z) + t[VoxelIndex(IVec3(x, y, z))];
      next := ScanVoxel(buf, next, chunk, cpos, w, IVec3(x, y, z));
      AppendAssoc(start, ColumnData(t, x, y, z), t[VoxelIndex(IVec3(x, y, z))]);
    }
  }

  /** The scan of build_chunk_mesh: fills a fresh buffer of CHUNK_VOLUME * 18 * formatSize
      entries and returns it with the number of entries written. The source does not check
      capacity, so the caller must know the mesh fits. */
  method FillChunkMesh(chunk: seq<int>, formatSize: nat, cpos: IVec3, w: seq<seq<int>>)
    returns (buf: array<int>, index: nat)
    requires |chunk| == CHUNK_VOLUME && WorldShaped(w)
    requires |ChunkMeshData(chunk, cpos, w)| <= CHUNK_VOLUME * 18 * formatSize
    ensures fresh(buf) && buf.Length == CHUNK_VOLUME * 18 * formatSize
    ensures index == |ChunkMeshData(chunk, cpos, w)|
    ensures buf[..index] == ChunkMeshData(chunk, cpos, w)
  {
    buf := new int[CHUNK_VOLUME * 18 * formatSize];
    ghost var t := VoxelTable(chunk, cpos, w);
    index := 0;
    for x := 0 to CHUNK_SIZE
      invariant index <= buf.Length
      invariant index == |MeshPrefix(t, x)|
      invariant buf[..index] == MeshPrefix(t, x)
    {
      for y := 0 to CHUNK_SIZE
        invariant index <= buf.Length
        invariant index == |MeshPrefix(t, x) + LayerData(t, x, y)|
        invariant buf[..index] == MeshPrefix(t, x) + LayerData(t, x, y)
      {
        ColumnFits(t, x, y);
        index := ScanColumn(buf, index, chunk, cpos, w, x, y);
        AppendAssoc(MeshPrefix(t, x), LayerData(t, x, y), ColumnData(t, x, y, CHUNK_SIZE));
        assert LayerData(t, x, y + 1) == LayerData(t, x, y) + ColumnData(t, x, y, CHUNK_SIZE);
      }
      assert MeshPrefix(t, x + 1) == MeshPrefix(t, x) + LayerData(t, x, CHUNK_SIZE);
    }
  }

  /** build_chunk_mesh as written: the slice up to index + 1, one entry past the data. */
  method BuildChunkMesh(chunk: seq<int>, formatSize: nat, cpos: IVec3, w: seq<seq<int>>)
    returns (mesh: seq<int>)
    requires |chunk| == CHUNK_VOLUME && WorldShaped(w)
    requires |ChunkMeshData(chunk, cpos, w)| <= CHUNK_VOLUME * 18 * formatSize
    ensures |mesh| == Min(|ChunkMeshData(chunk, cpos, w)| + 1, CHUNK_VOLUME * 18 * formatSize)
    ensures mesh[..|ChunkMeshData(chunk, cpos, w)|] == ChunkMeshData(chunk, cpos, w)
  {
    var buf, index := FillChunkMesh(chunk, formatSize, cpos, w);
    mesh := buf[..Min(index + 1, buf.Length)];
  }

  /** build_chunk_mesh trimmed to exactly the entries written. */
  method BuildChunkMeshTrimmed(chunk: seq<int>, formatSize: nat, cpos: IVec3, w: seq<seq<int>>)
    returns (mesh: seq<int>)
    requires |chunk| == CHUNK_VOLUME && WorldShaped(w)
    requires |ChunkMeshData(chunk, cpos, w)| <= CHUNK_VOLUME * 18 * formatSize
    ensures mesh == ChunkMeshData(chunk, cpos, w)
  {
    var buf, index := FillChunkMesh(chunk, formatSize, cpos, w);
    mesh := buf[..index];
  }

  /** On an all-air chunk the as-written slice holds one entry although nothing was written. */
  method AirChunkMeshAsWritten(cpos: IVec3, w: seq<seq<int>>) returns (mesh: seq<int>)
    requires WorldShaped(w)
    ensures |mesh| == 1
  {
    var air := seq(CHUNK_VOLUME, _ => 0);
    AirChunkMeshEmpty(air, cpos, w);
    mesh := BuildChunkMesh(air, 1, cpos, w);
  }
}
