/**
 * A chunk of the world (objects/chunk.py).
 *
 * A chunk knows its chunk position, its centre (the centre of its bounding sphere) and the
 * translation of its model matrix. Its voxels are generated column by column: each column
 * (x, z) is filled from y = 0 up to the terrain height, clipped to the chunk, by calls of the
 * voxel setter. The chunk is drawn only when it holds a solid voxel and its bounding sphere
 * passes the frustum test.
 */
module Chunks {
  import opened Settings
  import Frustums
  import ChunkMeshBuilder

  // ---------------------------------------------------------------------------
  // Placement
  // ---------------------------------------------------------------------------

  /** The world voxel position of the chunk's first voxel: ivec3(position) * CHUNK_SIZE. */
  function Origin(position: IVec3): IVec3
  {
    IVec3(position.x * CHUNK_SIZE, position.y * CHUNK_SIZE, position.z * CHUNK_SIZE)
  }

  /** The translation of the model matrix: vec3(position) * CHUNK_SIZE. */
  function ModelOffset(position: IVec3): Vec3
  {
    Vec3(position.x as real * CHUNK_SIZE as real, position.y as real * CHUNK_SIZE as real,
         position.z as real * CHUNK_SIZE as real)
  }

  /** The centre: (vec3(position) + 0.5) * CHUNK_SIZE. */
  function Center(position: IVec3): Vec3
  {
    Vec3((position.x as real + 0.5) * CHUNK_SIZE as real, (position.y as real + 0.5) * CHUNK_SIZE as real,
         (position.z as real + 0.5) * CHUNK_SIZE as real)
  }

  /** The model matrix moves the mesh's local coordinates onto the world positions the mesh
      builder reads the neighbours at. */
  lemma ModelOffsetPlacesVoxels(position: IVec3, p: IVec3)
    ensures var w := ChunkMeshBuilder.WorldOf(position, p);
            ModelOffset(position).Add(Vec3(p.x as real, p.y as real, p.z as real))
              == Vec3(w.x as real, w.y as real, w.z as real)
    ensures Origin(position) == ChunkMeshBuilder.WorldOf(position, IVec3(0, 0, 0))
  {
  }

  /** The centre is half a chunk from the model offset on every axis. */
  lemma CenterIsMidpoint(position: IVec3)
    ensures Center(position) == ModelOffset(position).Add(
              Vec3(H_CHUNK_SIZE as real, H_CHUNK_SIZE as real, H_CHUNK_SIZE as real))
  {
  }

  /** Inside the chunk's cube. */
  predicate InCube(position: IVec3, q: Vec3)
  {
    var o := ModelOffset(position);
    var s := CHUNK_SIZE as real;
    o.x <= q.x <= o.x + s && o.y <= q.y <= o.y + s && o.z <= q.z <= o.z + s
  }

  /** The sphere of the frustum test holds the whole chunk: every point of the cube lies
      within the radius of the centre. */
  lemma BoundingSphereHoldsChunk(fr: Frustums.Frustum, position: IVec3, q: Vec3)
    requires fr.Valid() && InCube(position, q)
    ensures var d := q.Sub(Center(position));
            Dot(d, d) <= fr.radius * fr.radius
  {
    var d := q.Sub(Center(position));
    CenterIsMidpoint(position);
    HalfSquare(d.x);
    HalfSquare(d.y);
    HalfSquare(d.z);
  }

  lemma HalfSquare(t: real)
    requires -(H_CHUNK_SIZE as real) <= t <= H_CHUNK_SIZE as real
    ensures t * t <= (H_CHUNK_SIZE * H_CHUNK_SIZE) as real
  {
    if t >= 0.0 {
      assert t * t <= t * 24.0;
    } else {
      assert t * t <= -t * 24.0;
    }
  }

  // ---------------------------------------------------------------------------
  // Terrain generation, as a specification
  // ---------------------------------------------------------------------------

  /** One call of the voxel setter: local position, world position and the column height. */
  datatype SetCall = SetCall(local: IVec3, world: IVec3, worldHeight: int)

  /** set_voxel_id: its body is not part of this model. It changes the voxel array passed to
      it, which keeps its length. */
  type VoxelSetter = f: (seq<int>, SetCall) -> seq<int> | forall s, c :: |f(s, c)| == |s|
    witness (s: seq<int>, c: SetCall) => s

  /** The number of voxels of a column below the terrain height, clipped to the chunk. */
  function LocalHeight(worldHeight: int, cy: int): int
  {
    Min(worldHeight - cy, CHUNK_SIZE)
  }

  /** The calls for rows 0 .. n - 1 of column (x, z). */
  function ColumnCalls(origin: IVec3, x: int, z: int, worldHeight: int, n: int): (r: seq<SetCall>)
    decreases n, origin
  {
    if n <= 0 then []
    else
      ColumnCalls(origin, x, z, worldHeight, n - 1)
      + [SetCall(IVec3(x, n - 1, z), IVec3(origin.x + x, n - 1 + origin.y, origin.z + z), worldHeight)]
  }

  /** get_height at the world position of column (x, z). */
  function ColumnHeight(origin: IVec3, heightAt: (int, int) -> int, x: int, z: int): int
  {
    heightAt(origin.x + x, origin.z + z)
  }

  /** The calls for columns 0 .. n - 1 of layer x. */
  function RowCalls(origin: IVec3, heightAt: (int, int) -> int, x: int, n: int): seq<SetCall>
    decreases n, origin
  {
    if n <= 0 then []
    else
      var h := ColumnHeight(origin, heightAt, x, n - 1);
      RowCalls(origin, heightAt, x, n - 1) + ColumnCalls(origin, x, n - 1, h, LocalHeight(h, origin.y))
  }

  /** The calls for layers 0 .. n - 1, in the order generate_terrain makes them. */
  function TerrainCalls(origin: IVec3, heightAt: (int, int) -> int, n: int): seq<SetCall>
    decreases n, origin
  {
    if n <= 0 then [] else TerrainCalls(origin, heightAt, n - 1) + RowCalls(origin, heightAt, n - 1, CHUNK_SIZE)
  }

  /** The voxel array after the setter has been applied for each call in turn. */
  function Replay(setVoxel: VoxelSetter, s: seq<int>, calls: seq<SetCall>): (r: seq<int>)
    ensures |r| == |s|
  {
    if |calls| == 0 then s else setVoxel(Replay(setVoxel, s, calls[..|calls| - 1]), calls[|calls| - 1])
  }

  /** Applying two lists of calls is applying their concatenation. */
  lemma {:induction false} ReplayAppend(setVoxel: VoxelSetter, s: seq<int>, a: seq<SetCall>, b: seq<SetCall>)
    ensures Replay(setVoxel, s, a + b) == Replay(setVoxel, Replay(setVoxel, s, a), b)
  {
    if |b| > 0 {
      ReplayAppend(setVoxel, s, a, b[..|b| - 1]);
      assert (a + b)[..|a + b| - 1] == a + b[..|b| - 1];
    } else {
      assert a + b == a;
    }
  }

  /** The calls generate_terrain makes for the chunk at origin: exactly one column of rows
      0 .. LocalHeight - 1 for every (x, z) of the chunk, at world position origin + local and
      with that column's terrain height. */
  predicate TerrainCall(origin: IVec3, heightAt: (int, int) -> int, c: SetCall)
  {
    0 <= c.local.x < CHUNK_SIZE && 0 <= c.local.z < CHUNK_SIZE
    && c.world == IVec3(origin.x + c.local.x, c.local.y + origin.y, origin.z + c.local.z)
    && c.worldHeight == ColumnHeight(origin, heightAt, c.local.x, c.local.z)
    && 0 <= c.local.y < LocalHeight(c.worldHeight, origin.y)
  }

  lemma {:induction false} ColumnCallsMembers(origin: IVec3, x: int, z: int, h: int, n: int, c: SetCall)
    ensures c in ColumnCalls(origin, x, z, h, n) <==>
              c.local.x == x && c.local.z == z && 0 <= c.local.y < n && c.worldHeight == h
              && c.world == IVec3(origin.x + x, c.local.y + origin.y, origin.z + z)
    decreases n, origin
  {
    if n > 0 {
      ColumnCallsMembers(origin, x, z, h, n - 1, c);
    }
  }

  lemma {:induction false} RowCallsMembers(origin: IVec3, heightAt: (int, int) -> int, x: int, n: int, c: SetCall)
    requires 0 <= x < CHUNK_SIZE && n <= CHUNK_SIZE
    ensures c in RowCalls(origin, heightAt, x, n) <==>
              TerrainCall(origin, heightAt, c) && c.local.x == x && c.local.z < n
    decreases n, origin
  {
    if n > 0 {
      RowCallsMembers(origin, heightAt, x, n - 1, c);
      var h := ColumnHeight(origin, heightAt, x, n - 1);
      ColumnCallsMembers(origin, x, n - 1, h, LocalHeight(h, origin.y), c);
    }
  }

  lemma TerrainCallsStep(origin: IVec3, heightAt: (int, int) -> int, n: int, c: SetCall)
    requires n > 0
    ensures c in TerrainCalls(origin, heightAt, n)
            <==> c in TerrainCalls(origin, heightAt, n - 1) || c in RowCalls(origin, heightAt, n - 1, CHUNK_SIZE)
  {
  }

  lemma {:induction false} TerrainCallsPrefixMembers(origin: IVec3, heightAt: (int, int) -> int, n: int, c: SetCall)
    requires n <= CHUNK_SIZE
    ensures c in TerrainCalls(origin, heightAt, n) <==> TerrainCall(origin, heightAt, c) && c.local.x < n
    decreases n, origin
  {
    if n > 0 {
      TerrainCallsStep(origin, heightAt, n, c);
      TerrainCallsPrefixMembers(origin, heightAt, n - 1, c);
      RowCallsMembers(origin, heightAt, n - 1, CHUNK_SIZE, c);
      assert TerrainCall(origin, heightAt, c) ==> 0 <= c.local.x < CHUNK_SIZE && 0 <= c.local.z < CHUNK_SIZE;
    }
  }

  /** generate_terrain calls the setter exactly for the voxels of each column below the terrain
      height and inside the chunk; a column whose height is at or below the chunk's floor gets
      no call. */
  lemma TerrainCallsMembers(origin: IVec3, heightAt: (int, int) -> int, c: SetCall)
    ensures c in TerrainCalls(origin, heightAt, CHUNK_SIZE) <==> TerrainCall(origin, heightAt, c)
  {
    TerrainCallsPrefixMembers(origin, heightAt, CHUNK_SIZE, c);
  }

  /** A chunk above the terrain everywhere gets no setter call, so its voxels stay as they were. */
  lemma AboveTerrainUntouched(origin: IVec3, heightAt: (int, int) -> int, setVoxel: VoxelSetter, s: seq<int>)
    requires forall wx, wz :: origin.x <= wx < origin.x + CHUNK_SIZE && origin.z <= wz < origin.z + CHUNK_SIZE
               ==> heightAt(wx, wz) <= origin.y
    ensures TerrainCalls(origin, heightAt, CHUNK_SIZE) == []
    ensures Replay(setVoxel, s, TerrainCalls(origin, heightAt, CHUNK_SIZE)) == s
  {
    var calls := TerrainCalls(origin, heightAt, CHUNK_SIZE);
    if |calls| > 0 {
      TerrainCallsMembers(origin, heightAt, calls[0]);
      assert false;
    }
  }

  /** generate_terrain: for every column, the height at its world position, then a call of the
      setter for every row below the clipped height. */
  method GenerateTerrain(voxels: array<int>, cx: int, cy: int, cz: int,
                         heightAt: (int, int) -> int, setVoxel: VoxelSetter)
    modifies voxels
    ensures voxels[..] == Replay(setVoxel, old(voxels[..]), TerrainCalls(IVec3(cx, cy, cz), heightAt, CHUNK_SIZE))
  {
    ghost var origin := IVec3(cx, cy, cz);
    ghost var start := voxels[..];
    for x := 0 to CHUNK_SIZE
      invariant voxels[..] == Replay(setVoxel, start, TerrainCalls(origin, heightAt, x))
    {
      FillRow(voxels, cx, cy, cz, x, heightAt, setVoxel);
      ReplayAppend(setVoxel, start, TerrainCalls(origin, heightAt, x), RowCalls(origin, heightAt, x, CHUNK_SIZE));
    }
  }

  /** The z loop of generate_terrain (objects/chunk.py:60-67) for layer x: the height of each
      column, then its rows. */
  method FillRow(voxels: array<int>, cx: int, cy: int, cz: int, x: int,
                 heightAt: (int, int) -> int, setVoxel: VoxelSetter)
    modifies voxels
    ensures voxels[..] == Replay(setVoxel, old(voxels[..]), RowCalls(IVec3(cx, cy, cz), heightAt, x, CHUNK_SIZE))
  {
    ghost var origin := IVec3(cx, cy, cz);
    ghost var start := voxels[..];
    var wx := cx + x;
    for z := 0 to CHUNK_SIZE
      invariant voxels[..] == Replay(setVoxel, start, RowCalls(origin, heightAt, x, z))
    {
      var wz := cz + z;
      var worldHeight := heightAt(wx, wz);
      assert worldHeight == ColumnHeight(origin, heightAt, x, z);
      var localHeight := Min(worldHeight - cy, CHUNK_SIZE);
      assert localHeight == LocalHeight(worldHeight, origin.y);
      FillColumn(voxels, cx, cy, cz, x, z, worldHeight, localHeight, setVoxel);
      RowStep(setVoxel, start, origin, heightAt, x, z);
    }
  }

  /** One column more of a layer: its calls follow those of the earlier columns. */
  lemma RowStep(setVoxel: VoxelSetter, s: seq<int>, origin: IVec3, heightAt: (int, int) -> int, x: int, z: int)
    requires 0 <= z
    ensures var h := ColumnHeight(origin, heightAt, x, z);
            Replay(setVoxel, s, RowCalls(origin, heightAt, x, z + 1))
            == Replay(setVoxel, Replay(setVoxel, s, RowCalls(origin, heightAt, x, z)),
                      ColumnCalls(origin, x, z, h, LocalHeight(h, origin.y)))
  {
    var h := ColumnHeight(origin, heightAt, x, z);
    ReplayAppend(setVoxel, s, RowCalls(origin, heightAt, x, z), ColumnCalls(origin, x, z, h, LocalHeight(h, origin.y)));
  }

  /** One call of set_voxel_id on the voxel array, in place. */
  method SetVoxelId(voxels: array<int>, call: SetCall, setVoxel: VoxelSetter)
    modifies voxels
    ensures voxels[..] == setVoxel(old(voxels[..]), call)
  {
    var next := setVoxel(voxels[..], call);
    forall i | 0 <= i < voxels.Length {
      voxels[i] := next[i];
    }
  }

  /** The rows loop of generate_terrain (objects/chunk.py:65-67) for column (x, z). */
  method FillColumn(voxels: array<int>, cx: int, cy: int, cz: int, x: int, z: int,
                    worldHeight: int, localHeight: int, setVoxel: VoxelSetter)
    modifies voxels
    ensures voxels[..] == Replay(setVoxel, old(voxels[..]), ColumnCalls(IVec3(cx, cy, cz), x, z, worldHeight, localHeight))
  {
    ghost var origin := IVec3(cx, cy, cz);
    ghost var start := voxels[..];
    var wx, wz := cx + x, cz + z;
    var y := 0;
    while y < localHeight
      invariant 0 <= y && (y <= localHeight || y == 0)
      invariant voxels[..] == Replay(setVoxel, start, ColumnCalls(origin, x, z, worldHeight, y))
    {
      var wy := y + cy;
      var call := SetCall(IVec3(x, y, z), IVec3(wx, wy, wz), worldHeight);
      ReplayStep(setVoxel, start, ColumnCalls(origin, x, z, worldHeight, y), call);
      SetVoxelId(voxels, call, setVoxel);
      y := y + 1;
    }
  }

  /** Applying one more call applies the setter to the result of the earlier ones. */
  lemma ReplayStep(setVoxel: VoxelSetter, s: seq<int>, calls: seq<SetCall>, c: SetCall)
    ensures Replay(setVoxel, s, calls + [c]) == setVoxel(Replay(setVoxel, s, calls), c)
  {
    assert (calls + [c])[..|calls|] == calls;
  }

  /** numpy's any: some voxel is solid. */
  function AnySolid(voxels: seq<int>): bool
  {
    exists i :: 0 <= i < |voxels| && voxels[i] != 0
  }

  // ---------------------------------------------------------------------------
  // The chunk
  // ---------------------------------------------------------------------------

  class Chunk {
    const position: IVec3
    const center: Vec3
    /** The translation of matrix_model. */
    const modelOffset: Vec3
    var voxels: array?<int>
    var mesh: Option<seq<int>>
    var isEmpty: bool

    /** A new chunk has no voxels and no mesh and counts as empty. */
    constructor (position: IVec3)
      ensures this.position == position
      ensures center == Center(position) && modelOffset == ModelOffset(position)
      ensures voxels == null && mesh == None && isEmpty
    {
      this.position := position;
      modelOffset := ModelOffset(position);
      voxels := null;
      mesh := None;
      isEmpty := true;
      center := Center(position);
    }

    /** build_voxels: a zeroed array of CHUNK_VOLUME voxels filled by generate_terrain at the
        chunk's origin; the chunk stops counting as empty when a voxel is solid, and is left as
        it was otherwise. */
    method BuildVoxels(heightAt: (int, int) -> int, setVoxel: VoxelSetter) returns (result: array<int>)
      modifies this
      ensures fresh(result) && result.Length == CHUNK_VOLUME
      ensures result[..] == Replay(setVoxel, seq(CHUNK_VOLUME, _ => 0), TerrainCalls(Origin(position), heightAt, CHUNK_SIZE))
      ensures isEmpty == (old(isEmpty) && !AnySolid(result[..]))
      ensures voxels == old(voxels) && mesh == old(mesh)
    {
      result := new int[CHUNK_VOLUME](_ => 0);
      assert result[..] == seq(CHUNK_VOLUME, _ => 0);
      var cx, cy, cz := position.x * CHUNK_SIZE, position.y * CHUNK_SIZE, position.z * CHUNK_SIZE;
      GenerateTerrain(result, cx, cy, cz, heightAt, setVoxel);
      if AnySolid(result[..]) {
        isEmpty := false;
      }
    }

    /** build_mesh: the chunk's vertex data, built from its voxels and the world's voxels with
        one four-byte attribute per vertex. */
    method BuildMesh(world: seq<seq<int>>)
      requires voxels != null && voxels.Length == CHUNK_VOLUME && ChunkMeshBuilder.WorldShaped(world)
      requires |ChunkMeshBuilder.ChunkMeshData(voxels[..], position, world)| <= CHUNK_VOLUME * 18
      modifies this
      ensures voxels == old(voxels) && isEmpty == old(isEmpty)
      ensures mesh == Some(ChunkMeshBuilder.ChunkMeshData(voxels[..], position, world))
    {
      var data := ChunkMeshBuilder.BuildChunkMeshTrimmed(voxels[..], 1, position, world);
      mesh := Some(data);
    }

    /** render: nothing is drawn for an empty chunk or one the frustum test rejects. */
    method Render(fr: Frustums.Frustum, view: Frustums.View) returns (drawn: bool)
      ensures drawn <==> !isEmpty && Frustums.IsOnFrustum(fr, view, center)
    {
      if isEmpty || !Frustums.IsOnFrustum(fr, view, center) {
        return false;
      }
      drawn := true;
    }
  }

  /** A fresh chunk of a column entirely above the terrain keeps counting as empty and is never
      drawn. */
  method AboveTerrainChunkNotDrawn(position: IVec3, heightAt: (int, int) -> int, setVoxel: VoxelSetter,
                                   fr: Frustums.Frustum, view: Frustums.View)
    returns (drawn: bool)
    requires forall wx, wz :: position.x * CHUNK_SIZE <= wx < position.x * CHUNK_SIZE + CHUNK_SIZE
               && position.z * CHUNK_SIZE <= wz < position.z * CHUNK_SIZE + CHUNK_SIZE
               ==> heightAt(wx, wz) <= position.y * CHUNK_SIZE
    ensures !drawn
  {
    var chunk := new Chunk(position);
    var v := chunk.BuildVoxels(heightAt, setVoxel);
    AboveTerrainUntouched(Origin(position), heightAt, setVoxel, seq(CHUNK_VOLUME, _ => 0));
    drawn := chunk.Render(fr, view);
  }
}
