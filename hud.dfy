/**
 * The cube drawn for the held item in the HUD (meshes/hud_item_mesh.py).
 *
 * `get_vertex_data` walks twelve triangles over the eight corners of the unit cube and packs one
 * entry per triangle corner: its coordinates, the item's voxel id, a texture face id, full
 * brightness (ambient-occlusion id 3) and a flip flag. The packing function itself is not part of
 * this model; it is a parameter `pack`.
 */
module HudItem {
  import opened Settings

  /** The arguments of one `pack_data` call, in source order. */
  datatype PackArgs = PackArgs(x: int, y: int, z: int, voxelId: int, faceId: int, aoId: int, flipId: int)

  /** The eight corners of the unit cube, front (z = 1) first. */
  function CubeVertices(): seq<IVec3>
  {
    [IVec3(0, 0, 1), IVec3(1, 0, 1), IVec3(1, 1, 1), IVec3(0, 1, 1),
     IVec3(0, 1, 0), IVec3(0, 0, 0), IVec3(1, 0, 0), IVec3(1, 1, 0)]
  }

  /** Two triangles per face: front, back, right, left, top, bottom. */
  function Triangles(): seq<seq<int>>
  {
    [[0, 1, 2], [0, 2, 3],
     [5, 4, 7], [5, 7, 6],
     [1, 6, 7], [1, 7, 2],
     [0, 3, 4], [0, 4, 5],
     [3, 2, 7], [3, 7, 4],
     [0, 5, 6], [0, 6, 1]]
  }

  /** The texture-atlas face of each triangle: 0 top, 1 bottom, 2 side. */
  function FaceIds(): seq<int>
  {
    [2, 2, 2, 2, 2, 2, 2, 2, 0, 0, 1, 1]
  }

  const AO_FULL_BRIGHTNESS: int := 3

  /** The face id and flip flag a triangle is packed with: the first two triangles are forced
      to a flipped side face, the rest take their entry of the face-id table unflipped. */
  function TriangleStyle(t: int): (r: (int, int))
    requires 0 <= t < 12
  {
    if t == 0 || t == 1 then (2, 1) else (FaceIds()[t], 0)
  }

  /** What get_vertex_data packs for corner k of triangle t. */
  function CornerArgs(voxelId: int, t: int, k: int): PackArgs
    requires 0 <= t < 12 && 0 <= k < 3
  {
    var p := CubeVertices()[Triangles()[t][k]];
    var style := TriangleStyle(t);
    PackArgs(p.x, p.y, p.z, voxelId, style.0, AO_FULL_BRIGHTNESS, style.1)
  }

  /** All packed arguments in emission order: triangle by triangle, corner by corner. */
  function HudArgs(voxelId: int): seq<PackArgs>
  {
    seq(36, i requires 0 <= i < 36 => CornerArgs(voxelId, i / 3, i % 3))
  }

  lemma HudArgsAt(voxelId: int, t: int, k: int)
    requires 0 <= t < 12 && 0 <= k < 3
    ensures HudArgs(voxelId)[3 * t + k] == CornerArgs(voxelId, t, k)
  {
    assert (3 * t + k) / 3 == t && (3 * t + k) % 3 == k;
  }

  lemma TriangleRange(t: int)
    requires 0 <= t < 12
    ensures t == 0 || t == 1 || t == 2 || t == 3 || t == 4 || t == 5
         || t == 6 || t == 7 || t == 8 || t == 9 || t == 10 || t == 11
  {
  }

  /** The triangle table is well formed: twelve triangles of three distinct corner indices,
      each in [0, 8). */
  lemma TriangleWellFormed(t: int)
    requires 0 <= t < 12
    ensures |Triangles()| == 12 && |Triangles()[t]| == 3
    ensures forall k :: 0 <= k < 3 ==> 0 <= Triangles()[t][k] < 8
    ensures Triangles()[t][0] != Triangles()[t][1] && Triangles()[t][1] != Triangles()[t][2]
            && Triangles()[t][0] != Triangles()[t][2]
  {
    TriangleRange(t);
  }

  /** Every packed entry is a corner of the unit cube, carries the item's voxel id and full
      brightness; the first two triangles are flipped side faces, the others unflipped with
      face id 0 for the top pair, 1 for the bottom pair and 2 for the rest. */
  lemma HudArgsContents(voxelId: int)
    ensures |HudArgs(voxelId)| == 36
    ensures forall i :: 0 <= i < 36 ==>
              var a := HudArgs(voxelId)[i];
              0 <= a.x <= 1 && 0 <= a.y <= 1 && 0 <= a.z <= 1
              && a.voxelId == voxelId && a.aoId == AO_FULL_BRIGHTNESS
    ensures forall i :: 0 <= i < 6 ==> HudArgs(voxelId)[i].faceId == 2 && HudArgs(voxelId)[i].flipId == 1
    ensures forall i :: 6 <= i < 36 ==>
              HudArgs(voxelId)[i].flipId == 0 && HudArgs(voxelId)[i].faceId == FaceIds()[i / 3]
              && HudArgs(voxelId)[i].faceId == (if i < 24 then 2 else if i < 30 then 0 else 1)
  {
    forall i | 0 <= i < 36
      ensures var a := HudArgs(voxelId)[i];
              0 <= a.x <= 1 && 0 <= a.y <= 1 && 0 <= a.z <= 1
              && a.voxelId == voxelId && a.aoId == AO_FULL_BRIGHTNESS
              && (i < 6 ==> a.faceId == 2 && a.flipId == 1)
              && (6 <= i ==> a.flipId == 0 && a.faceId == FaceIds()[i / 3]
                             && a.faceId == (if i < 24 then 2 else if i < 30 then 0 else 1))
    {
      TriangleRange(i / 3);
      TriangleWellFormed(i / 3);
    }
  }

  /** The cube face a triangle lies on: the axis (0 = x, 1 = y, 2 = z) and the value all three
      of its corners share on it. */
  function Coord(p: IVec3, axis: int): int
  {
    if axis == 0 then p.x else if axis == 1 then p.y else p.z
  }

  predicate OnPlane(t: int, axis: int, value: int)
    requires 0 <= t < 12
  {
    TriangleWellFormed(t);
    var tri := Triangles()[t];
    Coord(CubeVertices()[tri[0]], axis) == value
    && Coord(CubeVertices()[tri[1]], axis) == value
    && Coord(CubeVertices()[tri[2]], axis) == value
  }

  /** The face plane of each triangle pair, in table order: front z = 1, back z = 0,
      right x = 1, left x = 0, top y = 1, bottom y = 0. */
  function FacePlane(t: int): (r: (int, int))
    requires 0 <= t < 12
  {
    if t < 2 then (2, 1) else if t < 4 then (2, 0) else if t < 6 then (0, 1)
    else if t < 8 then (0, 0) else if t < 10 then (1, 1) else (1, 0)
  }

  /** Each triangle lies in the face plane its pair is listed under. */
  lemma TrianglesLieOnFaces(t: int)
    requires 0 <= t < 12
    ensures OnPlane(t, FacePlane(t).0, FacePlane(t).1)
  {
    TriangleRange(t);
  }

  /** The texture face ids agree with the geometry: the triangles packed with face id 0 lie in
      the top plane y = 1, those with face id 1 in the bottom plane y = 0, and every triangle
      packed as a side face (id 2) lies in a vertical face plane x or z in {0, 1}. */
  lemma FaceIdsMatchGeometry(t: int)
    requires 0 <= t < 12
    ensures TriangleStyle(t).0 == 0 ==> OnPlane(t, 1, 1)
    ensures TriangleStyle(t).0 == 1 ==> OnPlane(t, 1, 0)
    ensures TriangleStyle(t).0 == 2 ==>
              OnPlane(t, 0, 0) || OnPlane(t, 0, 1) || OnPlane(t, 2, 0) || OnPlane(t, 2, 1)
  {
    TrianglesLieOnFaces(t);
    TriangleRange(t);
  }

  class HudItemMesh {
    /** The voxel id of the held item; set by the HUD before each rebuild. */
    var voxelId: int

    constructor()
      ensures voxelId == 0
    {
      voxelId := 0;
    }

    /** Pack the 36 triangle corners of the item cube into a fresh array, in triangle order. */
    method GetVertexData(pack: PackArgs -> int) returns (vertexData: array<int>)
      ensures fresh(vertexData) && vertexData.Length == 36
      ensures forall i :: 0 <= i < 36 ==> vertexData[i] == pack(HudArgs(voxelId)[i])
    {
      var indices := Triangles();
      var numVertices := |indices| * 3;
      vertexData := new int[numVertices](_ => 0);
      var vertexIndex := 0;
      var faceIds := FaceIds();
      for faceIdx := 0 to |indices|
        invariant vertexIndex == 3 * faceIdx
        invariant forall t, k :: 0 <= t < faceIdx && 0 <= k < 3 ==>
                    vertexData[3 * t + k] == pack(CornerArgs(voxelId, t, k))
      {
        var faceId, flipId;
        if faceIdx == 0 || faceIdx == 1 {
          faceId, flipId := 2, 1;
        } else {
          faceId, flipId := faceIds[faceIdx], 0;
        }
        vertexIndex := PackTriangle(vertexData, vertexIndex, pack, faceIdx, faceId, flipId);
      }
      forall i | 0 <= i < 36
        ensures vertexData[i] == pack(HudArgs(voxelId)[i])
      {
        var t, k := i / 3, i % 3;
        assert i == 3 * t + k;
        assert vertexData[3 * t + k] == pack(CornerArgs(voxelId, t, k));
        HudArgsAt(voxelId, t, k);
      }
    }

    /** The inner loop of get_vertex_data: pack the three corners of triangle t from
        `vertexIndex` on, leaving the rest of the array as it was. */
    method PackTriangle(vertexData: array<int>, vertexIndex: int, pack: PackArgs -> int,
                        t: int, faceId: int, flipId: int)
      returns (next: int)
      requires 0 <= t < 12 && (faceId, flipId) == TriangleStyle(t)
      requires vertexIndex == 3 * t && vertexIndex + 3 <= vertexData.Length
      modifies vertexData
      ensures next == vertexIndex + 3
      ensures forall k :: 0 <= k < 3 ==> vertexData[3 * t + k] == pack(CornerArgs(voxelId, t, k))
      ensures forall i :: 0 <= i < vertexIndex ==> vertexData[i] == old(vertexData[i])
    {
      var vertices := CubeVertices();
      var aoId := AO_FULL_BRIGHTNESS;
      var triangleGroup := Triangles()[t];
      TriangleWellFormed(t);
      next := vertexIndex;
      for k := 0 to 3
        invariant next == vertexIndex + k
        invariant forall j :: 0 <= j < k ==> vertexData[vertexIndex + j] == pack(CornerArgs(voxelId, t, j))
        invariant forall i :: 0 <= i < vertexIndex ==> vertexData[i] == old(vertexData[i])
      {
        var p := vertices[triangleGroup[k]];
        vertexData[next] := pack(PackArgs(p.x, p.y, p.z, voxelId, faceId, aoId, flipId));
        next := next + 1;
      }
    }
  }
}
