# ft_vox core, modelled in Dafny

ft_vox is a Minecraft-style voxel engine. Its world is 100 × 2 × 100 chunks of 48³ voxels.
This project models the part of it that is logic rather than rendering, one Dafny module per
source file:

- `ChunkMeshBuilder` (`mesh_builder.dfy`) covers chunk addressing (`get_chunk_index`), the
  neighbour test (`is_void`), `add_data` and `build_chunk_mesh`. The last one scans a chunk and
  writes six vertices of five attributes for every face whose neighbour is air. The builder
  fills a preallocated array with a running index. Its output is specified by `ChunkMeshData`, a
  function on the voxel contents.
- `Chunks` (`chunk.dfy`) covers the `Chunk` class: its initial state, `build_voxels` and the
  in-place `generate_terrain` loops, `build_mesh`, the `render` gate, the model offset and the
  bounding-sphere centre.
- `Clouds` (`clouds.dfy`) covers `generate_clouds`, which thresholds a noise field into a
  cloud grid, and `build_mesh`. The latter is the greedy rectangle merger with its `visited`
  set. The model proves that the emitted rectangles tile exactly the cloud cells.
- `Frustums` (`frustum.dfy`) covers the three-stage bounding-sphere frustum test over exact
  reals.
- `Cameras` (`camera.dfy`) covers the `Camera` class: the AABB collision test, `move` with
  per-axis sliding, pitch clamping and yaw.
- `HudItem` (`hud.dfy`) covers the 36 packed corners of the held-item cube. The source's
  comment at meshes/hud_item_mesh.py:81 calls triangles 0 and 1 the right face. Their vertices
  lie on the front face (z = 1), and the model follows the code.
- `Inventories` (`inventory.dfy`) covers the texture ids and the ten-slot hot bar.
- `Settings` (`settings.dfy`) holds the constants and the shared vector types.

Calls into code outside this core become function parameters:

| parameter | stands for |
|---|---|
| `heightAt` | `get_height` |
| `setVoxel` | `set_voxel_id`, a length-preserving update of the voxel array |
| `noise` | `noise2` |
| `pack` | `pack_data` |
| `world` | the voxel handler's `get_voxel_id` |
| `y` | `CLOUD_HEIGHT` |

## Model

| member | source | states |
|---|---|---|
| ChunkMeshBuilder.GetChunkIndex | meshes/chunk_mesh_builder.py:15-24 | The result is the sentinel -1 exactly when the floor-divided chunk coordinates lie outside the world; otherwise it is an index in [0, WORLD_VOLUME). |
| ChunkMeshBuilder.GetChunkIndexDecodes | meshes/chunk_mesh_builder.py:17-24 | A non-sentinel index decodes back to the chunk that contains the voxel. |
| ChunkMeshBuilder.ChunkCoordsOfIndex | meshes/chunk_mesh_builder.py:24 | For in-world chunk coordinates, `cx + WORLD_WIDTH*cz + WORLD_AREA*cy` lies in [0, WORLD_VOLUME) and decodes back to the same coordinates. |
| ChunkMeshBuilder.ChunkIndexOfCoords | meshes/chunk_mesh_builder.py:24 | Every index in [0, WORLD_VOLUME) is the index of exactly one in-world chunk, so the index formula is a bijection. |
| ChunkMeshBuilder.ChunkIndexInjective | meshes/chunk_mesh_builder.py:24 | Distinct in-world chunks get distinct indices. |
| ChunkMeshBuilder.LocalIndex | meshes/chunk_mesh_builder.py:37-39 | The modular local index of any coordinate triple, including -1 and CHUNK_SIZE, is a valid offset in a chunk's voxel array. |
| ChunkMeshBuilder.LocalIndexWraps | meshes/chunk_mesh_builder.py:37-39 | A neighbour at local -1 reads the last row of the adjacent chunk, and one at local CHUNK_SIZE reads its first row. |
| ChunkMeshBuilder.IsVoid | meshes/chunk_mesh_builder.py:27-39 | A neighbour outside the world counts as solid. Otherwise the neighbour is void exactly when the voxel at the modular local index of its chunk is 0. |
| ChunkMeshBuilder.IsVoidReadsWorldVoxel | meshes/chunk_mesh_builder.py:30-39 | When the local and world coordinates agree modulo CHUNK_SIZE, `is_void` holds exactly when the world voxel at that position exists and is air. |
| ChunkMeshBuilder.Flatten | meshes/chunk_mesh_builder.py:43-46 | Flattening vertices yields five attributes per vertex. |
| ChunkMeshBuilder.FlattenAt | meshes/chunk_mesh_builder.py:43-46 | Entry i of the flattened data is attribute i mod 5 of vertex i div 5. |
| ChunkMeshBuilder.FaceVertices | meshes/chunk_mesh_builder.py:78-130 | Each face has six vertices carrying the voxel id and the face id 0–5. Every vertex lies on the plane shared with the neighbour across that face, at a corner of the voxel. |
| ChunkMeshBuilder.FaceEntries | meshes/chunk_mesh_builder.py:78-130 | A face of an in-chunk voxel writes 30 entries; its coordinates lie in [0, CHUNK_SIZE], attribute 3 is the voxel id and attribute 4 the face id. |
| ChunkMeshBuilder.FaceData | meshes/chunk_mesh_builder.py:78-130 | The data of one face has 30 entries. |
| ChunkMeshBuilder.VoxelIndex | meshes/chunk_mesh_builder.py:69 | The scan index `x + CHUNK_SIZE*z + CHUNK_AREA*y` of an in-chunk voxel lies in [0, CHUNK_VOLUME). |
| ChunkMeshBuilder.VoxelPosOfIndex | meshes/chunk_mesh_builder.py:66-69 | The scan index of an in-chunk position decodes back to that position. |
| ChunkMeshBuilder.VoxelIndexOfPos | meshes/chunk_mesh_builder.py:66-69 | Every array offset is the scan index of one in-chunk position, so the scan reads each voxel once. |
| ChunkMeshBuilder.VoxelOutputs | meshes/chunk_mesh_builder.py:66-130 | The table of per-voxel outputs has one entry per array offset scanned. |
| ChunkMeshBuilder.VoxelOutputsAt | meshes/chunk_mesh_builder.py:66-130 | Entry i of the table is the output of the voxel whose scan index is i. |
| ChunkMeshBuilder.VoxelTableAt | meshes/chunk_mesh_builder.py:69-130 | An air voxel's output is empty, and a solid voxel's output is its visible faces in source order. |
| ChunkMeshBuilder.VisibleFaces | meshes/chunk_mesh_builder.py:78-130 | A voxel has between 0 and 6 faces whose neighbour is void. |
| ChunkMeshBuilder.VoxelDataSize | meshes/chunk_mesh_builder.py:69-130 | An air voxel emits nothing, and a solid voxel emits 30 entries per visible face. |
| ChunkMeshBuilder.FaceTestReadsNeighbour | meshes/chunk_mesh_builder.py:78-130 | Each face test inspects exactly the world voxel adjacent across that face. The face is emitted iff that voxel is in the world and is air. |
| ChunkMeshBuilder.EnclosedVoxelEmitsNothing | meshes/chunk_mesh_builder.py:69-130 | A voxel whose six neighbours are all solid emits nothing. |
| ChunkMeshBuilder.IsolatedVoxelEmitsSixFaces | meshes/chunk_mesh_builder.py:78-130 | A solid voxel whose six neighbours are all air emits 180 entries. |
| ChunkMeshBuilder.BoundaryFaceNotEmitted | meshes/chunk_mesh_builder.py:30-32 | A face whose neighbour lies outside the world is never emitted. |
| ChunkMeshBuilder.WorldBoundaryClosed | meshes/chunk_mesh_builder.py:21-32 | Voxels on the world's outer walls emit no face towards the outside. |
| ChunkMeshBuilder.AirVoxelEmitsNothing | meshes/chunk_mesh_builder.py:69-71 | An air voxel is skipped. |
| ChunkMeshBuilder.SilentColumn | meshes/chunk_mesh_builder.py:68-71 | A z-column of air emits nothing. |
| ChunkMeshBuilder.SilentLayer | meshes/chunk_mesh_builder.py:67-71 | A y-layer of air emits nothing. |
| ChunkMeshBuilder.SilentPrefix | meshes/chunk_mesh_builder.py:66-71 | Any number of x-slices of air emits nothing. |
| ChunkMeshBuilder.AirChunkMeshEmpty | meshes/chunk_mesh_builder.py:66-71 | An all-air chunk's mesh data is empty. |
| ChunkMeshBuilder.ColumnDataGrows | meshes/chunk_mesh_builder.py:68 | The data of a z-column only grows as the scan advances. |
| ChunkMeshBuilder.LayerDataGrows | meshes/chunk_mesh_builder.py:67 | The data of a y-layer only grows as the scan advances. |
| ChunkMeshBuilder.MeshPrefixGrows | meshes/chunk_mesh_builder.py:66 | The data of the x-slices scanned so far only grows. |
| ChunkMeshBuilder.ColumnFits | meshes/chunk_mesh_builder.py:63-68 | The data written before and during any column fits within the whole chunk's data, so the write index stays within the buffer. |
| ChunkMeshBuilder.AddData | meshes/chunk_mesh_builder.py:42-47 | Writes the vertices' attributes consecutively from `index` and returns `index` plus their count. Every other entry is left unchanged. |
| ChunkMeshBuilder.EmitFace | meshes/chunk_mesh_builder.py:78-130 | A face test followed by `add_data` appends that face's data when its neighbour is void, and nothing otherwise. |
| ChunkMeshBuilder.EmitSolidVoxel | meshes/chunk_mesh_builder.py:73-130 | The six face tests of a solid voxel append its visible faces in the order top, bottom, right, left, back, front. |
| ChunkMeshBuilder.ScanVoxel | meshes/chunk_mesh_builder.py:69-130 | One step of the scan appends that voxel's output to the buffer. |
| ChunkMeshBuilder.ScanColumn | meshes/chunk_mesh_builder.py:68-130 | The innermost z loop appends the column's data. |
| ChunkMeshBuilder.FillChunkMesh | meshes/chunk_mesh_builder.py:63-130 | The buffer is fresh with CHUNK_VOLUME·18·format_size entries. The final index equals the length of the chunk's mesh data, and the buffer holds exactly that data up to the index. |
| ChunkMeshBuilder.BuildChunkMesh | meshes/chunk_mesh_builder.py:50-133 | As written: the result starts with the mesh data and has one more entry than the data, capped at the buffer size. |
| ChunkMeshBuilder.BuildChunkMeshTrimmed | meshes/chunk_mesh_builder.py:132-133 | Corrected: the result is exactly the mesh data. |
| ChunkMeshBuilder.AirChunkMeshAsWritten | meshes/chunk_mesh_builder.py:63-133 | As written, an all-air chunk yields a one-entry mesh although nothing was written. |
| Chunks.ModelOffsetPlacesVoxels | objects/chunk.py:28-29 | Translating by the model offset `position*CHUNK_SIZE` puts local voxel p at its world position, the one the mesh builder uses. |
| Chunks.CenterIsMidpoint | objects/chunk.py:25 | The centre `(position + 0.5)*CHUNK_SIZE` is the model offset plus H_CHUNK_SIZE on each axis. |
| Chunks.BoundingSphereHoldsChunk | settings.py:28-31 | Every point of the chunk's cube lies within CHUNK_SPHERE_RADIUS of its centre. |
| Chunks.ColumnCallsMembers | objects/chunk.py:65-67 | A column issues setter calls exactly for y in [0, local height). Each call carries the local (x, y, z), the world `(cx+x, cy+y, cz+z)` and the column's world height. |
| Chunks.RowCallsMembers | objects/chunk.py:60-67 | The z loop of row x issues exactly the terrain calls with that x and a z already reached. |
| Chunks.TerrainCallsPrefixMembers | objects/chunk.py:58-67 | The first n rows issue exactly the terrain calls with x < n. |
| Chunks.TerrainCallsMembers | objects/chunk.py:58-67 | generate_terrain issues a setter call exactly for each in-chunk (x, z) and each y below `min(get_height(cx+x, cz+z) - cy, CHUNK_SIZE)`. |
| Chunks.AboveTerrainUntouched | objects/chunk.py:62-65 | When no column height exceeds cy, no setter call happens and the voxels are unchanged. |
| Chunks.GenerateTerrain | objects/chunk.py:55-67 | The voxel array ends as the setter calls of the specification, applied in loop order to its old contents. |
| Chunks.FillRow | objects/chunk.py:60-67 | The z loop of layer x applies that layer's calls in order, reading each column's height at its world position. |
| Chunks.FillColumn | objects/chunk.py:65-67 | The y loop applies the column's calls in order. |
| Chunks.SetVoxelId | objects/chunk.py:67 | One setter call updates the array in place to the setter's result. |
| Chunks.Chunk.constructor | objects/chunk.py:16-25 | A new chunk has no voxels, no mesh and `is_empty` set. Its centre and model offset are derived from its position. |
| Chunks.Chunk.BuildVoxels | objects/chunk.py:43-53 | Returns a fresh CHUNK_VOLUME array: the terrain calls applied to zeros at origin `position*CHUNK_SIZE`. `is_empty` is cleared iff some voxel is non-zero, and otherwise keeps its old value. |
| Chunks.Chunk.BuildMesh | objects/chunk.py:34-35 | Corrected, through the trimmed builder: the chunk's mesh becomes exactly the mesh data of its voxels in the world, with format size 1 (meshes/chunk_mesh.py:19-33). The source's mesh has one more entry (meshes/chunk_mesh_builder.py:133). |
| Chunks.Chunk.Render | objects/chunk.py:37-41 | The chunk is drawn iff it is not empty and the frustum test accepts its centre. |
| Chunks.AboveTerrainChunkNotDrawn | objects/chunk.py:37-53 | A fresh chunk lying entirely above the terrain stays empty and is never drawn. |
| Frustums.OnFrustumIffInsideAllPlanes | srcs/frustum.py:24-45 | The test accepts iff the camera-to-centre vector passes all six checks: the near and far planes, top and bottom, right and left. Each check is widened by the sphere radius. |
| Frustums.OutsideDepthRangeRejected | srcs/frustum.py:26-31 | A centre whose forward depth lies outside [NEAR − R, FAR + R] is rejected. |
| Frustums.CenteredChunkAccepted | srcs/frustum.py:26-45 | A chunk centred at the camera position is accepted. |
| Frustums.RadiusExceedsNear | settings.py:18-31 | CHUNK_SPHERE_RADIUS = 24·√3 is at least NEAR. |
| Frustums.AheadOnAxisAccepted | srcs/frustum.py:29-45 | With orthonormal axes, a centre straight ahead at any depth within [NEAR − R, FAR + R] is accepted. |
| Frustums.DepthKeepsDistancePositive | srcs/frustum.py:35-41 | Once the depth check passes, the allowed distances `factor·R + sz·tan` are non-negative. |
| Frustums.FlippedAxesAgree | srcs/frustum.py:34-43 | Negating the up or right axis does not change the verdict, because the side checks are symmetric. |
| Cameras.PlayerBox | srcs/camera.py:127-132 | The player's box is non-degenerate on every axis. |
| Cameras.FloorRangeIsOverlap | srcs/camera.py:134-140 | An integer lies between the floors of a box's bounds iff its unit cell meets the closed interval. |
| Cameras.ClearIffNoSolidOverlap | srcs/camera.py:127-143 | `is_position_valid`'s cell scan succeeds iff no solid cell meets the player's box. |
| Cameras.Clamp | srcs/camera.py:105 | The clamped value lies in the limits, equals the input inside them, and equals the nearer limit outside. |
| Cameras.MoveTakesClearStep | srcs/camera.py:162-166 | When the full target is clear, the move reaches it. |
| Cameras.BlockedMoveSlides | srcs/camera.py:168-189 | When the target is blocked, each applied component is either the desired one or 0. A component is applied only if the step along that axis alone, from the old position, is clear. |
| Cameras.FullyBlockedMoveStays | srcs/camera.py:168-189 | When the target and all three single-axis steps are blocked, the camera stays where it was. |
| Cameras.MissesCornerCell | srcs/camera.py:127-143 | A box that stops short of cell (1, 0, 1) on x or z is clear in the one-block world. |
| Cameras.TouchesCornerCell | srcs/camera.py:127-143 | A box that meets cell (1, 0, 1) is blocked in the one-block world. |
| Cameras.CornerStepsClear | srcs/camera.py:170-186 | In the counterexample, the start and both single-axis steps are clear. |
| Cameras.CornerTargetBlocked | srcs/camera.py:162-164 | In the counterexample, the full target is blocked. |
| Cameras.MoveCutsCorners | srcs/camera.py:162-189 | As written, `move` can take a clear camera into a solid voxel: a diagonal step past a corner block ends inside it. |
| Cameras.MoveSequentialStaysClear | srcs/camera.py:168-189 | Corrected: resolving the axes in turn, each from the position already reached, keeps a clear camera clear. It agrees with `move` when the full target is clear, and each component is still either the desired one or 0. |
| Cameras.Camera.constructor | srcs/camera.py:47-62 | A new camera has the given position, yaw and pitch, up (0,1,0), right (1,0,0) and forward (0,0,−1). |
| Cameras.Camera.RotatePitch | srcs/camera.py:97-105 | The pitch becomes the old pitch minus the delta, clamped to [−PITCH_LIMIT, PITCH_LIMIT]. Nothing else changes. |
| Cameras.Camera.RotateYaw | srcs/camera.py:107-114 | The delta is added to the yaw. Nothing else changes. |
| Cameras.Camera.IsPositionValid | srcs/camera.py:116-143 | The nested cell scan answers true iff the position is clear. |
| Cameras.Camera.Move | srcs/camera.py:145-189 | As written: the position becomes the move target of the desired movement along the view axes. The orientation is unchanged. |
| Cameras.Camera.MoveSliding | srcs/camera.py:168-189 | Corrected move: the position becomes the sequential slide target, and a clear camera stays clear. |
| Cameras.Camera.SlideAxis | srcs/camera.py:171-174 | One axis of the corrected move: take the step if it is nonzero and clear. |
| Cameras.Camera.MoveForward | srcs/camera.py:192-194 | Moves by the velocity along forward, through the corrected move. |
| Cameras.Camera.MoveBackward | srcs/camera.py:196-198 | Moves by the negated velocity along forward, through the corrected move. |
| Cameras.Camera.MoveRight | srcs/camera.py:200-202 | Moves by the velocity along right, through the corrected move. |
| Cameras.Camera.MoveLeft | srcs/camera.py:204-206 | Moves by the negated velocity along right, through the corrected move. |
| Cameras.Camera.MoveUp | srcs/camera.py:208-210 | Moves by the velocity along up, through the corrected move. |
| Cameras.Camera.MoveDown | srcs/camera.py:212-214 | Moves by the negated velocity along up, through the corrected move. |
| Clouds.Cell | meshes/cloud_mesh.py:61 | The grid index `x + width*z` of an in-grid cell lies in the grid, and x and z are recovered from it by mod and div. |
| Clouds.IndexIsCell | meshes/cloud_mesh.py:92 | Every grid index is the index of one in-grid cell. |
| Clouds.GenerateClouds | meshes/cloud_mesh.py:46-63 | A cell becomes 1 where the noise at (0.13x, 0.13z) is at least 0.2. Every other cell keeps its old value. |
| Clouds.GeneratedCell | meshes/cloud_mesh.py:56-63 | The same fact, read at a raw grid index. |
| Clouds.CoveredIff | meshes/cloud_mesh.py:90-123 | A cell is covered iff some emitted rectangle contains it. |
| Clouds.QuadDataLayout | meshes/cloud_mesh.py:126-135 | A rectangle's 18 entries are the corners v0, v1, v2, v0, v3, v1 as written, all at height y. |
| Clouds.QuadTrianglesAgree | meshes/cloud_mesh.py:126-132 | Both triangles of a rectangle have the same orientation and together span its area. |
| Clouds.QuadsData | meshes/cloud_mesh.py:132-135 | Each rectangle contributes 18 entries. |
| Clouds.AddQuadKeepsTiling | meshes/cloud_mesh.py:120-123 | Adding a fresh rectangle and marking its cells visited preserves the scan invariant. The rectangles stay cloud-only, pairwise disjoint, and cover exactly the visited cells. |
| Clouds.ExtendRun | meshes/cloud_mesh.py:98-103 | The x run is at least 1, stays in the grid, holds only unvisited cloud cells, and is maximal. |
| Clouds.ExtendColumn | meshes/cloud_mesh.py:108-114 | The z extension of one column is at least 1, stays in the grid, holds only unvisited cloud cells beyond its start, and is maximal. |
| Clouds.ColumnExtents | meshes/cloud_mesh.py:106-115 | Collects one extension per column of the run, each valid for its column and each ending at a blocked cell. |
| Clouds.MinOf | meshes/cloud_mesh.py:118 | `min` returns an element no larger than any other. |
| Clouds.MarkVisited | meshes/cloud_mesh.py:120-123 | The visited set grows by exactly the rectangle's cells. |
| Clouds.EmitVertex | meshes/cloud_mesh.py:133-135 | Writes one vertex's three coordinates at the index and advances it by 3. Every other entry is left unchanged. |
| Clouds.EmitQuad | meshes/cloud_mesh.py:125-135 | Writes the rectangle's 18 entries at the index. Every other entry is left unchanged. |
| Clouds.FindQuad | meshes/cloud_mesh.py:98-118 | The rectangle found at an unvisited cloud cell starts there, lies in the grid, and holds only unvisited cloud cells. Its x run stops at the first blocked cell of the row (grid edge, no cloud, or visited), and its height is the smallest column extension: some column of the run is blocked just below it. |
| Clouds.GreedyUnique | meshes/cloud_mesh.py:98-118 | At a given corner and visited set, only one rectangle meets the greedy conditions. |
| Clouds.ScanStepUnique | meshes/cloud_mesh.py:81-118 | For a given visited set the scan's next rectangle is unique: its corner is the first unvisited cloud cell in row-major order, and its shape is the greedy one. |
| Clouds.GreedyScanPrefix | meshes/cloud_mesh.py:81-123 | Two rectangle lists that both follow the greedy scan agree on their common prefix. |
| Clouds.ScanStopsAtTiling | meshes/cloud_mesh.py:81-95 | Once the rectangles tile the cloud cells, the scan places no further rectangle. |
| Clouds.GreedyScanDetermined | meshes/cloud_mesh.py:81-135 | Two rectangle lists that each tile the cloud cells in greedy scan order are equal, so the mesh is a function of the cloud grid. |
| Clouds.VisitedIsCells | meshes/cloud_mesh.py:92-123 | The visited set is exactly the cells of the rectangles emitted so far. |
| Clouds.AddQuadKeepsScan | meshes/cloud_mesh.py:95-123 | Appending the greedy rectangle at the first unvisited cloud cell keeps the list in greedy scan order. |
| Clouds.ScannedNext | meshes/cloud_mesh.py:90-95 | After the scan passes a cell that is not cloud or is visited, every cloud cell before the next one is visited. |
| Clouds.ScannedRowEnd | meshes/cloud_mesh.py:90-91 | Finishing a row means every cloud cell of the rows so far is visited. |
| Clouds.ScanRow | meshes/cloud_mesh.py:91-135 | The x loop for one row keeps the tiling invariant and the greedy order, appends the data of each rectangle it places, and leaves every cloud cell up to the end of the row visited. |
| Clouds.PlaceQuad | meshes/cloud_mesh.py:98-135 | One merger step adds the greedy rectangle at (x, z), marks its cells, and appends its data. The scan invariant and the greedy order are kept, and the scan can move past (x, z). |
| Clouds.FillCloudMesh | meshes/cloud_mesh.py:80-135 | After the scan the rectangles tile exactly the cloud cells: each in the grid and cloud-only, pairwise disjoint, and covering every cloud cell. They come in greedy scan order, each the greedy rectangle at the first cloud cell the earlier ones leave uncovered, which fixes them (GreedyScanDetermined). There are no more rectangles than cloud cells, the index is 18 per rectangle within the buffer, and the buffer holds their data. |
| Clouds.BuildCloudMesh | meshes/cloud_mesh.py:67-138 | As written: the result starts with the data of the greedy rectangles and has one more entry, capped at the buffer size. |
| Clouds.BuildCloudMeshTrimmed | meshes/cloud_mesh.py:137-138 | Corrected: the result is exactly the rectangles' data, and the rectangles are the greedy tiling of the cloud cells. |
| Clouds.ClearSkyMeshAsWritten | meshes/cloud_mesh.py:80-138 | As written, a grid without clouds yields a one-entry mesh. |
| Clouds.GetVertexData | meshes/cloud_mesh.py:28-42 | Corrected, through the trimmed builder: the rectangles are in the grid and pairwise disjoint, and they cover a cell iff its noise reaches the threshold. They are the greedy tiling of that grid, and the mesh is exactly their data. The source's mesh has one more entry (meshes/cloud_mesh.py:138). |
| HudItem.HudArgsAt | meshes/hud_item_mesh.py:80-95 | Entry 3t + k of the packed arguments is corner k of triangle t. |
| HudItem.TriangleWellFormed | meshes/hud_item_mesh.py:38-57 | There are twelve triangles, each with three distinct vertex indices in [0, 8). |
| HudItem.HudArgsContents | meshes/hud_item_mesh.py:80-95 | There are 36 entries, each with coordinates 0 or 1, the item's voxel id and ao id 3. The first six have face id 2 and flip 1; the rest have flip 0 and face id 2, then 0 for the top pair and 1 for the bottom pair. |
| HudItem.TrianglesLieOnFaces | meshes/hud_item_mesh.py:26-57 | Each triangle lies in the cube face its pair is listed under. |
| HudItem.FaceIdsMatchGeometry | meshes/hud_item_mesh.py:65-86 | The packed face ids agree with the geometry: 0 on the top plane, 1 on the bottom plane, and 2 on a vertical face. |
| HudItem.HudItemMesh.constructor | meshes/hud_item_mesh.py:21 | The voxel id starts at 0. |
| HudItem.HudItemMesh.GetVertexData | meshes/hud_item_mesh.py:24-97 | Returns a fresh 36-entry array whose entry i is `pack_data` of the i-th packed argument tuple. |
| HudItem.HudItemMesh.PackTriangle | meshes/hud_item_mesh.py:89-95 | Packs the three corners of one triangle at the running index. Earlier entries are left unchanged. |
| Inventories.TextureValue | objects/texturing.py:9-23 | Every texture's value lies in 1..14. |
| Inventories.TextureOf | objects/texturing.py:9-23 | `Texture(v)` names a texture exactly for v in 1..14. |
| Inventories.TextureValueRoundTrip | objects/texturing.py:9-23 | Value and lookup are inverse in both directions. |
| Inventories.InitialStock | objects/inventory.py:6-13 | Ten slots; the first six hold distinct valid block ids and the last four are empty. |
| Inventories.Inventory.constructor | objects/inventory.py:5-14 | The slots are grass, stone, dirt, sand, wood and TNT followed by four empty slots. The selection is 0. |
| Inventories.Inventory.SelectSlot | objects/inventory.py:16-18 | An index in [0, 10) becomes the selection, and any other index leaves it unchanged. The slots never change, and the selection stays in range. |

## Left out

- Rendering: VAO/VBO creation, shaders, uniforms (`set_uniform`) and draw calls. `Chunk.render`
  is modelled by the flag saying whether the mesh would be drawn.
- `get_height`, `set_voxel_id`, `noise2` and `pack_data` are parameters. `set_voxel_id` is not
  part of this model: it is imported from srcs/terrain_generation.py but not defined there.
- `CLOUD_HEIGHT` is imported from objects/texturing.py but not defined there. It is the
  parameter `y`.
- Floating point is modelled as exact reals. `radians`, `cos`, `tan` and `sqrt` are not
  computed:
  - The frustum's `factor_x`, `tan_x`, `factor_y` and `tan_y` are fields, constrained only by
    `0 < tan < factor`.
  - CHUNK_SPHERE_RADIUS is a field whose square is 3·24².
  - PITCH_LIMIT is the camera's constant `pitchLimit > 0`.
  - The constructor's degree-to-radian conversion of yaw and pitch is left out.
- `update_vectors` and `update_view_matrix` (trigonometry and glm matrices) are left out. The
  view axes are camera fields that only the constructor sets.
- The camera's `world` is attached by the player after construction. Here it is a constant
  lookup function of the camera.
- Numeric widths are not modelled:
  - `uint8` chunk voxels and mesh bytes, `uint16` cloud entries and `uint32` HUD entries are
    unbounded integers.
  - Wrap-around of a value above the width is not modelled. The coordinates the model writes
    fit their widths: chunk coordinates are at most 48 and cloud coordinates at most 4800. Voxel
    ids come from the unseen setter, so their width is not modelled.
- ChunkMeshBuilder.FillChunkMesh, ChunkMeshBuilder.BuildChunkMesh,
  ChunkMeshBuilder.BuildChunkMeshTrimmed and Chunks.Chunk.BuildMesh require that the chunk's
  mesh data fit the buffer of CHUNK_VOLUME·18·format_size entries.
  - The source does not check this. Each face writes 30 entries, so a chunk with more than
    0.6 visible faces per voxel on average overflows the buffer, and numpy raises.
  - That failure is not modelled.
- Chunks.Chunk.BuildMesh and Clouds.GetVertexData use the trimmed slice of the corrected
  builders (see Findings). The source's `get_vertex_data` returns the `[: index + 1]` slice,
  one entry longer: an all-air chunk or a clear sky gives a one-entry mesh there and an empty
  one here. ChunkMeshBuilder.BuildChunkMesh and Clouds.BuildCloudMesh model that slice as
  written.
- Cameras.Camera.Move: the `GO_THROUGH` switch is the constant `false` of settings.py:10.
- Clouds.GetVertexData and Clouds.BuildCloudMesh: `set` membership and numba compilation are
  modelled as a Dafny `set` and plain code.
- The rectangles are a ghost out-parameter: the source does not keep them, only their data.
- The HUD cube's `voxel_id` is written by objects/hud.py, which is not part of this model.
- Inventory display, block placement, the world and voxel handler, water, clouds rendering,
  audio and input are outside the modelled core.

## Findings

| source | as written | input that shows it | evidently intended | confidence | as-written member | corrected member |
|---|---|---|---|---|---|---|
| meshes/chunk_mesh_builder.py:133 | `vertex_data[: index + 1]` returns one entry past the data written | a chunk of air only: nothing is written, yet a one-entry mesh comes back | `vertex_data[:index]`, exactly the written entries (30 per face) | not executed; follows from the slice bound | ChunkMeshBuilder.AirChunkMeshAsWritten | ChunkMeshBuilder.BuildChunkMeshTrimmed |
| meshes/cloud_mesh.py:138 | `mesh[: index + 1]` returns one entry past the data written | a grid with no cloud cell: a one-entry mesh, not a multiple of 3 | `mesh[:index]`, 18 entries per rectangle | not executed; follows from the slice bound | Clouds.ClearSkyMeshAsWritten | Clouds.BuildCloudMeshTrimmed |
| srcs/camera.py:168-189 | each axis is tested alone from the old position, but the clear axes are applied together | world solid only at (1, 0, 1); position (0.65, 0, 0.65); desired movement (0.1, 0, 0.1). The full target is blocked, both single-axis steps are clear, and the camera ends inside the block | sliding never moves the player into a solid voxel | not executed; medium, a design slip rather than a typo | Cameras.MoveCutsCorners | Cameras.MoveSequentialStaysClear |
