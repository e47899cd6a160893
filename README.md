# OpenGlGame1 voxel core, modelled in Dafny

This project models the core of an early revision of a voxel sandbox written in C++ with OpenGL. It covers these parts:

- **Chunk construction and meshing.** A 16 x 16 x 16 chunk is filled densely with DIRT. Meshing walks the blocks in storage order, and every block that is not AIR emits a full cube: 6 quads of 4 vertices, each vertex 8 floats, and 2 triangles per quad.
- **Unit-cube tables.** These are the corner, face, normal and texture-coordinate tables the mesher relies on, together with their geometry: faces lie on their normal's side and wind counter-clockwise seen from outside.
- **Vertex packing.** This is the RGBA byte layout of `packColor` and the clamping and quantisation of `packTexCoord`.
- **The OBJ reader.** This is its line dispatch and the table that merges repeated `(pos, uv, norm)` index triples into one output vertex.
- **The GLB model path.**
  - The vertex build and the widening index copy of `loadGLB`.
  - The load-once `getModel` cache.
- **Small state.**
  - Axis-aligned box overlap, and the mouse-look update of `firstMouse`, `lastX`/`lastY` and yaw/pitch with its pitch clamp.
  - The capped health update of a mob.
  - The xor hash used for `vec3` map keys.

Modules follow the source files:

| module | models |
|---|---|
| `Chunks` | `Chunk.cpp` |
| `BlockConstants` | `BlockConstants.cpp` |
| `VertexPacking` | `VertexPacking.h` |
| `ObjLoader` | `OBJLoader.cpp` |
| `ModelLoading` | `ModelLoader.cpp` and `Model.h` |
| `Players` | `Player.cpp` |
| `Mobs` | `Mob.cpp` |
| `Vec3Hashing` | `Vec3Hash.h` |

`Glm` holds the real-valued `Vec2`/`Vec3` types, and `Optional` holds an `Option` type.

These parts change state in place, so they are imperative Dafny:

- **The chunk.** It is `class Chunk`. Its constructor fills `blocks` in three nested loops. `GenerateMesh` walks the blocks in three nested loops and stores `indices`. `GenerateBlockFaces` appends to the vertex and index sequences while advancing `baseIndex`.
- **`LoadOBJ`.** A `while` loop runs over the lines, and a `for` loop over a face's corners does the lookup and insert on a `map`.
- **The model cache.** It is `class ModelLoader`, with a `modelCache` map field.
- **`loadGLB`.** Its vertex and index loops fill the fields of a fresh `Model` object.
- **Two field-updating methods.** `Player.ProcessMouseMovement` and `Mob.ChangeHealth` each update fields.

These methods are proved equal to a specification function:

- `Chunk.GenerateMesh` to `MeshVertices`/`MeshIndices`, `Chunk.MeshBlock` to one step of them, `Chunk.GenerateBlockFaces` to `CubeFloats`/`CubeIndices`, and the `Chunk` constructor to `DirtBlocks`;
- `LoadOBJ` to `Read`, `ReadLine` to `Step`, and `AddFace` to `AddCorners`;
- `WidenIndices` to `IndexElement`, and `PackTexCoord` to `TexComponent`;
- `Player.ProcessMouseMovement` to `Look`, and `Mob.ChangeHealth` to `HealthAfter`/`DeathReported`.

What the source promises is then proved of those functions as lemmas. `BuildVertices` is specified by per-vertex `ensures` clauses, which the predicate `VerticesFrom` collects. `LoadGLB` and `ModelLoader.GetModel` are specified by `Model.LoadedFrom`, which holds the default model on a failed load and otherwise the vertices, the widened indices and the GL names.

In this revision of the game:

- there is no terrain generator;
- there is no neighbour-aware face culling: every non-AIR block emits all six faces;
- a chunk is a dense `std::vector<Block>`.

Source paths below are relative to the repository root. Every core path starts with `ProjectFiles/OpenGlGame1/OpenGlGame1/`.

## Model

| member | source | states |
|---|---|---|
| BlockConstants.UnitCubeVertex | ProjectFiles/OpenGlGame1/OpenGlGame1/BlockConstants.cpp:3-12 | `unitCubeVertices`: corner c of the cube from (0,0,0) to (1,1,1); `UnitCubeVerticesAreTheBinaryCorners` proves the corners distinct and binary |
| BlockConstants.TexCoord | ProjectFiles/OpenGlGame1/OpenGlGame1/BlockConstants.cpp:14-17 | `texCoords`: the four corners of the unit texture square; `TexCoordsRunCounterClockwise` proves their order |
| BlockConstants.Normal | ProjectFiles/OpenGlGame1/OpenGlGame1/BlockConstants.cpp:19-23 | `normals`: the outward normal of each face; `NormalIsAxisUnit` and `OppositeFacesHaveOpposedNormals` prove its shape |
| BlockConstants.Face | ProjectFiles/OpenGlGame1/OpenGlGame1/BlockConstants.cpp:25-32 | `faces`: the four corner indices of each face in emission order; `FacesUseDistinctCorners`, `FacesLieOnNormalSide` and `FaceWindsCounterClockwise` prove its geometry |
| BlockConstants.FacesUseDistinctCorners | ProjectFiles/OpenGlGame1/OpenGlGame1/BlockConstants.cpp:25-32 | each of the six faces lists four pairwise distinct corner indices |
| BlockConstants.FacesLieOnNormalSide | ProjectFiles/OpenGlGame1/OpenGlGame1/BlockConstants.cpp:19-32 | every corner of face f has coordinate 1 on the axis where `normals[f]` is +1, and coordinate 0 where it is -1 |
| BlockConstants.FlatTriangleNormalIsAxial | ProjectFiles/OpenGlGame1/OpenGlGame1/BlockConstants.cpp:3-32 | a triangle whose corners share one coordinate has its edge cross product along that axis, so the face triangles' cross products are parallel to the normals |
| BlockConstants.FaceWindsCounterClockwise | ProjectFiles/OpenGlGame1/OpenGlGame1/BlockConstants.cpp:3-32 | both triangles (v0,v1,v2) and (v0,v2,v3) of every face have an edge cross product with positive component along the face normal: counter-clockwise seen from outside, the front side under the culling setting of Main.cpp |
| BlockConstants.FrontFaceWinds | ProjectFiles/OpenGlGame1/OpenGlGame1/BlockConstants.cpp:26 | the front face {3,2,1,0} winds counter-clockwise about (0,0,-1) |
| BlockConstants.BackFaceWinds | ProjectFiles/OpenGlGame1/OpenGlGame1/BlockConstants.cpp:27 | the back face {6,7,4,5} winds counter-clockwise about (0,0,1) |
| BlockConstants.LeftFaceWinds | ProjectFiles/OpenGlGame1/OpenGlGame1/BlockConstants.cpp:28 | the left face {7,3,0,4} winds counter-clockwise about (-1,0,0) |
| BlockConstants.RightFaceWinds | ProjectFiles/OpenGlGame1/OpenGlGame1/BlockConstants.cpp:29 | the right face {2,6,5,1} winds counter-clockwise about (1,0,0) |
| BlockConstants.TopFaceWinds | ProjectFiles/OpenGlGame1/OpenGlGame1/BlockConstants.cpp:30 | the top face {7,6,2,3} winds counter-clockwise about (0,1,0) |
| BlockConstants.BottomFaceWinds | ProjectFiles/OpenGlGame1/OpenGlGame1/BlockConstants.cpp:31 | the bottom face {0,1,5,4} winds counter-clockwise about (0,-1,0) |
| BlockConstants.EveryCornerInThreeFaces | ProjectFiles/OpenGlGame1/OpenGlGame1/BlockConstants.cpp:25-32 | every one of the 8 corners is used by exactly 3 faces |
| BlockConstants.DistinguishingCorner | ProjectFiles/OpenGlGame1/OpenGlGame1/BlockConstants.cpp:25-32 | for faces f < g it yields a corner on f and not on g, so the six faces are pairwise distinct |
| BlockConstants.NormalIsAxisUnit | ProjectFiles/OpenGlGame1/OpenGlGame1/BlockConstants.cpp:19-23 | every normal is an axis-aligned unit vector |
| BlockConstants.OppositeFacesHaveOpposedNormals | ProjectFiles/OpenGlGame1/OpenGlGame1/BlockConstants.cpp:19-23 | normals 0/1, 2/3 and 4/5 are negations of each other |
| BlockConstants.UnitCubeVerticesAreTheBinaryCorners | ProjectFiles/OpenGlGame1/OpenGlGame1/BlockConstants.cpp:3-12 | the 8 corners are pairwise distinct and have every coordinate in {0,1} |
| BlockConstants.TexCoordsRunCounterClockwise | ProjectFiles/OpenGlGame1/OpenGlGame1/BlockConstants.cpp:14-17 | the texture coordinates start at (0,0) and step along the unit square's edges, turning left: (0,0),(1,0),(1,1),(0,1) |
| Chunks.Unflatten | ProjectFiles/OpenGlGame1/OpenGlGame1/Chunk.cpp:27-30 | splits a storage slot into the (y, x, z) loop variables; `UnflattenFlatIndex` and `FlatIndexIsBijection` prove it inverts the flat index |
| Chunks.Origin | ProjectFiles/OpenGlGame1/OpenGlGame1/Chunk.cpp:69-71 | the world position of a block: chunk position times 16 plus the block position; `CubeVertexLayout` places every cube vertex relative to it |
| Chunks.MeshVertices | ProjectFiles/OpenGlGame1/OpenGlGame1/Chunk.cpp:27-36 | the floats the walk emits for a list of blocks in storage order; `MeshSizes`, `MeshStep` and `GenerateMesh` state its size, its step and its tie to the code |
| Chunks.MeshIndices | ProjectFiles/OpenGlGame1/OpenGlGame1/Chunk.cpp:27-36 | the indices the walk emits for a list of blocks; `MeshIndicesInRange` proves each one is below the number of vertices emitted |
| Chunks.FlatIndex | ProjectFiles/OpenGlGame1/OpenGlGame1/Chunk.cpp:30 | the storage slot y*256 + x*16 + z of in-chunk coordinates lies in [0, 4096) |
| Chunks.UnflattenFlatIndex | ProjectFiles/OpenGlGame1/OpenGlGame1/Chunk.cpp:27-30 | dividing a slot back into digits recovers the three loop variables that produced it |
| Chunks.FlatIndexIsBijection | ProjectFiles/OpenGlGame1/OpenGlGame1/Chunk.cpp:27-30 | every slot in [0, 4096) is reached by exactly one triple of loop variables in [0,16), so the walk visits every block once, in storage order |
| Chunks.DirtBlocks | ProjectFiles/OpenGlGame1/OpenGlGame1/Chunk.cpp:7-13 | the fill of the first n slots has n blocks |
| Chunks.DirtStep | ProjectFiles/OpenGlGame1/OpenGlGame1/Chunk.cpp:10 | the block pushed at loop variables (i,j,k) is DIRT at (i,j,k) and extends the fill by exactly the next slot |
| Chunks.DirtBlocksSnoc | ProjectFiles/OpenGlGame1/OpenGlGame1/Chunk.cpp:10 | the fill of n+1 slots is the fill of n slots plus DIRT at the position slot n encodes |
| Chunks.DirtBlocksContents | ProjectFiles/OpenGlGame1/OpenGlGame1/Chunk.cpp:7-13 | slot m of a new chunk is DIRT at the position its flat index encodes |
| Chunks.NewChunkLayout | ProjectFiles/OpenGlGame1/OpenGlGame1/Chunk.cpp:7-13 | a new chunk has 4096 blocks, and slot i*256 + j*16 + k is DIRT at position (i,j,k) |
| Chunks.LocalCubeVertices | ProjectFiles/OpenGlGame1/OpenGlGame1/Chunk.cpp:77-82 | `cubeVertices`: the 8 corners of the block at `pos` with size 1, in the order of the shared corner table; `LocalTablesMatch` proves it is `pos` plus the unit-cube corners |
| Chunks.LocalTexCoords | ProjectFiles/OpenGlGame1/OpenGlGame1/Chunk.cpp:85-88 | the mesher's `texCoords`: (0,0), (1,0), (1,1), (0,1); `LocalTablesMatch` proves it equal to the shared table |
| Chunks.LocalFaces | ProjectFiles/OpenGlGame1/OpenGlGame1/Chunk.cpp:91-98 | the mesher's `faces`: the six corner quadruples in front, back, left, right, top, bottom order; `LocalTablesMatch` proves it equal to the shared table |
| Chunks.LocalTablesMatch | ProjectFiles/OpenGlGame1/OpenGlGame1/Chunk.cpp:77-98 | the mesher's local corner table is pos plus the shared unit-cube corners, and its face and texture tables equal the shared ones |
| Chunks.VertexFloats | ProjectFiles/OpenGlGame1/OpenGlGame1/Chunk.cpp:108-115 | the eight floats pushed for one corner: its position, the tint (0.6, 0.4, 0.2) and its texture coordinate; `FaceFloatsLayout` places them at floats 8i .. 8i+8 |
| Chunks.FaceFloats | ProjectFiles/OpenGlGame1/OpenGlGame1/Chunk.cpp:107-116 | n corners of a face are 8n floats |
| Chunks.CubeFloats | ProjectFiles/OpenGlGame1/OpenGlGame1/Chunk.cpp:103-116 | n faces of a cube are 32n floats |
| Chunks.QuadIndices | ProjectFiles/OpenGlGame1/OpenGlGame1/Chunk.cpp:119-125 | the six indices pushed for one face with base b: the triangles (b, b+1, b+2) and (b, b+2, b+3); `CubeIndicesLayout` places them per face |
| Chunks.CubeIndices | ProjectFiles/OpenGlGame1/OpenGlGame1/Chunk.cpp:119-127 | n faces of a cube are 6n indices |
| Chunks.CubeIndicesLayout | ProjectFiles/OpenGlGame1/OpenGlGame1/Chunk.cpp:119-127 | face f of a cube based at b emits b+4f, b+4f+1, b+4f+2, b+4f, b+4f+2, b+4f+3, so each index lies in [b, b+24) |
| Chunks.FaceFloatsLayout | ProjectFiles/OpenGlGame1/OpenGlGame1/Chunk.cpp:107-116 | corner i of a face occupies floats 8i .. 8i+8: its offset corner, the tint and `texCoords[i]` |
| Chunks.CubeFloatsLayout | ProjectFiles/OpenGlGame1/OpenGlGame1/Chunk.cpp:103-116 | face f of a cube occupies floats 32f .. 32f+32 |
| Chunks.CubeVertexLayout | ProjectFiles/OpenGlGame1/OpenGlGame1/Chunk.cpp:69-116 | vertex 4f+i of a cube is the block's world origin plus unit-cube corner `faces[f][i]`, with tint (0.6,0.4,0.2) and texture coordinate `texCoords[i]` |
| Chunks.SolidCount | ProjectFiles/OpenGlGame1/OpenGlGame1/Chunk.cpp:31 | the number of non-AIR blocks is at most the number of blocks |
| Chunks.MeshSizes | ProjectFiles/OpenGlGame1/OpenGlGame1/Chunk.cpp:27-36 | the mesh has 192 floats (24 vertices) and 36 indices per non-AIR block, and nothing for AIR |
| Chunks.MeshIndicesInRange | ProjectFiles/OpenGlGame1/OpenGlGame1/Chunk.cpp:100-127 | every emitted index is below the number of vertices emitted |
| Chunks.AllDirtIsSolid | ProjectFiles/OpenGlGame1/OpenGlGame1/Chunk.cpp:7-13 | every block of a new chunk is non-AIR |
| Chunks.DirtChunkMesh | ProjectFiles/OpenGlGame1/OpenGlGame1/Chunk.cpp:27-36 | a full DIRT chunk meshes to 4096 cubes: 24,576 faces, 98,304 vertices and 147,456 indices, each index below 98,304 and within 32 bits |
| Chunks.MeshStep | ProjectFiles/OpenGlGame1/OpenGlGame1/Chunk.cpp:31-33 | an AIR block leaves the mesh unchanged; any other block appends its cube, based at the vertex count so far |
| Chunks.Chunk.constructor | ProjectFiles/OpenGlGame1/OpenGlGame1/Chunk.cpp:5-14 | the chunk stores its position, its blocks are the dense DIRT fill of 4096 slots, and its index list is empty |
| Chunks.Chunk.GenerateBlockFaces | ProjectFiles/OpenGlGame1/OpenGlGame1/Chunk.cpp:66-129 | appends exactly the cube's 192 floats and its 36 indices, based at the float count divided by 8 |
| Chunks.Chunk.MeshBlock | ProjectFiles/OpenGlGame1/OpenGlGame1/Chunk.cpp:30-33 | after handling slot n, the buffers are the mesh of the first n+1 blocks |
| Chunks.Chunk.GenerateMesh | ProjectFiles/OpenGlGame1/OpenGlGame1/Chunk.cpp:22-36 | the returned vertices and the stored `indices` are the mesh of all blocks in storage order |
| Chunks.RemeshIsIdempotent | ProjectFiles/OpenGlGame1/OpenGlGame1/Chunk.cpp:22-36 | meshing an unchanged chunk twice returns the same vertices and leaves the same `indices` both times, because `indices` is cleared first (line 24) |
| Chunks.AddChunks | ProjectFiles/OpenGlGame1/OpenGlGame1/Main.cpp:283-287 | the one chunk at (1,0,0) meshes to 98,304 vertices and 147,456 indices, each below 98,304 |
| VertexPacking.Quantise | ProjectFiles/OpenGlGame1/OpenGlGame1/VertexPacking.h:15-25 | clamp to [0,1], scale by top and truncate; `QuantiseRange` and `QuantiseMonotone` state its range and order |
| VertexPacking.ChannelByte | ProjectFiles/OpenGlGame1/OpenGlGame1/VertexPacking.h:15-17 | one colour channel as a byte; `ChannelByteProperties` states its values |
| VertexPacking.PackRGBA | ProjectFiles/OpenGlGame1/OpenGlGame1/VertexPacking.h:19 | the four bytes shifted into one word, red lowest; `UnpackRGBA` recovers each byte |
| VertexPacking.PackColor | ProjectFiles/OpenGlGame1/OpenGlGame1/VertexPacking.h:14-20 | `packColor`: the three channel bytes with alpha 255; `PackColorLayout` states its layout |
| VertexPacking.TexComponent | ProjectFiles/OpenGlGame1/OpenGlGame1/VertexPacking.h:24-25 | one texture coordinate as a 16-bit value; `TexComponentProperties` states its values |
| VertexPacking.PackedVertex.WellFormed | ProjectFiles/OpenGlGame1/OpenGlGame1/VertexPacking.h:5-12 | `PackedVertex`: the field widths are given by the subset types (16-bit signed position components, a 32-bit colour, 16-bit unsigned texture components, a 32-bit signed normal), and `WellFormed` holds the array lengths: 3 position components and 2 texture components |
| VertexPacking.Clamp01 | ProjectFiles/OpenGlGame1/OpenGlGame1/VertexPacking.h:15 | the clamp lies in [0,1], is 0 at or below 0, 1 at or above 1, and the identity in between |
| VertexPacking.QuantiseRange | ProjectFiles/OpenGlGame1/OpenGlGame1/VertexPacking.h:15-17 | floor(clamp(c,0,1)*top) lies in [0, top], is 0 for c <= 0 and top for c >= 1 |
| VertexPacking.QuantiseMonotone | ProjectFiles/OpenGlGame1/OpenGlGame1/VertexPacking.h:24-25 | quantisation never reverses the order of two inputs |
| VertexPacking.ChannelByteProperties | ProjectFiles/OpenGlGame1/OpenGlGame1/VertexPacking.h:15-17 | a channel byte is floor(clamp(c,0,1)*255), is 0 for c <= 0 and 255 for c >= 1, and is monotone |
| VertexPacking.UnpackRGBA | ProjectFiles/OpenGlGame1/OpenGlGame1/VertexPacking.h:19 | shifting and masking the packed word recovers r (bits 0-7), g (8-15), b (16-23) and a (24-31) |
| VertexPacking.PackColorLayout | ProjectFiles/OpenGlGame1/OpenGlGame1/VertexPacking.h:14-20 | bits 24-31 of a packed colour are always 255, and its low three bytes are the red, green and blue channel bytes |
| VertexPacking.PackTexCoord | ProjectFiles/OpenGlGame1/OpenGlGame1/VertexPacking.h:22-26 | writes the two quantised coordinates into `outTex[0]` and `outTex[1]` and changes no other element |
| VertexPacking.TexComponentProperties | ProjectFiles/OpenGlGame1/OpenGlGame1/VertexPacking.h:24-25 | 0 maps to 0, 1 maps to 65535, out-of-range inputs are clamped first, and the map is monotone |
| Vec3Hashing.Combine | ProjectFiles/OpenGlGame1/OpenGlGame1/Vec3Hash.h:7 | the xor of the three component hashes; `CombineIsSymmetric` and `CombineCancels` state its algebra |
| Vec3Hashing.Hash | ProjectFiles/OpenGlGame1/OpenGlGame1/Vec3Hash.h:5-8 | `Vec3Hash::operator()` for a per-float hash h; `HashIgnoresOrder` and `MirroredPositionsCollide` state its collisions |
| Vec3Hashing.CombineIsSymmetric | ProjectFiles/OpenGlGame1/OpenGlGame1/Vec3Hash.h:7 | the xor of three hashes is unchanged by each transposition of its arguments |
| Vec3Hashing.CombineCancels | ProjectFiles/OpenGlGame1/OpenGlGame1/Vec3Hash.h:7 | two equal arguments of the xor cancel |
| Vec3Hashing.HashIgnoresOrder | ProjectFiles/OpenGlGame1/OpenGlGame1/Vec3Hash.h:7 | all six orderings of a vector's components hash alike, whatever the float hash is |
| Vec3Hashing.MirroredPositionsCollide | ProjectFiles/OpenGlGame1/OpenGlGame1/Vec3Hash.h:7 | (16,0,32) and (32,0,16) collide |
| Vec3Hashing.EqualComponentsCancel | ProjectFiles/OpenGlGame1/OpenGlGame1/Vec3Hash.h:7 | (a,a,c) hashes to h(c), the same as (b,b,c) |
| Vec3Hashing.EqualVectorsHashEqually | ProjectFiles/OpenGlGame1/OpenGlGame1/Vec3Hash.h:5-8 | vectors with equal components hash equally, as a map key needs |
| Mobs.HealthAfter | ProjectFiles/OpenGlGame1/OpenGlGame1/Mob.cpp:8-9 | the sum of health and amount, capped above at the maximum; `HealthIsCappedSum` states what it is |
| Mobs.DeathReported | ProjectFiles/OpenGlGame1/OpenGlGame1/Mob.cpp:9-12 | whether "dead" is printed: the sum was not capped and is at or below 0; `DeathReportedExactly` states it in terms of the new health |
| Mobs.Mob.constructor | ProjectFiles/OpenGlGame1/OpenGlGame1/Mob.cpp:4-5 | a new mob holds the given model and position and has yaw 0 |
| Mobs.HealthIsCappedSum | ProjectFiles/OpenGlGame1/OpenGlGame1/Mob.cpp:8-9 | the new health is min(old + amount, maxHealth) |
| Mobs.HealthCanGoNegative | ProjectFiles/OpenGlGame1/OpenGlGame1/Mob.cpp:11-12 | there is no lower cap: 10 - 25 with maximum 100 leaves -15 |
| Mobs.DeathReportedExactly | ProjectFiles/OpenGlGame1/OpenGlGame1/Mob.cpp:9-12 | "dead" is reported exactly when the new health is at or below 0 and was not capped |
| Mobs.Mob.ChangeHealth | ProjectFiles/OpenGlGame1/OpenGlGame1/Mob.cpp:7-14 | only `health` changes, to the capped sum, and the death report is returned exactly as above |
| Players.Intersects | ProjectFiles/OpenGlGame1/OpenGlGame1/Player.cpp:190-194 | strict overlap of two boxes on all three axes; `IntersectsIsSymmetric`, `TouchingBoxesDoNotIntersect` and `SelfIntersection` state its behaviour |
| Players.InitialLook | ProjectFiles/OpenGlGame1/OpenGlGame1/Player.h:54-60 | the look state of a new player; `FirstEventDoesNotTurn` and `PitchStaysClampedFromStart` start from it |
| Players.Look | ProjectFiles/OpenGlGame1/OpenGlGame1/Player.cpp:34-58 | one mouse event applied to the look state; `LookUpdatesPosition` states its effect |
| Players.LookAll | ProjectFiles/OpenGlGame1/OpenGlGame1/Player.cpp:32-58 | a sequence of mouse events applied in order; `PitchStaysClamped` proves the pitch bound is kept |
| Players.IntersectsIsSymmetric | ProjectFiles/OpenGlGame1/OpenGlGame1/Player.cpp:190-194 | intersects(a,b) holds exactly when intersects(b,a) does |
| Players.TouchingBoxesDoNotIntersect | ProjectFiles/OpenGlGame1/OpenGlGame1/Player.cpp:191-193 | boxes that only touch on one axis do not intersect, either way round |
| Players.SelfIntersection | ProjectFiles/OpenGlGame1/OpenGlGame1/Player.cpp:191-193 | a box intersects itself exactly when it has positive extent on all three axes |
| Players.ClampPitch | ProjectFiles/OpenGlGame1/OpenGlGame1/Player.cpp:55-58 | the result lies in [-89, 89] and equals the input when the input already does |
| Players.LookUpdatesPosition | ProjectFiles/OpenGlGame1/OpenGlGame1/Player.cpp:34-58 | after an event, lastX/lastY are the event's position, firstMouse is off, pitch is within [-89, 89], and yaw moves by a tenth of the horizontal offset |
| Players.FirstEventDoesNotTurn | ProjectFiles/OpenGlGame1/OpenGlGame1/Player.cpp:34-52 | the first event after construction leaves yaw -90 and pitch 0 and turns firstMouse off |
| Players.PitchStaysClamped | ProjectFiles/OpenGlGame1/OpenGlGame1/Player.cpp:55-58 | from a pitch in [-89, 89], any sequence of events keeps pitch in [-89, 89] |
| Players.PitchStaysClampedFromStart | ProjectFiles/OpenGlGame1/OpenGlGame1/Player.h:55 | from the initial pitch 0, any sequence of events keeps pitch in [-89, 89] |
| Players.Player.constructor | ProjectFiles/OpenGlGame1/OpenGlGame1/Player.cpp:4-5 | a new player starts with firstMouse on (the initialiser list) and, from the member initialisers at Player.h:54-60, last position (400, 300), yaw -90 and pitch 0 |
| Players.Player.ProcessMouseMovement | ProjectFiles/OpenGlGame1/OpenGlGame1/Player.cpp:32-58 | the new look state is the event's update of the old one |
| ObjLoader.ZeroBased | ProjectFiles/OpenGlGame1/OpenGlGame1/OBJLoader.cpp:67 | the decrement of each component of a raw triple; `CornerEffect` and `LoadedIndicesNamePositions` use the zero-based triple |
| ObjLoader.Step | ProjectFiles/OpenGlGame1/OpenGlGame1/OBJLoader.cpp:43-82 | the dispatch on one line; `LineEffect` states its effect per line kind, and `ReadLine` is proved equal to it |
| ObjLoader.PositionsOf | ProjectFiles/OpenGlGame1/OpenGlGame1/OBJLoader.cpp:43-47 | a file has no more "v" payloads than lines |
| ObjLoader.TexCoordsOf | ProjectFiles/OpenGlGame1/OpenGlGame1/OBJLoader.cpp:48-52 | a file has no more "vt" payloads than lines |
| ObjLoader.NormalsOf | ProjectFiles/OpenGlGame1/OpenGlGame1/OBJLoader.cpp:53-57 | a file has no more "vn" payloads than lines |
| ObjLoader.AddCorner | ProjectFiles/OpenGlGame1/OpenGlGame1/OBJLoader.cpp:69-80 | handling a corner never changes the temporary position, uv and normal lists |
| ObjLoader.AddCorners | ProjectFiles/OpenGlGame1/OpenGlGame1/OBJLoader.cpp:59-81 | handling a face's corners never changes the temporary lists |
| ObjLoader.Read | ProjectFiles/OpenGlGame1/OpenGlGame1/OBJLoader.cpp:38-84 | after reading lines, the temporary lists are exactly the "v", "vt" and "vn" payloads in file order |
| ObjLoader.ReadStep | ProjectFiles/OpenGlGame1/OpenGlGame1/OBJLoader.cpp:38-84 | reading one more line is one more dispatch step on the state so far |
| ObjLoader.LineEffect | ProjectFiles/OpenGlGame1/OpenGlGame1/OBJLoader.cpp:43-82 | "v", "vt" and "vn" lines append exactly one entry to their own list and change nothing else; an "f" line appends exactly 3 indices after the old ones; any other line changes nothing |
| ObjLoader.CornersAppendIndices | ProjectFiles/OpenGlGame1/OpenGlGame1/OBJLoader.cpp:80 | each handled corner appends exactly one index and keeps the earlier ones |
| ObjLoader.CornerEffect | ProjectFiles/OpenGlGame1/OpenGlGame1/OBJLoader.cpp:67-80 | a zero-based triple already in the table re-emits its index and adds nothing else; a new one gets index |positions|, is stored in the table, copies its position, and copies its uv (the value read, not flipped) and normal only when that index is not negative |
| ObjLoader.InitialConsistent | ProjectFiles/OpenGlGame1/OpenGlGame1/OBJLoader.cpp:25-29 | the empty reader satisfies the dedup invariant |
| ObjLoader.TableGrows | ProjectFiles/OpenGlGame1/OpenGlGame1/OBJLoader.cpp:70 | giving a new triple the next number keeps the table a bijection onto 0 .. n-1 |
| ObjLoader.CopiedGrows | ProjectFiles/OpenGlGame1/OpenGlGame1/OBJLoader.cpp:70-71 | after a miss, every table entry still names the output position its triple refers to |
| ObjLoader.EmittedNew | ProjectFiles/OpenGlGame1/OpenGlGame1/OBJLoader.cpp:70-80 | after a miss, the indices are still the table entries of the corners read, in order |
| ObjLoader.EmittedHit | ProjectFiles/OpenGlGame1/OpenGlGame1/OBJLoader.cpp:69-80 | after a hit, the indices are still the table entries of the corners read, in order |
| ObjLoader.CoveredGrows | ProjectFiles/OpenGlGame1/OpenGlGame1/OBJLoader.cpp:70 | the table holds only triples that were read |
| ObjLoader.NewCornerConsistent | ProjectFiles/OpenGlGame1/OpenGlGame1/OBJLoader.cpp:69-80 | a new triple keeps the dedup invariant |
| ObjLoader.SeenCornerConsistent | ProjectFiles/OpenGlGame1/OpenGlGame1/OBJLoader.cpp:69-80 | a triple seen before keeps the dedup invariant |
| ObjLoader.AddCornerConsistent | ProjectFiles/OpenGlGame1/OpenGlGame1/OBJLoader.cpp:69-80 | every corner keeps the dedup invariant |
| ObjLoader.FaceConsistent | ProjectFiles/OpenGlGame1/OpenGlGame1/OBJLoader.cpp:59-81 | a face line keeps the dedup invariant, with its three zero-based corners appended to the corners read |
| ObjLoader.TempGrowthConsistent | ProjectFiles/OpenGlGame1/OpenGlGame1/OBJLoader.cpp:43-57 | appending to the temporary lists keeps the dedup invariant |
| ObjLoader.ReadConsistent | ProjectFiles/OpenGlGame1/OpenGlGame1/OBJLoader.cpp:38-84 | after any well-indexed file, the table is a bijection from the distinct triples read onto the output vertices, each output position is the position its triple names, and the indices are the table entries of the corners in order |
| ObjLoader.CornersPerFace | ProjectFiles/OpenGlGame1/OpenGlGame1/OBJLoader.cpp:59 | each face line contributes exactly three corners |
| ObjLoader.LoadedIndicesNamePositions | ProjectFiles/OpenGlGame1/OpenGlGame1/OBJLoader.cpp:58-82 | the output has 3 indices per face line, each names an output vertex, and that vertex's position is the one the corner's triple refers to |
| ObjLoader.LoadedIndicesShareExactly | ProjectFiles/OpenGlGame1/OpenGlGame1/OBJLoader.cpp:69-80 | two corners get the same index exactly when they carry the same triple |
| ObjLoader.LoadedPositionsCountTriples | ProjectFiles/OpenGlGame1/OpenGlGame1/OBJLoader.cpp:70-77 | there is one output position per distinct triple, and no more uvs or normals than positions |
| ObjLoader.AddFace | ProjectFiles/OpenGlGame1/OpenGlGame1/OBJLoader.cpp:59-81 | the corner loop of an "f" line produces exactly the state the specification of three corners gives |
| ObjLoader.ReadLine | ProjectFiles/OpenGlGame1/OpenGlGame1/OBJLoader.cpp:43-82 | the dispatch on one line's prefix produces exactly the specification's step: one appended entry for "v", "vt" and "vn", the three corners for "f", nothing otherwise |
| ObjLoader.LoadOBJ | ProjectFiles/OpenGlGame1/OpenGlGame1/OBJLoader.cpp:24-86 | a file that cannot be opened gives empty data; otherwise the data is that of reading every line in order |
| ModelLoading.ShortAt | ProjectFiles/OpenGlGame1/OpenGlGame1/ModelLoader.cpp:102-105 | element i of a little-endian 16-bit buffer; `ShortBytesRoundTrip` proves it reads back what was written |
| ModelLoading.WordAt | ProjectFiles/OpenGlGame1/OpenGlGame1/ModelLoader.cpp:106-109 | element i of a little-endian 32-bit buffer; `WordBytesRoundTrip` proves it reads back what was written |
| ModelLoading.IndexElement | ProjectFiles/OpenGlGame1/OpenGlGame1/ModelLoader.cpp:97-109 | index i of the accessor: a 16-bit element for unsigned short and a 32-bit word otherwise; `WidenIndices` is proved equal to it |
| ModelLoading.ShortBytes | ProjectFiles/OpenGlGame1/OpenGlGame1/ModelLoader.cpp:102-105 | a 16-bit buffer has two bytes per element |
| ModelLoading.WordBytes | ProjectFiles/OpenGlGame1/OpenGlGame1/ModelLoader.cpp:106-109 | a 32-bit buffer has four bytes per element |
| ModelLoading.ShortBytesRoundTrip | ProjectFiles/OpenGlGame1/OpenGlGame1/ModelLoader.cpp:102-105 | reading element i of a little-endian 16-bit buffer gives back the i-th value written |
| ModelLoading.WordBytesRoundTrip | ProjectFiles/OpenGlGame1/OpenGlGame1/ModelLoader.cpp:106-109 | reading element i of a little-endian 32-bit buffer gives back the i-th value written |
| ModelLoading.DigitsRecombine | ProjectFiles/OpenGlGame1/OpenGlGame1/ModelLoader.cpp:106-109 | a 32-bit value is the little-endian sum of its four bytes |
| ModelLoading.ShortIndicesRoundTrip | ProjectFiles/OpenGlGame1/OpenGlGame1/ModelLoader.cpp:102-105 | an unsigned-short index accessor written from a list reads back as that list |
| ModelLoading.WordIndicesRoundTrip | ProjectFiles/OpenGlGame1/OpenGlGame1/ModelLoader.cpp:106-109 | an unsigned-int index accessor written from a list reads back as that list |
| ModelLoading.WidenIndices | ProjectFiles/OpenGlGame1/OpenGlGame1/ModelLoader.cpp:97-109 | the output has the accessor's count, and element i is source element i widened to 32 bits: the 16-bit element (below 65536) for unsigned short, the 32-bit word otherwise |
| ModelLoading.BuildVertices | ProjectFiles/OpenGlGame1/OpenGlGame1/ModelLoader.cpp:80-94 | one vertex per POSITION element, with its position; normal (0,1,0) when there is no NORMAL and the stored normal otherwise; texture coordinate (0,0) when there is no TEXCOORD_0 and the stored one otherwise |
| ModelLoading.Model.constructor | ProjectFiles/OpenGlGame1/OpenGlGame1/Model.h:22 | a new model has every handle 0 and no geometry |
| ModelLoading.VerticesFrom | ProjectFiles/OpenGlGame1/OpenGlGame1/ModelLoader.cpp:80-94 | vertex i has position i, normal i or (0,1,0) without NORMAL, and texture coordinate i or (0,0) without TEXCOORD_0; one vertex per POSITION element |
| ModelLoading.IndicesFrom | ProjectFiles/OpenGlGame1/OpenGlGame1/ModelLoader.cpp:97-109 | one index per accessor element, each the element widened to 32 bits |
| ModelLoading.Model.LoadedFrom | ProjectFiles/OpenGlGame1/OpenGlGame1/ModelLoader.cpp:19-127 | the default model when the file does not load or there is no GL context (lines 24-34), otherwise `VerticesFrom`, `IndicesFrom` and the handed-out GL names (lines 116-127) |
| ModelLoading.LoadGLB | ProjectFiles/OpenGlGame1/OpenGlGame1/ModelLoader.cpp:19-180 | the fresh model is `LoadedFrom` the source: a file that does not load or a missing GL context gives a default model; otherwise vertex i has position i, normal i or (0,1,0), and texture coordinate i or (0,0), index i is element i widened to 32 bits, and the GL names are the ones handed out |
| ModelLoading.ModelLoader.constructor | ProjectFiles/OpenGlGame1/OpenGlGame1/ModelLoader.cpp:7 | stands for the empty initialisation of the static `modelCache`: the cache starts empty and nothing has been loaded |
| ModelLoading.ModelLoader.GetModel | ProjectFiles/OpenGlGame1/OpenGlGame1/ModelLoader.cpp:9-16 | on a miss it loads the path once and caches the result, which is `LoadedFrom` the source (a failed load caches the default model), under that path; on a hit it loads nothing and changes nothing; either way it returns the cached entry, adds at most that one key and leaves other entries alone |
| ModelLoading.TwoBees | ProjectFiles/OpenGlGame1/OpenGlGame1/Bee.cpp:10 | two models fetched for the same path are the same object, the file is loaded at most once between them, and a first fetch that misses returns the model loaded from the source |

## Left out

- GL calls: buffer and vertex-array creation, attribute setup, drawing, deletion and `checkGLError`. The GL object names `loadGLB` obtains are inputs (`Handles`).
- The texture load of `loadGLB` (ModelLoader.cpp:163-175), `loadTexture` and `loadFallbackTexture` are not modelled; the texture name is an input.
- ModelLoading.LoadGLB: inputs on which the code throws or reads out of bounds fall outside the model, since `Primitive` cannot represent them. These are a primitive without POSITION (`attributes.at` throws, ModelLoader.cpp:56), a non-indexed primitive (`accessors[prim.indices]` reads index -1, line 97), and a file without meshes or primitives (`meshes[0]` and `primitives[0]` are unchecked, lines 52-53).
- ModelLoading.ModelLoader.GetModel: the cache is a `static` member in the code (ModelLoader.h:17, ModelLoader.cpp:7), so the program has exactly one. The model makes it the field of one `ModelLoader` object, and two such objects would cache separately.
- tinygltf parsing is not modelled. `loadGLB` takes the parsed first primitive, or None when loading fails, and whether a GL context is current, as a `GlbSource`. `ModelLoading.ModelLoader.GetModel` takes that source as a parameter.
- OBJ file reading and tokenising are not modelled. Lines arrive pre-parsed. A face line carries the three raw triples the tokeniser produced, with -1 for a missing component, so "p//n" arrives with the normal index in the uv slot, as the code reads it.
- ObjLoader.LoadOBJ: requires every face corner to name an existing entry (`WellIndexed`), because the code indexes its temporary lists unchecked.
- ObjLoader.LoadOBJ: the body of the line loop is the helper `ReadLine`, and the corner loop of a face line is the helper `AddFace`; in the code both are written inline.
- ObjLoader.AddFace: the flipped uv is computed and then discarded, as in the code, and the uv stored is the one read.
- The hash of `VertexKey` is replaced by map semantics: only key equality matters to the dedup.
- ObjLoader.Read: output indices are unbounded integers; the cast to a 32-bit `unsigned int` is not modelled.
- Chunks.Chunk.GenerateMesh: indices are unbounded integers; the 32-bit wrap of `unsigned int` is not modelled. `Chunks.DirtChunkMesh` shows that every index of a full chunk fits.
- Chunks.Chunk.GenerateMesh: the index list is built in a local and stored in `indices` once the walk is over, where the code clears the field and appends to it. The final state is the same.
- Chunks.Chunk.GenerateMesh: the inner loop's body is the helper `MeshBlock`; in the code it is written inline.
- The chunk's `render` and destructor are not modelled.
- Floating point is not modelled; floats are exact reals.
  - Float-to-integer conversions in `packColor`/`packTexCoord` are the floor of an exact real product.
  - The tint and uv constants are taken as exact.
- `packNormal` is not modelled. It is a wrapper over a library packing function.
- The trigonometry that derives `cameraFront` from yaw and pitch is not modelled (Player.cpp:61-64).
- `Player::playerMovement`, `update`, `spawn` and `getViewMatrix` are not modelled. `playerMovement` (Player.cpp:67-187) is float physics driven by key polling over a different chunk layout; `update` (Player.cpp:26-29) only forwards to it; `spawn` (Player.cpp:22-24) and `getViewMatrix` (Player.cpp:198-200) only set or read the camera, which is float glm state.
- The player's GLFW callback registration is not modelled.
- Players.Player.ProcessMouseMovement: the offsets are computed in exact reals, without the float/double conversions.
- `Frustum`, `Main.cpp` (apart from `addChunks`), `Shader.h` and `MeshData.h` are not modelled.
- `Mob`'s `render`, `spawn` and `update` are not modelled. The constructor does not initialise `health`, `maxHealth` or `passive`, so in the code they hold indeterminate values; the model's constructor leaves Dafny's defaults there and promises nothing about them.
- Mobs.Mob.ChangeHealth: the "dead" message is returned as a boolean instead of printed.
- The logging in `Bee.cpp` is not modelled.
- `Model::draw` and `~Model` are not modelled. One consequence is not captured: the temporary `Model` that `loadGLB` returns is copied into the cache and then destroyed, and its destructor deletes GL names the cached copy still holds.
- ModelLoading.BuildVertices: requires `Readable`, that is, 3·count position floats and, where present, 3·count normal and 2·count texture floats. `WidenIndices` requires `IndexReadable`, and `LoadGLB` and `ModelLoader.GetModel` require `SourceReadable`. The code never checks the accessor lengths against the POSITION count, so a short buffer is read out of bounds there; the model does not describe that case.
- ModelLoading.WidenIndices: any component type other than unsigned short, including unsigned byte, is read as 32-bit words, as the code does.
- ModelLoading.WidenIndices: the code's `int` loop counter against the unsigned count is taken as an unbounded counter.
- Vec3Hashing.Hash: the per-float hash is a parameter, and `size_t` is taken to be 64 bits.
- BlockConstants.FaceWindsCounterClockwise: the winding is stated as the sign of the cross product along the normal, not as equality with the normal. Together with `BlockConstants.FlatTriangleNormalIsAxial` and `BlockConstants.FacesLieOnNormalSide`, this makes the cross product a positive multiple of the normal.
