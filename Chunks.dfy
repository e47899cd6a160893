/** A cubic chunk of 16 x 16 x 16 blocks and the triangle mesh it emits. Every block
    that is not AIR contributes a full cube: 6 quads of 4 vertices, each vertex 8 floats
    (position, colour, texture coordinate), and 2 triangles (6 indices) per quad. The
    vertex stream is a `seq<real>`: positions are integer-valued and the tint and
    texture values are taken as exact. */
module Chunks {
  import opened BlockConstants

  /** `Chunk::chunkSize`. */
  const ChunkSize: int := 16

  /** The number of blocks in a chunk, chunkSize cubed. */
  const ChunkVolume: int := 4096

  /** Floats per emitted vertex: 3 position, 3 colour, 2 texture coordinate. */
  const FloatsPerVertex: int := 8

  /** The constant tint given to every vertex. */
  const TintR: real := 0.6
  const TintG: real := 0.4
  const TintB: real := 0.2

  datatype BlockType = Air | Dirt | Stone | Grass | Water

  datatype Block = Block(kind: BlockType, position: Vec3i)

  /** A coordinate inside a chunk. */
  type Local = i: int | 0 <= i < 16

  /** The storage slot of the block at (a, b, c): the outermost loop variable varies
      slowest. */
  function FlatIndex(a: Local, b: Local, c: Local): (n: int)
    ensures 0 <= n < ChunkVolume
  {
    a * 256 + b * 16 + c
  }

  /** The inverse of `FlatIndex`: the three loop variables that reach slot n. */
  function Unflatten(n: int): Vec3i
    requires 0 <= n < ChunkVolume
  {
    Vec3i(n / 256, (n / 16) % 16, n % 16)
  }

  lemma UnflattenFlatIndex(a: Local, b: Local, c: Local)
    ensures Unflatten(FlatIndex(a, b, c)) == Vec3i(a, b, c)
  {
    var n := a * 256 + b * 16 + c;
    assert n / 256 == a;
    assert n / 16 == a * 16 + b;
    assert (a * 16 + b) % 16 == b;
    assert n % 16 == c;
  }

  /** Slot n holds the block reached by the loop variables `Unflatten(n)`; each slot is
      reached exactly once, so the block walk visits every block once, in storage order. */
  lemma FlatIndexIsBijection(n: int)
    requires 0 <= n < ChunkVolume
    ensures 0 <= Unflatten(n).x < 16 && 0 <= Unflatten(n).y < 16 && 0 <= Unflatten(n).z < 16
    ensures FlatIndex(Unflatten(n).x, Unflatten(n).y, Unflatten(n).z) == n
  {
    var a, b, c := n / 256, (n / 16) % 16, n % 16;
    assert n / 16 == a * 16 + b;
    assert n == a * 256 + b * 16 + c;
  }

  /** The blocks a new chunk holds: all DIRT, slot n at position `Unflatten(n)`. */
  function DirtBlocks(n: int): (s: seq<Block>)
    requires 0 <= n <= ChunkVolume
    ensures |s| == n
  {
    if n == 0 then [] else DirtBlocks(n - 1) + [Block(Dirt, Unflatten(n - 1))]
  }

  /** The block the fill loop appends at (a, b, c) is the next slot of a new chunk. */
  lemma DirtStep(a: Local, b: Local, c: Local)
    ensures DirtBlocks(FlatIndex(a, b, c) + 1) == DirtBlocks(FlatIndex(a, b, c)) + [Block(Dirt, Vec3i(a, b, c))]
  {
    UnflattenFlatIndex(a, b, c);
    DirtBlocksSnoc(FlatIndex(a, b, c));
  }

  lemma DirtBlocksSnoc(n: int)
    requires 0 <= n < ChunkVolume
    ensures DirtBlocks(n + 1) == DirtBlocks(n) + [Block(Dirt, Unflatten(n))]
  {
  }

  lemma AppendAssoc<T>(a: seq<T>, b: seq<T>, c: seq<T>)
    ensures a + b + c == a + (b + c)
  {
  }

  /** Slot m of a new chunk holds DIRT at the position its flat index encodes. */
  lemma {:induction false} DirtBlocksContents(n: int, m: int)
    requires 0 <= m < n <= ChunkVolume
    ensures DirtBlocks(n)[m] == Block(Dirt, Unflatten(m))
  {
    if m < n - 1 {
      DirtBlocksContents(n - 1, m);
    }
  }

  /** A new chunk holds 4096 blocks, and the one at slot i*256 + j*16 + k is DIRT at
      position (i, j, k). */
  lemma NewChunkLayout(i: Local, j: Local, k: Local)
    ensures |DirtBlocks(ChunkVolume)| == 4096
    ensures DirtBlocks(ChunkVolume)[i * 256 + j * 16 + k] == Block(Dirt, Vec3i(i, j, k))
  {
    UnflattenFlatIndex(i, j, k);
    DirtBlocksContents(ChunkVolume, FlatIndex(i, j, k));
  }

  /** The world position of a block's minimum corner: chunk position times the chunk
      size, plus the block's position in the chunk. */
  function Origin(chunk: Vec3i, b: Block): Vec3i {
    Vec3i(chunk.x * ChunkSize + b.position.x,
          chunk.y * ChunkSize + b.position.y,
          chunk.z * ChunkSize + b.position.z)
  }

  /** The mesher's own copy of the corner table, already offset by `pos`, with size 1. */
  function LocalCubeVertices(pos: Vec3i): seq<Vec3i> {
    [Vec3i(pos.x, pos.y, pos.z), Vec3i(pos.x + 1, pos.y, pos.z),
     Vec3i(pos.x + 1, pos.y + 1, pos.z), Vec3i(pos.x, pos.y + 1, pos.z),
     Vec3i(pos.x, pos.y, pos.z + 1), Vec3i(pos.x + 1, pos.y, pos.z + 1),
     Vec3i(pos.x + 1, pos.y + 1, pos.z + 1), Vec3i(pos.x, pos.y + 1, pos.z + 1)]
  }

  /** The mesher's own copy of the texture coordinate table. */
  function LocalTexCoords(): seq<UV> {
    [UV(0, 0), UV(1, 0), UV(1, 1), UV(0, 1)]
  }

  /** The mesher's own copy of the face table. */
  function LocalFaces(): seq<Quad> {
    [[3, 2, 1, 0], [6, 7, 4, 5], [7, 3, 0, 4], [2, 6, 5, 1], [7, 6, 2, 3], [0, 1, 5, 4]]
  }

  /** The local tables are the shared ones: the faces and texture coordinates are equal,
      and the offset corners are `pos` plus the unit-cube corners. */
  lemma LocalTablesMatch(pos: Vec3i)
    ensures |LocalCubeVertices(pos)| == 8 && |LocalTexCoords()| == 4 && |LocalFaces()| == 6
    ensures forall c: CornerIndex :: LocalCubeVertices(pos)[c] == Add(pos, UnitCubeVertex(c))
    ensures forall i: QuadCorner :: LocalTexCoords()[i] == TexCoord(i)
    ensures forall f: FaceIndex :: LocalFaces()[f] == Face(f)
  {
    forall c: CornerIndex ensures LocalCubeVertices(pos)[c] == Add(pos, UnitCubeVertex(c)) {
      match c
      case 0 => case 1 => case 2 => case 3 => case 4 => case 5 => case 6 => case 7 =>
    }
    forall i: QuadCorner ensures LocalTexCoords()[i] == TexCoord(i) {
      match i case 0 => case 1 => case 2 => case 3 =>
    }
    forall f: FaceIndex ensures LocalFaces()[f] == Face(f) {
      match f case 0 => case 1 => case 2 => case 3 => case 4 => case 5 =>
    }
  }

  /** The 8 floats of one vertex: position, tint, texture coordinate. */
  function VertexFloats(p: Vec3i, t: UV): seq<real> {
    [p.x as real, p.y as real, p.z as real, TintR, TintG, TintB, t.u as real, t.v as real]
  }

  /** The floats of the first n corners of face f of the cube at `pos`. */
  function FaceFloats(pos: Vec3i, f: FaceIndex, n: int): (s: seq<real>)
    requires 0 <= n <= 4
    ensures |s| == 8 * n
  {
    if n == 0 then []
    else FaceFloats(pos, f, n - 1)
         + VertexFloats(LocalCubeVertices(pos)[LocalFaces()[f][n - 1]], LocalTexCoords()[n - 1])
  }

  /** The floats of the first n faces of the cube at `pos`. */
  function CubeFloats(pos: Vec3i, n: int): (s: seq<real>)
    requires 0 <= n <= 6
    ensures |s| == 32 * n
  {
    if n == 0 then [] else CubeFloats(pos, n - 1) + FaceFloats(pos, n - 1, 4)
  }

  /** The two triangles of a quad whose first vertex is number b. */
  function QuadIndices(b: int): seq<int> {
    [b, b + 1, b + 2, b, b + 2, b + 3]
  }

  /** The indices of the first n faces of a cube whose first vertex is number b. */
  function CubeIndices(b: int, n: int): (s: seq<int>)
    requires 0 <= n <= 6
    ensures |s| == 6 * n
  {
    if n == 0 then [] else CubeIndices(b, n - 1) + QuadIndices(b + 4 * (n - 1))
  }

  /** Offset k of the two-triangle pattern 0, 1, 2, 0, 2, 3. */
  function QuadPattern(k: int): int
    requires 0 <= k < 6
  {
    if k == 0 || k == 3 then 0 else if k == 1 then 1 else if k == 5 then 3 else 2
  }

  /** Face f of a cube based at b emits b+4f, b+4f+1, b+4f+2, b+4f, b+4f+2, b+4f+3;
      every index lies in [b, b + 24). */
  lemma {:induction false} CubeIndicesLayout(b: int, n: int, f: int, k: int)
    requires 0 <= f < n <= 6 && 0 <= k < 6
    ensures CubeIndices(b, n)[6 * f + k] == b + 4 * f + QuadPattern(k)
    ensures b <= CubeIndices(b, n)[6 * f + k] < b + 24
  {
    if f < n - 1 {
      CubeIndicesLayout(b, n - 1, f, k);
    }
  }

  /** The corner floats of face f, corner i lie at offset 8i of that face. */
  lemma {:induction false} FaceFloatsLayout(pos: Vec3i, f: FaceIndex, n: int, i: int)
    requires 0 <= i < n <= 4
    ensures FaceFloats(pos, f, n)[8 * i .. 8 * i + 8]
         == VertexFloats(LocalCubeVertices(pos)[LocalFaces()[f][i]], LocalTexCoords()[i])
  {
    var init := FaceFloats(pos, f, n - 1);
    var last := VertexFloats(LocalCubeVertices(pos)[LocalFaces()[f][n - 1]], LocalTexCoords()[n - 1]);
    assert FaceFloats(pos, f, n) == init + last;
    if i < n - 1 {
      FaceFloatsLayout(pos, f, n - 1, i);
      SliceOfPrefix(init, last, 8 * i, 8 * i + 8);
    } else {
      SliceOfSuffix(init, last);
    }
  }

  /** The floats of face f lie at offset 32f of the cube. */
  lemma {:induction false} CubeFloatsLayout(pos: Vec3i, n: int, f: int)
    requires 0 <= f < n <= 6
    ensures CubeFloats(pos, n)[32 * f .. 32 * f + 32] == FaceFloats(pos, f, 4)
  {
    var init := CubeFloats(pos, n - 1);
    var last := FaceFloats(pos, n - 1, 4);
    assert CubeFloats(pos, n) == init + last;
    if f < n - 1 {
      CubeFloatsLayout(pos, n - 1, f);
      SliceOfPrefix(init, last, 32 * f, 32 * f + 32);
    } else {
      SliceOfSuffix(init, last);
    }
  }

  lemma SliceOfPrefix<T>(a: seq<T>, b: seq<T>, lo: int, hi: int)
    requires 0 <= lo <= hi <= |a|
    ensures (a + b)[lo .. hi] == a[lo .. hi]
  {
  }

  lemma SliceOfSuffix<T>(a: seq<T>, b: seq<T>)
    ensures (a + b)[|a| .. |a| + |b|] == b
  {
  }

  lemma SliceOfSlice<T>(s: seq<T>, lo: int, hi: int, i: int, j: int)
    requires 0 <= lo <= hi <= |s| && 0 <= i <= j <= hi - lo
    ensures s[lo .. hi][i .. j] == s[lo + i .. lo + j]
  {
    var t, u := s[lo .. hi][i .. j], s[lo + i .. lo + j];
    forall k | 0 <= k < |t|
      ensures t[k] == u[k]
    {
      assert t[k] == s[lo .. hi][i + k] == s[lo + i + k];
    }
  }

  /** Vertex 4f + i of a cube sits at `pos` plus unit-cube corner `faces[f][i]`, with the
      constant tint and texture coordinate `texCoords[i]`. */
  lemma CubeVertexLayout(pos: Vec3i, f: FaceIndex, i: QuadCorner)
    ensures CubeFloats(pos, 6)[32 * f + 8 * i .. 32 * f + 8 * i + 8]
         == VertexFloats(Add(pos, FaceCorner(f, i)), TexCoord(i))
  {
    var s := CubeFloats(pos, 6);
    CubeFloatsLayout(pos, 6, f);
    FaceFloatsLayout(pos, f, 4, i);
    SliceOfSlice(s, 32 * f, 32 * f + 32, 8 * i, 8 * i + 8);
    LocalTablesMatch(pos);
    assert LocalCubeVertices(pos)[LocalFaces()[f][i]] == Add(pos, FaceCorner(f, i));
  }

  /** The number of blocks in `blocks` that are not AIR. */
  function SolidCount(blocks: seq<Block>): (k: nat)
    ensures k <= |blocks|
  {
    if |blocks| == 0 then 0
    else SolidCount(blocks[..|blocks| - 1]) + (if blocks[|blocks| - 1].kind == Air then 0 else 1)
  }

  /** The vertex floats the mesher emits for `blocks`, walked in order. */
  function MeshVertices(chunk: Vec3i, blocks: seq<Block>): seq<real> {
    if |blocks| == 0 then []
    else
      var last := blocks[|blocks| - 1];
      MeshVertices(chunk, blocks[..|blocks| - 1])
      + (if last.kind == Air then [] else CubeFloats(Origin(chunk, last), 6))
  }

  /** The indices the mesher emits for `blocks`: each cube is based at the number of
      vertices emitted before it. */
  function MeshIndices(chunk: Vec3i, blocks: seq<Block>): seq<int> {
    if |blocks| == 0 then []
    else
      var last := blocks[|blocks| - 1];
      var before := MeshVertices(chunk, blocks[..|blocks| - 1]);
      MeshIndices(chunk, blocks[..|blocks| - 1])
      + (if last.kind == Air then [] else CubeIndices(|before| / FloatsPerVertex, 6))
  }

  /** Each non-AIR block adds 192 floats (24 vertices) and 36 indices; AIR adds nothing. */
  lemma {:induction false} MeshSizes(chunk: Vec3i, blocks: seq<Block>)
    ensures |MeshVertices(chunk, blocks)| == 192 * SolidCount(blocks)
    ensures |MeshIndices(chunk, blocks)| == 36 * SolidCount(blocks)
  {
    if |blocks| > 0 {
      MeshSizes(chunk, blocks[..|blocks| - 1]);
    }
  }

  /** Every emitted index names a vertex that was emitted: it is below the vertex count. */
  lemma {:induction false} MeshIndicesInRange(chunk: Vec3i, blocks: seq<Block>)
    ensures forall k | 0 <= k < |MeshIndices(chunk, blocks)| ::
      0 <= MeshIndices(chunk, blocks)[k] < 24 * SolidCount(blocks)
  {
    if |blocks| > 0 {
      var init := blocks[..|blocks| - 1];
      MeshIndicesInRange(chunk, init);
      MeshSizes(chunk, init);
      if blocks[|blocks| - 1].kind != Air {
        var b := 24 * SolidCount(init);
        assert |MeshVertices(chunk, init)| / FloatsPerVertex == b;
        var prefix := MeshIndices(chunk, init);
        forall k | |prefix| <= k < |MeshIndices(chunk, blocks)|
          ensures 0 <= MeshIndices(chunk, blocks)[k] < 24 * SolidCount(blocks)
        {
          var j := k - |prefix|;
          CubeIndicesLayout(b, 6, j / 6, j % 6);
        }
      }
    }
  }

  /** A chunk of dense DIRT emits 4096 cubes: 24,576 faces, 98,304 vertices (786,432
      floats) and 147,456 indices, every index below 98,304 and so within 32 bits. */
  lemma DirtChunkMesh(chunk: Vec3i)
    ensures SolidCount(DirtBlocks(ChunkVolume)) == 4096
    ensures 6 * SolidCount(DirtBlocks(ChunkVolume)) == 24576
    ensures |MeshVertices(chunk, DirtBlocks(ChunkVolume))| == 98304 * FloatsPerVertex
    ensures |MeshIndices(chunk, DirtBlocks(ChunkVolume))| == 147456
    ensures forall k | 0 <= k < 147456 ::
      0 <= MeshIndices(chunk, DirtBlocks(ChunkVolume))[k] < 98304 < 0x1_0000_0000
  {
    AllDirtIsSolid(ChunkVolume);
    MeshSizes(chunk, DirtBlocks(ChunkVolume));
    MeshIndicesInRange(chunk, DirtBlocks(ChunkVolume));
  }

  lemma {:induction false} AllDirtIsSolid(n: int)
    requires 0 <= n <= ChunkVolume
    ensures SolidCount(DirtBlocks(n)) == n
  {
    if n > 0 {
      AllDirtIsSolid(n - 1);
      var s := DirtBlocks(n);
      assert s == DirtBlocks(n - 1) + [Block(Dirt, Unflatten(n - 1))];
      assert s[..n - 1] == DirtBlocks(n - 1);
      assert s[n - 1].kind == Dirt;
    }
  }

  /** `vertices` and `indices` are what the mesher emits for the first n blocks. */
  predicate Meshed(chunk: Vec3i, blocks: seq<Block>, n: int, vertices: seq<real>, indices: seq<int>) {
    0 <= n <= |blocks| && vertices == MeshVertices(chunk, blocks[..n]) && indices == MeshIndices(chunk, blocks[..n])
  }

  /** One step of the block walk: the mesh of the first n + 1 blocks extends the mesh of
      the first n by block n's cube, based at the vertex count so far, or by nothing when
      it is AIR. */
  lemma MeshStep(chunk: Vec3i, blocks: seq<Block>, n: int, vertices: seq<real>, indices: seq<int>)
    requires Meshed(chunk, blocks, n, vertices, indices) && n < |blocks|
    ensures blocks[n].kind == Air ==> Meshed(chunk, blocks, n + 1, vertices, indices)
    ensures blocks[n].kind != Air ==>
      Meshed(chunk, blocks, n + 1, vertices + CubeFloats(Origin(chunk, blocks[n]), 6),
             indices + CubeIndices(|vertices| / FloatsPerVertex, 6))
  {
    assert blocks[..n + 1][..n] == blocks[..n];
  }

  class Chunk {
    const chunkX: int
    const chunkY: int
    const chunkZ: int
    var blocks: seq<Block>
    /** The index data handed to the renderer. */
    var indices: seq<int>

    /** Every chunk holds exactly one block per slot. */
    predicate Valid()
      reads this
    {
      |blocks| == ChunkVolume
    }

    /** The chunk's position in chunk units. */
    function Position(): Vec3i {
      Vec3i(chunkX, chunkY, chunkZ)
    }

    /** Fills the chunk with DIRT, slot i*256 + j*16 + k at position (i, j, k). */
    constructor(x: int, y: int, z: int)
      ensures chunkX == x && chunkY == y && chunkZ == z
      ensures blocks == DirtBlocks(ChunkVolume)
      ensures indices == []
      ensures Valid()
    {
      chunkX, chunkY, chunkZ := x, y, z;
      indices := [];
      var filled: seq<Block> := [];
      var i := 0;
      while i < ChunkSize
        invariant 0 <= i <= ChunkSize
        invariant filled == DirtBlocks(i * 256)
      {
        var j := 0;
        while j < ChunkSize
          invariant 0 <= j <= ChunkSize
          invariant filled == DirtBlocks(i * 256 + j * 16)
        {
          var k := 0;
          while k < ChunkSize
            invariant 0 <= k <= ChunkSize
            invariant filled == DirtBlocks(i * 256 + j * 16 + k)
          {
            DirtStep(i, j, k);
            filled := filled + [Block(Dirt, Vec3i(i, j, k))];
            k := k + 1;
          }
          j := j + 1;
        }
        i := i + 1;
      }
      blocks := filled;
    }

    /** Appends the 24 vertices and 36 indices of one cube. The cube's first vertex
        number is the float count divided by 8. */
    method GenerateBlockFaces(vertices: seq<real>, indices: seq<int>, block: Block)
      returns (vertices': seq<real>, indices': seq<int>)
      ensures vertices' == vertices + CubeFloats(Origin(Position(), block), 6)
      ensures indices' == indices + CubeIndices(|vertices| / FloatsPerVertex, 6)
    {
      var pos := Origin(Position(), block);
      var cubeVertices := LocalCubeVertices(pos);
      var texCoords := LocalTexCoords();
      var faces := LocalFaces();
      var baseIndex := |vertices| / FloatsPerVertex;
      ghost var first := baseIndex;
      vertices', indices' := vertices, indices;
      var f := 0;
      while f < 6
        invariant 0 <= f <= 6
        invariant vertices' == vertices + CubeFloats(pos, f)
        invariant indices' == indices + CubeIndices(first, f)
        invariant baseIndex == first + 4 * f
      {
        var face := faces[f];
        ghost var faceStart := vertices';
        var i := 0;
        while i < 4
          invariant 0 <= i <= 4
          invariant vertices' == faceStart + FaceFloats(pos, f, i)
        {
          AppendAssoc(faceStart, FaceFloats(pos, f, i), VertexFloats(cubeVertices[face[i]], texCoords[i]));
          vertices' := vertices' + VertexFloats(cubeVertices[face[i]], texCoords[i]);
          i := i + 1;
        }
        AppendAssoc(vertices, CubeFloats(pos, f), FaceFloats(pos, f, 4));
        AppendAssoc(indices, CubeIndices(first, f), QuadIndices(first + 4 * f));
        indices' := indices' + QuadIndices(baseIndex);
        baseIndex := baseIndex + 4;
        f := f + 1;
      }
    }

    /** The body of the mesh walk for the block in slot n: a block that is not AIR has
        its cube appended. */
    method MeshBlock(bs: seq<Block>, n: int, vertices: seq<real>, indices: seq<int>)
      returns (vertices': seq<real>, indices': seq<int>)
      requires Meshed(Position(), bs, n, vertices, indices) && n < |bs|
      ensures Meshed(Position(), bs, n + 1, vertices', indices')
    {
      MeshStep(Position(), bs, n, vertices, indices);
      vertices', indices' := vertices, indices;
      if bs[n].kind != Air {
        vertices', indices' := GenerateBlockFaces(vertices, indices, bs[n]);
      }
    }

    /** Rebuilds `indices` from scratch by walking the blocks in storage order, and
        returns the vertex floats that go to the vertex buffer. The new index list is
        built in a local and stored once the walk is over. */
    method GenerateMesh() returns (vertices: seq<real>)
      requires Valid()
      modifies this`indices
      ensures vertices == MeshVertices(Position(), blocks)
      ensures indices == MeshIndices(Position(), blocks)
    {
      var chunk, bs := Position(), blocks;
      vertices := [];
      var idx: seq<int> := [];
      ghost var done := 0;
      assert bs[..0] == [];
      var y := 0;
      while y < ChunkSize
        invariant 0 <= y <= ChunkSize && done == y * 256
        invariant Meshed(chunk, bs, done, vertices, idx)
      {
        var x := 0;
        while x < ChunkSize
          invariant 0 <= x <= ChunkSize && done == y * 256 + x * 16
          invariant Meshed(chunk, bs, done, vertices, idx)
        {
          var z := 0;
          while z < ChunkSize
            invariant 0 <= z <= ChunkSize && done == y * 256 + x * 16 + z
            invariant Meshed(chunk, bs, done, vertices, idx)
          {
            vertices, idx := MeshBlock(bs, y * 256 + x * 16 + z, vertices, idx);
            done := done + 1;
            z := z + 1;
          }
          x := x + 1;
        }
        y := y + 1;
      }
      assert bs[..ChunkVolume] == bs;
      indices := idx;
    }
  }

  /** `generateMesh` clears `indices` first, so meshing an unchanged chunk twice gives
      the same indices and vertices both times. */
  method RemeshIsIdempotent(c: Chunk)
      returns (firstVertices: seq<real>, first: seq<int>, secondVertices: seq<real>, second: seq<int>)
    requires c.Valid()
    modifies c`indices
    ensures firstVertices == secondVertices
    ensures first == second == c.indices
  {
    firstVertices := c.GenerateMesh();
    first := c.indices;
    secondVertices := c.GenerateMesh();
    second := c.indices;
  }

  /** `addChunks`: one chunk at chunk position (1, 0, 0), meshed once. */
  method AddChunks() returns (chunks: seq<Chunk>, vertices: seq<real>)
    ensures |chunks| == 1 && chunks[0].Position() == Vec3i(1, 0, 0)
    ensures |vertices| == 98304 * FloatsPerVertex && |chunks[0].indices| == 147456
    ensures forall k | 0 <= k < 147456 :: 0 <= chunks[0].indices[k] < 98304
  {
    var c := new Chunk(1, 0, 0);
    vertices := c.GenerateMesh();
    DirtChunkMesh(Vec3i(1, 0, 0));
    chunks := [c];
  }
}
