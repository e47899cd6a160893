/** The GLB model path: turning one glTF primitive's accessors into vertices and a widened
    index list, and the load-once cache that hands every caller the same model. The glTF
    file is taken as already parsed; GL object names are supplied by the caller. */
module ModelLoading {
  import opened Glm
  import opened Optional
  import opened VertexPacking

  type UInt8 = x: int | 0 <= x < 0x100
  type UInt32 = x: int | 0 <= x < 0x1_0000_0000

  /** `TINYGLTF_COMPONENT_TYPE_UNSIGNED_SHORT`. */
  const UnsignedShort: int := 5123
  /** `TINYGLTF_COMPONENT_TYPE_UNSIGNED_INT`. */
  const UnsignedInt: int := 5125

  /** `Vertex`. */
  datatype Vertex = Vertex(position: Vec3, texCoord: Vec2, normal: Vec3)

  /** The index accessor: its component type, its element count and the bytes it starts at. */
  datatype IndexAccessor = IndexAccessor(componentType: int, count: nat, data: seq<UInt8>)

  /** The parts of a glTF file's first primitive that the loader reads: the POSITION count
      and floats, the NORMAL and TEXCOORD_0 floats when those attributes exist, and the
      index accessor. */
  datatype Primitive = Primitive(count: nat, positions: seq<real>, normals: Option<seq<real>>,
                                 texCoords: Option<seq<real>>, indices: IndexAccessor)

  /** The loader reads 16-bit elements when the component type is unsigned short and
      32-bit elements otherwise; no length is checked, so the bytes must be there. */
  predicate IndexReadable(acc: IndexAccessor) {
    if acc.componentType == UnsignedShort then 2 * acc.count <= |acc.data| else 4 * acc.count <= |acc.data|
  }

  /** Every attribute holds `count` elements and the index bytes are readable. */
  predicate Readable(p: Primitive) {
    && 3 * p.count <= |p.positions|
    && (p.normals.Some? ==> 3 * p.count <= |p.normals.value|)
    && (p.texCoords.Some? ==> 2 * p.count <= |p.texCoords.value|)
    && IndexReadable(p.indices)
  }

  /** The i-th little-endian 16-bit element of a byte buffer. */
  function ShortAt(data: seq<UInt8>, i: nat): (r: UInt16)
    requires 2 * i + 2 <= |data|
  {
    data[2 * i] as int + 0x100 * data[2 * i + 1] as int
  }

  /** The i-th little-endian 32-bit element of a byte buffer. */
  function WordAt(data: seq<UInt8>, i: nat): (r: UInt32)
    requires 4 * i + 4 <= |data|
  {
    data[4 * i] as int + 0x100 * data[4 * i + 1] as int + 0x1_0000 * data[4 * i + 2] as int
      + 0x100_0000 * data[4 * i + 3] as int
  }

  /** The little-endian bytes of a sequence of 16-bit values. */
  function ShortBytes(xs: seq<UInt16>): (b: seq<UInt8>)
    ensures |b| == 2 * |xs|
  {
    if |xs| == 0 then [] else ShortBytes(xs[..|xs| - 1]) + [xs[|xs| - 1] % 0x100, xs[|xs| - 1] / 0x100]
  }

  /** The little-endian bytes of a sequence of 32-bit values. */
  function WordBytes(xs: seq<UInt32>): (b: seq<UInt8>)
    ensures |b| == 4 * |xs|
  {
    if |xs| == 0 then []
    else
      var x := xs[|xs| - 1];
      WordBytes(xs[..|xs| - 1]) + [x % 0x100, (x / 0x100) % 0x100, (x / 0x1_0000) % 0x100, x / 0x100_0000]
  }

  /** Reading 16-bit elements back from their bytes gives the values written. */
  lemma {:induction false} ShortBytesRoundTrip(xs: seq<UInt16>, i: nat)
    requires i < |xs|
    ensures ShortAt(ShortBytes(xs), i) == xs[i]
    decreases |xs|
  {
    var n := |xs| - 1;
    var front := ShortBytes(xs[..n]);
    assert ShortBytes(xs) == front + [xs[n] % 0x100, xs[n] / 0x100];
    if i < n {
      ShortBytesRoundTrip(xs[..n], i);
      assert ShortBytes(xs)[2 * i] == front[2 * i];
      assert ShortBytes(xs)[2 * i + 1] == front[2 * i + 1];
    } else {
      assert ShortBytes(xs)[2 * i] == xs[n] % 0x100;
      assert ShortBytes(xs)[2 * i + 1] == xs[n] / 0x100;
    }
  }

  /** Reading 32-bit elements back from their bytes gives the values written. */
  lemma {:induction false} WordBytesRoundTrip(xs: seq<UInt32>, i: nat)
    requires i < |xs|
    ensures WordAt(WordBytes(xs), i) == xs[i]
    decreases |xs|
  {
    var n := |xs| - 1;
    var front := WordBytes(xs[..n]);
    var x := xs[n];
    var tail := [x % 0x100, (x / 0x100) % 0x100, (x / 0x1_0000) % 0x100, x / 0x100_0000];
    assert WordBytes(xs) == front + tail;
    if i < n {
      WordBytesRoundTrip(xs[..n], i);
      assert WordBytes(xs)[4 * i] == front[4 * i];
      assert WordBytes(xs)[4 * i + 1] == front[4 * i + 1];
      assert WordBytes(xs)[4 * i + 2] == front[4 * i + 2];
      assert WordBytes(xs)[4 * i + 3] == front[4 * i + 3];
    } else {
      assert WordBytes(xs)[4 * i] == tail[0];
      assert WordBytes(xs)[4 * i + 1] == tail[1];
      assert WordBytes(xs)[4 * i + 2] == tail[2];
      assert WordBytes(xs)[4 * i + 3] == tail[3];
      DigitsRecombine(x);
    }
  }

  lemma DigitsRecombine(x: UInt32)
    ensures x % 0x100 + 0x100 * ((x / 0x100) % 0x100) + 0x1_0000 * ((x / 0x1_0000) % 0x100)
            + 0x100_0000 * (x / 0x100_0000) == x
  {
    var a := x / 0x100;
    var b := a / 0x100;
    assert x == x % 0x100 + 0x100 * a;
    assert a == a % 0x100 + 0x100 * b;
    assert b == b % 0x100 + 0x100 * (b / 0x100);
    assert x / 0x1_0000 == b;
    assert x / 0x100_0000 == b / 0x100;
  }

  /** The element the loader reads at position i of the index accessor. */
  function IndexElement(acc: IndexAccessor, i: nat): (r: UInt32)
    requires IndexReadable(acc) && i < acc.count
  {
    if acc.componentType == UnsignedShort then ShortAt(acc.data, i) else WordAt(acc.data, i)
  }

  /** The index copy of `loadGLB`: the output has the accessor's count of elements, each
      the source element widened to 32 bits; for a 16-bit source every index is below
      65536. */
  method WidenIndices(acc: IndexAccessor) returns (indices: seq<UInt32>)
    requires IndexReadable(acc)
    ensures |indices| == acc.count
    ensures forall i | 0 <= i < acc.count :: indices[i] == IndexElement(acc, i)
    ensures acc.componentType == UnsignedShort ==>
      forall i | 0 <= i < acc.count :: indices[i] == ShortAt(acc.data, i) < 0x1_0000
    ensures acc.componentType != UnsignedShort ==>
      forall i | 0 <= i < acc.count :: indices[i] == WordAt(acc.data, i)
  {
    var out := new UInt32[acc.count];
    if acc.componentType == UnsignedShort {
      for i := 0 to acc.count
        invariant forall k | 0 <= k < i :: out[k] == ShortAt(acc.data, k)
      {
        out[i] := ShortAt(acc.data, i);
      }
    } else {
      for i := 0 to acc.count
        invariant forall k | 0 <= k < i :: out[k] == WordAt(acc.data, k)
      {
        out[i] := WordAt(acc.data, i);
      }
    }
    indices := out[..];
  }

  /** A 16-bit index buffer written from a list of indices is read back as that list. */
  lemma ShortIndicesRoundTrip(xs: seq<UInt16>, i: nat)
    requires i < |xs|
    ensures IndexReadable(IndexAccessor(UnsignedShort, |xs|, ShortBytes(xs)))
    ensures IndexElement(IndexAccessor(UnsignedShort, |xs|, ShortBytes(xs)), i) == xs[i]
  {
    ShortBytesRoundTrip(xs, i);
  }

  /** A 32-bit index buffer written from a list of indices is read back as that list. */
  lemma WordIndicesRoundTrip(xs: seq<UInt32>, i: nat)
    requires i < |xs|
    ensures IndexReadable(IndexAccessor(UnsignedInt, |xs|, WordBytes(xs)))
    ensures IndexElement(IndexAccessor(UnsignedInt, |xs|, WordBytes(xs)), i) == xs[i]
  {
    WordBytesRoundTrip(xs, i);
  }

  /** The vertex build of `loadGLB`: one vertex per POSITION element, the normal (0, 1, 0)
      when there is no NORMAL attribute and the texture coordinate (0, 0) when there is no
      TEXCOORD_0. */
  method BuildVertices(p: Primitive) returns (vertices: seq<Vertex>)
    requires Readable(p)
    ensures |vertices| == p.count
    ensures forall i | 0 <= i < p.count ::
      vertices[i].position == Vec3(p.positions[3 * i], p.positions[3 * i + 1], p.positions[3 * i + 2])
    ensures forall i | 0 <= i < p.count ::
      vertices[i].normal == match p.normals
        case None => Vec3(0.0, 1.0, 0.0)
        case Some(ns) => Vec3(ns[3 * i], ns[3 * i + 1], ns[3 * i + 2])
    ensures forall i | 0 <= i < p.count ::
      vertices[i].texCoord == match p.texCoords
        case None => Vec2(0.0, 0.0)
        case Some(ts) => Vec2(ts[2 * i], ts[2 * i + 1])
  {
    vertices := [];
    for i := 0 to p.count
      invariant |vertices| == i
      invariant forall k | 0 <= k < i ::
        vertices[k].position == Vec3(p.positions[3 * k], p.positions[3 * k + 1], p.positions[3 * k + 2])
      invariant forall k | 0 <= k < i ::
        vertices[k].normal == match p.normals
          case None => Vec3(0.0, 1.0, 0.0)
          case Some(ns) => Vec3(ns[3 * k], ns[3 * k + 1], ns[3 * k + 2])
      invariant forall k | 0 <= k < i ::
        vertices[k].texCoord == match p.texCoords
          case None => Vec2(0.0, 0.0)
          case Some(ts) => Vec2(ts[2 * k], ts[2 * k + 1])
    {
      var position := Vec3(p.positions[3 * i], p.positions[3 * i + 1], p.positions[3 * i + 2]);
      var normal := match p.normals
        case None => Vec3(0.0, 1.0, 0.0)
        case Some(ns) => Vec3(ns[3 * i], ns[3 * i + 1], ns[3 * i + 2]);
      var texCoord := match p.texCoords
        case None => Vec2(0.0, 0.0)
        case Some(ts) => Vec2(ts[2 * i], ts[2 * i + 1]);
      vertices := vertices + [Vertex(position, texCoord, normal)];
    }
  }

  /** GL object names and the texture `loadGLB` would end up with. */
  datatype Handles = Handles(vao: UInt32, vbo: UInt32, ebo: UInt32, textureID: UInt32)

  /** What a call of `loadGLB` finds: the parsed file, or None when tinygltf cannot load
      it; whether a GL context is current; and the names GL hands out. */
  datatype GlbSource = GlbSource(parsed: Option<Primitive>, hasContext: bool, handles: Handles)

  predicate SourceReadable(src: GlbSource) {
    src.parsed.Some? ==> Readable(src.parsed.value)
  }

  /** `vs` is what the vertex loop builds from `p`: one vertex per POSITION element, with
      its stored position, its stored normal or (0, 1, 0), and its stored texture
      coordinate or (0, 0). */
  predicate VerticesFrom(p: Primitive, vs: seq<Vertex>)
    requires Readable(p)
  {
    && |vs| == p.count
    && (forall i | 0 <= i < p.count ::
          vs[i].position == Vec3(p.positions[3 * i], p.positions[3 * i + 1], p.positions[3 * i + 2]))
    && (forall i | 0 <= i < p.count ::
          vs[i].normal == match p.normals
            case None => Vec3(0.0, 1.0, 0.0)
            case Some(ns) => Vec3(ns[3 * i], ns[3 * i + 1], ns[3 * i + 2]))
    && (forall i | 0 <= i < p.count ::
          vs[i].texCoord == match p.texCoords
            case None => Vec2(0.0, 0.0)
            case Some(ts) => Vec2(ts[2 * i], ts[2 * i + 1]))
  }

  /** `xs` is the index accessor's elements, each widened to 32 bits. */
  predicate IndicesFrom(acc: IndexAccessor, xs: seq<UInt32>)
    requires IndexReadable(acc)
  {
    |xs| == acc.count && forall i | 0 <= i < acc.count :: xs[i] == IndexElement(acc, i)
  }

  /** `Model`. */
  class Model {
    var vao: UInt32
    var vbo: UInt32
    var ebo: UInt32
    var textureID: UInt32
    var vertices: seq<Vertex>
    var indices: seq<UInt32>

    /** A default model: every handle 0 and no geometry. */
    predicate IsDefault()
      reads this
    {
      vao == 0 && vbo == 0 && ebo == 0 && textureID == 0 && vertices == [] && indices == []
    }

    constructor()
      ensures IsDefault()
    {
      vao, vbo, ebo, textureID := 0, 0, 0, 0;
      vertices, indices := [], [];
    }

    /** This model is what `loadGLB` makes of `src`: the default model when the file does
        not load or there is no GL context, and otherwise the primitive's vertices, its
        widened indices and the GL names handed out. */
    predicate LoadedFrom(src: GlbSource)
      requires SourceReadable(src)
      reads this
    {
      if src.parsed.None? || !src.hasContext then IsDefault()
      else
        && VerticesFrom(src.parsed.value, vertices)
        && IndicesFrom(src.parsed.value.indices, indices)
        && vao == src.handles.vao && vbo == src.handles.vbo
        && ebo == src.handles.ebo && textureID == src.handles.textureID
    }
  }

  /** `loadGLB`: a file that does not load, or a missing GL context, gives a default
      model; otherwise the model holds the built vertices and widened indices. */
  method LoadGLB(src: GlbSource) returns (model: Model)
    requires SourceReadable(src)
    ensures fresh(model)
    ensures model.LoadedFrom(src)
    ensures src.parsed.None? || !src.hasContext ==> model.IsDefault()
    ensures src.parsed.Some? && src.hasContext ==>
      && VerticesFrom(src.parsed.value, model.vertices)
      && IndicesFrom(src.parsed.value.indices, model.indices)
      && model.vao == src.handles.vao && model.vbo == src.handles.vbo
      && model.ebo == src.handles.ebo && model.textureID == src.handles.textureID
  {
    model := new Model();
    if src.parsed.None? || !src.hasContext {
      return;
    }
    var p := src.parsed.value;
    var vertices := BuildVertices(p);
    var indices := WidenIndices(p.indices);
    model.vertices := vertices;
    model.indices := indices;
    model.vao, model.vbo, model.ebo := src.handles.vao, src.handles.vbo, src.handles.ebo;
    model.textureID := src.handles.textureID;
  }

  /** `ModelLoader`: the cache from path to loaded model. The code keeps it in a static
      member, so there is one per program; here it is the field of one loader object. */
  class ModelLoader {
    var modelCache: map<string, Model>
    /** The paths `loadGLB` has been called with, in order. */
    ghost var loads: seq<string>

    constructor()
      ensures modelCache == map[] && loads == []
    {
      modelCache := map[];
      loads := [];
    }

    /** `getModel`: on a miss, load the path once and cache the result, even a failed
        one; on a hit, load nothing and change nothing. Either way the cached model
        for the path is returned, and no other path's entry changes. */
    method GetModel(path: string, src: GlbSource) returns (model: Model)
      requires SourceReadable(src)
      modifies this`modelCache, this`loads
      ensures path in modelCache && model == modelCache[path]
      ensures path in old(modelCache) ==>
        modelCache == old(modelCache) && loads == old(loads)
      ensures path !in old(modelCache) ==>
        && fresh(model) && loads == old(loads) + [path]
        && modelCache == old(modelCache)[path := model]
        && model.LoadedFrom(src)
      ensures modelCache.Keys == old(modelCache.Keys) + {path}
      ensures forall q | q in old(modelCache) :: q in modelCache && modelCache[q] == old(modelCache[q])
    {
      if path !in modelCache {
        var loaded := LoadGLB(src);
        modelCache := modelCache[path := loaded];
        loads := loads + [path];
      }
      model := modelCache[path];
    }
  }

  /** Two `Bee`s built one after the other get the very same model object, and the model
      file is loaded at most once between them. */
  method TwoBees(loader: ModelLoader, path: string, src: GlbSource) returns (first: Model, second: Model)
    requires SourceReadable(src)
    modifies loader`modelCache, loader`loads
    ensures first == second
    ensures |loader.loads| <= |old(loader.loads)| + 1
    ensures path in old(loader.modelCache) ==> first == old(loader.modelCache[path]) && loader.loads == old(loader.loads)
    ensures path !in old(loader.modelCache) ==> fresh(first) && first.LoadedFrom(src)
  {
    first := loader.GetModel(path, src);
    second := loader.GetModel(path, src);
  }
}
