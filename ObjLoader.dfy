/** `LoadOBJ`: the line dispatch of a Wavefront OBJ reader and the table that merges
    repeated (position, uv, normal) index triples into one output vertex. Lines arrive
    already tokenised; a face line carries the three index triples its tokeniser read,
    still 1-based. */
module ObjLoader {
  import opened Glm
  import opened Optional

  /** `VertexKey`: one index triple. A component the line does not give is negative. */
  datatype VertexKey = VertexKey(pos: int, uv: int, norm: int)

  /** The three corners a face line is read as. */
  type Corners = s: seq<VertexKey> | |s| == 3 witness [VertexKey(1, 0, 0), VertexKey(1, 0, 0), VertexKey(1, 0, 0)]

  /** One line of the file, by its prefix. */
  datatype ObjLine =
    | PositionLine(p: Vec3)      // "v"
    | TexCoordLine(t: Vec2)      // "vt"
    | NormalLine(n: Vec3)        // "vn"
    | FaceLine(corners: Corners) // "f"
    | OtherLine                  // any other prefix

  /** `OBJData`. */
  datatype OBJData = OBJData(positions: seq<Vec3>, texCoords: seq<Vec2>, normals: seq<Vec3>, indices: seq<int>)

  function EmptyOBJ(): OBJData {
    OBJData([], [], [], [])
  }

  /** Everything the reader has built after some prefix of the file. */
  datatype Loader = Loader(tempPos: seq<Vec3>, tempUV: seq<Vec2>, tempNorm: seq<Vec3>,
                           vertexMap: map<VertexKey, int>, out: OBJData)

  function InitialLoader(): Loader {
    Loader([], [], [], map[], EmptyOBJ())
  }

  /** OBJ numbers from 1; every component is decremented. */
  function ZeroBased(k: VertexKey): VertexKey {
    VertexKey(k.pos - 1, k.uv - 1, k.norm - 1)
  }

  /** The reader does not check the indices: a zero-based triple must name an existing
      position, and an existing uv or normal whenever that component is not negative. */
  predicate InRange(z: VertexKey, positions: nat, uvs: nat, normals: nat) {
    0 <= z.pos < positions && z.uv < uvs && z.norm < normals
  }

  /** The payloads of the "v" lines, in order. */
  function PositionsOf(lines: seq<ObjLine>): (s: seq<Vec3>)
    ensures |s| <= |lines|
  {
    if |lines| == 0 then []
    else PositionsOf(lines[..|lines| - 1]) + (if lines[|lines| - 1].PositionLine? then [lines[|lines| - 1].p] else [])
  }

  /** The payloads of the "vt" lines, in order. */
  function TexCoordsOf(lines: seq<ObjLine>): (s: seq<Vec2>)
    ensures |s| <= |lines|
  {
    if |lines| == 0 then []
    else TexCoordsOf(lines[..|lines| - 1]) + (if lines[|lines| - 1].TexCoordLine? then [lines[|lines| - 1].t] else [])
  }

  /** The payloads of the "vn" lines, in order. */
  function NormalsOf(lines: seq<ObjLine>): (s: seq<Vec3>)
    ensures |s| <= |lines|
  {
    if |lines| == 0 then []
    else NormalsOf(lines[..|lines| - 1]) + (if lines[|lines| - 1].NormalLine? then [lines[|lines| - 1].n] else [])
  }

  /** The zero-based corners of a face line. */
  function FaceKeys(cs: Corners): seq<VertexKey> {
    [ZeroBased(cs[0]), ZeroBased(cs[1]), ZeroBased(cs[2])]
  }

  /** The zero-based corners of all face lines, in file order. */
  function CornersOf(lines: seq<ObjLine>): seq<VertexKey> {
    if |lines| == 0 then []
    else CornersOf(lines[..|lines| - 1]) + (if lines[|lines| - 1].FaceLine? then FaceKeys(lines[|lines| - 1].corners) else [])
  }

  /** The number of "f" lines. */
  function CountFaces(lines: seq<ObjLine>): nat {
    if |lines| == 0 then 0 else CountFaces(lines[..|lines| - 1]) + (if lines[|lines| - 1].FaceLine? then 1 else 0)
  }

  /** Every corner of every face line refers to entries read before that line. */
  predicate WellIndexed(lines: seq<ObjLine>) {
    forall k, c | 0 <= k < |lines| && 0 <= c < 3 && lines[k].FaceLine? ::
      InRange(ZeroBased(lines[k].corners[c]), |PositionsOf(lines[..k])|, |TexCoordsOf(lines[..k])|, |NormalsOf(lines[..k])|)
  }

  predicate CornerValid(st: Loader, z: VertexKey) {
    InRange(z, |st.tempPos|, |st.tempUV|, |st.tempNorm|)
  }

  /** One corner of a face: a triple seen before emits its stored index again; a new one
      becomes output vertex number |positions|, copying its position, its uv (as read,
      not flipped) when the uv index is not negative, and likewise its normal. */
  function AddCorner(st: Loader, z: VertexKey): (r: Loader)
    requires CornerValid(st, z)
    ensures r.tempPos == st.tempPos && r.tempUV == st.tempUV && r.tempNorm == st.tempNorm
  {
    if z in st.vertexMap then
      st.(out := st.out.(indices := st.out.indices + [st.vertexMap[z]]))
    else
      var index := |st.out.positions|;
      var o := st.out;
      var o := o.(positions := o.positions + [st.tempPos[z.pos]]);
      var o := if z.uv >= 0 then o.(texCoords := o.texCoords + [st.tempUV[z.uv]]) else o;
      var o := if z.norm >= 0 then o.(normals := o.normals + [st.tempNorm[z.norm]]) else o;
      st.(vertexMap := st.vertexMap[z := index], out := o.(indices := o.indices + [index]))
  }

  /** The first n corners of a face line. */
  function AddCorners(st: Loader, cs: Corners, n: nat): (r: Loader)
    requires n <= 3
    requires forall c | 0 <= c < 3 :: CornerValid(st, ZeroBased(cs[c]))
    ensures r.tempPos == st.tempPos && r.tempUV == st.tempUV && r.tempNorm == st.tempNorm
  {
    if n == 0 then st else AddCorner(AddCorners(st, cs, n - 1), ZeroBased(cs[n - 1]))
  }

  predicate LineValid(st: Loader, line: ObjLine) {
    line.FaceLine? ==> forall c | 0 <= c < 3 :: CornerValid(st, ZeroBased(line.corners[c]))
  }

  /** One line of the file. */
  function Step(st: Loader, line: ObjLine): Loader
    requires LineValid(st, line)
  {
    match line
    case PositionLine(p) => st.(tempPos := st.tempPos + [p])
    case TexCoordLine(t) => st.(tempUV := st.tempUV + [t])
    case NormalLine(n) => st.(tempNorm := st.tempNorm + [n])
    case FaceLine(cs) => AddCorners(st, cs, 3)
    case OtherLine => st
  }

  /** The reader's state after the given lines. */
  function Read(lines: seq<ObjLine>): (r: Loader)
    requires WellIndexed(lines)
    ensures r.tempPos == PositionsOf(lines)
    ensures r.tempUV == TexCoordsOf(lines)
    ensures r.tempNorm == NormalsOf(lines)
  {
    if |lines| == 0 then InitialLoader()
    else
      var k := |lines| - 1;
      WellIndexedPrefix(lines, k);
      assert lines[..k][..k] == lines[..k];
      var st := Read(lines[..k]);
      Step(st, lines[k])
  }

  lemma WellIndexedPrefix(lines: seq<ObjLine>, n: nat)
    requires n <= |lines| && WellIndexed(lines)
    ensures WellIndexed(lines[..n])
  {
    forall k, c | 0 <= k < n && 0 <= c < 3 && lines[..n][k].FaceLine?
      ensures InRange(ZeroBased(lines[..n][k].corners[c]), |PositionsOf(lines[..n][..k])|,
                      |TexCoordsOf(lines[..n][..k])|, |NormalsOf(lines[..n][..k])|)
    {
      assert lines[..n][..k] == lines[..k];
    }
  }

  /** Reading one more line is one more step. */
  lemma ReadStep(lines: seq<ObjLine>, i: nat)
    requires WellIndexed(lines) && i < |lines|
    ensures WellIndexed(lines[..i]) && WellIndexed(lines[..i + 1])
    ensures LineValid(Read(lines[..i]), lines[i])
    ensures Read(lines[..i + 1]) == Step(Read(lines[..i]), lines[i])
  {
    WellIndexedPrefix(lines, i);
    WellIndexedPrefix(lines, i + 1);
    assert lines[..i + 1][..i] == lines[..i];
  }

  /** The table maps its triples to distinct output vertices 0 .. n-1. */
  predicate Table(vm: map<VertexKey, int>, n: int) {
    && |vm| == n
    && (forall z | z in vm :: 0 <= vm[z] < n)
    && (forall z, w | z in vm && w in vm && z != w :: vm[z] != vm[w])
  }

  /** Each output position is the input position its triple names. */
  predicate Copied(vm: map<VertexKey, int>, ps: seq<Vec3>, tempPos: seq<Vec3>) {
    forall z | z in vm :: 0 <= z.pos < |tempPos| && 0 <= vm[z] < |ps| && ps[vm[z]] == tempPos[z.pos]
  }

  /** The emitted indices are the table entries of the corners read, in order. */
  predicate Emitted(vm: map<VertexKey, int>, indices: seq<int>, cs: seq<VertexKey>) {
    |indices| == |cs| && forall i | 0 <= i < |cs| :: cs[i] in vm && indices[i] == vm[cs[i]]
  }

  /** The table holds no triple that was not read. */
  predicate Covered(vm: map<VertexKey, int>, cs: seq<VertexKey>) {
    forall z | z in vm :: z in cs
  }

  /** The uv and normal index of every triple in the table are in range. */
  predicate AttributesInRange(vm: map<VertexKey, int>, uvs: int, normals: int) {
    forall z | z in vm :: z.uv < uvs && z.norm < normals
  }

  /** What the dedup table guarantees about a state reached by reading the corners cs. */
  predicate Consistent(st: Loader, cs: seq<VertexKey>) {
    && Table(st.vertexMap, |st.out.positions|)
    && Copied(st.vertexMap, st.out.positions, st.tempPos)
    && AttributesInRange(st.vertexMap, |st.tempUV|, |st.tempNorm|)
    && Emitted(st.vertexMap, st.out.indices, cs)
    && Covered(st.vertexMap, cs)
    && |st.out.texCoords| <= |st.out.positions| && |st.out.normals| <= |st.out.positions|
  }

  lemma InitialConsistent()
    ensures Consistent(InitialLoader(), [])
  {
  }

  lemma TableGrows(vm: map<VertexKey, int>, n: int, z: VertexKey)
    requires Table(vm, n) && z !in vm
    ensures Table(vm[z := n], n + 1)
  {
  }

  lemma CopiedGrows(vm: map<VertexKey, int>, ps: seq<Vec3>, tempPos: seq<Vec3>, z: VertexKey)
    requires Copied(vm, ps, tempPos) && Table(vm, |ps|) && z !in vm && 0 <= z.pos < |tempPos|
    ensures Copied(vm[z := |ps|], ps + [tempPos[z.pos]], tempPos)
  {
    var vm', ps' := vm[z := |ps|], ps + [tempPos[z.pos]];
    forall w | w in vm'
      ensures 0 <= w.pos < |tempPos| && 0 <= vm'[w] < |ps'| && ps'[vm'[w]] == tempPos[w.pos]
    {
      if w != z {
        assert vm'[w] == vm[w];
      }
    }
  }

  lemma EmittedNew(vm: map<VertexKey, int>, indices: seq<int>, cs: seq<VertexKey>, z: VertexKey, n: int)
    requires Emitted(vm, indices, cs) && z !in vm
    ensures Emitted(vm[z := n], indices + [n], cs + [z])
  {
    var vm', cs' := vm[z := n], cs + [z];
    forall i | 0 <= i < |cs'|
      ensures cs'[i] in vm' && (indices + [n])[i] == vm'[cs'[i]]
    {
      if i < |cs| {
        assert cs'[i] == cs[i];
      }
    }
  }

  lemma EmittedHit(vm: map<VertexKey, int>, indices: seq<int>, cs: seq<VertexKey>, z: VertexKey)
    requires Emitted(vm, indices, cs) && z in vm
    ensures Emitted(vm, indices + [vm[z]], cs + [z])
  {
    var cs' := cs + [z];
    forall i | 0 <= i < |cs'|
      ensures cs'[i] in vm && (indices + [vm[z]])[i] == vm[cs'[i]]
    {
      if i < |cs| {
        assert cs'[i] == cs[i];
      }
    }
  }

  lemma CoveredGrows(vm: map<VertexKey, int>, cs: seq<VertexKey>, z: VertexKey, n: int)
    requires Covered(vm, cs)
    ensures Covered(vm[z := n], cs + [z])
  {
    forall w | w in vm[z := n]
      ensures w in cs + [z]
    {
      if w != z {
        assert w in cs;
      }
    }
  }

  lemma NewCornerConsistent(st: Loader, cs: seq<VertexKey>, z: VertexKey)
    requires CornerValid(st, z) && Consistent(st, cs) && z !in st.vertexMap
    ensures Consistent(AddCorner(st, z), cs + [z])
  {
    var vm, o := st.vertexMap, st.out;
    var n := |o.positions|;
    TableGrows(vm, n, z);
    CopiedGrows(vm, o.positions, st.tempPos, z);
    EmittedNew(vm, o.indices, cs, z, n);
    CoveredGrows(vm, cs, z, n);
  }

  lemma SeenCornerConsistent(st: Loader, cs: seq<VertexKey>, z: VertexKey)
    requires CornerValid(st, z) && Consistent(st, cs) && z in st.vertexMap
    ensures Consistent(AddCorner(st, z), cs + [z])
  {
    var vm := st.vertexMap;
    EmittedHit(vm, st.out.indices, cs, z);
    CoveredGrows(vm, cs, z, vm[z]);
    assert vm[z := vm[z]] == vm;
  }

  lemma AddCornerConsistent(st: Loader, cs: seq<VertexKey>, z: VertexKey)
    requires CornerValid(st, z) && Consistent(st, cs)
    ensures Consistent(AddCorner(st, z), cs + [z])
  {
    if z in st.vertexMap {
      SeenCornerConsistent(st, cs, z);
    } else {
      NewCornerConsistent(st, cs, z);
    }
  }

  /** A face line adds its three corners, one after another. */
  lemma FaceConsistent(st: Loader, cs: seq<VertexKey>, face: Corners)
    requires forall c | 0 <= c < 3 :: CornerValid(st, ZeroBased(face[c]))
    requires Consistent(st, cs)
    ensures Consistent(AddCorners(st, face, 3), cs + FaceKeys(face))
  {
    var k0, k1, k2 := ZeroBased(face[0]), ZeroBased(face[1]), ZeroBased(face[2]);
    var s1 := AddCorners(st, face, 1);
    var s2 := AddCorners(st, face, 2);
    var s3 := AddCorners(st, face, 3);
    assert Consistent(s2, cs + [k0] + [k1]) by {
      assert AddCorners(st, face, 0) == st;
      assert s1 == AddCorner(st, k0);
      AddCornerConsistent(st, cs, k0);
      assert s2 == AddCorner(s1, k1);
      AddCornerConsistent(s1, cs + [k0], k1);
    }
    assert s3 == AddCorner(s2, k2);
    AddCornerConsistent(s2, cs + [k0] + [k1], k2);
    AppendThree(cs, k0, k1, k2);
  }

  lemma AppendThree<T>(s: seq<T>, a: T, b: T, c: T)
    ensures s + [a] + [b] + [c] == s + [a, b, c]
  {
  }

  /** Appending to the temporary lists keeps the table consistent. */
  lemma TempGrowthConsistent(st: Loader, st': Loader, cs: seq<VertexKey>)
    requires Consistent(st, cs)
    requires st'.vertexMap == st.vertexMap && st'.out == st.out
    requires |st.tempPos| <= |st'.tempPos| && st'.tempPos[..|st.tempPos|] == st.tempPos
    requires |st.tempUV| <= |st'.tempUV| && |st.tempNorm| <= |st'.tempNorm|
    ensures Consistent(st', cs)
  {
    var vm := st.vertexMap;
    forall z | z in vm
      ensures 0 <= z.pos < |st'.tempPos| && st'.out.positions[vm[z]] == st'.tempPos[z.pos]
    {
      assert st'.tempPos[z.pos] == st'.tempPos[..|st.tempPos|][z.pos];
    }
  }

  /** The reader's state is consistent with the corners of the face lines read so far. */
  lemma {:induction false} ReadConsistent(lines: seq<ObjLine>)
    requires WellIndexed(lines)
    ensures Consistent(Read(lines), CornersOf(lines))
    decreases |lines|
  {
    if |lines| == 0 {
      InitialConsistent();
    } else {
      var k := |lines| - 1;
      WellIndexedPrefix(lines, k);
      assert lines[..k][..k] == lines[..k];
      ReadConsistent(lines[..k]);
      var st, cs := Read(lines[..k]), CornersOf(lines[..k]);
      assert Read(lines) == Step(st, lines[k]);
      if lines[k].FaceLine? {
        assert CornersOf(lines) == cs + FaceKeys(lines[k].corners);
      } else {
        assert CornersOf(lines) == cs + [];
        assert cs + [] == cs;
      }
      match lines[k]
      case FaceLine(face) =>
        FaceConsistent(st, cs, face);
      case PositionLine(p) =>
        assert (st.tempPos + [p])[..|st.tempPos|] == st.tempPos;
        TempGrowthConsistent(st, Step(st, lines[k]), cs);
      case TexCoordLine(_) =>
        TempGrowthConsistent(st, Step(st, lines[k]), cs);
      case NormalLine(_) =>
        TempGrowthConsistent(st, Step(st, lines[k]), cs);
      case OtherLine =>
    }
  }

  /** Each face line contributes three corners. */
  lemma {:induction false} CornersPerFace(lines: seq<ObjLine>)
    ensures |CornersOf(lines)| == 3 * CountFaces(lines)
    decreases |lines|
  {
    if |lines| > 0 {
      CornersPerFace(lines[..|lines| - 1]);
    }
  }

  /** The set of distinct triples among some corners. */
  function Distinct(cs: seq<VertexKey>): set<VertexKey> {
    set i | 0 <= i < |cs| :: cs[i]
  }

  /** After reading a file, every emitted index names an output vertex whose position is
      the one its corner's triple refers to. */
  lemma LoadedIndicesNamePositions(lines: seq<ObjLine>)
    requires WellIndexed(lines)
    ensures |Read(lines).out.indices| == |CornersOf(lines)| == 3 * CountFaces(lines)
    ensures forall i | 0 <= i < |Read(lines).out.indices| ::
      0 <= Read(lines).out.indices[i] < |Read(lines).out.positions| &&
      0 <= CornersOf(lines)[i].pos < |PositionsOf(lines)| &&
      Read(lines).out.positions[Read(lines).out.indices[i]] == PositionsOf(lines)[CornersOf(lines)[i].pos]
  {
    var r, cs := Read(lines), CornersOf(lines);
    var vm, o := r.vertexMap, r.out;
    ReadConsistent(lines);
    CornersPerFace(lines);
    assert Emitted(vm, o.indices, cs) && Table(vm, |o.positions|) && Copied(vm, o.positions, r.tempPos);
    forall i | 0 <= i < |o.indices|
      ensures 0 <= o.indices[i] < |o.positions| && 0 <= cs[i].pos < |r.tempPos|
      ensures o.positions[o.indices[i]] == r.tempPos[cs[i].pos]
    {
      assert cs[i] in vm;
    }
  }

  /** Two corners of the file get the same index exactly when they are the same triple. */
  lemma LoadedIndicesShareExactly(lines: seq<ObjLine>)
    requires WellIndexed(lines)
    ensures |Read(lines).out.indices| == |CornersOf(lines)|
    ensures forall i, j | 0 <= i < |CornersOf(lines)| && 0 <= j < |CornersOf(lines)| ::
      Read(lines).out.indices[i] == Read(lines).out.indices[j] <==> CornersOf(lines)[i] == CornersOf(lines)[j]
  {
    var r, cs := Read(lines), CornersOf(lines);
    var vm, o := r.vertexMap, r.out;
    ReadConsistent(lines);
    assert Emitted(vm, o.indices, cs) && Table(vm, |o.positions|);
    forall i, j | 0 <= i < |cs| && 0 <= j < |cs|
      ensures o.indices[i] == o.indices[j] <==> cs[i] == cs[j]
    {
      assert cs[i] in vm && cs[j] in vm;
    }
  }

  /** There is one output position per distinct triple, and no more uvs or normals than
      positions. */
  lemma LoadedPositionsCountTriples(lines: seq<ObjLine>)
    requires WellIndexed(lines)
    ensures |Read(lines).out.positions| == |Distinct(CornersOf(lines))|
    ensures |Read(lines).out.texCoords| <= |Read(lines).out.positions|
    ensures |Read(lines).out.normals| <= |Read(lines).out.positions|
  {
    var r, cs := Read(lines), CornersOf(lines);
    var vm := r.vertexMap;
    ReadConsistent(lines);
    assert Emitted(vm, r.out.indices, cs) && Covered(vm, cs) && Table(vm, |r.out.positions|);
    assert vm.Keys == Distinct(cs) by {
      forall z | z in vm.Keys
        ensures z in Distinct(cs)
      {
        assert z in cs;
        var i :| 0 <= i < |cs| && cs[i] == z;
      }
      forall z | z in Distinct(cs)
        ensures z in vm.Keys
      {
        var i :| 0 <= i < |cs| && cs[i] == z;
        assert cs[i] in vm;
      }
    }
  }

  /** The effect of one more line: "v", "vt" and "vn" lines append exactly one entry to
      their own list and change nothing else, an "f" line appends exactly three indices
      and leaves the lists alone, and any other line changes nothing. */
  lemma LineEffect(lines: seq<ObjLine>, line: ObjLine)
    requires WellIndexed(lines + [line])
    ensures WellIndexed(lines)
    ensures line.PositionLine? ==> Read(lines + [line]) == Read(lines).(tempPos := Read(lines).tempPos + [line.p])
    ensures line.TexCoordLine? ==> Read(lines + [line]) == Read(lines).(tempUV := Read(lines).tempUV + [line.t])
    ensures line.NormalLine? ==> Read(lines + [line]) == Read(lines).(tempNorm := Read(lines).tempNorm + [line.n])
    ensures line.FaceLine? ==>
      && |Read(lines + [line]).out.indices| == |Read(lines).out.indices| + 3
      && Read(lines).out.indices <= Read(lines + [line]).out.indices
    ensures line.OtherLine? ==> Read(lines + [line]) == Read(lines)
  {
    var all := lines + [line];
    ReadStep(all, |lines|);
    assert all[..|lines|] == lines;
    assert all[..|lines| + 1] == all;
    if line.FaceLine? {
      CornersAppendIndices(Read(lines), line.corners, 3);
    }
  }

  /** Each corner appends one index and keeps the earlier ones. */
  lemma {:induction false} CornersAppendIndices(st: Loader, cs: Corners, n: nat)
    requires n <= 3
    requires forall c | 0 <= c < 3 :: CornerValid(st, ZeroBased(cs[c]))
    ensures |AddCorners(st, cs, n).out.indices| == |st.out.indices| + n
    ensures st.out.indices <= AddCorners(st, cs, n).out.indices
  {
    if n > 0 {
      CornersAppendIndices(st, cs, n - 1);
    }
  }

  /** One corner in detail: a triple already in the table emits its stored index and adds
      no position; a new triple is given index |positions|, copies its position and, when
      its uv or normal index is not negative, that uv (as read, not flipped) or normal. */
  lemma CornerEffect(st: Loader, z: VertexKey)
    requires CornerValid(st, z)
    ensures z in st.vertexMap ==>
      AddCorner(st, z).out == st.out.(indices := st.out.indices + [st.vertexMap[z]]) &&
      AddCorner(st, z).vertexMap == st.vertexMap
    ensures z !in st.vertexMap ==>
      var n := |st.out.positions|;
      && AddCorner(st, z).vertexMap == st.vertexMap[z := n]
      && AddCorner(st, z).out.indices == st.out.indices + [n]
      && AddCorner(st, z).out.positions == st.out.positions + [st.tempPos[z.pos]]
      && AddCorner(st, z).out.texCoords == st.out.texCoords + (if z.uv >= 0 then [st.tempUV[z.uv]] else [])
      && AddCorner(st, z).out.normals == st.out.normals + (if z.norm >= 0 then [st.tempNorm[z.norm]] else [])
  {
  }

  /** The corners of one "f" line, in order: each triple is made zero-based, looked up,
      and on a miss given the next output vertex. */
  method AddFace(tempPos: seq<Vec3>, tempUV: seq<Vec2>, tempNorm: seq<Vec3>,
                 vertexMap0: map<VertexKey, int>, out0: OBJData, corners: Corners)
    returns (vertexMap: map<VertexKey, int>, out: OBJData)
    requires forall c | 0 <= c < 3 :: CornerValid(Loader(tempPos, tempUV, tempNorm, vertexMap0, out0), ZeroBased(corners[c]))
    ensures Loader(tempPos, tempUV, tempNorm, vertexMap, out)
         == AddCorners(Loader(tempPos, tempUV, tempNorm, vertexMap0, out0), corners, 3)
  {
    ghost var st := Loader(tempPos, tempUV, tempNorm, vertexMap0, out0);
    vertexMap, out := vertexMap0, out0;
    for c := 0 to 3
      invariant Loader(tempPos, tempUV, tempNorm, vertexMap, out) == AddCorners(st, corners, c)
    {
      var key := corners[c];
      key := VertexKey(key.pos - 1, key.uv - 1, key.norm - 1);
      if key !in vertexMap {
        var index := |out.positions|;
        vertexMap := vertexMap[key := index];
        out := out.(positions := out.positions + [tempPos[key.pos]]);
        if key.uv >= 0 {
          var uv := tempUV[key.uv];
          var flippedUV := Vec2(uv.x, 1.0 - uv.y);  // computed but not stored
          out := out.(texCoords := out.texCoords + [uv]);
        }
        if key.norm >= 0 {
          out := out.(normals := out.normals + [tempNorm[key.norm]]);
        }
      }
      out := out.(indices := out.indices + [vertexMap[key]]);
    }
  }

  /** The dispatch on one line's prefix. */
  method ReadLine(tempPos0: seq<Vec3>, tempUV0: seq<Vec2>, tempNorm0: seq<Vec3>,
                  vertexMap0: map<VertexKey, int>, out0: OBJData, line: ObjLine)
    returns (tempPos: seq<Vec3>, tempUV: seq<Vec2>, tempNorm: seq<Vec3>,
             vertexMap: map<VertexKey, int>, out: OBJData)
    requires LineValid(Loader(tempPos0, tempUV0, tempNorm0, vertexMap0, out0), line)
    ensures Loader(tempPos, tempUV, tempNorm, vertexMap, out)
         == Step(Loader(tempPos0, tempUV0, tempNorm0, vertexMap0, out0), line)
  {
    tempPos, tempUV, tempNorm, vertexMap, out := tempPos0, tempUV0, tempNorm0, vertexMap0, out0;
    match line {
      case PositionLine(p) =>
        tempPos := tempPos + [p];
      case TexCoordLine(t) =>
        tempUV := tempUV + [t];
      case NormalLine(n) =>
        tempNorm := tempNorm + [n];
      case FaceLine(corners) =>
        vertexMap, out := AddFace(tempPos, tempUV, tempNorm, vertexMap, out, corners);
      case OtherLine =>
    }
  }

  /** `LoadOBJ`, reading the lines one at a time. */
  method LoadOBJ(file: Option<seq<ObjLine>>) returns (out: OBJData)
    requires file.Some? ==> WellIndexed(file.value)
    ensures file.None? ==> out == EmptyOBJ()
    ensures file.Some? ==> out == Read(file.value).out
  {
    out := EmptyOBJ();
    if file.None? {
      return;
    }
    var lines := file.value;
    var tempPos: seq<Vec3> := [];
    var tempUV: seq<Vec2> := [];
    var tempNorm: seq<Vec3> := [];
    var vertexMap: map<VertexKey, int> := map[];
    var i := 0;
    assert lines[..0] == [];
    while i < |lines|
      invariant 0 <= i <= |lines|
      invariant WellIndexed(lines[..i])
      invariant Loader(tempPos, tempUV, tempNorm, vertexMap, out) == Read(lines[..i])
    {
      ReadStep(lines, i);
      tempPos, tempUV, tempNorm, vertexMap, out := ReadLine(tempPos, tempUV, tempNorm, vertexMap, out, lines[i]);
      i := i + 1;
    }
    assert lines[..|lines|] == lines;
  }
}
