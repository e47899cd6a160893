/** The lookup tables that describe one unit cube: its 8 corners, the 4 texture
    coordinates of a face, the outward normal of each of the 6 faces, and for each face
    the corners it is made of. Each constant array is a total function on its index
    range. Every entry is integer-valued, so the tables are stated over `int` and their
    geometry is checked exactly with integer cross products. */
module BlockConstants {

  /** An integer-valued 3-vector: a block position or a cube corner. */
  datatype Vec3i = Vec3i(x: int, y: int, z: int)

  /** An integer-valued texture coordinate. */
  datatype UV = UV(u: int, v: int)

  /** An index into the 8 corners of the unit cube. */
  type CornerIndex = c: int | 0 <= c < 8

  /** An index into the 6 faces of the cube. */
  type FaceIndex = f: int | 0 <= f < 6

  /** An index into the 4 corners of one face. */
  type QuadCorner = i: int | 0 <= i < 4

  /** The 4 cube corners of one face, in emission order. */
  type Quad = s: seq<CornerIndex> | |s| == 4 witness [0, 1, 2, 3]

  function Add(a: Vec3i, b: Vec3i): Vec3i { Vec3i(a.x + b.x, a.y + b.y, a.z + b.z) }
  function Neg(a: Vec3i): Vec3i { Vec3i(-a.x, -a.y, -a.z) }
  function Dot(a: Vec3i, b: Vec3i): int { a.x * b.x + a.y * b.y + a.z * b.z }

  /** The cross product (q - p) x (r - p) of the edges of triangle (p, q, r). */
  function TriangleNormal(p: Vec3i, q: Vec3i, r: Vec3i): Vec3i {
    Vec3i((q.y - p.y) * (r.z - p.z) - (q.z - p.z) * (r.y - p.y),
          (q.z - p.z) * (r.x - p.x) - (q.x - p.x) * (r.z - p.z),
          (q.x - p.x) * (r.y - p.y) - (q.y - p.y) * (r.x - p.x))
  }

  /** Coordinate `axis` (0 = x, 1 = y, 2 = z) of `v`. */
  function Component(v: Vec3i, axis: int): int
    requires 0 <= axis < 3
  {
    if axis == 0 then v.x else if axis == 1 then v.y else v.z
  }

  /** `unitCubeVertices`: the corners of the cube from (0,0,0) to (1,1,1). */
  function UnitCubeVertex(c: CornerIndex): Vec3i {
    match c
    case 0 => Vec3i(0, 0, 0)
    case 1 => Vec3i(1, 0, 0)
    case 2 => Vec3i(1, 1, 0)
    case 3 => Vec3i(0, 1, 0)
    case 4 => Vec3i(0, 0, 1)
    case 5 => Vec3i(1, 0, 1)
    case 6 => Vec3i(1, 1, 1)
    case 7 => Vec3i(0, 1, 1)
  }

  /** `texCoords`: the texture coordinate given to corner i of every face. */
  function TexCoord(i: QuadCorner): UV {
    match i
    case 0 => UV(0, 0)
    case 1 => UV(1, 0)
    case 2 => UV(1, 1)
    case 3 => UV(0, 1)
  }

  /** `normals`: the outward normal of each face. */
  function Normal(f: FaceIndex): Vec3i {
    match f
    case 0 => Vec3i(0, 0, -1) // front
    case 1 => Vec3i(0, 0, 1)  // back
    case 2 => Vec3i(-1, 0, 0) // left
    case 3 => Vec3i(1, 0, 0)  // right
    case 4 => Vec3i(0, 1, 0)  // top
    case 5 => Vec3i(0, -1, 0) // bottom
  }

  /** `faces`: the corners of each face, in the order they are emitted. */
  function Face(f: FaceIndex): Quad {
    match f
    case 0 => [3, 2, 1, 0] // front
    case 1 => [6, 7, 4, 5] // back
    case 2 => [7, 3, 0, 4] // left
    case 3 => [2, 6, 5, 1] // right
    case 4 => [7, 6, 2, 3] // top
    case 5 => [0, 1, 5, 4] // bottom
  }

  /** Corner i of face f, as a point of the unit cube. */
  function FaceCorner(f: FaceIndex, i: QuadCorner): Vec3i {
    UnitCubeVertex(Face(f)[i])
  }

  /** Corner c is one of the four corners of face f. */
  predicate OnFace(f: FaceIndex, c: CornerIndex) {
    Face(f)[0] == c || Face(f)[1] == c || Face(f)[2] == c || Face(f)[3] == c
  }

  /** The number of the six faces that use corner c. */
  function FacesUsing(c: CornerIndex): nat {
    Uses(0, c) + Uses(1, c) + Uses(2, c) + Uses(3, c) + Uses(4, c) + Uses(5, c)
  }

  function Uses(f: FaceIndex, c: CornerIndex): nat { if OnFace(f, c) then 1 else 0 }

  /** Triangle (p, q, r) winds counter-clockwise seen from the side `n` points to: its
      edge cross product has a positive component along `n`. */
  predicate WindsAbout(p: Vec3i, q: Vec3i, r: Vec3i, n: Vec3i) {
    Dot(n, TriangleNormal(p, q, r)) > 0
  }

  /** Every face lists 4 distinct corners of the cube. */
  lemma FacesUseDistinctCorners()
    ensures forall f: FaceIndex, i: QuadCorner, j: QuadCorner :: i < j ==> Face(f)[i] != Face(f)[j]
  {
  }

  /** All corners of face f lie in the plane its normal points out of: coordinate 1 on
      the axis where the normal is +1, coordinate 0 on the axis where it is -1. */
  lemma FacesLieOnNormalSide()
    ensures forall f: FaceIndex, i: QuadCorner, a | 0 <= a < 3 ::
      (Component(Normal(f), a) == 1 ==> Component(FaceCorner(f, i), a) == 1) &&
      (Component(Normal(f), a) == -1 ==> Component(FaceCorner(f, i), a) == 0)
  {
  }

  /** A triangle whose corners share coordinate `a` has its edge cross product along
      axis `a`; with the lemma above, the two triangles of every face therefore have
      cross products parallel to the face's normal. */
  lemma FlatTriangleNormalIsAxial(p: Vec3i, q: Vec3i, r: Vec3i, a: int)
    requires 0 <= a < 3 && Component(p, a) == Component(q, a) == Component(r, a)
    ensures forall b | 0 <= b < 3 && b != a :: Component(TriangleNormal(p, q, r), b) == 0
  {
  }

  /** Both triangles (v0, v1, v2) and (v0, v2, v3) that face f is drawn as wind
      counter-clockwise seen from outside the cube, the side its normal points to: that
      is what back-face culling with counter-clockwise front faces keeps. */
  lemma FaceWindsCounterClockwise(f: FaceIndex, v0: Vec3i, v1: Vec3i, v2: Vec3i, v3: Vec3i)
    requires v0 == FaceCorner(f, 0) && v1 == FaceCorner(f, 1) && v2 == FaceCorner(f, 2) && v3 == FaceCorner(f, 3)
    ensures WindsAbout(v0, v1, v2, Normal(f)) && WindsAbout(v0, v2, v3, Normal(f))
  {
    match f
    case 0 => FrontFaceWinds(v0, v1, v2, v3, Normal(f));
    case 1 => BackFaceWinds(v0, v1, v2, v3, Normal(f));
    case 2 => LeftFaceWinds(v0, v1, v2, v3, Normal(f));
    case 3 => RightFaceWinds(v0, v1, v2, v3, Normal(f));
    case 4 => TopFaceWinds(v0, v1, v2, v3, Normal(f));
    case 5 => BottomFaceWinds(v0, v1, v2, v3, Normal(f));
  }

  /** The front face, corners and normal written out. */
  lemma FrontFaceWinds(v0: Vec3i, v1: Vec3i, v2: Vec3i, v3: Vec3i, n: Vec3i)
    requires v0 == Vec3i(0, 1, 0) && v1 == Vec3i(1, 1, 0) && v2 == Vec3i(1, 0, 0) && v3 == Vec3i(0, 0, 0)
    requires n == Vec3i(0, 0, -1)
    ensures WindsAbout(v0, v1, v2, n) && WindsAbout(v0, v2, v3, n)
  {
  }

  /** The back face, corners and normal written out. */
  lemma BackFaceWinds(v0: Vec3i, v1: Vec3i, v2: Vec3i, v3: Vec3i, n: Vec3i)
    requires v0 == Vec3i(1, 1, 1) && v1 == Vec3i(0, 1, 1) && v2 == Vec3i(0, 0, 1) && v3 == Vec3i(1, 0, 1)
    requires n == Vec3i(0, 0, 1)
    ensures WindsAbout(v0, v1, v2, n) && WindsAbout(v0, v2, v3, n)
  {
  }

  /** The left face, corners and normal written out. */
  lemma LeftFaceWinds(v0: Vec3i, v1: Vec3i, v2: Vec3i, v3: Vec3i, n: Vec3i)
    requires v0 == Vec3i(0, 1, 1) && v1 == Vec3i(0, 1, 0) && v2 == Vec3i(0, 0, 0) && v3 == Vec3i(0, 0, 1)
    requires n == Vec3i(-1, 0, 0)
    ensures WindsAbout(v0, v1, v2, n) && WindsAbout(v0, v2, v3, n)
  {
  }

  /** The right face, corners and normal written out. */
  lemma RightFaceWinds(v0: Vec3i, v1: Vec3i, v2: Vec3i, v3: Vec3i, n: Vec3i)
    requires v0 == Vec3i(1, 1, 0) && v1 == Vec3i(1, 1, 1) && v2 == Vec3i(1, 0, 1) && v3 == Vec3i(1, 0, 0)
    requires n == Vec3i(1, 0, 0)
    ensures WindsAbout(v0, v1, v2, n) && WindsAbout(v0, v2, v3, n)
  {
  }

  /** The top face, corners and normal written out. */
  lemma TopFaceWinds(v0: Vec3i, v1: Vec3i, v2: Vec3i, v3: Vec3i, n: Vec3i)
    requires v0 == Vec3i(0, 1, 1) && v1 == Vec3i(1, 1, 1) && v2 == Vec3i(1, 1, 0) && v3 == Vec3i(0, 1, 0)
    requires n == Vec3i(0, 1, 0)
    ensures WindsAbout(v0, v1, v2, n) && WindsAbout(v0, v2, v3, n)
  {
  }

  /** The bottom face, corners and normal written out. */
  lemma BottomFaceWinds(v0: Vec3i, v1: Vec3i, v2: Vec3i, v3: Vec3i, n: Vec3i)
    requires v0 == Vec3i(0, 0, 0) && v1 == Vec3i(1, 0, 0) && v2 == Vec3i(1, 0, 1) && v3 == Vec3i(0, 0, 1)
    requires n == Vec3i(0, -1, 0)
    ensures WindsAbout(v0, v1, v2, n) && WindsAbout(v0, v2, v3, n)
  {
  }

  /** Each of the 8 corners belongs to exactly 3 faces. */
  lemma EveryCornerInThreeFaces(c: CornerIndex)
    ensures FacesUsing(c) == 3
  {
    match c
    case 0 => case 1 => case 2 => case 3 => case 4 => case 5 => case 6 => case 7 =>
  }

  /** No two faces are made of the same corners: for faces f < g, a corner of f that g
      does not use (front {0,1,2,3}, back {4,5,6,7}, left {0,3,4,7}, right {1,2,5,6},
      top {2,3,6,7}, bottom {0,1,4,5}). */
  function DistinguishingCorner(f: FaceIndex, g: FaceIndex): (c: CornerIndex)
    requires f < g
    ensures OnFace(f, c) && !OnFace(g, c)
  {
    if f == 0 then (if g == 2 then 1 else if g == 5 then 3 else 0)
    else if f == 1 then (if g == 2 || g == 5 then 6 else 4)
    else if f == 2 then (if g == 5 then 3 else 0)
    else if f == 3 then (if g == 5 then 2 else 1)
    else 2
  }

  /** Each normal is an axis-aligned unit vector. */
  lemma NormalIsAxisUnit(f: FaceIndex)
    ensures AxisUnit(Normal(f))
  {
    match f case 0 => case 1 => case 2 => case 3 => case 4 => case 5 =>
  }

  /** Faces 0/1 (front/back), 2/3 (left/right) and 4/5 (top/bottom) are opposite. */
  function Opposite(f: FaceIndex): FaceIndex {
    if f % 2 == 0 then f + 1 else f - 1
  }

  /** Opposite faces have opposite normals. */
  lemma OppositeFacesHaveOpposedNormals(f: FaceIndex)
    ensures Opposite(f) != f && Opposite(Opposite(f)) == f
    ensures Normal(Opposite(f)) == Neg(Normal(f))
  {
    match f
    case 0 => assert Neg(Vec3i(0, 0, -1)) == Vec3i(0, 0, 1);
    case 1 => assert Neg(Vec3i(0, 0, 1)) == Vec3i(0, 0, -1);
    case 2 => assert Neg(Vec3i(-1, 0, 0)) == Vec3i(1, 0, 0);
    case 3 => assert Neg(Vec3i(1, 0, 0)) == Vec3i(-1, 0, 0);
    case 4 => assert Neg(Vec3i(0, 1, 0)) == Vec3i(0, -1, 0);
    case 5 => assert Neg(Vec3i(0, -1, 0)) == Vec3i(0, 1, 0);
  }

  /** v has one coordinate equal to 1 or -1 and the others 0. */
  predicate AxisUnit(v: Vec3i) {
    Abs(v.x) + Abs(v.y) + Abs(v.z) == 1
  }

  function Abs(a: int): nat { if a < 0 then -a else a }

  /** The 8 corners are distinct and have every coordinate in {0, 1}. */
  lemma UnitCubeVerticesAreTheBinaryCorners()
    ensures forall c: CornerIndex, a | 0 <= a < 3 :: Component(UnitCubeVertex(c), a) in {0, 1}
    ensures forall c: CornerIndex, d: CornerIndex :: c < d ==> UnitCubeVertex(c) != UnitCubeVertex(d)
  {
  }

  /** The texture coordinates visit the corners of the unit square counter-clockwise,
      starting at (0,0), one edge at a time. */
  lemma TexCoordsRunCounterClockwise()
    ensures TexCoord(0) == UV(0, 0)
    ensures forall i: QuadCorner :: TexCoord(i).u in {0, 1} && TexCoord(i).v in {0, 1}
    ensures forall i: QuadCorner | i < 3 :: SquareEdge(TexCoord(i), TexCoord(i + 1))
    ensures SquareEdge(TexCoord(3), TexCoord(0))
    ensures TurnsLeft(TexCoord(0), TexCoord(1), TexCoord(2)) && TurnsLeft(TexCoord(0), TexCoord(2), TexCoord(3))
  {
    forall i: QuadCorner | i < 3 ensures SquareEdge(TexCoord(i), TexCoord(i + 1)) {
      match i
      case 0 => case 1 => case 2 =>
    }
    assert TurnsLeft(UV(0, 0), UV(1, 0), UV(1, 1));
  }

  /** p and q differ in exactly one coordinate: they are adjacent corners of the unit square. */
  predicate SquareEdge(p: UV, q: UV) {
    (if p.u == q.u then 0 else 1) + (if p.v == q.v then 0 else 1) == 1
  }

  /** The 2-D triangle (a, b, c) turns counter-clockwise. */
  predicate TurnsLeft(a: UV, b: UV, c: UV) {
    (b.u - a.u) * (c.v - a.v) - (b.v - a.v) * (c.u - a.u) > 0
  }
}
