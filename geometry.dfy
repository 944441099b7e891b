/** Plane and space vectors, the instance transform built for every brush stamp,
    and the unit quad mesh that every stamp draws. */
module Geometry {

  datatype Vec2 = Vec2(x: real, y: real)

  datatype Vec3 = Vec3(x: real, y: real, z: real)

  const Zero2 := Vec2(0.0, 0.0)
  const One2 := Vec2(1.0, 1.0)

  function Add(a: Vec2, b: Vec2): Vec2 { Vec2(a.x + b.x, a.y + b.y) }

  function Sub(a: Vec2, b: Vec2): Vec2 { Vec2(a.x - b.x, a.y - b.y) }

  function Scale(v: Vec2, k: real): Vec2 { Vec2(v.x * k, v.y * k) }

  function Dot(a: Vec2, b: Vec2): real { a.x * b.x + a.y * b.y }

  /** The square of the Euclidean distance between two points. */
  function SqDist(a: Vec2, b: Vec2): real { Dot(Sub(a, b), Sub(a, b)) }

  /** `len` and `dir` are what `v.magnitude` and `v.normalized` compute for `v`:
      `len` is the non-negative square root of |v|^2, and `dir` scaled by `len`
      gives back `v` (so `dir` is a unit vector), or `dir` is zero when `v` is. */
  predicate Measures(v: Vec2, len: real, dir: Vec2)
  {
    && len >= 0.0
    && len * len == Dot(v, v)
    && (len == 0.0 ==> dir == Zero2)
    && (len > 0.0 ==> Scale(dir, len) == v)
  }

  /** A unit quaternion; only the identity rotation is ever built. */
  datatype Quaternion = Quaternion(x: real, y: real, z: real, w: real)

  const IdentityRotation := Quaternion(0.0, 0.0, 0.0, 1.0)

  /** The translation, rotation and scale a `Matrix4x4.TRS` matrix is made of. */
  datatype Trs = Trs(translation: Vec3, rotation: Quaternion, scale: Vec3)

  datatype Topology = Triangles

  datatype Mesh = Mesh(vertices: seq<Vec3>, uvs: seq<Vec2>, indices: seq<int>, topology: Topology)

  /** The stamp primitive: the unit square with corners (0,0), (0,1), (1,0), (1,1),
      texture coordinates equal to the corner positions, and two triangles. */
  function UnitQuad(): (m: Mesh)
    ensures |m.vertices| == |m.uvs| == 4
    ensures forall i :: 0 <= i < 4 ==>
      && m.vertices[i].z == 0.0
      && m.uvs[i] == Vec2(m.vertices[i].x, m.vertices[i].y)
      && (m.vertices[i].x == 0.0 || m.vertices[i].x == 1.0)
      && (m.vertices[i].y == 0.0 || m.vertices[i].y == 1.0)
    ensures forall i, j :: 0 <= i < j < 4 ==> m.vertices[i] != m.vertices[j]
    ensures m.topology == Triangles && |m.indices| == 6
    ensures forall k :: 0 <= k < |m.indices| ==> 0 <= m.indices[k] < |m.vertices|
    ensures m.indices == [0, 1, 2, 3, 2, 1]
    // Each triangle has three distinct corners; the two share exactly the diagonal
    // (0,1)-(1,0), and together they use all four corners of the square.
    ensures forall t :: 0 <= t < 2 ==>
      && m.indices[3 * t] != m.indices[3 * t + 1]
      && m.indices[3 * t + 1] != m.indices[3 * t + 2]
      && m.indices[3 * t] != m.indices[3 * t + 2]
    ensures var first := {m.vertices[m.indices[0]], m.vertices[m.indices[1]], m.vertices[m.indices[2]]};
      var second := {m.vertices[m.indices[3]], m.vertices[m.indices[4]], m.vertices[m.indices[5]]};
      && first * second == {Vec3(0.0, 1.0, 0.0), Vec3(1.0, 0.0, 0.0)}
      && first + second
         == {Vec3(0.0, 0.0, 0.0), Vec3(0.0, 1.0, 0.0), Vec3(1.0, 0.0, 0.0), Vec3(1.0, 1.0, 0.0)}
  {
    Mesh([Vec3(0.0, 0.0, 0.0), Vec3(0.0, 1.0, 0.0), Vec3(1.0, 0.0, 0.0), Vec3(1.0, 1.0, 0.0)],
         [Vec2(0.0, 0.0), Vec2(0.0, 1.0), Vec2(1.0, 0.0), Vec2(1.0, 1.0)],
         [0, 1, 2, 3, 2, 1],
         Triangles)
  }
}
