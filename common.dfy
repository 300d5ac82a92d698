/**
 * The geometry kernel's value types shared by the mesh generator and the
 * closest-point engine: points, triangles and edges with exact real
 * coordinates, the squared distance between two points and the triangle
 * degeneracy test, plus the two configuration constants of the generator.
 */
module Common {

  /** Bounds on the number of vertices the generator aims for. */
  const VertexMin: int := 100
  const VertexMax: int := 5000

  datatype Option<T> = None | Some(value: T)

  /** A point of 3D space. Equality is exact coordinate equality, which is
      also the equivalence the lexicographic order on points induces. */
  datatype Point = Point(x: real, y: real, z: real)

  /** An ordered triple of vertices. */
  datatype Triangle = Triangle(a: Point, b: Point, c: Point)

  /** An ordered pair of points. */
  datatype Edge = Edge(first: Point, second: Point)

  /** The per-triangle closest-point functor of the geometry library: given a
      query point and a triangle, the point of the triangle nearest to the
      query. Its algorithm belongs to the library, so it enters the model as a
      parameter. */
  type ClosestPointOracle = (Point, Triangle) -> Point

  function Square(r: real): (s: real)
    ensures s >= 0.0
  {
    r * r
  }

  /** Squared Euclidean distance between two points. */
  function SquaredDistance(p: Point, q: Point): (d: real)
    ensures d >= 0.0
    ensures p == q ==> d == 0.0
  {
    Square(p.x - q.x) + Square(p.y - q.y) + Square(p.z - q.z)
  }

  /** A triangle is degenerate when its three vertices are collinear, that is
      when the cross product of two of its edge vectors vanishes. */
  predicate IsDegenerate(t: Triangle)
    ensures t.a == t.b || t.b == t.c || t.a == t.c ==> IsDegenerate(t)
  {
    var ux, uy, uz := t.b.x - t.a.x, t.b.y - t.a.y, t.b.z - t.a.z;
    var vx, vy, vz := t.c.x - t.a.x, t.c.y - t.a.y, t.c.z - t.a.z;
    uy * vz - uz * vy == 0.0 && uz * vx - ux * vz == 0.0 && ux * vy - uy * vx == 0.0
  }
}
