/**
 * Points of a hand skeleton, the vector arithmetic the normaliser uses, and
 * the properties of the Euclidean distance that the proofs rely on.
 */
module Geometry {

  /** A landmark: three coordinates, with no identity beyond its position. */
  datatype Point3 = Point3(x: real, y: real, z: real)

  const Origin := Point3(0.0, 0.0, 0.0)

  /** Componentwise difference `p - q`. */
  function Sub(p: Point3, q: Point3): Point3
  {
    Point3(p.x - q.x, p.y - q.y, p.z - q.z)
  }

  /** Componentwise division of `p` by the scalar `s`. */
  function Div(p: Point3, s: real): Point3
    requires s != 0.0
  {
    Point3(p.x / s, p.y / s, p.z / s)
  }

  /** Landmark `p` in the frame whose origin is `origin` and whose unit is `unit`. */
  function Rescale(p: Point3, origin: Point3, unit: real): Point3
    requires unit != 0.0
  {
    Div(Sub(p, origin), unit)
  }

  /**
   * What the proofs assume of the distance `distance3D` computes (the square
   * root of the summed squared coordinate differences): it is non-negative,
   * zero exactly between equal points, and moving to a frame with a new
   * origin and a positive unit `s` divides every distance by `s`.
   */
  ghost predicate IsEuclideanLike(dist: (Point3, Point3) -> real)
  {
    (forall a, b :: 0.0 <= dist(a, b))
    && (forall a, b :: dist(a, b) == 0.0 <==> a == b)
    && (forall a, b, o, s :: 0.0 < s ==> dist(Rescale(a, o, s), Rescale(b, o, s)) == dist(a, b) / s)
  }

  /** The origin of a frame is the origin of the rescaled coordinates. */
  lemma RescaleOrigin(o: Point3, s: real)
    requires s != 0.0
    ensures Rescale(o, o, s) == Origin
  {
  }
}
