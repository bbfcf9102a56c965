/** Three-component vectors and spheres, with the sphere-sphere collision test.
    Floating-point values are idealised as mathematical reals. */
module Vectors {

  /** A point or a direction in 3-D space. */
  datatype Vector3 = Vector3(x: real, y: real, z: real)

  /** A sphere given by its centre and radius. */
  datatype Sphere = Sphere(center: Vector3, radius: real)

  const Origin := Vector3(0.0, 0.0, 0.0)

  function Add(a: Vector3, b: Vector3): Vector3 {
    Vector3(a.x + b.x, a.y + b.y, a.z + b.z)
  }

  function Subtract(a: Vector3, b: Vector3): Vector3 {
    Vector3(a.x - b.x, a.y - b.y, a.z - b.z)
  }

  function Scale(v: Vector3, s: real): Vector3 {
    Vector3(v.x * s, v.y * s, v.z * s)
  }

  function Dot(a: Vector3, b: Vector3): real {
    a.x * b.x + a.y * b.y + a.z * b.z
  }

  /** The squared length is never negative. */
  function LengthSq(v: Vector3): (r: real)
    ensures r >= 0.0
  {
    var r := Dot(v, v);
    SquareNonNegative(v.x);
    SquareNonNegative(v.y);
    SquareNonNegative(v.z);
    r
  }

  lemma SquareNonNegative(a: real)
    ensures a * a >= 0.0
  {
    if a < 0.0 {
      assert a * a == (-a) * (-a);
    }
  }

  lemma ProductMonotone(a: real, b: real, c: real)
    requires a <= b && c >= 0.0
    ensures a * c <= b * c
  {
    if a < b && c > 0.0 {
      assert (b - a) * c > 0.0;
      assert b * c - a * c == (b - a) * c;
    }
  }

  /** Two spheres collide when the squared distance of their centres is at
      most the square of the sum of their radii; touching counts. */
  predicate IsCollision(s1: Sphere, s2: Sphere) {
    var rSum := s1.radius + s2.radius;
    LengthSq(Subtract(s1.center, s2.center)) <= rSum * rSum
  }

  // ---------------------------------------------------------------
  // Algebra of the vector operations
  // ---------------------------------------------------------------

  lemma AddCommutes(a: Vector3, b: Vector3)
    ensures Add(a, b) == Add(b, a)
  {}

  /** Subtract undoes Add, and Add undoes Subtract. */
  lemma SubtractInvertsAdd(a: Vector3, b: Vector3)
    ensures Subtract(Add(a, b), b) == a
    ensures Add(Subtract(a, b), b) == a
  {}

  /** Subtracting in the other order gives the opposite vector. */
  lemma SubtractAntiCommutes(a: Vector3, b: Vector3)
    ensures Subtract(b, a) == Scale(Subtract(a, b), -1.0)
  {}

  lemma DotCommutes(a: Vector3, b: Vector3)
    ensures Dot(a, b) == Dot(b, a)
  {}

  /** Scaling a vector by s scales its squared length by s squared. */
  lemma ScaleLengthSq(v: Vector3, s: real)
    ensures LengthSq(Scale(v, s)) == s * s * LengthSq(v)
  {
    assert (v.x * s) * (v.x * s) == s * s * (v.x * v.x);
    assert (v.y * s) * (v.y * s) == s * s * (v.y * v.y);
    assert (v.z * s) * (v.z * s) == s * s * (v.z * v.z);
  }

  /** The distance between two points does not depend on their order. */
  lemma DistanceSqSymmetric(a: Vector3, b: Vector3)
    ensures LengthSq(Subtract(a, b)) == LengthSq(Subtract(b, a))
  {
    SubtractAntiCommutes(a, b);
    ScaleLengthSq(Subtract(a, b), -1.0);
  }

  // ---------------------------------------------------------------
  // Properties of the collision test
  // ---------------------------------------------------------------

  /** The collision test does not depend on the order of the spheres. */
  lemma CollisionSymmetric(s1: Sphere, s2: Sphere)
    ensures IsCollision(s1, s2) == IsCollision(s2, s1)
  {
    DistanceSqSymmetric(s1.center, s2.center);
  }

  /** For squares of non-negative numbers the order is that of the numbers. */
  lemma SquareMonotone(a: real, b: real)
    requires a >= 0.0 && b >= 0.0
    ensures a * a <= b * b <==> a <= b
  {
    if a <= b {
      ProductMonotone(a, b, a);
      ProductMonotone(a, b, b);
      assert a * a <= b * a == a * b <= b * b;
    } else {
      var p, q := a - b, a + b;
      assert p * q > 0.0;
      assert a * a - b * b == p * q;
    }
  }

  /** The boundary is inclusive: when the centres are `d` apart and the radii
      are not negative, the spheres collide exactly when `d` is at most the
      sum of the radii; tangent spheres (`d == r1 + r2`) collide, and any
      larger distance does not. */
  lemma CollisionIffWithinRadiusSum(s1: Sphere, s2: Sphere, d: real)
    requires s1.radius >= 0.0 && s2.radius >= 0.0
    requires d >= 0.0 && LengthSq(Subtract(s1.center, s2.center)) == d * d
    ensures IsCollision(s1, s2) <==> d <= s1.radius + s2.radius
  {
    SquareMonotone(d, s1.radius + s2.radius);
  }

  /** Every sphere collides with itself: the centre distance is zero and a
      square is never negative, whatever the sign of the radius. */
  lemma CollisionSelf(s: Sphere)
    ensures IsCollision(s, s)
  {
    assert Subtract(s.center, s.center) == Origin;
    SquareNonNegative(s.radius + s.radius);
  }

  /** The test compares squares, so with negative radii it accepts distances
      up to |r1 + r2| rather than r1 + r2: these spheres of radius -1 whose
      centres are 1 apart collide, although 1 > -2. */
  lemma CollisionWithNegativeRadii()
    ensures IsCollision(Sphere(Origin, -1.0), Sphere(Vector3(1.0, 0.0, 0.0), -1.0))
    ensures !(1.0 <= -1.0 + -1.0)
  {}

  /** Moving both spheres by the same offset does not change the verdict. */
  lemma CollisionTranslationInvariant(s1: Sphere, s2: Sphere, t: Vector3)
    ensures IsCollision(Sphere(Add(s1.center, t), s1.radius), Sphere(Add(s2.center, t), s2.radius))
            == IsCollision(s1, s2)
  {
    assert Subtract(Add(s1.center, t), Add(s2.center, t)) == Subtract(s1.center, s2.center);
  }

  /** Unit spheres centred at the origin and at (3, 0, 0) do not collide;
      at (2, 0, 0) they touch, which counts as a collision. */
  lemma CollisionExamples()
    ensures !IsCollision(Sphere(Origin, 1.0), Sphere(Vector3(3.0, 0.0, 0.0), 1.0))
    ensures IsCollision(Sphere(Origin, 1.0), Sphere(Vector3(2.0, 0.0, 0.0), 1.0))
  {}
}
