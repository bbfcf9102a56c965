/** Applying a 4x4 matrix to a point (homogeneous multiply, then division by
    w) and the closed-form matrix builders: translation, the two axis
    rotations, the perspective projection and the viewport mapping.
    The rotation builders get the sine and cosine of their angle, and the
    perspective builder the tangent of half its field of view, as inputs. */
module Transforms {
  import opened Vectors
  import opened Matrices

  /** The point `v` as the homogeneous row vector (x, y, z, 1). */
  function Homogeneous(v: Vector3): (h: seq<real>)
    ensures |h| == 4
  {
    [v.x, v.y, v.z, 1.0]
  }

  /** Column j of `v x m`: x, y, z weighted by the column's first three
      entries, plus its last entry. */
  lemma HomogeneousColumn(v: Vector3, m: Matrix4x4, j: nat)
    requires j < 4
    ensures RowTimes(Homogeneous(v), m)[j] == v.x * m[0][j] + v.y * m[1][j] + v.z * m[2][j] + m[3][j]
  {
    ColumnSumExpanded(Homogeneous(v), m, j);
  }

  /** The fourth homogeneous component of `v x m`, the divisor of the
      perspective division. */
  function W(v: Vector3, m: Matrix4x4): (w: real)
    ensures w == RowTimes(Homogeneous(v), m)[3]
  {
    HomogeneousColumn(v, m, 3);
    v.x * m[0][3] + v.y * m[1][3] + v.z * m[2][3] + m[3][3]
  }

  /** `v x m` projected back to three components by dividing by w. */
  function Transformed(v: Vector3, m: Matrix4x4): Vector3
    requires W(v, m) != 0.0
  {
    var h := RowTimes(Homogeneous(v), m);
    Vector3(h[0] / h[3], h[1] / h[3], h[2] / h[3])
  }

  /** A matrix whose last column is (0, 0, 0, 1): it never changes w. */
  predicate IsAffine(m: Matrix4x4) {
    m[0][3] == 0.0 && m[1][3] == 0.0 && m[2][3] == 0.0 && m[3][3] == 1.0
  }

  /** Computes x, y, z and w of `v x m` term by term, then divides x, y and z
      by w in place. The caller guarantees that w is not zero. */
  method Transform(v: Vector3, m: Matrix4x4) returns (r: Vector3)
    requires W(v, m) != 0.0
    ensures r == Transformed(v, m)
  {
    r := Vector3(v.x * m[0][0] + v.y * m[1][0] + v.z * m[2][0] + m[3][0],
                 v.x * m[0][1] + v.y * m[1][1] + v.z * m[2][1] + m[3][1],
                 v.x * m[0][2] + v.y * m[1][2] + v.z * m[2][2] + m[3][2]);
    var w := v.x * m[0][3] + v.y * m[1][3] + v.z * m[2][3] + m[3][3];
    HomogeneousColumn(v, m, 0);
    HomogeneousColumn(v, m, 1);
    HomogeneousColumn(v, m, 2);
    r := r.(x := r.x / w);
    r := r.(y := r.y / w);
    r := r.(z := r.z / w);
  }

  /** An affine matrix keeps w at 1, so the division changes nothing. */
  lemma AffineTransformed(v: Vector3, m: Matrix4x4)
    requires IsAffine(m)
    ensures W(v, m) == 1.0
    ensures Transformed(v, m)
            == Vector3(v.x * m[0][0] + v.y * m[1][0] + v.z * m[2][0] + m[3][0],
                       v.x * m[0][1] + v.y * m[1][1] + v.z * m[2][1] + m[3][1],
                       v.x * m[0][2] + v.y * m[1][2] + v.z * m[2][2] + m[3][2])
    ensures Homogeneous(Transformed(v, m)) == RowTimes(Homogeneous(v), m)
  {
    HomogeneousColumn(v, m, 0);
    HomogeneousColumn(v, m, 1);
    HomogeneousColumn(v, m, 2);
    HomogeneousColumn(v, m, 3);
  }

  /** The identity leaves every point where it is. */
  lemma TransformIdentity(v: Vector3)
    ensures W(v, Identity()) == 1.0
    ensures Transformed(v, Identity()) == v
  {
    AffineTransformed(v, Identity());
  }

  /** The product of two affine matrices is affine. */
  lemma ProductAffine(a: Matrix4x4, b: Matrix4x4)
    requires IsAffine(a) && IsAffine(b)
    ensures IsAffine(Product(a, b))
  {
    ColumnSumExpanded(a[0], b, 3);
    ColumnSumExpanded(a[1], b, 3);
    ColumnSumExpanded(a[2], b, 3);
    ColumnSumExpanded(a[3], b, 3);
  }

  /** Transforming by `a x b` is transforming by `a` and then by `b`, when
      `a` is affine. */
  lemma TransformProduct(v: Vector3, a: Matrix4x4, b: Matrix4x4)
    requires IsAffine(a)
    requires W(v, a) != 0.0 && W(Transformed(v, a), b) != 0.0
    ensures W(v, Product(a, b)) == W(Transformed(v, a), b)
    ensures Transformed(v, Product(a, b)) == Transformed(Transformed(v, a), b)
  {
    AffineTransformed(v, a);
    RowTimesProduct(Homogeneous(v), a, b);
  }

  // ---------------------------------------------------------------
  // Translation
  // ---------------------------------------------------------------

  /** The identity with row 3 replaced by (t.x, t.y, t.z, 1). */
  function MakeTranslate(t: Vector3): Matrix4x4 {
    var r := Identity();
    var r := Set(r, 3, 0, t.x);
    var r := Set(r, 3, 1, t.y);
    Set(r, 3, 2, t.z)
  }

  /** Transforming by a translation adds the offset. */
  lemma TransformTranslate(v: Vector3, t: Vector3)
    ensures IsAffine(MakeTranslate(t))
    ensures W(v, MakeTranslate(t)) == 1.0
    ensures Transformed(v, MakeTranslate(t)) == Add(v, t)
  {
    AffineTransformed(v, MakeTranslate(t));
  }

  /** Two translations compose to the translation by the sum of the offsets. */
  lemma TranslateCompose(a: Vector3, b: Vector3)
    ensures Product(MakeTranslate(a), MakeTranslate(b)) == MakeTranslate(Add(a, b))
  {
    var p := Product(MakeTranslate(a), MakeTranslate(b));
    forall i, j | 0 <= i < 4 && 0 <= j < 4 ensures p[i][j] == MakeTranslate(Add(a, b))[i][j] {
      ColumnSumExpanded(MakeTranslate(a)[i], MakeTranslate(b), j);
    }
    EqualEntries(p, MakeTranslate(Add(a, b)));
  }

  /** Translating by `t` and then by `-t` is the identity. */
  lemma TranslateInverse(t: Vector3)
    ensures Product(MakeTranslate(t), MakeTranslate(Scale(t, -1.0))) == Identity()
  {
    TranslateCompose(t, Scale(t, -1.0));
    assert Add(t, Scale(t, -1.0)) == Origin;
    EqualEntries(MakeTranslate(Origin), Identity());
  }

  // ---------------------------------------------------------------
  // Rotation about the x and y axes
  // ---------------------------------------------------------------

  /** Rotation about the x axis; `sinA` and `cosA` stand for the sine and
      cosine of the angle. */
  function MakeRotateX(sinA: real, cosA: real): Matrix4x4 {
    var r := Identity();
    var r := Set(r, 1, 1, cosA);
    var r := Set(r, 1, 2, sinA);
    var r := Set(r, 2, 1, -sinA);
    Set(r, 2, 2, cosA)
  }

  /** Rotation about the y axis; `sinA` and `cosA` stand for the sine and
      cosine of the angle. */
  function MakeRotateY(sinA: real, cosA: real): Matrix4x4 {
    var r := Identity();
    var r := Set(r, 0, 0, cosA);
    var r := Set(r, 0, 2, -sinA);
    var r := Set(r, 2, 0, sinA);
    Set(r, 2, 2, cosA)
  }

  /** The zero angle (sine 0, cosine 1) gives the identity. */
  lemma RotateZeroIsIdentity()
    ensures MakeRotateX(0.0, 1.0) == Identity()
    ensures MakeRotateY(0.0, 1.0) == Identity()
  {
    EqualEntries(MakeRotateX(0.0, 1.0), Identity());
    EqualEntries(MakeRotateY(0.0, 1.0), Identity());
  }

  /** A rotation about x keeps x and turns (y, z) in their plane. */
  lemma TransformRotateX(v: Vector3, sinA: real, cosA: real)
    ensures IsAffine(MakeRotateX(sinA, cosA))
    ensures W(v, MakeRotateX(sinA, cosA)) == 1.0
    ensures Transformed(v, MakeRotateX(sinA, cosA))
            == Vector3(v.x, v.y * cosA - v.z * sinA, v.y * sinA + v.z * cosA)
  {
    AffineTransformed(v, MakeRotateX(sinA, cosA));
  }

  /** A rotation about y keeps y and turns (x, z) in their plane. */
  lemma TransformRotateY(v: Vector3, sinA: real, cosA: real)
    ensures IsAffine(MakeRotateY(sinA, cosA))
    ensures W(v, MakeRotateY(sinA, cosA)) == 1.0
    ensures Transformed(v, MakeRotateY(sinA, cosA))
            == Vector3(v.x * cosA + v.z * sinA, v.y, v.z * cosA - v.x * sinA)
  {
    AffineTransformed(v, MakeRotateY(sinA, cosA));
  }

  /** Turning (p, q) by an angle whose sine and cosine satisfy
      sin^2 + cos^2 = 1 keeps p^2 + q^2. */
  lemma PlaneRotationKeepsLength(p: real, q: real, s: real, c: real)
    requires s * s + c * c == 1.0
    ensures (p * c - q * s) * (p * c - q * s) + (p * s + q * c) * (p * s + q * c) == p * p + q * q
  {
    calc {
      (p * c - q * s) * (p * c - q * s) + (p * s + q * c) * (p * s + q * c);
      (p * p) * (c * c) + (q * q) * (s * s) + (p * p) * (s * s) + (q * q) * (c * c);
      (p * p) * (s * s + c * c) + (q * q) * (s * s + c * c);
      p * p + q * q;
    }
  }

  /** A rotation about x does not change the distance from the origin. */
  lemma RotateXKeepsLength(v: Vector3, sinA: real, cosA: real)
    requires sinA * sinA + cosA * cosA == 1.0
    ensures W(v, MakeRotateX(sinA, cosA)) == 1.0
    ensures LengthSq(Transformed(v, MakeRotateX(sinA, cosA))) == LengthSq(v)
  {
    TransformRotateX(v, sinA, cosA);
    PlaneRotationKeepsLength(v.y, v.z, sinA, cosA);
  }

  /** A rotation about y does not change the distance from the origin. */
  lemma RotateYKeepsLength(v: Vector3, sinA: real, cosA: real)
    requires sinA * sinA + cosA * cosA == 1.0
    ensures W(v, MakeRotateY(sinA, cosA)) == 1.0
    ensures LengthSq(Transformed(v, MakeRotateY(sinA, cosA))) == LengthSq(v)
  {
    TransformRotateY(v, sinA, cosA);
    PlaneRotationKeepsLength(v.z, v.x, sinA, cosA);
  }

  // ---------------------------------------------------------------
  // Perspective projection
  // ---------------------------------------------------------------

  /** Right-handed perspective projection; `tanHalfFovY` stands for the
      tangent of half the vertical field of view. Starts from the zero
      matrix; the camera looks along -z, so w becomes -z. */
  function MakePerspectiveFov(tanHalfFovY: real, aspect: real, n: real, f: real): Matrix4x4
    requires tanHalfFovY != 0.0 && aspect != 0.0 && n != f
  {
    var s := 1.0 / tanHalfFovY;
    var r := Zero();
    var r := Set(r, 0, 0, s / aspect);
    var r := Set(r, 1, 1, s);
    var r := Set(r, 2, 2, f / (n - f));
    var r := Set(r, 2, 3, -1.0);
    Set(r, 3, 2, (n * f) / (n - f))
  }

  /** The projected w is the negated view-space depth, and x and y are
      scaled by the focal length over that depth. */
  lemma TransformPerspective(v: Vector3, tanHalfFovY: real, aspect: real, n: real, f: real)
    requires tanHalfFovY != 0.0 && aspect != 0.0 && n != f
    requires v.z != 0.0
    ensures W(v, MakePerspectiveFov(tanHalfFovY, aspect, n, f)) == -v.z
    ensures Transformed(v, MakePerspectiveFov(tanHalfFovY, aspect, n, f))
            == Vector3((v.x * ((1.0 / tanHalfFovY) / aspect)) / -v.z,
                       (v.y * (1.0 / tanHalfFovY)) / -v.z,
                       (v.z * (f / (n - f)) + (n * f) / (n - f)) / -v.z)
  {
    var m := MakePerspectiveFov(tanHalfFovY, aspect, n, f);
    HomogeneousColumn(v, m, 0);
    HomogeneousColumn(v, m, 1);
    HomogeneousColumn(v, m, 2);
    HomogeneousColumn(v, m, 3);
  }

  /** A point on the near plane (z = -n) gets depth 0 and a point on the far
      plane (z = -f) gets depth 1. */
  lemma PerspectiveDepthRange(x: real, y: real, tanHalfFovY: real, aspect: real, n: real, f: real)
    requires tanHalfFovY != 0.0 && aspect != 0.0 && n != f
    requires n != 0.0 && f != 0.0
    ensures Transformed(Vector3(x, y, -n), MakePerspectiveFov(tanHalfFovY, aspect, n, f)).z == 0.0
    ensures Transformed(Vector3(x, y, -f), MakePerspectiveFov(tanHalfFovY, aspect, n, f)).z == 1.0
  {
    var near, far := Vector3(x, y, -n), Vector3(x, y, -f);
    TransformPerspective(near, tanHalfFovY, aspect, n, f);
    TransformPerspective(far, tanHalfFovY, aspect, n, f);
    assert near.z * (f / (n - f)) + (n * f) / (n - f) == 0.0 by {
      ProjectedDepth(n, f, near.z);
      assert near.z + n == 0.0;
    }
    assert far.z * (f / (n - f)) + (n * f) / (n - f) == f by {
      ProjectedDepth(n, f, far.z);
      assert f * (far.z + n) == f * (n - f);
    }
    assert -far.z == f;
    assert f / f == 1.0;
  }

  /** The depth numerator z * f / (n - f) + n * f / (n - f), over one denominator. */
  lemma ProjectedDepth(n: real, f: real, z: real)
    requires n != f
    ensures z * (f / (n - f)) + (n * f) / (n - f) == (f * (z + n)) / (n - f)
  {
    var d := n - f;
    var q := f / d;
    assert q * d == f;
    assert (z * q) * d == z * f;
    assert ((n * f) / d) * d == n * f;
    assert (z * q + (n * f) / d) * d == f * (z + n);
  }

  // ---------------------------------------------------------------
  // Viewport
  // ---------------------------------------------------------------

  /** Maps normalised device coordinates to the pixel rectangle with corner
      (l, t), width w and height h, and depth [0, 1] to [minD, maxD].
      Starts from the zero matrix. */
  function MakeViewport(l: real, t: real, w: real, h: real, minD: real, maxD: real): Matrix4x4 {
    var r := Zero();
    var r := Set(r, 0, 0, w * 0.5);
    var r := Set(r, 1, 1, h * 0.5);
    var r := Set(r, 2, 2, maxD - minD);
    var r := Set(r, 3, 0, l + w * 0.5);
    var r := Set(r, 3, 1, t + h * 0.5);
    var r := Set(r, 3, 2, minD);
    Set(r, 3, 3, 1.0)
  }

  /** The viewport is affine and maps each axis linearly: x from [-1, 1] to
      [l, l + w], y from [-1, 1] to [t, t + h] (y is not flipped) and z from
      [0, 1] to [minD, maxD]. */
  lemma TransformViewport(v: Vector3, l: real, t: real, w: real, h: real, minD: real, maxD: real)
    ensures IsAffine(MakeViewport(l, t, w, h, minD, maxD))
    ensures W(v, MakeViewport(l, t, w, h, minD, maxD)) == 1.0
    ensures Transformed(v, MakeViewport(l, t, w, h, minD, maxD))
            == Vector3(l + (v.x + 1.0) * w * 0.5, t + (v.y + 1.0) * h * 0.5, minD + v.z * (maxD - minD))
  {
    AffineTransformed(v, MakeViewport(l, t, w, h, minD, maxD));
  }

  /** The corners of the normalised cube land on the corners of the viewport. */
  lemma ViewportCorners(l: real, t: real, w: real, h: real, minD: real, maxD: real)
    ensures Transformed(Vector3(-1.0, -1.0, 0.0), MakeViewport(l, t, w, h, minD, maxD)) == Vector3(l, t, minD)
    ensures Transformed(Vector3(1.0, 1.0, 1.0), MakeViewport(l, t, w, h, minD, maxD)) == Vector3(l + w, t + h, maxD)
    ensures Transformed(Vector3(-1.0, 1.0, 0.0), MakeViewport(l, t, w, h, minD, maxD)) == Vector3(l, t + h, minD)
    ensures Transformed(Vector3(1.0, -1.0, 1.0), MakeViewport(l, t, w, h, minD, maxD)) == Vector3(l + w, t, maxD)
  {
    TransformViewport(Vector3(-1.0, -1.0, 0.0), l, t, w, h, minD, maxD);
    TransformViewport(Vector3(1.0, 1.0, 1.0), l, t, w, h, minD, maxD);
    TransformViewport(Vector3(-1.0, 1.0, 0.0), l, t, w, h, minD, maxD);
    TransformViewport(Vector3(1.0, -1.0, 1.0), l, t, w, h, minD, maxD);
  }
}
