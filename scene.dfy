/** The per-frame scene of the main loop: the initial spheres, the collision
    colours, and the chain of matrices that takes a world point to the
    screen (view, perspective projection, viewport). The trigonometric
    values the program computes with `sinf`, `cosf` and `tanf` are
    parameters here. */
module Scene {
  import opened Vectors
  import opened Matrices
  import opened Transforms
  import opened Camera

  const InitialSphere1 := Sphere(Vector3(-1.5, 0.5, 0.0), 1.0)
  const InitialSphere2 := Sphere(Vector3(1.0, 0.5, 0.5), 1.2)

  /** Line colours, as RGBA. */
  const ColorHit: bv32 := 0xFF4444FF
  const ColorIdle1: bv32 := 0x4444FFFF
  const ColorIdle2: bv32 := 0xFFFFFFFF

  const ScreenWidth: real := 1280.0
  const ScreenHeight: real := 720.0
  const Aspect: real := 1280.0 / 720.0
  const Near: real := 0.1
  const Far: real := 100.0

  /** The spheres as placed at start-up are apart: their centres are
      sqrt(6.5) apart and their radii sum to 2.2, whose square is 4.84. */
  lemma InitialSpheresApart()
    ensures LengthSq(Subtract(InitialSphere1.center, InitialSphere2.center)) == 6.5
    ensures !IsCollision(InitialSphere1, InitialSphere2)
  {}

  /** The colours of the two wireframes: both red while the spheres collide,
      blue and white otherwise, so they share a colour exactly on a hit. */
  function SphereColors(hit: bool): (colors: (bv32, bv32))
    ensures colors.0 == colors.1 <==> hit
    ensures hit ==> colors.0 == ColorHit
    ensures !hit ==> colors.0 != ColorHit && colors.1 != ColorHit
  {
    if hit then (ColorHit, ColorHit) else (ColorIdle1, ColorIdle2)
  }

  /** The view matrix: rotate by minus the yaw about y, then by minus the
      pitch about x, then translate by minus the camera position. The sines
      and cosines are those of the negated angles. */
  function ViewMatrix(camPos: Vector3, sinYaw: real, cosYaw: real, sinPitch: real, cosPitch: real): Matrix4x4 {
    Product(MakeRotateY(sinYaw, cosYaw),
            Product(MakeRotateX(sinPitch, cosPitch),
                    MakeTranslate(Vector3(-camPos.x, -camPos.y, -camPos.z))))
  }

  /** The projection of every frame; `tanHalfFovY` is the tangent of half of
      the 0.45 radian field of view. */
  function Projection(tanHalfFovY: real): Matrix4x4
    requires tanHalfFovY != 0.0
  {
    MakePerspectiveFov(tanHalfFovY, Aspect, Near, Far)
  }

  /** The viewport covers the whole 1280 by 720 window with depths 0 to 1. */
  function ScreenViewport(): Matrix4x4 {
    MakeViewport(0.0, 0.0, ScreenWidth, ScreenHeight, 0.0, 1.0)
  }

  /** A world point on the screen: through the combined view-projection
      matrix, then through the viewport matrix. */
  function ScreenPoint(p: Vector3, vp: Matrix4x4, vpm: Matrix4x4): Vector3
    requires W(p, vp) != 0.0 && W(Transformed(p, vp), vpm) != 0.0
  {
    Transformed(Transformed(p, vp), vpm)
  }

  // ---------------------------------------------------------------
  // The view matrix
  // ---------------------------------------------------------------

  /** The view matrix is affine and takes a point through the yaw rotation,
      the pitch rotation and then the subtraction of the camera position. */
  lemma ViewTransformed(p: Vector3, camPos: Vector3, sinYaw: real, cosYaw: real, sinPitch: real, cosPitch: real)
    ensures IsAffine(ViewMatrix(camPos, sinYaw, cosYaw, sinPitch, cosPitch))
    ensures W(p, ViewMatrix(camPos, sinYaw, cosYaw, sinPitch, cosPitch)) == 1.0
    ensures Transformed(p, ViewMatrix(camPos, sinYaw, cosYaw, sinPitch, cosPitch))
            == Subtract(Transformed(Transformed(p, MakeRotateY(sinYaw, cosYaw)), MakeRotateX(sinPitch, cosPitch)), camPos)
  {
    var ry, rx := MakeRotateY(sinYaw, cosYaw), MakeRotateX(sinPitch, cosPitch);
    var t := MakeTranslate(Vector3(-camPos.x, -camPos.y, -camPos.z));
    TransformRotateY(p, sinYaw, cosYaw);
    var q := Transformed(p, ry);
    TransformRotateX(q, sinPitch, cosPitch);
    var u := Transformed(q, rx);
    TransformTranslate(u, Vector3(-camPos.x, -camPos.y, -camPos.z));
    ProductAffine(rx, t);
    AffineTransformed(q, Product(rx, t));
    TransformProduct(q, rx, t);
    ProductAffine(ry, Product(rx, t));
    TransformProduct(p, ry, Product(rx, t));
  }

  /** Without rotation the view matrix only moves the camera to the origin. */
  lemma ViewWithoutRotation(p: Vector3, camPos: Vector3)
    ensures ViewMatrix(camPos, 0.0, 1.0, 0.0, 1.0) == MakeTranslate(Vector3(-camPos.x, -camPos.y, -camPos.z))
    ensures W(p, ViewMatrix(camPos, 0.0, 1.0, 0.0, 1.0)) == 1.0
    ensures Transformed(p, ViewMatrix(camPos, 0.0, 1.0, 0.0, 1.0)) == Subtract(p, camPos)
    ensures Transformed(camPos, ViewMatrix(camPos, 0.0, 1.0, 0.0, 1.0)) == Origin
  {
    var t := MakeTranslate(Vector3(-camPos.x, -camPos.y, -camPos.z));
    RotateZeroIsIdentity();
    ProductIdentityLeft(t);
    ProductIdentityLeft(Product(Identity(), t));
    TransformTranslate(p, Vector3(-camPos.x, -camPos.y, -camPos.z));
    TransformTranslate(camPos, Vector3(-camPos.x, -camPos.y, -camPos.z));
  }

  /** The rotations act about the world origin, before the camera position
      is subtracted, so a rotated camera does not see its own position at
      the view origin: with a quarter turn of yaw (the sine of minus the yaw
      is -1) the start position (0, 2, -8) lands at (8, 0, 8). */
  lemma ViewRotatesAboutWorldOrigin()
    ensures W(InitialCamPos, ViewMatrix(InitialCamPos, -1.0, 0.0, 0.0, 1.0)) == 1.0
    ensures Transformed(InitialCamPos, ViewMatrix(InitialCamPos, -1.0, 0.0, 0.0, 1.0)) == Vector3(8.0, 0.0, 8.0)
  {
    ViewTransformed(InitialCamPos, InitialCamPos, -1.0, 0.0, 0.0, 1.0);
    TransformRotateY(InitialCamPos, -1.0, 0.0);
    var q := Transformed(InitialCamPos, MakeRotateY(-1.0, 0.0));
    assert q == Vector3(8.0, 2.0, 0.0);
    TransformRotateX(q, 0.0, 1.0);
  }

  // ---------------------------------------------------------------
  // Projection and viewport
  // ---------------------------------------------------------------

  /** The matrix multiplied once per frame gives the same point as applying
      the view and then the projection. */
  lemma ViewProjection(p: Vector3, view: Matrix4x4, proj: Matrix4x4)
    requires IsAffine(view) && W(Transformed(p, view), proj) != 0.0
    ensures W(p, view) == 1.0
    ensures W(p, Product(view, proj)) == W(Transformed(p, view), proj)
    ensures Transformed(p, Product(view, proj)) == Transformed(Transformed(p, view), proj)
  {
    AffineTransformed(p, view);
    TransformProduct(p, view, proj);
  }

  /** Depth 0 is the near plane (view z = -0.1) and depth 1 the far plane
      (view z = -100). */
  lemma ProjectionDepthRange(x: real, y: real, tanHalfFovY: real)
    requires tanHalfFovY != 0.0
    ensures Transformed(Vector3(x, y, -Near), Projection(tanHalfFovY)).z == 0.0
    ensures Transformed(Vector3(x, y, -Far), Projection(tanHalfFovY)).z == 1.0
  {
    PerspectiveDepthRange(x, y, tanHalfFovY, Aspect, Near, Far);
  }

  /** The corners of normalised device space reach the window corners, with
      no flip of the y axis: y = -1 is row 0 and y = +1 is row 720. */
  lemma ScreenViewportCorners()
    ensures Transformed(Vector3(-1.0, -1.0, 0.0), ScreenViewport()) == Vector3(0.0, 0.0, 0.0)
    ensures Transformed(Vector3(1.0, 1.0, 1.0), ScreenViewport()) == Vector3(ScreenWidth, ScreenHeight, 1.0)
    ensures Transformed(Vector3(0.0, 0.0, 0.5), ScreenViewport()) == Vector3(640.0, 360.0, 0.5)
  {
    TransformViewport(Vector3(-1.0, -1.0, 0.0), 0.0, 0.0, ScreenWidth, ScreenHeight, 0.0, 1.0);
    TransformViewport(Vector3(1.0, 1.0, 1.0), 0.0, 0.0, ScreenWidth, ScreenHeight, 0.0, 1.0);
    TransformViewport(Vector3(0.0, 0.0, 0.5), 0.0, 0.0, ScreenWidth, ScreenHeight, 0.0, 1.0);
  }

  /** Through the window viewport, which never divides, a point whose
      view-projection w is not zero lands at pixel (640 (x + 1), 360 (y + 1))
      of its normalised coordinates, keeping its depth. */
  lemma ScreenPointOnWindow(p: Vector3, vp: Matrix4x4)
    requires W(p, vp) != 0.0
    ensures W(Transformed(p, vp), ScreenViewport()) == 1.0
    ensures ScreenPoint(p, vp, ScreenViewport())
            == Vector3(640.0 * (Transformed(p, vp).x + 1.0), 360.0 * (Transformed(p, vp).y + 1.0), Transformed(p, vp).z)
  {
    var n := Transformed(p, vp);
    TransformViewport(n, 0.0, 0.0, ScreenWidth, ScreenHeight, 0.0, 1.0);
  }

  /** The camera starts at (0, 2, -8) looking along +z, so the scene lies at
      positive view z, where the projection's w (minus the view z) is
      negative: the first sphere's centre has w = -8. */
  lemma InitialSceneHasNegativeW(tanHalfFovY: real)
    requires tanHalfFovY != 0.0
    ensures W(InitialSphere1.center, ViewMatrix(InitialCamPos, 0.0, 1.0, 0.0, 1.0)) == 1.0
    ensures Transformed(InitialSphere1.center, ViewMatrix(InitialCamPos, 0.0, 1.0, 0.0, 1.0)) == Vector3(-1.5, -1.5, 8.0)
    ensures W(InitialSphere1.center, Product(ViewMatrix(InitialCamPos, 0.0, 1.0, 0.0, 1.0), Projection(tanHalfFovY))) == -8.0
  {
    var view := ViewMatrix(InitialCamPos, 0.0, 1.0, 0.0, 1.0);
    ViewWithoutRotation(InitialSphere1.center, InitialCamPos);
    ViewTransformed(InitialSphere1.center, InitialCamPos, 0.0, 1.0, 0.0, 1.0);
    TransformPerspective(Vector3(-1.5, -1.5, 8.0), tanHalfFovY, Aspect, Near, Far);
    ViewProjection(InitialSphere1.center, view, Projection(tanHalfFovY));
  }
}
