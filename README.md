# Sphere–sphere collision demo, modelled in Dafny

The program (`main.cpp`) is a small 3-D demo. Two spheres can be edited in a
debug UI. Each frame it tests them for collision and draws them as
wireframes, red when they touch. A free camera is moved with W/S/A/D and the
Up/Down arrows and rotated by dragging with the right mouse button. Escape
ends the program.

This project models the program's core:

- **vectors.dfy** (`Vectors`): `Vector3`, `Sphere`, the vector helpers
  `Add`, `Subtract`, `Scale`, `Dot` and `LengthSq`, and the collision test
  `IsCollision`. The test compares the squared distance of the centres with
  the squared sum of the radii, and touching counts as a collision. The lemmas
  prove that the test is symmetric, that a sphere hits itself, that the test
  is invariant under translation, and that the boundary is inclusive: for
  non-negative radii the spheres collide exactly when the distance is at
  most the radius sum. With negative radii the test accepts distances up to
  |r1 + r2| (`Vectors.CollisionWithNegativeRadii`).
- **matrices.dfy** (`Matrices`): `Matrix4x4` as a 4×4 value. `MakeIdentity`
  and `Mul` are methods that fill a zeroed 4×4 array with the source's loops.
  They are proved against the reference definitions `Identity`, a
  comprehension with ones on the diagonal, and `Product`, whose entries are
  partial sums over k. The lemmas prove the identity laws and associativity
  of `Product`.
- **transforms.dfy** (`Transforms`): the row-vector convention `v × M`, with
  the translation in row 3.
  - `Transform` is a method that computes x, y, z and w and then divides x,
    y and z by w in place. It is proved equal to the reference function
    `Transformed`.
  - The matrix builders are `MakeTranslate`, `MakeRotateX`, `MakeRotateY`,
    `MakePerspectiveFov` and `MakeViewport`. Each has a lemma giving the
    closed form of the point it produces.
  - Further lemmas prove that translations compose and invert, and that
    rotations keep lengths.
  - The perspective projection maps the near plane to depth 0 and the far
    plane to depth 1. The viewport maps the corners of normalised space to
    the window corners.
  - For an affine first factor, `Transformed(v, Product(a, b))` is
    `Transformed(Transformed(v, a), b)`.
- **camera.dfy** (`Camera`): the per-frame input step. `Controller` is a
  class holding the camera position and rotation, the last mouse position,
  and two 256-byte key snapshots. Its methods `PollKeys`, `Move`, `Look`
  and `Step` update that state in place, and `ExitRequested` only reads the
  two snapshots. The new state is
  stated through the functions `Moved`, `Dragged` and `EscapeEdge`, whose
  lemmas give these properties:
  - opposite keys cancel;
  - while dragging, pitch is clamped to ±0.49π and yaw is not clamped;
  - the pitch bound is preserved;
  - the previous mouse position is refreshed every frame;
  - Escape ends the loop only on a fresh press.
- **scene.dfy** (`Scene`): the program's constants and the frame's matrix
  chain:
  - the view matrix (yaw, then pitch, then minus the camera position);
  - the projection with a field of view of 0.45, aspect 1280/720 and planes
    0.1/100;
  - the 1280×720 viewport;
  - the starting spheres, which do not collide;
  - the two wireframe colours, which are equal exactly on a hit.

Two behaviours of the program as written are stated as lemmas rather than
corrected:

- The view matrix rotates about the world origin before it subtracts the
  camera position. A rotated camera therefore does not see its own position
  at the view origin (`Scene.ViewRotatesAboutWorldOrigin`).
- The perspective matrix is right-handed: w is minus the view z. The camera
  starts looking along +z, so the scene it faces gets a negative w
  (`Scene.InitialSceneHasNegativeW`).

## Model

| member | source | states |
|---|---|---|
| Vectors.LengthSq | main.cpp:46 | the squared length of a vector is never negative |
| Vectors.AddCommutes | main.cpp:34-36 | component-wise addition does not depend on operand order |
| Vectors.SubtractInvertsAdd | main.cpp:34-39 | subtracting b undoes adding b, and adding b undoes subtracting b |
| Vectors.SubtractAntiCommutes | main.cpp:37-42 | b − a is a − b scaled by −1 |
| Vectors.DotCommutes | main.cpp:43-45 | the dot product is symmetric |
| Vectors.ScaleLengthSq | main.cpp:40-46 | scaling by s multiplies the squared length by s² |
| Vectors.DistanceSqSymmetric | main.cpp:37-46 | the squared distance between two points does not depend on their order |
| Vectors.CollisionSymmetric | main.cpp:52-55 | IsCollision(s1, s2) equals IsCollision(s2, s1) |
| Vectors.CollisionIffWithinRadiusSum | main.cpp:52-55 | with non-negative radii and centre distance d, the spheres collide iff d ≤ r1 + r2 (tangent spheres collide) |
| Vectors.CollisionSelf | main.cpp:52-55 | every sphere collides with itself, whatever the sign of its radius |
| Vectors.CollisionWithNegativeRadii | main.cpp:52-55 | with both radii −1 and centres 1 apart the test reports a collision although 1 > r1 + r2 = −2 |
| Vectors.CollisionTranslationInvariant | main.cpp:52-55 | moving both spheres by the same offset does not change the verdict |
| Vectors.CollisionExamples | main.cpp:52-55 | unit spheres 3 apart do not collide; unit spheres 2 apart touch and collide |
| Matrices.MakeIdentity | main.cpp:60-65 | the diagonal entries are 1, every other entry is 0, and the result is the reference identity |
| Matrices.Mul | main.cpp:89-96 | entry (i, j) is Σk A[i][k]·B[k][j], in k order, and the result is the reference product |
| Matrices.ProductIdentityLeft | main.cpp:89-96 | I × M = M |
| Matrices.ProductIdentityRight | main.cpp:89-96 | M × I = M |
| Matrices.RowTimesProduct | main.cpp:89-96 | (v × A) × B = v × (A × B) for every row vector v |
| Matrices.ProductAssociative | main.cpp:89-96 | (A × B) × C = A × (B × C) |
| Transforms.W | main.cpp:103 | w is the fourth component of (x, y, z, 1) × M |
| Transforms.Transform | main.cpp:97-108 | the result is (x, y, z) of (v, 1) × M, each divided by w, when w ≠ 0 |
| Transforms.AffineTransformed | main.cpp:97-108 | for a matrix whose last column is (0, 0, 0, 1), w = 1 and the result is v's weighted rows plus row 3 |
| Transforms.TransformIdentity | main.cpp:97-108 | transforming by the identity returns the point unchanged |
| Transforms.ProductAffine | main.cpp:89-96 | the product of two affine matrices is affine |
| Transforms.TransformProduct | main.cpp:89-108 | when A is affine, transforming by A × B is transforming by A and then by B, with the same w |
| Transforms.TransformTranslate | main.cpp:66-72 | the translation matrix is affine and maps v to v + t |
| Transforms.TranslateCompose | main.cpp:66-72 | translating by a and then by b is translating by a + b |
| Transforms.TranslateInverse | main.cpp:66-72 | translating by t and then by −t is the identity |
| Transforms.RotateZeroIsIdentity | main.cpp:73-88 | with sine 0 and cosine 1 both rotations are the identity |
| Transforms.TransformRotateX | main.cpp:73-80 | rotation about x maps (x, y, z) to (x, y·c − z·s, y·s + z·c) |
| Transforms.TransformRotateY | main.cpp:81-88 | rotation about y maps (x, y, z) to (x·c + z·s, y, z·c − x·s) |
| Transforms.RotateXKeepsLength | main.cpp:73-80 | when s² + c² = 1, rotation about x keeps the squared length |
| Transforms.RotateYKeepsLength | main.cpp:81-88 | when s² + c² = 1, rotation about y keeps the squared length |
| Transforms.TransformPerspective | main.cpp:109-118 | w is −z, and x, y and depth are the scaled coordinates divided by −z |
| Transforms.PerspectiveDepthRange | main.cpp:109-118 | a point on the near plane (z = −n) gets depth 0, and one on the far plane (z = −f) gets depth 1 |
| Transforms.TransformViewport | main.cpp:119-130 | the viewport is affine and maps (x, y, z) to (l + (x+1)·w/2, t + (y+1)·h/2, minD + z·(maxD − minD)) |
| Transforms.ViewportCorners | main.cpp:119-130 | the corners of normalised space reach the corners of the viewport rectangle, with no y flip |
| Camera.AxisInput | main.cpp:210-221 | one axis moves +1 for the plus key alone, −1 for the minus key alone, 0 for neither or both |
| Camera.Clamp | main.cpp:233-234 | std::clamp: the result is within [lo, hi], equals v inside the range, and equals the nearer bound outside it |
| Camera.MovedAxes | main.cpp:210-221 | each axis moves by its key direction times 0.05; W+S, A+D and Up+Down held together cancel |
| Camera.MovedForwardBack | main.cpp:210-213 | W alone moves +0.05 along z and S alone moves −0.05 |
| Camera.MovedWithoutKeys | main.cpp:210-221 | with no movement key held the position is unchanged |
| Camera.DraggedRotation | main.cpp:228-235 | with the right button held the pitch is within ±0.49π and the yaw is old yaw + dx·0.005, unclamped; without it the rotation is unchanged |
| Camera.DraggedPitchInside | main.cpp:232-234 | when the new pitch is within the limits the clamp leaves it as old pitch + dy·0.005 |
| Camera.DraggedKeepsPitchInRange | main.cpp:228-235 | a pitch within ±0.49π stays within it after any mouse step |
| Camera.EscapeEdgeOnce | main.cpp:281-282 | after the frame that saw Escape go down, the next frame cannot request exit again |
| Camera.CopyBytes | main.cpp:203 | the destination's contents become the source bytes |
| Camera.Controller.constructor | main.cpp:188-198 | the camera starts at (0, 2, −8) without rotation, the mouse at (0, 0), and no key is held |
| Camera.Controller.PollKeys | main.cpp:203-204 | the previous snapshot becomes the old current one, and the current snapshot becomes the new poll |
| Camera.Controller.Move | main.cpp:210-221 | the new position is Moved(old position, keys) |
| Camera.Controller.Look | main.cpp:226-237 | the new rotation is Dragged(old rotation, mouse − previous mouse, button), and the previous mouse position is updated unconditionally |
| Camera.Controller.ExitRequested | main.cpp:281-282 | true exactly when Escape was up in the previous snapshot and is down in the current one |
| Camera.Controller.Step | main.cpp:203-237 | one frame updates snapshots, position, rotation and mouse as above; exit is the Escape edge; the pitch bound holds after a drag and is preserved |
| Scene.InitialSpheresApart | main.cpp:194-195 | the starting spheres are √6.5 apart, more than 2.2, so they do not collide |
| Scene.SphereColors | main.cpp:274-275 | the two wireframes share a colour exactly when the spheres collide, and that colour is red |
| Scene.ViewTransformed | main.cpp:261-263 | the view matrix is affine and maps p to RotX(RotY(p)) − camera position |
| Scene.ViewWithoutRotation | main.cpp:261-263 | without rotation the view is a translation by −camera, and the camera lands at the origin |
| Scene.ViewRotatesAboutWorldOrigin | main.cpp:261-263 | after a quarter turn of yaw the start position (0, 2, −8) lands at (8, 0, 8), not at the origin |
| Scene.ViewProjection | main.cpp:266 | the combined view-projection matrix gives the same point as view followed by projection |
| Scene.ProjectionDepthRange | main.cpp:265 | with planes 0.1 and 100, the near plane gets depth 0 and the far plane depth 1 |
| Scene.ScreenViewportCorners | main.cpp:267 | normalised (−1, −1) is pixel (0, 0), (1, 1) is (1280, 720), and the centre is (640, 360) |
| Scene.ScreenPointOnWindow | main.cpp:169-170 | through the window viewport a projected point lands at (640·(x+1), 360·(y+1)) with its depth kept |
| Scene.InitialSceneHasNegativeW | main.cpp:261-266 | from the start camera, the first sphere's centre is at view (−1.5, −1.5, 8) and gets projected w = −8 |

## Left out

- Rendering is not modelled. This covers window setup, the frame begin and
  end calls, `DrawLine`, and the loops of `DrawGrid` and `DrawSphereWire`,
  which only emit lines. Their point pipeline is `Scene.ScreenPoint`.
- The debug UI (main.cpp:242-256) is left out because it is external UI
  code. It can edit the camera and both spheres. Its radius fields pass a
  drag speed of 0.01 and a lower limit of 0.01 but no upper limit, and
  ImGui clamps a drag only when the lower limit is below the upper one, so
  a radius can reach zero or below. The model therefore treats the spheres
  as arbitrary inputs to `IsCollision`, with radii of any sign.
- Vectors.CollisionIffWithinRadiusSum: the inclusive-boundary equivalence
  (collision exactly when d ≤ r1 + r2) is stated for non-negative radii
  only. The program compares squares, so with negative radii it tests
  d ≤ |r1 + r2| instead, as `Vectors.CollisionWithNegativeRadii` shows.
- `Length` (`std::sqrt`) is left out. Square roots are not used by the
  collision test.
- `sinf`, `cosf` and `tanf` are library calls. Their values are parameters:
  - `MakeRotateX` and `MakeRotateY` take the sine and cosine of the angle;
  - `MakePerspectiveFov` takes tan(fovY/2);
  - `ViewMatrix` takes the sine and cosine of the negated yaw and pitch.
- Floating-point rounding is not modelled. All arithmetic is over the reals,
  and π is the decimal literal the program writes, not its float rounding.
- Camera.MovedAxes: opposite keys cancel exactly over the reals. In float,
  adding and then subtracting 0.05 can leave a rounding residue.
- Transforms.Transform: requires w ≠ 0. The program divides anyway and gets
  infinities or NaN.
- Transforms.MakePerspectiveFov: requires a non-zero tangent, a non-zero
  aspect and distinct planes, because the program would divide by zero. The
  program's own arguments satisfy all three.
- Vectors.LengthSq: states only that the result is non-negative. It does not
  state that it is positive for every non-zero vector.
- Devices and the message loop are not modelled. The key poll, the mouse
  position and the right-button state are `Step`'s parameters, and `Step` is
  one iteration of the loop.
- Camera.Controller.Step: checks Escape right after the mouse step. The
  program checks it after the UI and drawing, but those never touch the key
  snapshots.
- Camera.Controller.Look: does not model `int` overflow of the mouse
  difference. Mouse coordinates are window pixels.
- Key codes are the DirectInput values, which the program takes from
  `dinput.h`. That header is not part of this model.
- The key snapshots are `char` arrays in the program and `bv8` arrays here.
  Only whether a byte is zero matters.
