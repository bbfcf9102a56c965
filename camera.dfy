/** The per-frame camera and input update of the main loop: keyboard edge
    tracking, fixed-step movement for held keys, mouse-drag rotation with the
    pitch clamp, and the exit request on a fresh press of Escape.
    The on-screen numeric widgets, which may also edit the camera, are not
    part of this model. */
module Camera {
  import opened Vectors

  /** Number of entries in a keyboard snapshot. */
  const KeyCount: nat := 256

  // DirectInput key codes (DIK_ESCAPE, DIK_W, DIK_S, DIK_A, DIK_D, DIK_UP, DIK_DOWN).
  const KeyEscape: nat := 0x01
  const KeyW: nat := 0x11
  const KeyS: nat := 0x1F
  const KeyA: nat := 0x1E
  const KeyD: nat := 0x20
  const KeyUp: nat := 0xC8
  const KeyDown: nat := 0xD0

  /** Distance moved per frame for each held movement key. */
  const MoveSpeed: real := 0.05
  /** Radians of rotation per pixel of mouse movement. */
  const RotSpeed: real := 0.005
  const Pi: real := 3.14159265358979323846
  /** The pitch is kept within plus or minus this angle. */
  const PitchLimit: real := Pi * 0.49

  const InitialCamPos := Vector3(0.0, 2.0, -8.0)

  /** A key counts as held when its byte in the snapshot is not zero. */
  predicate Held(keys: seq<bv8>, k: nat)
    requires k < |keys|
  {
    keys[k] != 0
  }

  /** The direction along one axis: +1 for `plus` alone, -1 for `minus`
      alone, 0 for neither or both. */
  function AxisInput(keys: seq<bv8>, plus: nat, minus: nat): (d: int)
    requires plus < |keys| && minus < |keys|
    ensures d == 1 <==> Held(keys, plus) && !Held(keys, minus)
    ensures d == -1 <==> !Held(keys, plus) && Held(keys, minus)
    ensures d == 0 <==> (Held(keys, plus) <==> Held(keys, minus))
  {
    (if Held(keys, plus) then 1 else 0) - (if Held(keys, minus) then 1 else 0)
  }

  /** The camera position after one frame: D/A move along x, Up/Down along y,
      W/S along z, each by `MoveSpeed`. */
  function Moved(pos: Vector3, keys: seq<bv8>): Vector3
    requires |keys| == KeyCount
  {
    var dir := Vector3(AxisInput(keys, KeyD, KeyA) as real,
                       AxisInput(keys, KeyUp, KeyDown) as real,
                       AxisInput(keys, KeyW, KeyS) as real);
    Add(pos, Scale(dir, MoveSpeed))
  }

  /** `std::clamp`: `lo` below the range, `hi` above it, `v` inside it. */
  function Clamp(v: real, lo: real, hi: real): (r: real)
    requires lo <= hi
    ensures lo <= r <= hi
    ensures lo <= v <= hi ==> r == v
    ensures v < lo ==> r == lo
    ensures hi < v ==> r == hi
  {
    if v < lo then lo else if hi < v then hi else v
  }

  /** The rotation (pitch, yaw, roll) after one frame with the mouse moved by
      (dx, dy) pixels: only while the right button is held, yaw follows dx
      freely and pitch follows dy within the clamp. */
  function Dragged(rot: Vector3, dx: int, dy: int, pressed: bool): Vector3 {
    if pressed then
      var yaw := rot.y + dx as real * RotSpeed;
      var pitch := rot.x + dy as real * RotSpeed;
      Vector3(Clamp(pitch, -PitchLimit, PitchLimit), yaw, rot.z)
    else
      rot
  }

  predicate PitchInRange(rot: Vector3) {
    -PitchLimit <= rot.x <= PitchLimit
  }

  /** Exit is requested when Escape was up at the previous poll and is down now. */
  predicate EscapeEdge(preKeys: seq<bv8>, keys: seq<bv8>)
    requires |preKeys| == KeyCount && |keys| == KeyCount
  {
    !Held(preKeys, KeyEscape) && Held(keys, KeyEscape)
  }

  // ---------------------------------------------------------------
  // Properties of one frame
  // ---------------------------------------------------------------

  /** Each axis moves by exactly one step or not at all, and opposite keys
      held together cancel: W+S, A+D and Up+Down each leave their axis as it
      was. */
  lemma MovedAxes(pos: Vector3, keys: seq<bv8>)
    requires |keys| == KeyCount
    ensures Moved(pos, keys).x == pos.x + AxisInput(keys, KeyD, KeyA) as real * MoveSpeed
    ensures Moved(pos, keys).y == pos.y + AxisInput(keys, KeyUp, KeyDown) as real * MoveSpeed
    ensures Moved(pos, keys).z == pos.z + AxisInput(keys, KeyW, KeyS) as real * MoveSpeed
    ensures Held(keys, KeyA) && Held(keys, KeyD) ==> Moved(pos, keys).x == pos.x
    ensures Held(keys, KeyUp) && Held(keys, KeyDown) ==> Moved(pos, keys).y == pos.y
    ensures Held(keys, KeyW) && Held(keys, KeyS) ==> Moved(pos, keys).z == pos.z
  {}

  /** W alone moves forward (+z) by one step and S alone moves back. */
  lemma MovedForwardBack(pos: Vector3, keys: seq<bv8>)
    requires |keys| == KeyCount
    ensures Held(keys, KeyW) && !Held(keys, KeyS) ==> Moved(pos, keys).z == pos.z + MoveSpeed
    ensures !Held(keys, KeyW) && Held(keys, KeyS) ==> Moved(pos, keys).z == pos.z - MoveSpeed
  {
    MovedAxes(pos, keys);
  }

  /** With no movement key held the camera stays put. */
  lemma MovedWithoutKeys(pos: Vector3, keys: seq<bv8>)
    requires |keys| == KeyCount
    requires !Held(keys, KeyW) && !Held(keys, KeyS) && !Held(keys, KeyA)
    requires !Held(keys, KeyD) && !Held(keys, KeyUp) && !Held(keys, KeyDown)
    ensures Moved(pos, keys) == pos
  {
    MovedAxes(pos, keys);
  }

  /** While the right button is held the pitch ends within the clamp and the
      yaw is the old yaw plus the scaled horizontal movement, unclamped;
      without the button nothing changes. The roll is never touched. */
  lemma DraggedRotation(rot: Vector3, dx: int, dy: int, pressed: bool)
    ensures pressed ==> PitchInRange(Dragged(rot, dx, dy, pressed))
    ensures pressed ==> Dragged(rot, dx, dy, pressed).y == rot.y + dx as real * RotSpeed
    ensures !pressed ==> Dragged(rot, dx, dy, pressed) == rot
    ensures Dragged(rot, dx, dy, pressed).z == rot.z
  {}

  /** When the new pitch is within the limits the clamp does not alter it. */
  lemma DraggedPitchInside(rot: Vector3, dx: int, dy: int)
    requires PitchInRange(Vector3(rot.x + dy as real * RotSpeed, rot.y, rot.z))
    ensures Dragged(rot, dx, dy, true).x == rot.x + dy as real * RotSpeed
  {}

  /** The pitch bound is an invariant of the mouse step: once in range, it
      stays in range, whether or not the button is held. */
  lemma DraggedKeepsPitchInRange(rot: Vector3, dx: int, dy: int, pressed: bool)
    requires PitchInRange(rot)
    ensures PitchInRange(Dragged(rot, dx, dy, pressed))
  {}

  /** Holding Escape over several polls requests exit only once: after the
      poll that saw the press, the next poll cannot see an edge. */
  lemma EscapeEdgeOnce(k0: seq<bv8>, k1: seq<bv8>, k2: seq<bv8>)
    requires |k0| == KeyCount && |k1| == KeyCount && |k2| == KeyCount
    requires EscapeEdge(k0, k1)
    ensures !EscapeEdge(k1, k2)
  {}

  /** Copies `src` into `dst` byte by byte. */
  method CopyBytes(dst: array<bv8>, src: seq<bv8>)
    requires dst.Length == |src|
    modifies dst
    ensures dst[..] == src
  {
    for i := 0 to dst.Length
      invariant forall k | 0 <= k < i :: dst[k] == src[k]
    {
      dst[i] := src[i];
    }
  }

  // ---------------------------------------------------------------
  // The controller state, updated in place once per frame
  // ---------------------------------------------------------------

  class Controller {
    var camPos: Vector3
    /** (pitch, yaw, roll); the roll is unused. */
    var camRot: Vector3
    var prevMouseX: int
    var prevMouseY: int
    /** This frame's and the previous frame's keyboard snapshots. */
    const keys: array<bv8>
    const preKeys: array<bv8>

    ghost predicate Valid()
      reads this
    {
      keys.Length == KeyCount && preKeys.Length == KeyCount && keys != preKeys
    }

    /** The state at start-up: camera at (0, 2, -8) without rotation, mouse
        at (0, 0), no key held. */
    constructor ()
      ensures Valid() && fresh(keys) && fresh(preKeys)
      ensures camPos == InitialCamPos && camRot == Origin
      ensures prevMouseX == 0 && prevMouseY == 0
      ensures forall k | 0 <= k < KeyCount :: keys[k] == 0 && preKeys[k] == 0
      ensures PitchInRange(camRot)
    {
      camPos := InitialCamPos;
      camRot := Origin;
      prevMouseX, prevMouseY := 0, 0;
      keys := new bv8[KeyCount](_ => 0);
      preKeys := new bv8[KeyCount](_ => 0);
    }

    /** Keeps the last snapshot as the previous one, then stores the new poll. */
    method PollKeys(hit: seq<bv8>)
      requires Valid() && |hit| == KeyCount
      modifies keys, preKeys
      ensures preKeys[..] == old(keys[..]) && keys[..] == hit
    {
      CopyBytes(preKeys, keys[..]);
      CopyBytes(keys, hit);
    }

    /** Moves the camera by one step for each held movement key. */
    method Move()
      requires Valid()
      modifies this`camPos
      ensures camPos == Moved(old(camPos), keys[..])
    {
      ghost var p0 := camPos;
      ghost var k := keys[..];
      if keys[KeyW] != 0 { camPos := camPos.(z := camPos.z + MoveSpeed); }
      if keys[KeyS] != 0 { camPos := camPos.(z := camPos.z - MoveSpeed); }
      assert camPos == p0.(z := p0.z + AxisInput(k, KeyW, KeyS) as real * MoveSpeed);
      ghost var p1 := camPos;
      if keys[KeyA] != 0 { camPos := camPos.(x := camPos.x - MoveSpeed); }
      if keys[KeyD] != 0 { camPos := camPos.(x := camPos.x + MoveSpeed); }
      assert camPos == p1.(x := p1.x + AxisInput(k, KeyD, KeyA) as real * MoveSpeed);
      ghost var p2 := camPos;
      if keys[KeyUp] != 0 { camPos := camPos.(y := camPos.y + MoveSpeed); }
      if keys[KeyDown] != 0 { camPos := camPos.(y := camPos.y - MoveSpeed); }
      assert camPos == p2.(y := p2.y + AxisInput(k, KeyUp, KeyDown) as real * MoveSpeed);
    }

    /** Applies a right-button drag to yaw and pitch, clamps the pitch, and
        remembers the mouse position whether or not the button is held. */
    method Look(mouseX: int, mouseY: int, rightPressed: bool)
      modifies this`camRot, this`prevMouseX, this`prevMouseY
      ensures camRot == Dragged(old(camRot), mouseX - old(prevMouseX), mouseY - old(prevMouseY), rightPressed)
      ensures prevMouseX == mouseX && prevMouseY == mouseY
    {
      if rightPressed {
        var dx := mouseX - prevMouseX;
        var dy := mouseY - prevMouseY;
        camRot := camRot.(y := camRot.y + dx as real * RotSpeed);
        camRot := camRot.(x := camRot.x + dy as real * RotSpeed);
        camRot := camRot.(x := Clamp(camRot.x, -PitchLimit, PitchLimit));
      }
      prevMouseX := mouseX;
      prevMouseY := mouseY;
    }

    /** True exactly when Escape has just gone down. */
    method ExitRequested() returns (exit: bool)
      requires Valid()
      ensures exit == EscapeEdge(preKeys[..], keys[..])
    {
      exit := preKeys[KeyEscape] == 0 && keys[KeyEscape] != 0;
    }

    /** One frame of input handling: poll, move, look, and report whether the
        loop should end. */
    method Step(hit: seq<bv8>, mouseX: int, mouseY: int, rightPressed: bool) returns (exit: bool)
      requires Valid() && |hit| == KeyCount
      modifies this, keys, preKeys
      ensures Valid()
      ensures preKeys[..] == old(keys[..]) && keys[..] == hit
      ensures camPos == Moved(old(camPos), hit)
      ensures camRot == Dragged(old(camRot), mouseX - old(prevMouseX), mouseY - old(prevMouseY), rightPressed)
      ensures prevMouseX == mouseX && prevMouseY == mouseY
      ensures exit == EscapeEdge(old(keys[..]), hit)
      ensures rightPressed ==> PitchInRange(camRot)
      ensures old(PitchInRange(camRot)) ==> PitchInRange(camRot)
    {
      PollKeys(hit);
      Move();
      Look(mouseX, mouseY, rightPressed);
      exit := ExitRequested();
      DraggedRotation(old(camRot), mouseX - old(prevMouseX), mouseY - old(prevMouseY), rightPressed);
      if old(PitchInRange(camRot)) {
        DraggedKeepsPitchInRange(old(camRot), mouseX - old(prevMouseX), mouseY - old(prevMouseY), rightPressed);
      }
    }
  }
}
