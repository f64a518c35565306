/** The viewer's per-frame state machine: the key-driven updates of the
    movement handler, the collision box, and the scripted animation step.
    Rendering is not modelled; only the state it reads is. */
module Scene {
  import opened Vectors
  import opened Camera
  import opened Keyboard

  /** Key codes of the windowing library for the keys the handler reads. */
  const Key1: int := 49
  const Key2: int := 50
  const Key3: int := 51
  const Key4: int := 52
  const Key5: int := 53
  const Key6: int := 54
  const KeyA: int := 65
  const KeyC: int := 67
  const KeyD: int := 68
  const KeyE: int := 69
  const KeyI: int := 73
  const KeyM: int := 77
  const KeyN: int := 78
  const KeyQ: int := 81
  const KeyR: int := 82
  const KeyS: int := 83
  const KeyT: int := 84
  const KeyU: int := 85
  const KeyV: int := 86
  const KeyW: int := 87
  const KeyY: int := 89

  /** Normal movement speed, and the speed used while outside the box. */
  const CameraSpeed: real := 0.3
  const PushBackSpeed: real := -1.0

  const FogStep: real := 0.001
  const InitialFogDensity: real := 0.005
  const AnimationStep: real := 0.2
  const CarForwardStep: real := 0.01
  const CarReverseStep: real := 0.1

  /** The process-wide state the handlers mutate. `fogOn` and `spotLightOn`
      stand for integer flags that only ever hold 0 or 1. The light and wheel
      angles only move in whole degrees. */
  datatype AppState = AppState(
    camera: CameraState,
    activateCollisions: bool,
    startAnimation: bool,
    animationAngle: real,
    fogOn: bool,
    fogDensity: real,
    spotLightOn: bool,
    lightAngle: int,
    carAnimation: bool,
    wheelAngle: int,
    carDistance: real)

  /** The state at start-up, with the camera built from its fixed placement. */
  function InitialState(g: Geometry): (s: AppState)
    ensures s.camera.position == Vec3(33.0, 20.5, 15.0) && s.camera.target == Vec3(33.0, 20.6, -15.0)
    ensures AppInvariant(s)
  {
    AppState(
      NewCamera(Vec3(33.0, 20.5, 15.0), Vec3(33.0, 20.6, -15.0), WorldUp, g),
      false, false, 0.0, false, InitialFogDensity, false, 0, false, 0, 0.0)
  }

  /** The bounds the key handlers keep. */
  ghost predicate AppInvariant(s: AppState) {
    && 0.0 <= s.fogDensity <= 1.0
    && WheelInRange(s.wheelAngle)
  }

  predicate WheelInRange(w: int) {
    -360 <= w <= 360
  }

  // ---------------------------------------------------------------------------
  // Collision box

  /** The closed box the camera may roam in while collisions are active. */
  predicate InsideBox(p: Vec3) {
    && -30.0 <= p.x <= 80.0
    && 0.0 <= p.y
    && -90.0 <= p.z <= 40.0
  }

  /** Whether the camera's current position calls for push-back. */
  function CheckCollision(activate: bool, p: Vec3): (r: bool)
    ensures r <==> activate && !InsideBox(p)
  {
    if !activate then false
    else p.x > 80.0 || p.x < -30.0 || p.y < 0.0 || p.z < -90.0 || p.z > 40.0
  }

  /** One movement key: when held, move at the normal speed, or at the
      negative push-back speed when the position before this key is outside
      the box. */
  function MoveKey(c: CameraState, activate: bool, held: bool, d: Direction): (r: CameraState)
    ensures !held ==> r == c
    ensures held && CheckCollision(activate, c.position) ==> r == Move(c, Opposite(d), 1.0)
    ensures held && !CheckCollision(activate, c.position) ==> r == Move(c, d, CameraSpeed)
    ensures r.front == c.front && r.right == c.right && r.up == c.up
    ensures Sub(r.target, r.position) == Sub(c.target, c.position)
  {
    if !held then c
    else if CheckCollision(activate, c.position) then Move(c, d, PushBackSpeed)
    else Move(c, d, CameraSpeed)
  }

  /** The box test looks at where the camera is, not where the move takes
      it: facing +x from x = 79.9 the first forward step carries the camera
      to x = 80.2, past the box's edge, and only the second pushes it back,
      to x = 79.2. */
  lemma PushBackLagsOneStep(c: CameraState)
    requires c.position.x == 79.9 && c.position.y == 10.0 && c.position.z == 0.0
    requires c.front.x == 1.0
    ensures MoveKey(c, true, true, Forward).position.x == 80.2
    ensures MoveKey(MoveKey(c, true, true, Forward), true, true, Forward).position.x == 79.2
  {
  }

  /** Push-back reverses the key's own direction rather than heading for the
      box: facing +x at x = 80.2, outside the box, holding S carries the
      camera a further unit out, to x = 81.2. */
  lemma PushBackFollowsKey(c: CameraState)
    requires c.position.x == 80.2
    requires c.front.x == 1.0
    ensures MoveKey(c, true, true, Backward).position.x == 81.2
  {
  }

  /** `a` when the key is held, zero otherwise. */
  function Held(held: bool, a: real): real {
    if held then a else 0.0
  }

  /** `v` counted once for the first key of a pair when held and taken off
      once for the second: `v`, `-v` or zero. */
  function Along(keys: Keys, plus: int, minus: int, v: Vec3): Vec3
    requires 0 <= plus < KeyCount && 0 <= minus < KeyCount
  {
    Vec3(Held(keys[plus], v.x) - Held(keys[minus], v.x),
         Held(keys[plus], v.y) - Held(keys[minus], v.y),
         Held(keys[plus], v.z) - Held(keys[minus], v.z))
  }

  /** The unit-speed displacement the held movement keys add up to:
      (W - S)·front + (D - A)·right + (T - R)·up. */
  function Steering(c: CameraState, keys: Keys): Vec3 {
    Add(Add(Along(keys, KeyW, KeyS, c.front), Along(keys, KeyD, KeyA, c.right)), Along(keys, KeyT, KeyR, c.up))
  }

  /** One coordinate of `Steering`. */
  function AxisSum(f: real, rt: real, u: real, fwd: bool, back: bool, left: bool, right: bool, rise: bool, fall: bool): real {
    (Held(fwd, f) - Held(back, f)) + (Held(right, rt) - Held(left, rt)) + (Held(rise, u) - Held(fall, u))
  }

  /** All camera moves of one frame, in the handler's order. Each key's
      collision test sees the position left by the key before it; moving up
      never consults the box. */
  function MoveCamera(c: CameraState, activate: bool, keys: Keys): (r: CameraState)
    ensures r.front == c.front && r.right == c.right && r.up == c.up
    ensures Sub(r.target, r.position) == Sub(c.target, c.position)
  {
    var c2 := MoveKeyPair(c, activate, keys[KeyW], Forward, keys[KeyS], Backward);
    var c4 := MoveKeyPair(c2, activate, keys[KeyA], Left, keys[KeyD], Right);
    var c5 := if keys[KeyT] then Move(c4, Up, CameraSpeed) else c4;
    MoveKey(c5, activate, keys[KeyR], Down)
  }

  /** Two consecutive movement keys; the second key's collision test sees
      the position the first one left. */
  function MoveKeyPair(c: CameraState, activate: bool, held1: bool, d1: Direction, held2: bool, d2: Direction): (r: CameraState)
    ensures r.front == c.front && r.right == c.right && r.up == c.up
    ensures Sub(r.target, r.position) == Sub(c.target, c.position)
  {
    MoveKey(MoveKey(c, activate, held1, d1), activate, held2, d2)
  }

  /** With collisions off no key is reversed, so the frame's moves add up:
      the camera ends at its position plus 0.3 times the held keys' combined
      direction, and the target follows. */
  lemma MoveCameraSteers(c: CameraState, keys: Keys)
    ensures var r := MoveCamera(c, false, keys);
            && r.position == Add(c.position, Scale(CameraSpeed, Steering(c, keys)))
            && r.target == Add(c.target, Scale(CameraSpeed, Steering(c, keys)))
  {
    var r := MoveCamera(c, false, keys);
    var fwd, back, left, right, rise, fall := keys[KeyW], keys[KeyS], keys[KeyA], keys[KeyD], keys[KeyT], keys[KeyR];
    var v := Vec3(AxisSum(c.front.x, c.right.x, c.up.x, fwd, back, left, right, rise, fall),
                  AxisSum(c.front.y, c.right.y, c.up.y, fwd, back, left, right, rise, fall),
                  AxisSum(c.front.z, c.right.z, c.up.z, fwd, back, left, right, rise, fall));
    assert Steering(c, keys) == v by {
      SteeringAxes(c, keys);
    }
    assert r.position == Add(c.position, Scale(CameraSpeed, v)) by {
      FrameStepsAddUp(c, keys, X);
      FrameStepsAddUp(c, keys, Y);
      FrameStepsAddUp(c, keys, Z);
      ScaledSum(r.position, c.position, v);
    }
  }

  /** The frame's moves with collisions off along one coordinate axis. */
  lemma FrameStepsAddUp(c: CameraState, keys: Keys, i: Axis)
    ensures var r := MoveCamera(c, false, keys);
            var (fwd, back, left, right, rise, fall) := (keys[KeyW], keys[KeyS], keys[KeyA], keys[KeyD], keys[KeyT], keys[KeyR]);
            Coord(r.position, i) == Coord(c.position, i) + CameraSpeed * AxisSum(Coord(c.front, i), Coord(c.right, i), Coord(c.up, i), fwd, back, left, right, rise, fall)
  {
    var fwd, back, left, right, rise, fall := keys[KeyW], keys[KeyS], keys[KeyA], keys[KeyD], keys[KeyT], keys[KeyR];
    var c4 := MoveKeyPair(MoveKeyPair(c, false, fwd, Forward, back, Backward), false, left, Left, right, Right);
    HorizontalSteps(c, fwd, back, left, right, i);
    VerticalSteps(c4, rise, fall, i);
  }

  /** W, S, A and D with collisions off along one axis. */
  lemma HorizontalSteps(c: CameraState, fwd: bool, back: bool, left: bool, right: bool, i: Axis)
    ensures var c4 := MoveKeyPair(MoveKeyPair(c, false, fwd, Forward, back, Backward), false, left, Left, right, Right);
            Coord(c4.position, i) == Coord(c.position, i)
                                     + CameraSpeed * (Held(fwd, Coord(c.front, i)) - Held(back, Coord(c.front, i)))
                                     + CameraSpeed * (Held(right, Coord(c.right, i)) - Held(left, Coord(c.right, i)))
  {
    var c2 := MoveKeyPair(c, false, fwd, Forward, back, Backward);
    PairPosition(c, fwd, Forward, c.front, back, Backward, Neg(c.front), i);
    PairPosition(c2, left, Left, Neg(c.right), right, Right, c.right, i);
    CoordNeg(c.front, i);
    CoordNeg(c.right, i);
  }

  /** T and then R with collisions off along one axis. */
  lemma VerticalSteps(c4: CameraState, rise: bool, fall: bool, i: Axis)
    ensures var c5 := if rise then Move(c4, Up, CameraSpeed) else c4;
            Coord(MoveKey(c5, false, fall, Down).position, i)
            == Coord(c4.position, i) + CameraSpeed * (Held(rise, Coord(c4.up, i)) - Held(fall, Coord(c4.up, i)))
  {
    var c5 := if rise then Move(c4, Up, CameraSpeed) else c4;
    StepPosition(c4, rise, Up, c4.up, i);
    StepPosition(c5, fall, Down, Neg(c4.up), i);
    CoordNeg(c4.up, i);
  }

  /** Two movement keys with collisions off along one axis, for the keys'
      unit steps `v1` and `v2`. */
  lemma PairPosition(c: CameraState, held1: bool, d1: Direction, v1: Vec3, held2: bool, d2: Direction, v2: Vec3, i: Axis)
    requires d1 != Up && d2 != Up
    requires v1 == Basis(c, d1) && v2 == Basis(c, d2)
    ensures Coord(MoveKeyPair(c, false, held1, d1, held2, d2).position, i)
            == Coord(c.position, i) + CameraSpeed * Held(held1, Coord(v1, i)) + CameraSpeed * Held(held2, Coord(v2, i))
  {
    var c1 := MoveKey(c, false, held1, d1);
    StepPosition(c, held1, d1, v1, i);
    StepPosition(c1, held2, d2, v2, i);
  }

  /** `Steering` coordinate by coordinate. */
  lemma SteeringAxes(c: CameraState, keys: Keys)
    ensures var (fwd, back, left, right, rise, fall) := (keys[KeyW], keys[KeyS], keys[KeyA], keys[KeyD], keys[KeyT], keys[KeyR]);
            Steering(c, keys) == Vec3(AxisSum(c.front.x, c.right.x, c.up.x, fwd, back, left, right, rise, fall),
                                      AxisSum(c.front.y, c.right.y, c.up.y, fwd, back, left, right, rise, fall),
                                      AxisSum(c.front.z, c.right.z, c.up.z, fwd, back, left, right, rise, fall))
  {
  }

  /** Negation commutes with taking left coordinate. */
  lemma CoordNeg(v: Vec3, i: Axis)
    ensures Coord(Neg(v), i) == -Coord(v, i)
  {
  }

  /** A point `pt` written coordinate by coordinate as `p + 0.3·v`. */
  lemma ScaledSum(pt: Vec3, p: Vec3, v: Vec3)
    requires Coord(pt, X) == Coord(p, X) + CameraSpeed * v.x
    requires Coord(pt, Y) == Coord(p, Y) + CameraSpeed * v.y
    requires Coord(pt, Z) == Coord(p, Z) + CameraSpeed * v.z
    ensures pt == Add(p, Scale(CameraSpeed, v))
  {
  }

  /** One movement key with collisions off along one axis, for the key's
      unit step `v`. */
  lemma StepPosition(c: CameraState, held: bool, dir: Direction, v: Vec3, i: Axis)
    requires v == Basis(c, dir)
    ensures dir != Up ==> MoveKey(c, false, held, dir) == (if held then Move(c, dir, CameraSpeed) else c)
    ensures var r := if held then Move(c, dir, CameraSpeed) else c;
            && r.front == c.front && r.right == c.right && r.up == c.up
            && Coord(r.position, i) == Coord(c.position, i) + CameraSpeed * Held(held, Coord(v, i))
  {
  }

  // ---------------------------------------------------------------------------
  // Flags, fog, light, car

  /** A flag with a key that sets it and a later-checked key that clears it. */
  function SetFlag(flag: bool, on: bool, off: bool): (r: bool)
    ensures off ==> !r
    ensures on && !off ==> r
    ensures !on && !off ==> r == flag
  {
    var after := if on then true else flag;
    if off then false else after
  }

  function Min(a: real, b: real): (r: real)
    ensures r <= a && r <= b && (r == a || r == b)
  {
    if a < b then a else b
  }

  function Max(a: real, b: real): (r: real)
    ensures a <= r && b <= r && (r == a || r == b)
  {
    if a > b then a else b
  }

  /** One step up of the fog density, capped at one. */
  function FogIncrease(d: real): (r: real)
    ensures r <= 1.0
    ensures d <= 1.0 ==> d < r || r == 1.0
    ensures r <= d + FogStep
    ensures r < 1.0 ==> r == d + FogStep
  {
    Min(d + FogStep, 1.0)
  }

  /** One step down of the fog density, floored at zero. */
  function FogDecrease(d: real): (r: real)
    ensures 0.0 <= r
    ensures 0.0 <= d ==> r < d || r == 0.0
    ensures d - FogStep <= r
    ensures 0.0 < r ==> r == d - FogStep
  {
    Max(d - FogStep, 0.0)
  }

  /** The fog keys of one frame: increase first, then decrease. */
  function FogAdjust(d: real, up: bool, down: bool): (r: real)
    ensures 0.0 <= d <= 1.0 ==> 0.0 <= r <= 1.0
    ensures !up && !down ==> r == d
  {
    var d1 := if up then FogIncrease(d) else d;
    if down then FogDecrease(d1) else d1
  }

  /** The light keys: one degree down, then one degree up. */
  function LightAdjust(a: int, down: bool, up: bool): (r: int)
    ensures r - a == (if up then 1 else 0) - (if down then 1 else 0)
  {
    var a1 := if down then a - 1 else a;
    if up then a1 + 1 else a1
  }

  /** The wheel turning forward: a full negative turn is reset to zero before
      the degree is taken off. */
  function WheelForward(w: int): (r: int)
    ensures WheelInRange(w) ==> WheelInRange(r)
    ensures (w - 1 - r) % 360 == 0
    ensures w != -360 ==> r == w - 1
    ensures w == -360 ==> r == -1
  {
    var w1 := if w == -360 then 0 else w;
    w1 - 1
  }

  /** The wheel turning backward, the mirror image of `WheelForward`. */
  function WheelBackward(w: int): (r: int)
    ensures WheelInRange(w) ==> WheelInRange(r)
    ensures (w + 1 - r) % 360 == 0
    ensures w != 360 ==> r == w + 1
    ensures w == 360 ==> r == 1
  {
    var w1 := if w == 360 then 0 else w;
    w1 + 1
  }

  /** Turning forward and then backward gives back the angle, except that a
      full negative turn comes back as zero. */
  lemma WheelRoundTrip(w: int)
    requires WheelInRange(w)
    ensures w != -360 ==> WheelBackward(WheelForward(w)) == w
    ensures w == -360 ==> WheelBackward(WheelForward(w)) == 0
  {
  }

  datatype Car = Car(animated: bool, distance: real, wheel: int)

  /** The car keys in the handler's order: forward, stop, reverse. */
  function CarAdjust(car: Car, forward: bool, stop: bool, reverse: bool): (r: Car)
    ensures reverse ==> r.animated
    ensures stop && !reverse ==> !r.animated
    ensures forward && !stop && !reverse ==> r.animated
    ensures !forward && !stop && !reverse ==> r.animated == car.animated
    ensures r.distance == car.distance + (if forward then CarForwardStep else 0.0) - (if reverse then CarReverseStep else 0.0)
    ensures WheelInRange(car.wheel) ==> WheelInRange(r.wheel)
    ensures !forward && !reverse ==> r.wheel == car.wheel
    ensures forward && !reverse ==> r.wheel == WheelForward(car.wheel)
    ensures reverse && !forward ==> r.wheel == WheelBackward(car.wheel)
    ensures forward && reverse && WheelInRange(car.wheel) && car.wheel != -360 ==> r.wheel == car.wheel
  {
    var c1 := if forward then Car(true, car.distance + CarForwardStep, WheelForward(car.wheel)) else car;
    var c2 := if stop then c1.(animated := false) else c1;
    if reverse then Car(true, c2.distance - CarReverseStep, WheelBackward(c2.wheel)) else c2
  }

  // ---------------------------------------------------------------------------
  // The movement handler, the animation step and one frame

  /** The key-driven state update run once per frame. */
  function ProcessMovement(s: AppState, keys: Keys): (r: AppState)
    ensures AppInvariant(s) ==> AppInvariant(r)
    ensures r.animationAngle == s.animationAngle
  {
    var collisions := SetFlag(s.activateCollisions, keys[KeyN], keys[KeyM]);
    var car := CarAdjust(Car(s.carAnimation, s.carDistance, s.wheelAngle), keys[KeyY], keys[KeyU], keys[KeyI]);
    AppState(
      MoveCamera(s.camera, collisions, keys),
      collisions,
      SetFlag(s.startAnimation, keys[Key1], keys[Key2]),
      s.animationAngle,
      SetFlag(s.fogOn, keys[Key3], keys[Key4]),
      FogAdjust(s.fogDensity, keys[Key5], keys[Key6]),
      SetFlag(s.spotLightOn, keys[KeyC], keys[KeyV]),
      LightAdjust(s.lightAngle, keys[KeyQ], keys[KeyE]),
      car.animated,
      car.wheel,
      car.distance)
  }

  /** While the scripted animation runs, its angle advances and the camera
      is placed on the fly-through orbit; otherwise nothing changes. */
  function SceneAnimation(s: AppState, g: Geometry): (r: AppState)
    ensures !s.startAnimation ==> r == s
    ensures s.startAnimation ==> r.animationAngle == s.animationAngle + AnimationStep
    ensures s.startAnimation ==> r.camera.position == g.rotate(r.animationAngle, WorldUp, PreviewStart)
    ensures r.camera.target == s.camera.target && r.camera.up == s.camera.up
    ensures r == s.(animationAngle := r.animationAngle, camera := r.camera)
  {
    if s.startAnimation then
      var angle := s.animationAngle + AnimationStep;
      s.(animationAngle := angle, camera := ScenePreview(s.camera, angle, g))
    else s
  }

  /** One iteration of the main loop, as far as state goes: the movement
      handler, then the animation step at the start of rendering. */
  function Frame(s: AppState, keys: Keys, g: Geometry): (r: AppState)
    ensures AppInvariant(s) ==> AppInvariant(r)
  {
    SceneAnimation(ProcessMovement(s, keys), g)
  }

  /** `n` frames with the same keys held. */
  function Hold(s: AppState, keys: Keys, n: nat, g: Geometry): (r: AppState)
    ensures AppInvariant(s) ==> AppInvariant(r)
  {
    if n == 0 then s else Frame(Hold(s, keys, n - 1, g), keys, g)
  }

  /** The main loop over the key events delivered after each frame, until a
      close is requested or the events run out. */
  method Run(s0: AppState, inp0: InputState, events: seq<seq<KeyEvent>>, g: Geometry)
    returns (s: AppState, inp: InputState, frames: nat)
    ensures AppInvariant(s0) ==> AppInvariant(s)
    ensures frames <= |events|
    ensures frames < |events| ==> inp.closeRequested
    ensures inp0.closeRequested ==> frames == 0 && s == s0 && inp == inp0
    ensures !inp0.closeRequested && 0 < |events| ==> 0 < frames
  {
    s, inp, frames := s0, inp0, 0;
    while frames < |events| && !inp.closeRequested
      invariant AppInvariant(s0) ==> AppInvariant(s)
      invariant frames <= |events|
      invariant inp0.closeRequested ==> frames == 0 && s == s0 && inp == inp0
      invariant !inp0.closeRequested && 0 < |events| && frames == 0 ==> !inp.closeRequested
    {
      s := Frame(s, inp.keys, g);
      inp := ApplyEvents(inp, events[frames]);
      frames := frames + 1;
    }
  }
}
