/** Properties of whole frames of the viewer's state machine: which key wins
    when two are held, what a frame with no key held does, how push-back
    plays out, and what holding a key for many frames accumulates to. */
module SceneProperties {
  import opened Vectors
  import opened Camera
  import opened Keyboard
  import opened Scene

  /** A key table with exactly the listed keys held. */
  function Holding(held: set<int>): (keys: Keys)
    ensures forall k :: 0 <= k < KeyCount ==> (keys[k] <==> k in held)
  {
    seq(KeyCount, k => k in held)
  }

  /** For every flag pair the key checked later wins; with neither key held
      the flag keeps its value. */
  lemma LaterKeyWins(s: AppState, keys: Keys)
    ensures var r := ProcessMovement(s, keys);
            && (r.activateCollisions <==> !keys[KeyM] && (keys[KeyN] || s.activateCollisions))
            && (r.startAnimation <==> !keys[Key2] && (keys[Key1] || s.startAnimation))
            && (r.fogOn <==> !keys[Key4] && (keys[Key3] || s.fogOn))
            && (r.spotLightOn <==> !keys[KeyV] && (keys[KeyC] || s.spotLightOn))
            && (r.carAnimation <==> keys[KeyI] || (!keys[KeyU] && (keys[KeyY] || s.carAnimation)))
  {
  }

  /** Light and car keys accumulate exactly: Q takes a degree off the light,
      E adds one; Y moves the car 0.01 forward and I moves it 0.1 back. */
  lemma LightAndCarSteps(s: AppState, keys: Keys)
    ensures var r := ProcessMovement(s, keys);
            && r.lightAngle == s.lightAngle - (if keys[KeyQ] then 1 else 0) + (if keys[KeyE] then 1 else 0)
            && r.carDistance == s.carDistance + (if keys[KeyY] then CarForwardStep else 0.0) - (if keys[KeyI] then CarReverseStep else 0.0)
  {
  }

  /** A frame with no key held and the animation stopped changes nothing. */
  lemma IdleFrame(s: AppState, g: Geometry)
    requires !s.startAnimation
    ensures Frame(s, AllReleased, g) == s
  {
    assert ProcessMovement(s, AllReleased) == s;
  }

  /** Moving up ignores the collision box: whatever else is held, and
      whether or not collisions are active, T adds a rise at the normal speed
      to the moves of the keys before it. R, checked after T, is left out:
      its own test sees the risen position. */
  lemma UpIgnoresCollision(c: CameraState, activate: bool, keys: Keys)
    requires keys[KeyT] && !keys[KeyR]
    ensures MoveCamera(c, activate, keys) == Move(MoveCamera(c, activate, keys[KeyT := false]), Up, CameraSpeed)
  {
  }

  /** With W held alone the frame's only camera step is the forward key, and
      the collision flag keeps its value. */
  lemma ForwardOnly(s: AppState)
    ensures var r := ProcessMovement(s, Holding({KeyW}));
            && r.camera == MoveKey(s.camera, s.activateCollisions, true, Forward)
            && r.activateCollisions == s.activateCollisions
  {
    var keys := Holding({KeyW});
    assert keys[KeyW] && !keys[KeyS] && !keys[KeyA] && !keys[KeyD] && !keys[KeyT] && !keys[KeyR];
    assert !keys[KeyN] && !keys[KeyM];
  }

  /** With collisions active, W held alone and the camera outside the box,
      the frame moves the camera one unit backward. */
  lemma PushBack(s: AppState)
    requires s.activateCollisions && !InsideBox(s.camera.position)
    ensures ProcessMovement(s, Holding({KeyW})).camera == Move(s.camera, Backward, 1.0)
  {
    ForwardOnly(s);
  }

  /** The same over two whole frames with W held alone. */
  lemma PushBackLagsOneFrame(s: AppState)
    requires s.activateCollisions
    requires s.camera.position.x == 79.9 && s.camera.position.y == 10.0 && s.camera.position.z == 0.0
    requires s.camera.front.x == 1.0
    ensures var s1 := ProcessMovement(s, Holding({KeyW}));
            && s1.camera.position.x == 80.2
            && ProcessMovement(s1, Holding({KeyW})).camera.position.x == 79.2
  {
    ForwardOnly(s);
    ForwardOnly(ProcessMovement(s, Holding({KeyW})));
    PushBackLagsOneStep(s.camera);
  }

  /** Each key's collision test sees the position the key before it left.
      Facing +x from x = 79.9 with W and S both held and collisions on, W's
      test passes and carries the camera to 80.2; S's test then sees 80.2,
      outside the box, so S is reversed and the camera ends at 81.2. With
      collisions off the two keys cancel. */
  lemma CollisionTestsChain(c: CameraState)
    requires c.position.x == 79.9 && c.position.y == 10.0 && c.position.z == 0.0
    requires c.front.x == 1.0
    ensures MoveCamera(c, true, Holding({KeyW, KeyS})).position.x == 81.2
    ensures MoveCamera(c, false, Holding({KeyW, KeyS})).position.x == 79.9
  {
    var keys := Holding({KeyW, KeyS});
    assert keys[KeyW] && keys[KeyS] && !keys[KeyA] && !keys[KeyD] && !keys[KeyT] && !keys[KeyR];
    PushBackLagsOneStep(c);
    PushBackFollowsKey(MoveKey(c, true, true, Forward));
    FrameStepsAddUp(c, keys, X);
  }

  /** What one frame does to the scalar state, in terms of the per-key
      updates. */
  lemma FrameScalars(s: AppState, keys: Keys, g: Geometry)
    ensures var r := Frame(s, keys, g);
            && r.fogDensity == FogAdjust(s.fogDensity, keys[Key5], keys[Key6])
            && r.lightAngle == LightAdjust(s.lightAngle, keys[KeyQ], keys[KeyE])
            && Car(r.carAnimation, r.carDistance, r.wheelAngle)
               == CarAdjust(Car(s.carAnimation, s.carDistance, s.wheelAngle), keys[KeyY], keys[KeyU], keys[KeyI])
            && r.startAnimation == SetFlag(s.startAnimation, keys[Key1], keys[Key2])
  {
  }

  /** Holding 5 (and not 6) raises the fog density by 0.001 a frame until it
      saturates at exactly one. */
  lemma {:induction false} HoldFogIncrease(s: AppState, keys: Keys, n: nat, g: Geometry)
    requires keys[Key5] && !keys[Key6]
    requires s.fogDensity <= 1.0
    ensures Hold(s, keys, n, g).fogDensity == Min(s.fogDensity + n as real * FogStep, 1.0)
  {
    if n > 0 {
      var p := Hold(s, keys, n - 1, g);
      HoldFogIncrease(s, keys, n - 1, g);
      FrameScalars(p, keys, g);
      assert Hold(s, keys, n, g) == Frame(p, keys, g);
    }
  }

  /** Holding 6 (and not 5) lowers the fog density by 0.001 a frame until it
      saturates at exactly zero. */
  lemma {:induction false} HoldFogDecrease(s: AppState, keys: Keys, n: nat, g: Geometry)
    requires keys[Key6] && !keys[Key5]
    requires 0.0 <= s.fogDensity
    ensures Hold(s, keys, n, g).fogDensity == Max(s.fogDensity - n as real * FogStep, 0.0)
  {
    if n > 0 {
      var p := Hold(s, keys, n - 1, g);
      HoldFogDecrease(s, keys, n - 1, g);
      FrameScalars(p, keys, g);
      assert Hold(s, keys, n, g) == Frame(p, keys, g);
    }
  }

  /** The wheel angle after `n` forward ticks from zero: -1 .. -360, then -1
      again. */
  function ForwardTicks(n: nat): int {
    if n == 0 then 0 else -((n - 1) % 360 + 1)
  }

  /** One more forward tick continues the count. */
  lemma {:induction false} ForwardTickStep(n: nat)
    ensures WheelForward(ForwardTicks(n)) == ForwardTicks(n + 1)
  {
    if n > 0 && (n - 1) % 360 != 359 {
      assert n % 360 == (n - 1) % 360 + 1;
    }
  }

  /** Holding Y (and not I) from a wheel angle of zero counts the angle down
      through -1 .. -360 and then starts again at -1; the car advances 0.01 a
      frame. */
  lemma {:induction false} HoldCarForward(s: AppState, keys: Keys, n: nat, g: Geometry)
    requires keys[KeyY] && !keys[KeyI]
    requires s.wheelAngle == 0
    ensures Hold(s, keys, n, g).wheelAngle == ForwardTicks(n)
    ensures Hold(s, keys, n, g).carDistance == s.carDistance + n as real * CarForwardStep
  {
    if n > 0 {
      var p := Hold(s, keys, n - 1, g);
      HoldCarForward(s, keys, n - 1, g);
      FrameScalars(p, keys, g);
      ForwardTickStep(n - 1);
      assert Hold(s, keys, n, g) == Frame(p, keys, g);
    }
  }

  /** The wheel angle after `n` reverse ticks from zero: 1 .. 360, then 1
      again. */
  function ReverseTicks(n: nat): int {
    if n == 0 then 0 else (n - 1) % 360 + 1
  }

  /** One more reverse tick continues the count. */
  lemma {:induction false} ReverseTickStep(n: nat)
    ensures WheelBackward(ReverseTicks(n)) == ReverseTicks(n + 1)
  {
    if n > 0 && (n - 1) % 360 != 359 {
      assert n % 360 == (n - 1) % 360 + 1;
    }
  }

  /** Holding I (and not Y) from a wheel angle of zero counts the angle up
      through 1 .. 360 and then starts again at 1; the car backs 0.1 a frame. */
  lemma {:induction false} HoldCarReverse(s: AppState, keys: Keys, n: nat, g: Geometry)
    requires keys[KeyI] && !keys[KeyY]
    requires s.wheelAngle == 0
    ensures Hold(s, keys, n, g).wheelAngle == ReverseTicks(n)
    ensures Hold(s, keys, n, g).carDistance == s.carDistance - n as real * CarReverseStep
  {
    if n > 0 {
      var p := Hold(s, keys, n - 1, g);
      HoldCarReverse(s, keys, n - 1, g);
      FrameScalars(p, keys, g);
      ReverseTickStep(n - 1);
      assert Hold(s, keys, n, g) == Frame(p, keys, g);
    }
  }

  /** Holding Y (and not I) from any angle in range keeps the wheel in range
      and turns it one degree back per frame, modulo a full turn. */
  lemma {:induction false} HoldWheelForward(s: AppState, keys: Keys, n: nat, g: Geometry)
    requires keys[KeyY] && !keys[KeyI]
    requires WheelInRange(s.wheelAngle)
    ensures WheelInRange(Hold(s, keys, n, g).wheelAngle)
    ensures (s.wheelAngle - n - Hold(s, keys, n, g).wheelAngle) % 360 == 0
  {
    if n > 0 {
      var p := Hold(s, keys, n - 1, g);
      HoldWheelForward(s, keys, n - 1, g);
      FrameScalars(p, keys, g);
      assert Hold(s, keys, n, g) == Frame(p, keys, g);
    }
  }

  /** Holding I (and not Y) from any angle in range keeps the wheel in range
      and turns it one degree on per frame, modulo a full turn. */
  lemma {:induction false} HoldWheelReverse(s: AppState, keys: Keys, n: nat, g: Geometry)
    requires keys[KeyI] && !keys[KeyY]
    requires WheelInRange(s.wheelAngle)
    ensures WheelInRange(Hold(s, keys, n, g).wheelAngle)
    ensures (s.wheelAngle + n - Hold(s, keys, n, g).wheelAngle) % 360 == 0
  {
    if n > 0 {
      var p := Hold(s, keys, n - 1, g);
      HoldWheelReverse(s, keys, n - 1, g);
      FrameScalars(p, keys, g);
      assert Hold(s, keys, n, g) == Frame(p, keys, g);
    }
  }

  /** Once started, and with 2 not held, the animation keeps running and its
      angle grows by 0.2 every frame; the camera sits on the fly-through
      orbit at that angle. */
  lemma {:induction false} HoldAnimation(s: AppState, keys: Keys, n: nat, g: Geometry)
    requires s.startAnimation || keys[Key1]
    requires !keys[Key2]
    ensures var r := Hold(s, keys, n, g);
            && (0 < n ==> r.startAnimation)
            && r.animationAngle == s.animationAngle + n as real * AnimationStep
            && (0 < n ==> r.camera.position == g.rotate(r.animationAngle, WorldUp, PreviewStart))
  {
    if n > 0 {
      var p := Hold(s, keys, n - 1, g);
      HoldAnimation(s, keys, n - 1, g);
      FrameScalars(p, keys, g);
      assert Hold(s, keys, n, g) == Frame(p, keys, g);
    }
  }

  /** Holding Q (and not E) turns the light one degree a frame. */
  lemma {:induction false} HoldLight(s: AppState, keys: Keys, n: nat, g: Geometry)
    requires keys[KeyQ] && !keys[KeyE]
    ensures Hold(s, keys, n, g).lightAngle == s.lightAngle - n
  {
    if n > 0 {
      var p := Hold(s, keys, n - 1, g);
      HoldLight(s, keys, n - 1, g);
      FrameScalars(p, keys, g);
      assert Hold(s, keys, n, g) == Frame(p, keys, g);
    }
  }
}
