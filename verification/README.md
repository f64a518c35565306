# Mini-city viewer: camera and per-frame input state, modelled in Dafny

The viewer flies a free camera through a small city scene. The camera has a
position, a target point and a basis of front, right and up vectors. The
keyboard drives a per-frame state machine with these parts:

- collision push-back against a fixed box;
- scripted fly-through toggles;
- fog on/off and fog density;
- a spotlight toggle;
- the light's orbit angle;
- a car animation (its distance and the wheel angle).

This project models that state machine as immutable records and pure step
functions, and proves what each step promises.

- `vectors.dfy` (module `Vectors`): three-component vectors over `real`.
  Also a `Geometry` value that carries rotation about an axis and
  normalisation as arbitrary functions. The model never interprets the
  trigonometry or the square roots.
- `camera.dfy` (module `Camera`): the camera class. Covers the constructor,
  `move`, `rotate` and `scenePreview`.
- `keyboard.dfy` (module `Keyboard`): the 1024-entry pressed-key table, the
  key callback, and the Escape close request.
- `scene.dfy` (module `Scene`): the process-wide state. Covers
  `checkCollision`, every state-changing branch of `processMovement`,
  `sceneAnimation`, one frame of the main loop, and the loop itself over the
  key events delivered between frames.
- `scene_properties.dfy` (module `SceneProperties`): properties of whole
  frames and of keys held over many frames.

Single-precision floats are modelled as `real`. So the 0.001, 0.01, 0.1, 0.2
and 0.3 steps are exact here. The wheel angle and the light angle are floats in
the source that only ever move by whole degrees from 0, so they are modelled as
`int`. The wheel angle stays within ±360, where every whole degree is exact; the
light angle is unbounded (see "## Left out"). The fog and spotlight switches
are integers that only ever hold 0 or 1; they are modelled as `bool`.
Rotation angles are in degrees throughout. The degree-to-radian conversion
belongs to the abstract rotation.

The collision test follows the code, not a reading in which the box is
checked against the position a move *would* reach. `checkCollision` looks at
the camera's current position before each key's move. So a camera can step
past the boundary in one frame and is pushed back only in the next one
(`PushBackLagsOneStep`, `PushBackLagsOneFrame`). The push-back reverses the
held key's own direction rather than heading for the box. Holding S while
facing out of the box therefore moves the camera further out
(`PushBackFollowsKey`).

## Model

| member | source | states |
|---|---|---|
| Camera.NewCamera | Camera.cpp:8-14 | the new camera keeps the given position and target, its up is the normalised up, its front is the normalised direction to the target, and its right is the normalised cross product of front and up |
| Camera.Move | Camera.cpp:25-51 | front, right and up are unchanged; position and target are shifted by one and the same vector, so the offset from position to target is invariant |
| Camera.MoveTranslation | Camera.cpp:28-47 | the six-way table: FORWARD adds speed·front, BACKWARD subtracts it, LEFT subtracts speed·right, RIGHT adds it, UP adds speed·up, DOWN subtracts it |
| Camera.MoveOpposite | Camera.cpp:28-47 | moving in the opposite direction equals moving at the negated speed, for every direction |
| Camera.MoveLeftIsRightNegated | Camera.cpp:32-46 | move(LEFT,s) equals move(RIGHT,−s) and move(DOWN,s) equals move(UP,−s) |
| Camera.MoveZero | Camera.cpp:48-49 | a move at speed zero is the identity |
| Camera.MoveAdditive | Camera.cpp:48-49 | two moves in one direction compose into one move at the sum of the speeds |
| Camera.MoveUndo | Camera.cpp:48-49 | move(d,s) followed by move(d,−s) restores the camera exactly, for every d |
| Camera.MoveRoundTrip | Camera.cpp:29-40 | move(FORWARD,s) followed by move(BACKWARD,s) restores the camera exactly |
| Camera.MoveKeepsOrientation | Camera.cpp:25-51 | if front pointed at the target and right was derived from front and up, both still hold after any move |
| Camera.Rotate | Camera.cpp:56-70 | position and up are never assigned; the front is turned by the yaw about up only; right is re-derived from the new front and up |
| Camera.RotateCommutesWithMove | Camera.cpp:58-63 | the target's rotation is pivoted at the position: translating the camera first translates the rotated target by the same vector and leaves the new basis as it was |
| Camera.RotateZero | Camera.cpp:56-70 | for rotations that fix everything at angle zero, rotating by zero pitch and yaw leaves a camera with a consistent right vector unchanged |
| Camera.RotateYawKeepsFrontOnTarget | Camera.cpp:60-66 | for length-preserving rotations, a pure yaw keeps the front pointing at the target; only pitch separates them |
| Camera.ScenePreview | Camera.cpp:71-83 | target and up are unchanged; the position is the fixed point (30,30,140) rotated by the angle about the world's vertical axis; afterwards front points at the target, and right is consistent when up is the world's vertical |
| Camera.ScenePreviewIgnoresPrior | Camera.cpp:73-80 | the result does not depend on the prior position, front or right |
| Camera.ScenePreviewIdempotent | Camera.cpp:71-83 | repeating the step with the same angle gives the same state |
| Keyboard.KeyboardCallback | main.cpp:145-158 | a key code outside 0..1023 changes no flag; a press sets the key's flag and a release clears it; any other action changes nothing; no other key's flag changes; the close request is raised exactly by a press of Escape and is never lowered |
| Keyboard.PressThenRelease | main.cpp:150-157 | pressing and then releasing a key that was up restores the whole table |
| Keyboard.CallbackIdempotent | main.cpp:150-157 | delivering the same event twice has the same effect as once |
| Keyboard.ApplyEvents | main.cpp:145-158 | over a sequence of events the close request, once raised, stays raised, and a key no event names keeps its flag |
| Scene.InitialState | main.cpp:45-89 | the start-up camera is placed at (33,20.5,15) looking at (33,20.6,−15), and the start-up state (fog density 0.005, wheel angle 0) satisfies the fog and wheel bounds |
| Scene.CheckCollision | main.cpp:197-206 | the result is true exactly when collisions are active and the position lies outside the closed box x∈[−30,80], y≥0, z∈[−90,40], so boundary values count as inside |
| Scene.MoveKey | main.cpp:219-253 | a key that is not held changes nothing; a held key moves the camera at 0.3 in its direction when the current position passes the box test, and at speed −1 (one unit in the opposite direction) when it does not; the basis and the position-to-target offset are kept |
| Scene.PushBackLagsOneStep | main.cpp:219-226 | facing +x from x=79.9 a forward step reaches x=80.2 (the test saw the old position), and the next forward step is pushed back to x=79.2 |
| Scene.PushBackFollowsKey | main.cpp:228-235 | facing +x outside the box at x=80.2, a held S is reversed and carries the camera out to x=81.2 |
| Scene.MoveCamera | main.cpp:219-272 | the whole movement sequence of a frame keeps the basis and the position-to-target offset |
| Scene.MoveCameraSteers | main.cpp:219-272 | with collisions off the frame's moves add up: position and target both end shifted by 0.3·((W−S)·front + (D−A)·right + (T−R)·up), each key counting 1 when held and 0 otherwise |
| Scene.SetFlag | main.cpp:213-217 | the key checked later wins: the clearing key forces false, the setting key alone forces true, and with neither the flag keeps its value |
| Scene.FogIncrease | main.cpp:314-316 | the result never exceeds 1 and never exceeds the old value plus 0.001; below 1 it is exactly the old value plus 0.001; from at most 1 it grows or saturates at 1 |
| Scene.FogDecrease | main.cpp:319-321 | the result is never negative and never below the old value minus 0.001; above 0 it is exactly the old value minus 0.001; from at least 0 it shrinks or saturates at 0 |
| Scene.FogAdjust | main.cpp:314-321 | a density in [0,1] stays in [0,1] whichever fog keys are held; with neither key it is unchanged |
| Scene.LightAdjust | main.cpp:274-286 | the light angle changes by exactly +1 for E minus 1 for Q |
| Scene.WheelForward | main.cpp:350-356 | the angle stays in [−360,360] and the new angle is one degree less modulo 360; −360 steps to −1 and every other angle to one less |
| Scene.WheelBackward | main.cpp:362-368 | the angle stays in [−360,360] and the new angle is one degree more modulo 360; 360 steps to 1 and every other angle to one more |
| Scene.WheelRoundTrip | main.cpp:350-368 | a forward then a backward tick restore every in-range angle except −360, which comes back as 0 |
| Scene.CarAdjust | main.cpp:350-368 | I forces the animation on, otherwise U forces it off, otherwise Y forces it on; the distance gains 0.01 for Y and loses 0.1 for I; Y alone turns the wheel by `WheelForward` and I alone by `WheelBackward`, both together leave an in-range angle other than −360 where it was, and neither leaves it untouched; the wheel stays in range |
| Scene.ProcessMovement | main.cpp:212-370 | the fog and wheel bounds are preserved by every key combination, and the animation angle is not touched |
| Scene.SceneAnimation | main.cpp:100-105 | when the animation is off nothing changes; when on, the angle grows by exactly 0.2, the camera is placed on the orbit at the new angle, the target and up are kept, and nothing else changes |
| Scene.Frame | main.cpp:720-728 | one loop iteration (movement handler, then the animation step at the start of rendering) preserves the fog and wheel bounds |
| Scene.Hold | main.cpp:720-728 | any number of frames with the same keys held preserves the fog and wheel bounds |
| Scene.Run | main.cpp:720-728 | the loop preserves the bounds, runs at most one frame per batch of events, stops early only on a close request, runs nothing if a close was already requested, and otherwise runs at least one frame |
| SceneProperties.LaterKeyWins | main.cpp:212-368 | in a whole frame M beats N, 2 beats 1, 4 beats 3 and V beats C, each flag otherwise keeping its value; I beats U, which beats Y, for the car animation |
| SceneProperties.LightAndCarSteps | main.cpp:274-368 | in a whole frame Q takes exactly one degree off the light angle and E adds one; Y adds 0.01 to the car distance and I subtracts 0.1 |
| SceneProperties.IdleFrame | main.cpp:212-370 | a frame with no key held and the animation stopped changes nothing |
| SceneProperties.UpIgnoresCollision | main.cpp:255-272 | whatever else is held (R aside) and whatever the collision flag and position, holding T adds exactly a 0.3 rise along up to the moves of the other keys; R is excluded because its own test then sees the risen position |
| SceneProperties.ForwardOnly | main.cpp:219-226 | with W held alone the frame's only camera step is the forward key's, and the collision flag is kept |
| SceneProperties.PushBack | main.cpp:219-226 | with collisions active and the camera outside the box, holding W alone moves the camera one unit backward |
| SceneProperties.PushBackLagsOneFrame | main.cpp:197-226 | over two frames with W held, facing +x from x=79.9, the camera first crosses to x=80.2 and is then pushed back to x=79.2 |
| SceneProperties.CollisionTestsChain | main.cpp:197-235 | each key's collision test sees the position the key before it left: facing +x from x=79.9 with W and S held and collisions on, W carries the camera to 80.2 and S, now tested outside the box, is reversed to 81.2; with collisions off the two keys cancel and x stays 79.9 |
| SceneProperties.HoldFogIncrease | main.cpp:314-316 | holding 5 and not 6 for n frames from a density of at most 1 gives min(d + n·0.001, 1): it saturates at exactly 1 and never exceeds it |
| SceneProperties.HoldFogDecrease | main.cpp:319-321 | holding 6 and not 5 for n frames from a non-negative density gives max(d − n·0.001, 0): it saturates at exactly 0 and never goes negative |
| SceneProperties.ForwardTickStep | main.cpp:350-356 | one forward wheel tick continues the count −1, …, −360, −1, … |
| SceneProperties.HoldCarForward | main.cpp:350-356 | holding Y and not I for n frames from wheel angle 0 gives −((n−1) mod 360 + 1): the angle reaches −360 and restarts at −1; the car advances n·0.01 |
| SceneProperties.ReverseTickStep | main.cpp:362-368 | one reverse wheel tick continues the count 1, …, 360, 1, … |
| SceneProperties.HoldWheelForward | main.cpp:350-356 | holding Y and not I for n frames from any angle in [−360,360] keeps the wheel in that range and turns it by exactly −n degrees modulo 360 |
| SceneProperties.HoldWheelReverse | main.cpp:362-368 | holding I and not Y for n frames from any angle in [−360,360] keeps the wheel in that range and turns it by exactly +n degrees modulo 360 |
| SceneProperties.HoldCarReverse | main.cpp:362-368 | holding I and not Y for n frames from wheel angle 0 gives (n−1) mod 360 + 1; the car backs n·0.1 |
| SceneProperties.HoldAnimation | main.cpp:100-105 | once started and with 2 not held, the animation keeps running, its angle grows by exactly n·0.2 over n frames, and the camera sits on the orbit at that angle |
| SceneProperties.HoldLight | main.cpp:274-279 | holding Q and not E for n frames takes exactly n degrees off the light angle |

## Left out

- Window, context and callback registration, shader loading, uniform uploads, framebuffer and texture setup, draw calls, the error poller and buffer swapping: these are calls into the windowing and graphics libraries, whose code is not part of this model. `Run` takes the key events delivered between frames as a parameter.
- `glPolygonMode` for keys 7, 8 and 9: this is graphics-library state, not application state.
- `getViewMatrix`, `computeLightSpaceTrMatrix`, the per-object model and normal matrices, the light cube and the skybox: these are floating-point matrix algebra (look-at, orthographic and perspective projections, inverse transpose) that exists only to feed the renderer.
- The trigonometry of `rotate`, the body of the fly-through rotation and every `normalize`: rotation and normalisation are arbitrary functions carried by `Geometry`. Unit length and orthogonality of the basis are not proved. Properties that need facts about rotation take them as stated assumptions (`ZeroIsIdentity`, `RotationKeepsDirection`).
- The light direction uploaded by Q and E: only the angle is state; the rotated direction is sent straight to the shader.
- `mouseCallback`: its cursor-delta arithmetic mixes double and float precision before calling `rotate`, which is modelled.
- `getCameraPosition`: it has no member of its own. In the model the accessor is the `position` field of the immutable camera record, which cannot mutate anything.
- IEEE rounding: all float quantities are reals, so the model does not capture accumulated rounding of the 0.001/0.01/0.1/0.2/0.3 steps or of `0.005f`. The light angle is an unbounded float: once its magnitude passes 2^24, a one-degree step no longer changes it. So `LightAdjust`, `LightAndCarSteps` and `HoldLight` ("exactly n degrees") hold for the source only below that magnitude.
- Scene.Run: only key events are applied between frames. The `rotate` calls that `mouseCallback` makes while events are polled are not applied, and neither is a close request raised by the window itself (its close button). The loop's bounds contract does not depend on either.
- Scene.MoveCamera: its own contract keeps only the basis and the position-to-target offset. Where the camera ends is proved in closed form only with collisions off (`MoveCameraSteers`). With collisions on, each reversal depends on the position the previous key left, so the chaining is shown on a concrete case (`CollisionTestsChain`) rather than in closed form.
