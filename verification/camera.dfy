/** The free-flying camera: a position, the point it looks at, and a basis of
    front, right and up vectors. `Move` is exact vector arithmetic; `Rotate`
    and `ScenePreview` use rotation and normalisation only through an abstract
    `Geometry`. */
module Camera {
  import opened Vectors

  datatype Direction = Forward | Backward | Left | Right | Up | Down

  datatype CameraState = CameraState(position: Vec3, target: Vec3, front: Vec3, right: Vec3, up: Vec3)

  /** The fixed start point of the scripted fly-through, before its rotation. */
  const PreviewStart: Vec3 := Vec3(30.0, 30.0, 140.0)

  /** `front` is the normalised direction from the position to the target. */
  ghost predicate FrontFacesTarget(c: CameraState, g: Geometry) {
    c.front == g.normalize(Sub(c.target, c.position))
  }

  /** `right` is the normalised cross product of `front` and `up`. */
  ghost predicate RightFromFront(c: CameraState, g: Geometry) {
    c.right == g.normalize(Cross(c.front, c.up))
  }

  /** Builds the camera as its constructor does: front from position to
      target, up normalised, right from front and up. */
  function NewCamera(position: Vec3, target: Vec3, up: Vec3, g: Geometry): (c: CameraState)
    ensures c.position == position && c.target == target
    ensures c.up == g.normalize(up)
    ensures FrontFacesTarget(c, g) && RightFromFront(c, g)
  {
    var front := g.normalize(Sub(target, position));
    var up' := g.normalize(up);
    CameraState(position, target, front, g.normalize(Cross(front, up')), up')
  }

  /** The direction a unit-speed move in `d` translates the camera by. */
  function Basis(c: CameraState, d: Direction): Vec3 {
    match d
    case Forward => c.front
    case Backward => Neg(c.front)
    case Left => Neg(c.right)
    case Right => c.right
    case Up => c.up
    case Down => Neg(c.up)
  }

  function Opposite(d: Direction): (o: Direction)
    ensures o != d
  {
    match d
    case Forward => Backward
    case Backward => Forward
    case Left => Right
    case Right => Left
    case Up => Down
    case Down => Up
  }

  /** A move shifts position and target by one and the same vector and leaves
      the basis alone. */
  function Move(c: CameraState, d: Direction, speed: real): (r: CameraState)
    ensures r.front == c.front && r.right == c.right && r.up == c.up
    ensures Sub(r.position, c.position) == Sub(r.target, c.target)
    ensures Sub(r.target, r.position) == Sub(c.target, c.position)
  {
    var t := Scale(speed, Basis(c, d));
    c.(position := Add(c.position, t), target := Add(c.target, t))
  }

  /** Per direction, where the camera ends up after a move at `speed`. */
  lemma MoveTranslation(c: CameraState, s: real)
    ensures Move(c, Forward, s).position == Add(c.position, Scale(s, c.front))
    ensures Move(c, Backward, s).position == Sub(c.position, Scale(s, c.front))
    ensures Move(c, Left, s).position == Sub(c.position, Scale(s, c.right))
    ensures Move(c, Right, s).position == Add(c.position, Scale(s, c.right))
    ensures Move(c, Up, s).position == Add(c.position, Scale(s, c.up))
    ensures Move(c, Down, s).position == Sub(c.position, Scale(s, c.up))
  {
  }

  /** Moving in the opposite direction is moving at the negated speed. */
  lemma MoveOpposite(c: CameraState, d: Direction, s: real)
    ensures Move(c, Opposite(d), s) == Move(c, d, -s)
  {
  }

  lemma MoveLeftIsRightNegated(c: CameraState, s: real)
    ensures Move(c, Left, s) == Move(c, Right, -s)
    ensures Move(c, Down, s) == Move(c, Up, -s)
  {
    MoveOpposite(c, Right, s);
    MoveOpposite(c, Up, s);
  }

  /** A move at speed zero changes nothing. */
  lemma MoveZero(c: CameraState, d: Direction)
    ensures Move(c, d, 0.0) == c
  {
  }

  /** Two moves in one direction add their speeds. */
  lemma MoveAdditive(c: CameraState, d: Direction, a: real, b: real)
    ensures Move(Move(c, d, a), d, b) == Move(c, d, a + b)
  {
  }

  /** A move undone by the same move at the negated speed. */
  lemma MoveUndo(c: CameraState, d: Direction, s: real)
    ensures Move(Move(c, d, s), d, -s) == c
  {
    MoveAdditive(c, d, s, -s);
    MoveZero(c, d);
  }

  /** Forward then backward at the same speed restores the camera. */
  lemma MoveRoundTrip(c: CameraState, s: real)
    ensures Move(Move(c, Forward, s), Backward, s) == c
  {
    MoveOpposite(Move(c, Forward, s), Forward, s);
    MoveUndo(c, Forward, s);
  }

  /** A move keeps the camera's orientation invariants. */
  lemma MoveKeepsOrientation(c: CameraState, d: Direction, s: real, g: Geometry)
    ensures FrontFacesTarget(c, g) ==> FrontFacesTarget(Move(c, d, s), g)
    ensures RightFromFront(c, g) ==> RightFromFront(Move(c, d, s), g)
  {
  }

  /** Mouse look: pitch about `right`, then yaw about `up`, both pivoted at
      the position, turn the target; the front turns by the yaw only; right is
      re-derived. Angles are in degrees. */
  function Rotate(c: CameraState, pitch: real, yaw: real, g: Geometry): (r: CameraState)
    ensures r.position == c.position && r.up == c.up
    ensures r.front == g.rotate(yaw, c.up, c.front)
    ensures RightFromFront(r, g)
  {
    var turned := g.rotate(yaw, c.up, g.rotate(pitch, c.right, Sub(c.target, c.position)));
    var front := g.rotate(yaw, c.up, c.front);
    c.(target := Add(c.position, turned), front := front, right := g.normalize(Cross(front, c.up)))
  }

  /** The rotation is pivoted at the camera: translating the camera first
      translates the rotated target by the same vector. */
  lemma RotateCommutesWithMove(c: CameraState, d: Direction, s: real, pitch: real, yaw: real, g: Geometry)
    ensures var v := Sub(Move(c, d, s).position, c.position);
            var r := Rotate(c, pitch, yaw, g);
            Rotate(Move(c, d, s), pitch, yaw, g) == r.(position := Add(r.position, v), target := Add(r.target, v))
  {
  }

  /** With rotations that fix everything at angle zero, a zero rotation of a
      camera whose right vector is consistent changes nothing. */
  lemma RotateZero(c: CameraState, g: Geometry)
    requires ZeroIsIdentity(g)
    requires RightFromFront(c, g)
    ensures Rotate(c, 0.0, 0.0, g) == c
  {
  }

  /** Only the pitch separates front from the direction to the target: a pure
      yaw keeps the front pointing at the target. */
  lemma RotateYawKeepsFrontOnTarget(c: CameraState, yaw: real, g: Geometry)
    requires ZeroIsIdentity(g) && RotationKeepsDirection(g)
    requires FrontFacesTarget(c, g)
    ensures FrontFacesTarget(Rotate(c, 0.0, yaw, g), g)
  {
    var rel := Sub(c.target, c.position);
    var r := Rotate(c, 0.0, yaw, g);
    assert g.rotate(0.0, c.right, rel) == rel;
    assert Sub(r.target, r.position) == g.rotate(yaw, c.up, rel);
    assert g.normalize(g.rotate(yaw, c.up, rel)) == g.rotate(yaw, c.up, g.normalize(rel));
  }

  /** Scripted fly-through: the position is the fixed start point turned by
      `angle` degrees about the world's vertical axis; front and right are
      re-derived, the right from the world's vertical axis. */
  function ScenePreview(c: CameraState, angle: real, g: Geometry): (r: CameraState)
    ensures r.target == c.target && r.up == c.up
    ensures r.position == g.rotate(angle, WorldUp, PreviewStart)
    ensures FrontFacesTarget(r, g)
    ensures c.up == WorldUp ==> RightFromFront(r, g)
  {
    var position := g.rotate(angle, WorldUp, PreviewStart);
    var front := g.normalize(Sub(c.target, position));
    c.(position := position, front := front, right := g.normalize(Cross(front, WorldUp)))
  }

  /** The fly-through ignores where the camera was and which way it faced. */
  lemma ScenePreviewIgnoresPrior(c1: CameraState, c2: CameraState, angle: real, g: Geometry)
    requires c1.target == c2.target && c1.up == c2.up
    ensures ScenePreview(c1, angle, g) == ScenePreview(c2, angle, g)
  {
  }

  /** Repeating the fly-through step with the same angle changes nothing. */
  lemma ScenePreviewIdempotent(c: CameraState, angle: real, g: Geometry)
    ensures ScenePreview(ScenePreview(c, angle, g), angle, g) == ScenePreview(c, angle, g)
  {
    ScenePreviewIgnoresPrior(ScenePreview(c, angle, g), c, angle, g);
  }
}
