/** The game world of `scene.rs`: two paddles, two walls and a ball, the
    actions that steer them, the per-frame update and the model transforms
    handed to the renderer.  `f32` values are modelled as reals. */
module SceneModel {
  datatype Vec2 = Vec2(x: real, y: real)
  datatype Vec3 = Vec3(x: real, y: real, z: real)
  datatype Vec4 = Vec4(x: real, y: real, z: real, w: real)

  /** A 4x4 matrix stored by columns, as cgmath stores `Matrix4`. */
  datatype Mat4 = Mat4(c0: Vec4, c1: Vec4, c2: Vec4, c3: Vec4)

  const ZERO3: Vec3 := Vec3(0.0, 0.0, 0.0)

  function Scale4(k: real, v: Vec4): Vec4 {
    Vec4(k * v.x, k * v.y, k * v.z, k * v.w)
  }

  function Add4(a: Vec4, b: Vec4): Vec4 {
    Vec4(a.x + b.x, a.y + b.y, a.z + b.z, a.w + b.w)
  }

  function AddMat(a: Mat4, b: Mat4): Mat4 {
    Mat4(Add4(a.c0, b.c0), Add4(a.c1, b.c1), Add4(a.c2, b.c2), Add4(a.c3, b.c3))
  }

  /** The matrix applied to a column vector. */
  function Apply(m: Mat4, v: Vec4): Vec4 {
    Add4(Add4(Scale4(v.x, m.c0), Scale4(v.y, m.c1)), Add4(Scale4(v.z, m.c2), Scale4(v.w, m.c3)))
  }

  /** A point in homogeneous coordinates. */
  function Point(p: Vec3): Vec4 {
    Vec4(p.x, p.y, p.z, 1.0)
  }

  function Identity(): Mat4 {
    Mat4(Vec4(1.0, 0.0, 0.0, 0.0), Vec4(0.0, 1.0, 0.0, 0.0), Vec4(0.0, 0.0, 1.0, 0.0), Vec4(0.0, 0.0, 0.0, 1.0))
  }

  /** `Matrix4::from_translation(t)`. */
  function FromTranslation(t: Vec3): Mat4 {
    Mat4(Vec4(1.0, 0.0, 0.0, 0.0), Vec4(0.0, 1.0, 0.0, 0.0), Vec4(0.0, 0.0, 1.0, 0.0), Point(t))
  }

  /** A translation matrix moves every point by `t`. */
  lemma TranslationMovesPoints(t: Vec3, p: Vec3)
    ensures Apply(FromTranslation(t), Point(p)) == Point(Vec3(p.x + t.x, p.y + t.y, p.z + t.z))
  {
  }

  /** The transform the scene gives an entity at `position`, written out:
      twice the identity with `position` in the last column. */
  function ModelTransform(position: Vec3): Mat4 {
    Mat4(Vec4(2.0, 0.0, 0.0, 0.0), Vec4(0.0, 2.0, 0.0, 0.0), Vec4(0.0, 0.0, 2.0, 0.0),
      Vec4(position.x, position.y, position.z, 2.0))
  }

  /** The scene computes each transform as the identity matrix PLUS the
      translation matrix; `ModelTransform` is that sum. */
  lemma ModelTransformIsIdentityPlusTranslation(position: Vec3)
    ensures ModelTransform(position) == AddMat(Identity(), FromTranslation(position))
  {
  }

  /** The sum in `ModelTransform` doubles every coordinate, the homogeneous
      one included, so after the perspective divide a point of the mesh
      appears moved by half of `position`, not by `position`. */
  lemma ModelTransformMovesByHalf(position: Vec3, p: Vec3)
    ensures Apply(ModelTransform(position), Point(p))
      == Scale4(2.0, Point(Vec3(p.x + position.x / 2.0, p.y + position.y / 2.0, p.z + position.z / 2.0)))
  {
  }

  /** The five things the scene draws, in the order it lists them. */
  datatype Entity = LeftPaddle | RightPaddle | TopWall | BottomWall | Ball

  const DRAW_ORDER: seq<Entity> := [LeftPaddle, RightPaddle, TopWall, BottomWall, Ball]

  /** `ModelData`: the mesh is the one of `owner`; its vertices are not
      modelled. */
  datatype ModelData = ModelData(owner: Entity, transform: Mat4)

  datatype Paddle = Paddle(position: Vec3, velocity: real)
  datatype Wall = Wall(position: Vec3)
  datatype BallState = BallState(position: Vec3, velocity: Vec2)

  /** `scene::Action`. */
  datatype Action =
    | LeftPaddleUp | LeftPaddleDown | LeftPaddleStop
    | RightPaddleUp | RightPaddleDown | RightPaddleStop
    | Kickoff | GameOver | ResetGame

  /** How fast a paddle moves; positive y points down the screen. */
  const PADDLE_SPEED: real := 2.0
  /** A paddle's centre stays within [-PADDLE_LIMIT, PADDLE_LIMIT]. */
  const PADDLE_LIMIT: real := 2.0
  /** The game is over once the ball's x leaves [-GOAL_LINE, GOAL_LINE]. */
  const GOAL_LINE: real := 4.7
  /** The ball's kickoff y speed lies in [-KICKOFF_SPREAD, KICKOFF_SPREAD). */
  const KICKOFF_SPREAD: real := 0.3

  function Abs(x: real): real {
    if x < 0.0 then -x else x
  }

  /** `num::clamp(x, lo, hi)` for `lo <= hi`. */
  function Clamp(x: real, lo: real, hi: real): (r: real)
    requires lo <= hi
    ensures lo <= r <= hi
    ensures lo <= x <= hi ==> r == x
    ensures x < lo ==> r == lo
    ensures x > hi ==> r == hi
  {
    if x < lo then lo else if x > hi then hi else x
  }

  class Scene {
    var leftPaddle: Paddle
    var rightPaddle: Paddle
    var topWall: Wall
    var bottomWall: Wall
    var ball: BallState

    /** `Scene::new`: the paddles at x = -3.7 and 3.7, the walls at y = -3.2
        and 3.2, the ball at the origin, nothing moving. */
    constructor ()
      ensures leftPaddle == Paddle(Vec3(-3.7, 0.0, 0.0), 0.0)
      ensures rightPaddle == Paddle(Vec3(3.7, 0.0, 0.0), 0.0)
      ensures topWall == Wall(Vec3(0.0, -3.2, 0.0)) && bottomWall == Wall(Vec3(0.0, 3.2, 0.0))
      ensures ball == BallState(ZERO3, Vec2(0.0, 0.0))
    {
      leftPaddle := Paddle(Vec3(-3.7, 0.0, 0.0), 0.0);
      rightPaddle := Paddle(Vec3(3.7, 0.0, 0.0), 0.0);
      topWall := Wall(Vec3(0.0, -3.2, 0.0));
      bottomWall := Wall(Vec3(0.0, 3.2, 0.0));
      ball := BallState(ZERO3, Vec2(0.0, 0.0));
    }

    /** Where an entity currently is. */
    function PositionOf(e: Entity): Vec3
      reads this
    {
      match e
      case LeftPaddle => leftPaddle.position
      case RightPaddle => rightPaddle.position
      case TopWall => topWall.position
      case BottomWall => bottomWall.position
      case Ball => ball.position
    }

    /** `get_model_transforms`: one transform per entity, in draw order. */
    function ModelTransforms(): (r: seq<Mat4>)
      reads this
      ensures |r| == |DRAW_ORDER|
      ensures forall i :: 0 <= i < |r| ==> r[i] == ModelTransform(PositionOf(DRAW_ORDER[i]))
    {
      [ModelTransform(leftPaddle.position), ModelTransform(rightPaddle.position),
       ModelTransform(topWall.position), ModelTransform(bottomWall.position),
       ModelTransform(ball.position)]
    }

    /** `get_model_data`: each entity's mesh with its transform, in draw order. */
    function ModelDataList(): (r: seq<ModelData>)
      reads this
      ensures |r| == |DRAW_ORDER|
      ensures forall i :: 0 <= i < |r| ==> r[i].owner == DRAW_ORDER[i]
    {
      seq(|DRAW_ORDER|, i requires 0 <= i < |DRAW_ORDER| reads this =>
        ModelData(DRAW_ORDER[i], ModelTransform(PositionOf(DRAW_ORDER[i]))))
    }

    /** `get_model_data` and `get_model_transforms` agree entry by entry, so
        the i-th uniform buffer written from the transforms belongs to the
        i-th mesh. */
    lemma ModelDataMatchesTransforms()
      ensures |ModelDataList()| == |ModelTransforms()|
      ensures forall i :: 0 <= i < |ModelDataList()| ==> ModelDataList()[i].transform == ModelTransforms()[i]
    {
    }

    /** `game_over`: the ball has crossed either goal line. */
    predicate IsGameOver(): (r: bool)
      reads this
      ensures r <==> Abs(ball.position.x) > GOAL_LINE
    {
      ball.position.x > GOAL_LINE || ball.position.x < -GOAL_LINE
    }

    /** `update`: each paddle moves by `deltaTime` times its speed and is
        clamped to [-2, 2]; the ball moves by `deltaTime` times its velocity
        with no bound. */
    method Update(deltaTime: real)
      modifies this`leftPaddle, this`rightPaddle, this`ball
      ensures -PADDLE_LIMIT <= leftPaddle.position.y <= PADDLE_LIMIT
      ensures -PADDLE_LIMIT <= rightPaddle.position.y <= PADDLE_LIMIT
      ensures leftPaddle == old(leftPaddle).(position := old(leftPaddle.position).(y :=
        Clamp(old(leftPaddle.position.y) + deltaTime * old(leftPaddle.velocity), -PADDLE_LIMIT, PADDLE_LIMIT)))
      ensures rightPaddle == old(rightPaddle).(position := old(rightPaddle.position).(y :=
        Clamp(old(rightPaddle.position.y) + deltaTime * old(rightPaddle.velocity), -PADDLE_LIMIT, PADDLE_LIMIT)))
      ensures ball.velocity == old(ball.velocity) && ball.position.z == old(ball.position.z)
      ensures ball.position.x == old(ball.position.x) + deltaTime * old(ball.velocity.x)
      ensures ball.position.y == old(ball.position.y) + deltaTime * old(ball.velocity.y)
      ensures old(ball.velocity) == Vec2(0.0, 0.0) ==> ball == old(ball)
    {
      leftPaddle := leftPaddle.(position := leftPaddle.position.(y :=
        Clamp(leftPaddle.position.y + deltaTime * leftPaddle.velocity, -PADDLE_LIMIT, PADDLE_LIMIT)));
      rightPaddle := rightPaddle.(position := rightPaddle.position.(y :=
        Clamp(rightPaddle.position.y + deltaTime * rightPaddle.velocity, -PADDLE_LIMIT, PADDLE_LIMIT)));
      ball := ball.(position := ball.position.(x := ball.position.x + deltaTime * ball.velocity.x));
      ball := ball.(position := ball.position.(y := ball.position.y + deltaTime * ball.velocity.y));
    }

    /** `handle_action`.  The two random draws of a kickoff are parameters:
        `kickoffSpeedY` from `gen_range(-0.3..0.3)` and `kickoffToLeft` from
        `rand::random()`; other actions ignore them. */
    method HandleAction(action: Action, kickoffSpeedY: real, kickoffToLeft: bool)
      requires action == Kickoff ==> -KICKOFF_SPREAD <= kickoffSpeedY < KICKOFF_SPREAD
      modifies this`leftPaddle, this`rightPaddle, this`ball
      // paddle actions set that paddle's speed and nothing else
      ensures action in {LeftPaddleUp, LeftPaddleDown, LeftPaddleStop} ==>
        && leftPaddle == old(leftPaddle).(velocity := PaddleVelocity(action))
        && rightPaddle == old(rightPaddle) && ball == old(ball)
      ensures action in {RightPaddleUp, RightPaddleDown, RightPaddleStop} ==>
        && rightPaddle == old(rightPaddle).(velocity := PaddleVelocity(action))
        && leftPaddle == old(leftPaddle) && ball == old(ball)
      // a kickoff sends the ball sideways at unit speed with a small random slope
      ensures action == Kickoff ==>
        && ball.position == old(ball.position)
        && ball.velocity == Vec2(if kickoffToLeft then -1.0 else 1.0, kickoffSpeedY)
        && Abs(ball.velocity.x) == 1.0 && Abs(ball.velocity.y) <= KICKOFF_SPREAD
        && leftPaddle == old(leftPaddle) && rightPaddle == old(rightPaddle)
      // game over stops everything where it is
      ensures action == GameOver ==>
        && ball == old(ball).(velocity := Vec2(0.0, 0.0))
        && leftPaddle == old(leftPaddle).(velocity := 0.0)
        && rightPaddle == old(rightPaddle).(velocity := 0.0)
      // a reset puts the ball and both paddles back on the centre line, keeping speeds
      ensures action == ResetGame ==>
        && ball == old(ball).(position := old(ball.position).(x := 0.0, y := 0.0))
        && leftPaddle == old(leftPaddle).(position := old(leftPaddle.position).(y := 0.0))
        && rightPaddle == old(rightPaddle).(position := old(rightPaddle.position).(y := 0.0))
        && !IsGameOver()
    {
      match action
      case LeftPaddleUp => leftPaddle := leftPaddle.(velocity := -2.0);
      case LeftPaddleDown => leftPaddle := leftPaddle.(velocity := 2.0);
      case LeftPaddleStop => leftPaddle := leftPaddle.(velocity := 0.0);
      case RightPaddleUp => rightPaddle := rightPaddle.(velocity := -2.0);
      case RightPaddleDown => rightPaddle := rightPaddle.(velocity := 2.0);
      case RightPaddleStop => rightPaddle := rightPaddle.(velocity := 0.0);
      case Kickoff =>
        ball := ball.(velocity := Vec2(1.0, 0.0));
        ball := ball.(velocity := ball.velocity.(y := kickoffSpeedY));
        if kickoffToLeft {
          ball := ball.(velocity := ball.velocity.(x := ball.velocity.x * -1.0));
        }
      case GameOver =>
        ball := ball.(velocity := Vec2(0.0, 0.0));
        leftPaddle := leftPaddle.(velocity := 0.0);
        rightPaddle := rightPaddle.(velocity := 0.0);
      case ResetGame =>
        ball := ball.(position := ball.position.(x := 0.0));
        ball := ball.(position := ball.position.(y := 0.0));
        leftPaddle := leftPaddle.(position := leftPaddle.position.(y := 0.0));
        rightPaddle := rightPaddle.(position := rightPaddle.position.(y := 0.0));
    }
  }

  /** The speed a paddle action gives its paddle: up the screen, down the
      screen, or still. */
  function PaddleVelocity(action: Action): (v: real)
    ensures action in {LeftPaddleUp, RightPaddleUp} ==> v == -PADDLE_SPEED
    ensures action in {LeftPaddleDown, RightPaddleDown} ==> v == PADDLE_SPEED
    ensures action in {LeftPaddleStop, RightPaddleStop} ==> v == 0.0
  {
    match action
    case LeftPaddleUp | RightPaddleUp => -PADDLE_SPEED
    case LeftPaddleDown | RightPaddleDown => PADDLE_SPEED
    case _ => 0.0
  }
}
