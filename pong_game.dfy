/** The game loop of `main.rs`: the game phase, the mapping from key events
    to actions, and the game-over step of a redraw. */
module PongGame {
  import opened Wrappers
  import SceneModel

  /** `GamePhase`. */
  datatype GamePhase = Start | Playing | End

  /** The keys the game looks at; every other `VirtualKeyCode` is `Other`. */
  datatype Key = Escape | Space | W | S | I | K | Other(code: nat)

  datatype ElementState = Pressed | Released

  /** `PongRustActions`: quitting, or an action for the scene. */
  datatype PongAction = Quit | SceneAction(action: SceneModel.Action)

  /** The paddle action of a W, S, I or K event: pressing starts the paddle
      in that key's direction, releasing stops it. */
  function PaddleAction(key: Key, state: ElementState): (r: Option<SceneModel.Action>)
    ensures r.Some? <==> key in {W, S, I, K}
    ensures r.Some? && state == Released ==>
      r.value == (if key in {W, S} then SceneModel.LeftPaddleStop else SceneModel.RightPaddleStop)
    ensures r.Some? && state == Pressed ==> SceneModel.PaddleVelocity(r.value) != 0.0
    ensures r.Some? ==> (key in {W, S} <==> r.value in {SceneModel.LeftPaddleUp, SceneModel.LeftPaddleDown, SceneModel.LeftPaddleStop})
    ensures r.Some? && state == Pressed ==> (key in {W, I} <==> SceneModel.PaddleVelocity(r.value) < 0.0)
  {
    match (key, state)
    case (W, Pressed) => Some(SceneModel.LeftPaddleUp)
    case (W, Released) => Some(SceneModel.LeftPaddleStop)
    case (S, Pressed) => Some(SceneModel.LeftPaddleDown)
    case (S, Released) => Some(SceneModel.LeftPaddleStop)
    case (I, Pressed) => Some(SceneModel.RightPaddleUp)
    case (I, Released) => Some(SceneModel.RightPaddleStop)
    case (K, Pressed) => Some(SceneModel.RightPaddleDown)
    case (K, Released) => Some(SceneModel.RightPaddleStop)
    case _ => None
  }

  class PongRust {
    const scene: SceneModel.Scene
    var gamePhase: GamePhase

    /** The game as `main` sets it up: a new scene, in the start phase. */
    constructor ()
      ensures fresh(scene) && gamePhase == Start
      ensures scene.leftPaddle == SceneModel.Paddle(SceneModel.Vec3(-3.7, 0.0, 0.0), 0.0)
      ensures scene.rightPaddle == SceneModel.Paddle(SceneModel.Vec3(3.7, 0.0, 0.0), 0.0)
      ensures scene.topWall == SceneModel.Wall(SceneModel.Vec3(0.0, -3.2, 0.0))
      ensures scene.bottomWall == SceneModel.Wall(SceneModel.Vec3(0.0, 3.2, 0.0))
      ensures scene.ball == SceneModel.BallState(SceneModel.ZERO3, SceneModel.Vec2(0.0, 0.0))
    {
      scene := new SceneModel.Scene();
      gamePhase := Start;
    }

    /** `handle_keyboard_input`.  `key` is the event's `virtual_keycode`,
        which may be absent. */
    method HandleKeyboardInput(key: Option<Key>, state: ElementState) returns (r: Option<PongAction>)
      modifies this`gamePhase
      // Escape quits in every phase
      ensures key == Some(Escape) && state == Pressed ==> r == Some(Quit) && gamePhase == old(gamePhase)
      // Space: Start -> Playing with a kickoff, End -> Start with a reset, nothing while playing
      ensures key == Some(Space) && state == Pressed && old(gamePhase) == Start ==>
        r == Some(SceneAction(SceneModel.Kickoff)) && gamePhase == Playing
      ensures key == Some(Space) && state == Pressed && old(gamePhase) == Playing ==>
        r == None && gamePhase == Playing
      ensures key == Some(Space) && state == Pressed && old(gamePhase) == End ==>
        r == Some(SceneAction(SceneModel.ResetGame)) && gamePhase == Start
      // W, S, I and K steer the paddles whatever the phase
      ensures key.Some? && PaddleAction(key.value, state).Some? ==>
        r == Some(SceneAction(PaddleAction(key.value, state).value))
      // only a Space press changes the phase
      ensures !(key == Some(Space) && state == Pressed) ==> gamePhase == old(gamePhase)
      // nothing else yields an action
      ensures r.None? <==>
        && !(key == Some(Escape) && state == Pressed)
        && !(key == Some(Space) && state == Pressed && old(gamePhase) != Playing)
        && (key.None? || PaddleAction(key.value, state).None?)
      // a kickoff only ever starts a game, a reset only ever ends one
      ensures r == Some(SceneAction(SceneModel.Kickoff)) ==> old(gamePhase) == Start && gamePhase == Playing
      ensures r == Some(SceneAction(SceneModel.ResetGame)) ==> old(gamePhase) == End && gamePhase == Start
    {
      match (key, state)
      case (Some(Escape), Pressed) =>
        r := Some(Quit);
      case (Some(Space), Pressed) =>
        match gamePhase {
          case Start =>
            gamePhase := Playing;
            r := Some(SceneAction(SceneModel.Kickoff));
          case Playing =>
            r := None;
          case End =>
            gamePhase := Start;
            r := Some(SceneAction(SceneModel.ResetGame));
        }
      case (Some(W), Pressed) => r := Some(SceneAction(SceneModel.LeftPaddleUp));
      case (Some(W), Released) => r := Some(SceneAction(SceneModel.LeftPaddleStop));
      case (Some(S), Pressed) => r := Some(SceneAction(SceneModel.LeftPaddleDown));
      case (Some(S), Released) => r := Some(SceneAction(SceneModel.LeftPaddleStop));
      case (Some(I), Pressed) => r := Some(SceneAction(SceneModel.RightPaddleUp));
      case (Some(I), Released) => r := Some(SceneAction(SceneModel.RightPaddleStop));
      case (Some(K), Pressed) => r := Some(SceneAction(SceneModel.RightPaddleDown));
      case (Some(K), Released) => r := Some(SceneAction(SceneModel.RightPaddleStop));
      case _ => r := None;
    }

    /** The scene half of a redraw: when the ball has crossed a goal line the
        game is stopped and the phase becomes End, before the scene is
        advanced by `deltaTime`; the transforms for `draw_frame` are those of
        the advanced scene.  A stopped ball stays where it is, so the game
        stays over. */
    method Redraw(deltaTime: real) returns (transforms: seq<SceneModel.Mat4>)
      modifies this`gamePhase, scene`leftPaddle, scene`rightPaddle, scene`ball
      ensures old(scene.IsGameOver()) ==> gamePhase == End
      ensures !old(scene.IsGameOver()) ==> gamePhase == old(gamePhase)
      // game over: everything stops, then the update only clamps the paddles
      ensures old(scene.IsGameOver()) ==>
        && scene.ball == old(scene.ball).(velocity := SceneModel.Vec2(0.0, 0.0))
        && scene.leftPaddle == old(scene.leftPaddle).(velocity := 0.0, position := old(scene.leftPaddle.position).(y :=
             SceneModel.Clamp(old(scene.leftPaddle.position.y), -SceneModel.PADDLE_LIMIT, SceneModel.PADDLE_LIMIT)))
        && scene.rightPaddle == old(scene.rightPaddle).(velocity := 0.0, position := old(scene.rightPaddle.position).(y :=
             SceneModel.Clamp(old(scene.rightPaddle.position.y), -SceneModel.PADDLE_LIMIT, SceneModel.PADDLE_LIMIT)))
        && scene.IsGameOver()
      // otherwise: the update of the scene as it was
      ensures !old(scene.IsGameOver()) ==>
        && scene.ball == old(scene.ball).(position := old(scene.ball.position).(
             x := old(scene.ball.position.x) + deltaTime * old(scene.ball.velocity.x),
             y := old(scene.ball.position.y) + deltaTime * old(scene.ball.velocity.y)))
        && scene.leftPaddle == old(scene.leftPaddle).(position := old(scene.leftPaddle.position).(y :=
             SceneModel.Clamp(old(scene.leftPaddle.position.y) + deltaTime * old(scene.leftPaddle.velocity),
               -SceneModel.PADDLE_LIMIT, SceneModel.PADDLE_LIMIT)))
        && scene.rightPaddle == old(scene.rightPaddle).(position := old(scene.rightPaddle.position).(y :=
             SceneModel.Clamp(old(scene.rightPaddle.position.y) + deltaTime * old(scene.rightPaddle.velocity),
               -SceneModel.PADDLE_LIMIT, SceneModel.PADDLE_LIMIT)))
      ensures -SceneModel.PADDLE_LIMIT <= scene.leftPaddle.position.y <= SceneModel.PADDLE_LIMIT
      ensures -SceneModel.PADDLE_LIMIT <= scene.rightPaddle.position.y <= SceneModel.PADDLE_LIMIT
      ensures transforms == scene.ModelTransforms()
    {
      if scene.IsGameOver() {
        scene.HandleAction(SceneModel.GameOver, 0.0, false);
        gamePhase := End;
      }
      scene.Update(deltaTime);
      transforms := scene.ModelTransforms();
    }
  }
}
