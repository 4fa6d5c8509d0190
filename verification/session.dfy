/** The session state machine of src/pages/ShootingGame.tsx: the React
    state cells of the game component as the fields of one object, and the
    handlers that update them as methods.

    A run goes Idle (`!isPlaying && !failScreen`) -> Running (`isPlaying`)
    -> Ended (`failScreen`) -> Running again on restart. The driver calls
    `Tick` once per animation frame, `Shoot` on every click with the two
    bounding boxes it measured (`None` when an element is not mounted), and
    `UpdateHighScore` after every change of the score, as the component's
    effect does. */
module Session {
  import opened Geometry
  import opened Motion
  import opened HitTest

  datatype Option<T> = None | Some(value: T)

  const TooFarMessage: string := "СЛИШКОМ ДАЛЕКО"
  const ImpreciseMessage: string := "НЕТОЧНОЕ ПОПАДАНИЕ"

  /** The text shown on the fail screen for each kind of miss. */
  function FailMessage(reason: MissReason): string
  {
    match reason
    case TooFar => TooFarMessage
    case Imprecise => ImpreciseMessage
  }

  /** The running maximum kept by the high-score effect. */
  function HighWater(highScore: int, score: int): (r: int)
    ensures r >= highScore && r >= score
    ensures r == highScore || r == score
  {
    if score > highScore then score else highScore
  }

  class Game {
    var isPlaying: bool
    var failScreen: bool
    var score: nat
    var highScore: nat
    var failMessage: string
    var cube: Cube

    /** The cube is inside the walls, not faster than the cap, within one
        revolution, and the fail screen only shows once a run has ended. */
    ghost predicate Valid()
      reads this
    {
      InField(cube) && cube.speed <= MaxSpeed && 0 <= cube.rotation < FullTurn &&
      (failScreen ==> !isPlaying)
    }

    /** The component's initial state: idle, score 0, the high score read
        back from storage, a cube at a random spot at the initial speed. */
    constructor (savedHighScore: nat, d: SpawnDraws)
      requires ValidSpawn(d)
      ensures Valid()
      ensures !isPlaying && !failScreen && score == 0 && failMessage == ""
      ensures highScore == savedHighScore
      ensures cube == Spawn(d, InitialSpeed)
    {
      isPlaying := false;
      score := 0;
      failScreen := false;
      failMessage := "";
      highScore := savedHighScore;
      cube := Spawn(d, InitialSpeed);
    }

    /** Starts (or restarts) a run: the fail screen goes, the score is
        reset, and a fresh cube appears at the start speed. The high score
        and the last fail message are kept. */
    method Start(d: SpawnDraws)
      requires ValidSpawn(d)
      modifies this
      ensures Valid()
      ensures isPlaying && !failScreen && score == 0
      ensures cube == Spawn(d, StartSpeed)
      ensures highScore == old(highScore) && failMessage == old(failMessage)
    {
      failScreen := false;
      score := 0;
      isPlaying := true;
      cube := Spawn(d, StartSpeed);
    }

    /** One animation frame: while a run is going the cube takes one step;
        otherwise nothing happens. Only the cube ever changes. */
    method Tick(f: Frame, normalize: Vec -> Vec)
      requires Valid()
      modifies this
      ensures Valid()
      ensures cube == if old(isPlaying) then Step(old(cube), old(score), f, normalize) else old(cube)
      ensures old(cube).speed <= cube.speed
      ensures isPlaying == old(isPlaying) && failScreen == old(failScreen) && score == old(score)
      ensures highScore == old(highScore) && failMessage == old(failMessage)
    {
      if isPlaying {
        cube := Step(cube, score, f, normalize);
      }
    }

    /** A click. Ignored unless a run is going and both boxes could be
        measured. A hit scores one and teleports the cube (using the draws
        `rx`, `ry`) with a speed bump; a miss ends the run with a message
        saying how far off it was, and leaves score and cube as they were. */
    method Shoot(crosshair: Option<Box>, target: Option<Box>, rx: real, ry: real)
      requires Valid() && IsDraw(rx) && IsDraw(ry)
      modifies this
      ensures Valid()
      ensures highScore == old(highScore)
      ensures !old(isPlaying) || old(failScreen) || crosshair.None? || target.None? ==>
        isPlaying == old(isPlaying) && failScreen == old(failScreen) && score == old(score) &&
        failMessage == old(failMessage) && cube == old(cube)
      ensures old(isPlaying) && !old(failScreen) && crosshair.Some? && target.Some? ==>
        match Resolve(crosshair.value, target.value)
        case Hit =>
          score == old(score) + 1 && isPlaying && !failScreen &&
          cube == Relocate(old(cube), rx, ry) && failMessage == old(failMessage)
        case Miss(reason) =>
          !isPlaying && failScreen && score == old(score) &&
          cube == old(cube) && failMessage == FailMessage(reason)
    {
      if !isPlaying || failScreen {
        return;
      }
      if crosshair.None? || target.None? {
        return;
      }
      match Resolve(crosshair.value, target.value)
      case Hit =>
        score := score + 1;
        cube := Relocate(cube, rx, ry);
      case Miss(reason) =>
        failMessage := FailMessage(reason);
        isPlaying := false;
        failScreen := true;
    }

    /** The high-score effect: raise the high score to the score when the
        score has passed it. */
    method UpdateHighScore()
      requires Valid()
      modifies this
      ensures Valid()
      ensures highScore == HighWater(old(highScore), score)
      ensures highScore >= score && highScore >= old(highScore)
      ensures isPlaying == old(isPlaying) && failScreen == old(failScreen) && score == old(score)
      ensures failMessage == old(failMessage) && cube == old(cube)
    {
      if score > highScore {
        highScore := score;
      }
    }
  }

  /** A client of the session: five hits in a row, then a shot with the
      cube far away, then a restart. What it asserts follows from the
      contracts above alone. */
  method FiveHitsThenMiss(saved: nat, d: SpawnDraws)
    requires ValidSpawn(d)
  {
    var game := new Game(saved, d);
    game.Start(d);
    var crosshair := Box(0.0, 0.0, 100.0, 100.0);
    var near := Box(40.0, 40.0, 44.0, 44.0);
    SampleHit();
    var i := 0;
    while i < 5
      invariant 0 <= i <= 5
      invariant game.Valid() && game.isPlaying && !game.failScreen
      invariant game.score == i && game.highScore >= i
    {
      game.Shoot(Some(crosshair), Some(near), 0.5, 0.5);
      game.UpdateHighScore();
      i := i + 1;
    }
    var farCrosshair := Box(-50.0, -50.0, 100.0, 100.0);
    var far := Box(478.0, 478.0, 44.0, 44.0);
    SampleMiss();
    game.Shoot(Some(farCrosshair), Some(far), 0.5, 0.5);
    game.UpdateHighScore();
    assert !game.isPlaying && game.failScreen && game.score == 5;
    assert game.failMessage == TooFarMessage && game.highScore >= 5;
    var best := game.highScore;
    game.Start(d);
    assert game.isPlaying && game.score == 0 && game.highScore == best;
  }
}
