/** The game manager's state: the player's fuel, lives and speed, the
    camera settings, the score and the terminal game-over flag, together
    with the player object's body and the table of game objects. */
module Game {
  import opened Vectors
  import opened GameObjects

  /** Tuning constants of the game. Their values are defined outside the
      modelled files, so they are parameters here. */
  datatype Tuning = Tuning(
    fuelFlow: real,
    maxFuel: real,
    fuelLoss: real,
    fuelGain: real,
    maxLives: int,
    minSpeed: real,
    maxSpeed: real,
    speedStep: real,
    forcedSpeedTime: real,
    lateralSpeed: real,
    startZ: real)
  {
    /** The assumptions the game's rules rely on. */
    predicate Valid()
    {
      minSpeed <= maxSpeed && maxLives >= 0 && speedStep >= 0.0
    }
  }

  datatype PlayerState = PlayerState(
    fuel: real,
    lives: int,
    playerSpeed: real,
    oldPlayerSpeed: real,
    isFullSpeed: bool,
    forcedSpeedStart: real)

  datatype CameraSettings = CameraSettings(cameraMode: bool, cameraRotation: Vec2)

  /** `gameOver` stands for the call to `GameOver()`, which ends the process. */
  datatype GameState = GameState(
    playerState: PlayerState,
    cameraSettings: CameraSettings,
    points: real,
    gameOver: bool)

  /** The player object (object 0): its rigid-body position and velocity, and its jump flag. */
  datatype PlayerBody = PlayerBody(position: Vec3, velocity: Vec3, isInJump: bool)

  /** Everything the manager's handlers read or write. */
  datatype Manager = Manager(
    gameState: GameState,
    player: PlayerBody,
    gameObjects: map<int, GameObject>)

  /** Limits of the camera rotation set by the mouse. */
  const XLimit: real := 0.275
  const YLimit: real := 0.5

  predicate InRotationBox(r: Vec2)
  {
    -XLimit <= r.x <= XLimit && -YLimit <= r.y <= YLimit
  }

  /** The speed range, the boost's saved speed, the lives cap and the
      rotation box: the bounds every handler keeps. */
  predicate Inv(m: Manager, t: Tuning)
  {
    var p := m.gameState.playerState;
    && t.minSpeed <= p.playerSpeed <= t.maxSpeed
    && (p.isFullSpeed ==> t.minSpeed <= p.oldPlayerSpeed <= t.maxSpeed)
    && p.lives <= t.maxLives
    && InRotationBox(m.gameState.cameraSettings.cameraRotation)
  }
}
