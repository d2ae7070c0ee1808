/** The key and mouse handlers: the speed keys with clamping, the camera
    toggle, the jump guard and the clamped camera rotation. */
module Input {
  import opened Vectors
  import opened Game

  /** The keys `OnKeyPress` distinguishes; every other key is `OtherKey`. */
  datatype Key = KeyC | KeyW | KeyS | KeySpace | OtherKey

  /** The speed after a key press: W steps up and S steps down, each clamped
      to its own end of the range, and neither acts during a boost. */
  function SpeedAfterKey(p: PlayerState, key: Key, t: Tuning): real
  {
    if key.KeyW? && !p.isFullSpeed then
      (if p.playerSpeed + t.speedStep > t.maxSpeed then t.maxSpeed else p.playerSpeed + t.speedStep)
    else if key.KeyS? && !p.isFullSpeed then
      (if p.playerSpeed - t.speedStep < t.minSpeed then t.minSpeed else p.playerSpeed - t.speedStep)
    else
      p.playerSpeed
  }

  /** Vertical velocity a jump starts with. */
  const JumpVelocity: real := 2.0

  /** `OnKeyPress(key)`. */
  function OnKeyPress(m: Manager, key: Key, t: Tuning): (r: Manager)
    ensures r.gameObjects == m.gameObjects
    ensures r.gameState.points == m.gameState.points && r.gameState.gameOver == m.gameState.gameOver
    ensures var p := m.gameState.playerState;
      r.gameState.playerState == p.(playerSpeed := r.gameState.playerState.playerSpeed)
    // speed keys
    ensures var p := m.gameState.playerState; var s := r.gameState.playerState.playerSpeed;
      && (p.isFullSpeed || !(key.KeyW? || key.KeyS?) ==> s == p.playerSpeed)
      && (key.KeyW? && !p.isFullSpeed ==>
            s <= t.maxSpeed && (p.playerSpeed + t.speedStep <= t.maxSpeed ==> s == p.playerSpeed + t.speedStep))
      && (key.KeyS? && !p.isFullSpeed ==>
            s >= t.minSpeed && (p.playerSpeed - t.speedStep >= t.minSpeed ==> s == p.playerSpeed - t.speedStep))
      && (key.KeyW? && !p.isFullSpeed && p.playerSpeed + t.speedStep > t.maxSpeed ==> s == t.maxSpeed)
      && (key.KeyS? && !p.isFullSpeed && p.playerSpeed - t.speedStep < t.minSpeed ==> s == t.minSpeed)
    ensures t.Valid() && t.minSpeed <= m.gameState.playerState.playerSpeed <= t.maxSpeed ==>
              t.minSpeed <= r.gameState.playerState.playerSpeed <= t.maxSpeed
    // camera key
    ensures key.KeyC? ==> r.gameState.cameraSettings.cameraMode == !m.gameState.cameraSettings.cameraMode
                          && r.gameState.cameraSettings.cameraRotation == Zero2
    ensures !key.KeyC? ==> r.gameState.cameraSettings == m.gameState.cameraSettings
    // jump key
    ensures key.KeySpace? && !m.player.isInJump ==>
              r.player == m.player.(isInJump := true, velocity := m.player.velocity.(y := JumpVelocity))
    ensures !key.KeySpace? || m.player.isInJump ==> r.player == m.player
  {
    var p := m.gameState.playerState;
    var camera := m.gameState.cameraSettings;
    var newCamera := if key.KeyC? then CameraSettings(!camera.cameraMode, Zero2) else camera;
    var body :=
      if key.KeySpace? && !m.player.isInJump then
        m.player.(isInJump := true, velocity := m.player.velocity.(y := JumpVelocity))
      else m.player;
    m.(gameState := m.gameState.(playerState := p.(playerSpeed := SpeedAfterKey(p, key, t)),
                                 cameraSettings := newCamera),
       player := body)
  }

  /** Pressing C twice returns to the original camera mode with the rotation reset. */
  lemma CameraToggleTwice(m: Manager, t: Tuning)
    ensures var r := OnKeyPress(OnKeyPress(m, KeyC, t), KeyC, t);
      r.gameState.cameraSettings == m.gameState.cameraSettings.(cameraRotation := Zero2)
  {
  }

  /** W then S, away from the ends of the range and outside a boost, comes back to the same speed. */
  lemma SpeedUpThenDown(m: Manager, t: Tuning)
    requires !m.gameState.playerState.isFullSpeed
    requires m.gameState.playerState.playerSpeed + t.speedStep <= t.maxSpeed
    requires m.gameState.playerState.playerSpeed >= t.minSpeed
    ensures OnKeyPress(OnKeyPress(m, KeyW, t), KeyS, t).gameState.playerState
         == m.gameState.playerState
  {
  }

  /** A key press keeps the speed range, the saved boost speed, the lives
      cap and the rotation box. */
  lemma OnKeyPressKeepsInv(m: Manager, key: Key, t: Tuning)
    requires t.Valid() && Inv(m, t)
    ensures Inv(OnKeyPress(m, key, t), t)
  {
  }

  /** Mouse sensitivity on both axes. */
  const Sensitivity: real := 0.001

  /** Clamp to [-limit, limit], upper bound first as the handler does. */
  function Clamp(v: real, limit: real): real
  {
    var upper := if v > limit then limit else v;
    if upper < -limit then -limit else upper
  }

  /** The rotation the mouse motion asks for before clamping: vertical motion
      turns about x, horizontal motion about y. */
  function RawRotation(r: Vec2, deltaX: int, deltaY: int): Vec2
  {
    Vec2(r.x + -Sensitivity * deltaY as real, r.y + -Sensitivity * deltaX as real)
  }

  /** `OnMouseMove`: with the right button held, the rotation moves by the
      mouse motion and is clamped to the rotation box; otherwise nothing changes. */
  function OnMouseMove(m: Manager, deltaX: int, deltaY: int, rightHeld: bool): (r: Manager)
    ensures !rightHeld ==> r == m
    ensures r == m.(gameState := m.gameState.(cameraSettings :=
                 m.gameState.cameraSettings.(cameraRotation := r.gameState.cameraSettings.cameraRotation)))
    ensures rightHeld ==> InRotationBox(r.gameState.cameraSettings.cameraRotation)
    ensures var raw := RawRotation(m.gameState.cameraSettings.cameraRotation, deltaX, deltaY);
      var rot := r.gameState.cameraSettings.cameraRotation;
      && (rightHeld && -XLimit <= raw.x <= XLimit ==> rot.x == raw.x)
      && (rightHeld && -YLimit <= raw.y <= YLimit ==> rot.y == raw.y)
      && (rightHeld && raw.x > XLimit ==> rot.x == XLimit)
      && (rightHeld && raw.x < -XLimit ==> rot.x == -XLimit)
      && (rightHeld && raw.y > YLimit ==> rot.y == YLimit)
      && (rightHeld && raw.y < -YLimit ==> rot.y == -YLimit)
  {
    if rightHeld then
      var raw := RawRotation(m.gameState.cameraSettings.cameraRotation, deltaX, deltaY);
      var rotation := Vec2(Clamp(raw.x, XLimit), Clamp(raw.y, YLimit));
      m.(gameState := m.gameState.(cameraSettings := m.gameState.cameraSettings.(cameraRotation := rotation)))
    else
      m
  }

  /** A zero motion leaves a rotation inside the box where it is. */
  lemma MouseStillIsIdentity(m: Manager)
    requires InRotationBox(m.gameState.cameraSettings.cameraRotation)
    ensures OnMouseMove(m, 0, 0, true) == m
  {
  }

  /** Clamping is idempotent: a second motion of zero leaves the rotation where the first put it. */
  lemma MouseClampIdempotent(m: Manager, deltaX: int, deltaY: int)
    ensures OnMouseMove(OnMouseMove(m, deltaX, deltaY, true), 0, 0, true) == OnMouseMove(m, deltaX, deltaY, true)
  {
  }
}
