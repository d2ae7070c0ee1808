/** `GameManager::UpdateGameState`: one frame of player motion, score,
    fuel consumption, lives and boost expiry. The clock reading and the
    held keys are parameters. */
module GameTick {
  import opened Game

  /** `UpdatePlayer`: the player moves forward (towards -z) by the current
      speed; a held A, or else a held D, sets the lateral velocity. */
  function UpdatePlayer(b: PlayerBody, speed: real, keyA: bool, keyD: bool, t: Tuning): (r: PlayerBody)
    ensures r.position.z == b.position.z - speed
    ensures r.position.x == b.position.x && r.position.y == b.position.y
    ensures r.isInJump == b.isInJump
    ensures r.velocity.y == b.velocity.y && r.velocity.z == b.velocity.z
    ensures keyA ==> r.velocity.x == -t.lateralSpeed
    ensures !keyA && keyD ==> r.velocity.x == t.lateralSpeed
    ensures !keyA && !keyD ==> r.velocity == b.velocity
  {
    var moved := b.(position := b.position.(z := b.position.z - speed));
    if keyA then moved.(velocity := moved.velocity.(x := -t.lateralSpeed))
    else if keyD then moved.(velocity := moved.velocity.(x := t.lateralSpeed))
    else moved
  }

  /** `ComputeScore`: the distance the player has travelled along z from its start. */
  function ComputeScore(b: PlayerBody, t: Tuning): (points: real)
    ensures points >= 0.0
    ensures points == b.position.z - t.startZ || points == t.startZ - b.position.z
    ensures points == 0.0 <==> b.position.z == t.startZ
  {
    if b.position.z - t.startZ >= 0.0 then b.position.z - t.startZ else t.startZ - b.position.z
  }

  /** Moving forward from at or past the start line raises the score by exactly the speed. */
  lemma ScoreGrowsWithForwardMotion(b: PlayerBody, speed: real, keyA: bool, keyD: bool, t: Tuning)
    requires b.position.z <= t.startZ && speed >= 0.0
    ensures ComputeScore(UpdatePlayer(b, speed, keyA, keyD, t), t) == ComputeScore(b, t) + speed
  {
  }

  /** The fuel part of a tick: fuel burns at `fuelFlow` per second; running
      dry costs exactly one life, and refills the tank only if a life is left. */
  function FuelTick(p: PlayerState, dt: real, t: Tuning): (r: PlayerState)
    ensures r.lives == p.lives || r.lives == p.lives - 1
    ensures r.lives == p.lives - 1 <==> p.fuel - dt * t.fuelFlow <= 0.0
    ensures r.lives == p.lives ==> r.fuel == p.fuel - dt * t.fuelFlow
    ensures r.lives < p.lives && r.lives > 0 ==> r.fuel == t.maxFuel
    ensures r.lives < p.lives && r.lives <= 0 ==> r.fuel == p.fuel - dt * t.fuelFlow
    ensures r.lives == p.lives || (t.maxFuel > 0.0 && r.lives > 0) ==> r.fuel > 0.0
    ensures r == p.(fuel := r.fuel, lives := r.lives)
  {
    var burnt := p.fuel - dt * t.fuelFlow;
    if burnt <= 0.0 then
      var lives := p.lives - 1;
      p.(fuel := if lives > 0 then t.maxFuel else burnt, lives := lives)
    else
      p.(fuel := burnt)
  }

  /** The boost check: once `forcedSpeedTime` has passed since the boost
      started, full speed ends and the saved speed comes back. */
  function BoostExpiry(p: PlayerState, now: real, t: Tuning): (r: PlayerState)
    ensures r.isFullSpeed <==> p.isFullSpeed && now - p.forcedSpeedStart < t.forcedSpeedTime
    ensures p.isFullSpeed && !r.isFullSpeed ==> r.playerSpeed == p.oldPlayerSpeed
    ensures r.isFullSpeed == p.isFullSpeed ==> r == p
    ensures r == p.(isFullSpeed := r.isFullSpeed, playerSpeed := r.playerSpeed)
  {
    if p.isFullSpeed && now - p.forcedSpeedStart >= t.forcedSpeedTime then
      p.(isFullSpeed := false, playerSpeed := p.oldPlayerSpeed)
    else
      p
  }

  /** `UpdateGameState(dt)` at clock reading `now` with keys A and D held or
      not. The camera update (camera placement, the field of view mapped from
      the speed, the projection and the player's rendering flag) is not part
      of this model; README lists it under "Left out". When no life is left
      the game ends at once and the boost check is not reached. */
  function UpdateGameState(m: Manager, dt: real, now: real, keyA: bool, keyD: bool, t: Tuning): (r: Manager)
    ensures r.gameObjects == m.gameObjects
    ensures r.gameState.cameraSettings == m.gameState.cameraSettings
    ensures r.player.position.z == m.player.position.z - m.gameState.playerState.playerSpeed
    ensures r.gameState.points == ComputeScore(r.player, t)
    ensures r.gameState.gameOver <==> m.gameState.gameOver || r.gameState.playerState.lives <= 0
    ensures r.gameState.playerState.lives <= m.gameState.playerState.lives
    ensures r.gameState.playerState.lives >= m.gameState.playerState.lives - 1
    ensures t.maxFuel > 0.0 && !r.gameState.gameOver ==> r.gameState.playerState.fuel > 0.0
  {
    var body := UpdatePlayer(m.player, m.gameState.playerState.playerSpeed, keyA, keyD, t);
    var points := ComputeScore(body, t);
    var p := FuelTick(m.gameState.playerState, dt, t);
    if p.lives <= 0 then
      m.(player := body, gameState := m.gameState.(playerState := p, points := points, gameOver := true))
    else
      m.(player := body, gameState := m.gameState.(playerState := BoostExpiry(p, now, t), points := points))
  }

  /** A tick keeps the speed range, the saved boost speed, the lives cap and the rotation box. */
  lemma UpdateGameStateKeepsInv(m: Manager, dt: real, now: real, keyA: bool, keyD: bool, t: Tuning)
    requires t.Valid() && Inv(m, t)
    ensures Inv(UpdateGameState(m, dt, now, keyA, keyD, t), t)
  {
  }

  /** While the boost lasts a tick keeps full speed; once it has run out the
      tick restores the saved speed, unless the same tick ended the game. */
  lemma BoostTiming(m: Manager, dt: real, now: real, keyA: bool, keyD: bool, t: Tuning)
    requires m.gameState.playerState.isFullSpeed
    ensures var r := UpdateGameState(m, dt, now, keyA, keyD, t);
      var p := m.gameState.playerState;
      && (now - p.forcedSpeedStart < t.forcedSpeedTime ==>
            r.gameState.playerState.isFullSpeed && r.gameState.playerState.playerSpeed == p.playerSpeed)
      && (now - p.forcedSpeedStart >= t.forcedSpeedTime && !r.gameState.gameOver ==>
            !r.gameState.playerState.isFullSpeed && r.gameState.playerState.playerSpeed == p.oldPlayerSpeed)
  {
  }
}
