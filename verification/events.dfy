/** The manager as a state machine over the events the frame loop and the
    window deliver. `GameOver()` ends the process, so once the game-over
    flag is set no further event has any effect. */
module Events {
  import opened Game
  import opened CollisionResponse
  import opened GameTick
  import opened Input
  import opened GameObjects

  datatype Event =
    | Tick(dt: real, now: real, keyA: bool, keyD: bool)
    | Collided(ids: seq<int>, now: real)
    | KeyPress(key: Key)
    | MouseMove(deltaX: int, deltaY: int, rightHeld: bool)

  /** Deliver one event to a running game. */
  function Handle(m: Manager, e: Event, t: Tuning): (r: Manager)
    ensures m.gameState.gameOver ==> r == m
    ensures e.MouseMove? || e.KeyPress? ==> r.gameState.gameOver == m.gameState.gameOver
  {
    if m.gameState.gameOver then m
    else
      match e
      case Tick(dt, now, keyA, keyD) => UpdateGameState(m, dt, now, keyA, keyD, t)
      case Collided(ids, now) => CheckCollisions(m, ids, now, t)
      case KeyPress(key) => OnKeyPress(m, key, t)
      case MouseMove(deltaX, deltaY, rightHeld) => OnMouseMove(m, deltaX, deltaY, rightHeld)
  }

  /** Deliver a sequence of events in order. */
  function Run(m: Manager, events: seq<Event>, t: Tuning): Manager
    decreases |events|
  {
    if |events| == 0 then m else Run(Handle(m, events[0], t), events[1..], t)
  }

  lemma HandleKeepsInv(m: Manager, e: Event, t: Tuning)
    requires t.Valid() && Inv(m, t)
    ensures Inv(Handle(m, e, t), t)
  {
    if !m.gameState.gameOver {
      match e
      case Tick(dt, now, keyA, keyD) => UpdateGameStateKeepsInv(m, dt, now, keyA, keyD, t);
      case Collided(ids, now) => CheckCollisionsKeepsInv(m, ids, now, t);
      case KeyPress(key) => OnKeyPressKeepsInv(m, key, t);
      case MouseMove(_, _, _) =>
    }
  }

  /** Every run of the game keeps the speed within range, the lives within
      the cap and the camera rotation within its box. */
  lemma {:induction false} RunKeepsInv(m: Manager, events: seq<Event>, t: Tuning)
    requires t.Valid() && Inv(m, t)
    ensures Inv(Run(m, events, t), t)
    decreases |events|
  {
    if |events| > 0 {
      HandleKeepsInv(m, events[0], t);
      RunKeepsInv(Handle(m, events[0], t), events[1..], t);
    }
  }

  /** Game over is final: nothing happens after it. */
  lemma {:induction false} GameOverIsFinal(m: Manager, events: seq<Event>, t: Tuning)
    requires m.gameState.gameOver
    ensures Run(m, events, t) == m
    decreases |events|
  {
    if |events| > 0 {
      GameOverIsFinal(Handle(m, events[0], t), events[1..], t);
    }
  }

  /** The orange boost lifecycle: a hit saves the speed and forces the
      maximum; a tick before `forcedSpeedTime` has elapsed keeps it, and a
      tick after restores the saved speed, unless that tick ends the game. */
  lemma BoostLifecycle(m: Manager, id: int, hitAt: real, dt: real, now: real, keyA: bool, keyD: bool, t: Tuning)
    requires !m.gameState.gameOver && !m.gameState.playerState.isFullSpeed
    requires TypeAt(m.gameObjects, id) == "platform_orange"
    ensures var boosted := Handle(m, Collided([id], hitAt), t);
      var r := Handle(boosted, Tick(dt, now, keyA, keyD), t);
      && boosted.gameState.playerState.isFullSpeed
      && boosted.gameState.playerState.playerSpeed == t.maxSpeed
      && boosted.gameState.playerState.oldPlayerSpeed == m.gameState.playerState.playerSpeed
      && (now - hitAt < t.forcedSpeedTime ==>
            r.gameState.playerState.isFullSpeed && r.gameState.playerState.playerSpeed == t.maxSpeed)
      && (now - hitAt >= t.forcedSpeedTime && !r.gameState.gameOver ==>
            !r.gameState.playerState.isFullSpeed
            && r.gameState.playerState.playerSpeed == m.gameState.playerState.playerSpeed)
  {
    SingleHit(m, id, hitAt, t);
    assert PlatformColour("platform_orange") == "orange";
    var boosted := Handle(m, Collided([id], hitAt), t);
    assert !boosted.gameState.gameOver;
    BoostTiming(boosted, dt, now, keyA, keyD, t);
  }
}
