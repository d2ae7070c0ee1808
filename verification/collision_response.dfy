/** `GameManager::CheckCollisions`: the response to the ids the player
    collided with, keyed on the platform colour in each object's type. */
module CollisionResponse {
  import opened GameObjects
  import opened Game

  /** `gameObjects[id].getType()`. An id with no entry reads as the empty
      type of a default-constructed object. */
  function TypeAt(objects: map<int, GameObject>, id: int): string
  {
    if id in objects then GetType(objects[id]) else ""
  }

  /** Effect of one platform colour on the player state; `now` is the clock
      reading. Red ends the game and is handled by the caller; a colour with
      no branch (purple, or any other word) has no effect. */
  function ColourEffect(p: PlayerState, colour: string, now: real, t: Tuning): PlayerState
  {
    if colour == "yellow" then p.(fuel := p.fuel - t.fuelLoss)
    else if colour == "orange" then
      p.(isFullSpeed := true, forcedSpeedStart := now, oldPlayerSpeed := p.playerSpeed, playerSpeed := t.maxSpeed)
    else if colour == "green" then p.(fuel := p.fuel + t.fuelGain)
    else if colour == "white" then
      (if p.lives < t.maxLives then p.(lives := p.lives + 1) else p)
    else p
  }

  /** One pass of the loop body on a platform that is not red: its colour
      takes effect and it is set to purple. */
  function Hit(m: Manager, id: int, now: real, t: Tuning): Manager
    requires IsPlatformType(TypeAt(m.gameObjects, id))
  {
    var p := ColourEffect(m.gameState.playerState, PlatformColour(TypeAt(m.gameObjects, id)), now, t);
    m.(gameState := m.gameState.(playerState := p),
       gameObjects := m.gameObjects[id := SetType(m.gameObjects[id], Purple)])
  }

  /** The loop over the collided ids. It stops at the first id that is not
      a platform and at the first red platform (game over); every other
      platform applies its colour and turns purple. */
  function Process(m: Manager, collided: seq<int>, now: real, t: Tuning): (r: Manager)
    ensures r.player == m.player
    ensures r.gameObjects.Keys == m.gameObjects.Keys
    ensures r.gameState.cameraSettings == m.gameState.cameraSettings
    ensures r.gameState.points == m.gameState.points
    ensures r.gameState.gameOver ==> m.gameState.gameOver || |collided| > 0
    decreases |collided|
  {
    if |collided| == 0 then m
    else
      var id := collided[0];
      var ty := TypeAt(m.gameObjects, id);
      if !IsPlatformType(ty) then m
      else if PlatformColour(ty) == "red" then m.(gameState := m.gameState.(gameOver := true))
      else Process(Hit(m, id, now, t), collided[1..], now, t)
  }

  /** `CheckCollisions(collided)` with the clock reading `now`. */
  function CheckCollisions(m: Manager, collided: seq<int>, now: real, t: Tuning): (r: Manager)
    ensures |collided| == 0 ==> r == m
    ensures r.player == m.player && r.gameObjects.Keys == m.gameObjects.Keys
    ensures r.gameState.cameraSettings == m.gameState.cameraSettings
  {
    if |collided| == 0 then m else Process(m, collided, now, t)
  }

  /** Every id is a platform that is not red: the loop runs through all of them. */
  predicate AllPass(objects: map<int, GameObject>, collided: seq<int>)
  {
    forall j :: 0 <= j < |collided| ==>
      IsPlatformType(TypeAt(objects, collided[j])) && PlatformColour(TypeAt(objects, collided[j])) != "red"
  }

  /** Early exit: an id whose object is not a platform ends the loop. Whatever
      the ids before it did is kept and the ids after it are never looked at. */
  lemma {:induction false} StopsAtNonPlatform(m: Manager, collided: seq<int>, k: int, now: real, t: Tuning)
    requires 0 <= k < |collided|
    requires !IsPlatformType(TypeAt(m.gameObjects, collided[k]))
    ensures Process(m, collided, now, t) == Process(m, collided[..k], now, t)
    decreases k
  {
    var id := collided[0];
    var ty := TypeAt(m.gameObjects, id);
    if k == 0 {
      assert collided[..k] == [];
    } else if !IsPlatformType(ty) || PlatformColour(ty) == "red" {
      assert collided[..k][0] == id;
    } else {
      assert collided[..k][0] == id;
      var next := Hit(m, id, now, t);
      assert collided[k] != id;
      assert TypeAt(next.gameObjects, collided[k]) == TypeAt(m.gameObjects, collided[k]);
      assert collided[1..][k - 1] == collided[k];
      StopsAtNonPlatform(next, collided[1..], k - 1, now, t);
      assert collided[..k][1..] == collided[1..][..k - 1];
    }
  }

  /** A red platform ends the game on the spot: nothing else changes, and
      the red platform keeps its type. */
  lemma RedEndsGame(m: Manager, id: int, rest: seq<int>, now: real, t: Tuning)
    requires TypeAt(m.gameObjects, id) == "platform_red"
    ensures CheckCollisions(m, [id] + rest, now, t) == m.(gameState := m.gameState.(gameOver := true))
  {
    assert PlatformColour("platform_red") == "red";
  }

  /** Colliding with a purple platform changes nothing: no colour branch
      matches, and it is set to the purple it already has. */
  lemma {:induction false} PurpleIsInert(m: Manager, id: int, rest: seq<int>, now: real, t: Tuning)
    requires TypeAt(m.gameObjects, id) == Purple
    ensures Process(m, [id] + rest, now, t) == Process(m, rest, now, t)
    ensures CheckCollisions(m, [id], now, t) == m
  {
    assert PlatformColour(Purple) == "purple";
    assert ([id] + rest)[1..] == rest;
    assert m.gameObjects[id := SetType(m.gameObjects[id], Purple)] == m.gameObjects;
    assert Hit(m, id, now, t) == m;
    assert Process(m, [id], now, t) == Process(m, [], now, t);
  }

  /** One collision with a platform of each colour: its effect on fuel and
      lives, and the platform turning purple. */
  lemma SingleHit(m: Manager, id: int, now: real, t: Tuning)
    requires IsPlatformType(TypeAt(m.gameObjects, id))
    requires PlatformColour(TypeAt(m.gameObjects, id)) != "red"
    ensures var r := CheckCollisions(m, [id], now, t);
      var p := m.gameState.playerState;
      var q := r.gameState.playerState;
      var colour := PlatformColour(TypeAt(m.gameObjects, id));
      && TypeAt(r.gameObjects, id) == Purple
      && r.gameObjects == m.gameObjects[id := SetType(m.gameObjects[id], Purple)]
      && r.gameState.gameOver == m.gameState.gameOver
      && (colour == "yellow" ==> q == p.(fuel := p.fuel - t.fuelLoss))
      && (colour == "green" ==> q == p.(fuel := p.fuel + t.fuelGain))
      && (colour == "white" && p.lives < t.maxLives ==> q == p.(lives := p.lives + 1))
      && (colour == "white" && p.lives >= t.maxLives ==> q == p)
      && (colour == "orange" ==>
            q.isFullSpeed && q.forcedSpeedStart == now
            && q.oldPlayerSpeed == p.playerSpeed && q.playerSpeed == t.maxSpeed
            && q.fuel == p.fuel && q.lives == p.lives)
      && (colour !in {"yellow", "green", "white", "orange"} ==> q == p)
  {
    assert [id][1..] == [];
    var next := Hit(m, id, now, t);
    assert Process(m, [id], now, t) == Process(next, [], now, t) == next;
  }

  /** When the loop runs through every id, each of them ends purple with its
      other members untouched, every other object is unchanged, and the game
      goes on. */
  lemma {:induction false} ProcessedEndPurple(m: Manager, collided: seq<int>, now: real, t: Tuning)
    requires AllPass(m.gameObjects, collided)
    ensures var r := Process(m, collided, now, t);
      && r.gameState.gameOver == m.gameState.gameOver
      && (forall id :: id in collided ==> id in r.gameObjects && r.gameObjects[id] == SetType(m.gameObjects[id], Purple))
      && (forall id :: id in m.gameObjects && id !in collided ==> r.gameObjects[id] == m.gameObjects[id])
    decreases |collided|
  {
    if |collided| > 0 {
      var id := collided[0];
      var ty := TypeAt(m.gameObjects, id);
      assert IsPlatformType(ty) && PlatformColour(ty) != "red";
      var next := Hit(m, id, now, t);
      forall j | 0 <= j < |collided[1..]|
        ensures IsPlatformType(TypeAt(next.gameObjects, collided[1..][j]))
             && PlatformColour(TypeAt(next.gameObjects, collided[1..][j])) != "red"
      {
        assert collided[1..][j] == collided[j + 1];
        assert PlatformColour(Purple) == "purple";
      }
      ProcessedEndPurple(next, collided[1..], now, t);
      forall x | x in collided
        ensures SetType(next.gameObjects[x], Purple) == SetType(m.gameObjects[x], Purple)
      {
      }
    }
  }

  /** Processing a list in two parts: when the first part runs through, the
      second starts from where the first left off. */
  lemma {:induction false} ProcessAppend(m: Manager, a: seq<int>, b: seq<int>, now: real, t: Tuning)
    requires AllPass(m.gameObjects, a)
    ensures Process(m, a + b, now, t) == Process(Process(m, a, now, t), b, now, t)
    decreases |a|
  {
    if |a| == 0 {
      assert a + b == b;
    } else {
      var id := a[0];
      var ty := TypeAt(m.gameObjects, id);
      assert IsPlatformType(ty) && PlatformColour(ty) != "red";
      assert (a + b)[0] == id && (a + b)[1..] == a[1..] + b;
      var next := Hit(m, id, now, t);
      forall j | 0 <= j < |a[1..]|
        ensures IsPlatformType(TypeAt(next.gameObjects, a[1..][j]))
             && PlatformColour(TypeAt(next.gameObjects, a[1..][j])) != "red"
      {
        assert a[1..][j] == a[j + 1];
        assert PlatformColour(Purple) == "purple";
      }
      ProcessAppend(next, a[1..], b, now, t);
    }
  }

  /** The response keeps the speed range, the saved boost speed, the lives
      cap and the rotation box. */
  lemma {:induction false} ProcessKeepsInv(m: Manager, collided: seq<int>, now: real, t: Tuning)
    requires t.Valid() && Inv(m, t)
    ensures Inv(Process(m, collided, now, t), t)
    decreases |collided|
  {
    if |collided| > 0 {
      var id := collided[0];
      var ty := TypeAt(m.gameObjects, id);
      if IsPlatformType(ty) && PlatformColour(ty) != "red" {
        var next := Hit(m, id, now, t);
        assert Inv(next, t);
        ProcessKeepsInv(next, collided[1..], now, t);
      }
    }
  }

  lemma CheckCollisionsKeepsInv(m: Manager, collided: seq<int>, now: real, t: Tuning)
    requires t.Valid() && Inv(m, t)
    ensures Inv(CheckCollisions(m, collided, now, t), t)
  {
    ProcessKeepsInv(m, collided, now, t);
  }

  /** A second orange platform hit during a boost saves the boosted speed as
      the one to restore, so the speed from before the first boost is lost. */
  lemma OrangeDuringBoost(m: Manager, id: int, now: real, t: Tuning)
    requires TypeAt(m.gameObjects, id) == "platform_orange"
    requires m.gameState.playerState.isFullSpeed && m.gameState.playerState.playerSpeed == t.maxSpeed
    ensures CheckCollisions(m, [id], now, t).gameState.playerState.oldPlayerSpeed == t.maxSpeed
  {
    assert PlatformColour("platform_orange") == "orange";
    assert [id][1..] == [];
    var next := Hit(m, id, now, t);
    assert Process(m, [id], now, t) == Process(next, [], now, t) == next;
  }
}
