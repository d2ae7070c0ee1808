# Skyroads game rules and object bookkeeping in Dafny

This project models the game-rules core of a Skyroads-style endless runner.
A player sphere runs over coloured platforms, and the game manager turns
collisions, clock ticks, key presses and mouse motion into changes of a
small game state:

- fuel and lives;
- player speed, with a temporary full-speed boost;
- camera mode and camera rotation;
- score;
- a terminal game-over flag.

Under the rules sit the game objects and colliders:

- each game object gets an id from a shared counter;
- its type string fixes its scale, mesh, shader, lighting and colour;
- its collision query hands every other object's collider to the
  collision manager;
- box and sphere colliders have simple get/set accessors.

Modules, one per source component:

- `Vectors`, `Optional`: vectors with real components, and an optional value.
- `Colliders`: box and sphere colliders as one tagged datatype.
- `GameObjects`: construction with an explicit id counter, the type table,
  the copy constructor, `getType`/`setType`, and `CollisionCheck`'s
  candidate list.
- `Game`: the tuning constants, the state records, and the invariant `Inv`.
  `Inv` covers the speed range, the saved boost speed, the lives cap and
  the rotation box.
- `CollisionResponse`: `CheckCollisions`.
- `GameTick`: `UpdateGameState`, `UpdatePlayer` and `ComputeScore`.
- `Input`: `OnKeyPress` and `OnMouseMove`.
- `Events`: the manager as a state machine over events. `GameOver()` ends
  the process, so once the game-over flag is set no event changes anything.

The tuning constants (`fuelFlow`, `maxFuel`, `fuelLoss`, `fuelGain`,
`maxLives`, `minSpeed`, `maxSpeed`, `speedStep`, `forcedSpeedTime`,
`lateralSpeed` and the start position's z) are defined outside the modelled
files. They are fields of `Game.Tuning`. `Tuning.Valid` states what the
rules rely on: `minSpeed <= maxSpeed`, `maxLives >= 0` and `speedStep >= 0`.

Other replacements for things outside the model:

- the clock (`Engine::GetElapsedTime`) is a parameter;
- held keys and the right mouse button are parameters;
- the collision manager `getCollisions` is a function parameter.

Float quantities are `real`s.

Facts about the code that the model keeps:

- Collider setters store negative extents as given, with no clamping and no refusal.
- The copy constructor keeps the original's id, so ids are unique among
  constructed objects, not among copies.
- `setType`'s body is in none of the modelled files; `GameObjects.SetType`
  takes it to be a plain setter, which is how `CheckCollisions` uses it.

## Model

| member | source | states |
|---|---|---|
| `Colliders.SetPosition` | Source/src/GameEngine/Colliders.cpp:5-13 | reading the position back after `setPosition(p)` gives `p`; the owner and the shape's extents are unchanged |
| `Colliders.SetPositionLaws` | Source/src/GameEngine/Colliders.cpp:5-13 | writing back the position just read changes nothing, and of two writes the last one wins |
| `Colliders.BoxColliderAsWritten` | Source/src/GameEngine/Colliders.cpp:15-20 | the box constructor as written stores the id and dimensions, but the position keeps its previous value |
| `Colliders.BoxColliderAsWrittenDropsPosition` | Source/src/GameEngine/Colliders.cpp:18 | the as-written constructor stores the requested position only when it equals the previous value; a concrete call where it does not |
| `Colliders.NewBox` | Source/src/GameEngine/Colliders.cpp:15-20 | the corrected box constructor: reading back gives the given id, position and dimensions |
| `Colliders.NewSphere` | Source/src/GameEngine/Colliders.cpp:32-37 | the sphere constructor: reading back gives the given id, position and radius |
| `Colliders.SetDimensions` | Source/src/GameEngine/Colliders.cpp:22-30 | reading the dimensions back after `setDimensions(d)` gives `d`; owner and position are unchanged |
| `Colliders.SetRadius` | Source/src/GameEngine/Colliders.cpp:39-47 | reading the radius back after `setRadius(r)` gives `r`; owner and position are unchanged |
| `Colliders.Slice` | Source/src/GameEngine/GameObject.cpp:96-101 | copying a collider into a base-type `Collider` value keeps exactly its owner and position |
| `Colliders.SliceForgetsShape` | Source/src/GameEngine/Colliders.hpp:9-18 | after slicing, a box and a sphere with the same owner and position are equal, so extents do not survive |
| `Colliders.PositionAndExtentsIndependent` | Source/src/GameEngine/Colliders.cpp:10-13 | moving a collider keeps its dimensions or radius, and moving commutes with resizing |
| `GameObjects.AppearanceTable` | Source/src/GameEngine/GameObject.cpp:12-41 | "ball" gets scale and colour (1,1,1); every platform gets scale (1, 0.25, 20); platform colours follow the suffix table; white has no colour; other types get no mesh or shader |
| `GameObjects.Construct` | Source/src/GameEngine/GameObject.cpp:9-10 | a new object's id is the counter value and the counter moves on by one; the type and position are the ones given, and the appearance comes from the type table |
| `GameObjects.ConstructAll` | Source/src/GameEngine/GameObject.cpp:5-10 | constructing n objects yields n objects and advances the counter by exactly n |
| `GameObjects.ConstructAllIds` | Source/src/GameEngine/GameObject.cpp:5-10 | the i-th constructed object has id `counter + i` and the i-th requested type |
| `GameObjects.IdsStrictlyIncreasing` | Source/src/GameEngine/GameObject.cpp:5-10 | ids strictly increase in construction order, so they are distinct and never below the starting counter |
| `GameObjects.ConstructAllAppend` | Source/src/GameEngine/GameObject.cpp:10 | two batches built with the counter threaded between them give the same objects as one batch of both |
| `GameObjects.LaterBatchIdsAreLarger` | Source/src/GameEngine/GameObject.cpp:5-10 | every id of a later batch exceeds every id of an earlier batch |
| `GameObjects.Copy` | Source/src/GameEngine/GameObject.cpp:44-54 | a copy has the original's id, position, type and appearance, uses no new id, and its collider is not copied |
| `GameObjects.GetTypeAfterConstruct` | Source/src/GameEngine/GameObject.cpp:88-91 | `getType` returns exactly the type given at construction, also on a copy |
| `GameObjects.SetType` | Source/src/GameManager.cpp:257 | after `setType(t)` the type reads `t`; id, position, appearance and collider are unchanged |
| `GameObjects.CollisionCheck` | Source/src/GameEngine/GameObject.cpp:93-106 | the result is exactly what the collision manager returns for this object's collider and the candidate list of sliced colliders, with no further filtering |
| `GameObjects.CandidatesAppend` | Source/src/GameEngine/GameObject.cpp:98-103 | the candidate list keeps input order: the list for a concatenation is the concatenation of the lists |
| `GameObjects.CandidatesAllOthers` | Source/src/GameEngine/GameObject.cpp:98-103 | when no object carries this object's id, every collider is a candidate, sliced to owner and position, in input order |
| `GameObjects.CandidatesMembership` | Source/src/GameEngine/GameObject.cpp:98-103 | a base value is a candidate if and only if an object with a different id has a collider that slices to it |
| `GameObjects.CandidatesDropSelf` | Source/src/GameEngine/GameObject.cpp:96-103 | when this object's id occurs exactly once among n objects, there are n-1 candidates |
| `CollisionResponse.Process` | Source/src/GameManager.cpp:224-258 | the collision loop leaves the player body, the camera, the score and the set of object ids unchanged, and sets game over only when given an id |
| `CollisionResponse.CheckCollisions` | Source/src/GameManager.cpp:220-259 | an empty collision list leaves the whole state unchanged; the player body, camera and object ids are never changed |
| `CollisionResponse.StopsAtNonPlatform` | Source/src/GameManager.cpp:224-228 | an id whose type does not start with "platform_" ends the loop: the result equals processing only the ids before it |
| `CollisionResponse.RedEndsGame` | Source/src/GameManager.cpp:231-234 | a red platform ends the game with nothing else changed; it stays red and later ids are ignored |
| `CollisionResponse.PurpleIsInert` | Source/src/GameManager.cpp:230-257 | colliding with a purple platform changes nothing |
| `CollisionResponse.SingleHit` | Source/src/GameManager.cpp:235-257 | yellow lowers fuel by exactly `fuelLoss`; green raises it by exactly `fuelGain`; white adds a life only below `maxLives`; orange starts the boost; the platform turns purple and nothing else changes |
| `CollisionResponse.ProcessedEndPurple` | Source/src/GameManager.cpp:257 | when the loop runs through every id, each collided object ends purple with its other members kept, every other object is unchanged, and the game goes on |
| `CollisionResponse.ProcessAppend` | Source/src/GameManager.cpp:224-258 | once a prefix of non-red platforms has been processed, the rest starts from the state the prefix left |
| `CollisionResponse.ProcessKeepsInv` | Source/src/GameManager.cpp:239-255 | the collision loop keeps speed in range and lives within `maxLives` |
| `CollisionResponse.CheckCollisionsKeepsInv` | Source/src/GameManager.cpp:220-259 | the collision response keeps the invariant |
| `CollisionResponse.OrangeDuringBoost` | Source/src/GameManager.cpp:239-245 | a second orange hit during a boost saves the boosted speed, so the speed from before the first boost is lost |
| `GameTick.UpdatePlayer` | Source/src/GameManager.cpp:141-154 | the player moves forward by exactly its speed; A, or else D, sets the lateral velocity; nothing else moves |
| `GameTick.ComputeScore` | Source/src/GameManager.cpp:261-264 | the score is the non-negative distance along z from the start, and is zero only at the start |
| `GameTick.ScoreGrowsWithForwardMotion` | Source/src/GameManager.cpp:261-264 | moving forward from at or past the start line raises the score by exactly the speed |
| `GameTick.FuelTick` | Source/src/GameManager.cpp:167-177 | fuel drops by `dt * fuelFlow`; if that reaches zero or less, exactly one life is lost, and the tank refills to `maxFuel` only if lives remain |
| `GameTick.BoostExpiry` | Source/src/GameManager.cpp:185-189 | the boost ends exactly when `now - forcedSpeedStart >= forcedSpeedTime`, and ending it restores the saved speed |
| `GameTick.UpdateGameState` | Source/src/GameManager.cpp:156-190 | the game is over after a tick iff it was before or lives are at most 0; a tick loses at most one life; the score matches the new position; fuel stays positive while the game goes on |
| `GameTick.UpdateGameStateKeepsInv` | Source/src/GameManager.cpp:167-189 | a tick keeps the invariant |
| `GameTick.BoostTiming` | Source/src/GameManager.cpp:185-189 | before the boost time has elapsed a tick keeps full speed; afterwards it restores the saved speed, unless the same tick ends the game |
| `Input.OnKeyPress` | Source/src/GameManager.cpp:292-330 | W and S keep the speed in `[minSpeed, maxSpeed]`, step exactly when not clamped, land exactly on `maxSpeed` or `minSpeed` when clamped, and do nothing during a boost; C toggles the camera mode and resets the rotation to (0,0); Space starts a jump only when not already jumping |
| `Input.CameraToggleTwice` | Source/src/GameManager.cpp:297-301 | pressing C twice restores the camera mode, with the rotation reset |
| `Input.SpeedUpThenDown` | Source/src/GameManager.cpp:302-319 | away from the range ends and outside a boost, W then S returns to the same speed |
| `Input.OnKeyPressKeepsInv` | Source/src/GameManager.cpp:302-319 | a key press keeps the invariant |
| `Input.OnMouseMove` | Source/src/GameManager.cpp:336-356 | with the right button held, the rotation ends inside [-0.275, 0.275] x [-0.5, 0.5]; each axis is clamped on its own, keeping its requested value when that is within its limit and taking the nearer limit otherwise; without the button nothing changes; only the rotation ever changes |
| `Input.MouseStillIsIdentity` | Source/src/GameManager.cpp:345-354 | a zero mouse motion leaves an in-box rotation unchanged |
| `Input.MouseClampIdempotent` | Source/src/GameManager.cpp:349-352 | for any state, a zero motion after any motion changes nothing: clamping is idempotent |
| `Events.Handle` | Source/src/GameManager.cpp:266-273 | once the game is over no event changes anything, and key and mouse events never end the game |
| `Events.HandleKeepsInv` | Source/src/GameManager.cpp:192-214 | every event keeps the invariant |
| `Events.RunKeepsInv` | Source/src/GameManager.cpp:192-214 | every sequence of events keeps speed in range, lives within the cap and the rotation in its box |
| `Events.GameOverIsFinal` | Source/src/GameManager.cpp:266-273 | after game over, any sequence of events leaves the state unchanged |
| `Events.BoostLifecycle` | Source/src/GameManager.cpp:239-245 | orange saves the speed and forces `maxSpeed`; a later tick keeps the boost until `forcedSpeedTime` has elapsed, then restores the saved speed |

## Findings

| source | as written | input that shows it | evidently intended | confidence | as-written member | corrected member |
|---|---|---|---|---|---|---|
| Source/src/GameEngine/Colliders.cpp:18 | `position = position;` assigns the member to itself, and the `pos` argument is never read | `BoxCollider(0, (1,0,0), (1,1,1))` keeps whatever value default construction left in the position, not (1,0,0), unless that value happens to be (1,0,0) | `position = pos;`, as the sphere constructor at line 35 does | high; not executed | `Colliders.BoxColliderAsWrittenDropsPosition` (on `Colliders.BoxColliderAsWritten`) | `Colliders.NewBox` |

## Left out

- `mapBetweenRanges`, the field-of-view mapping and the projection matrix: floating-point scaling with `pow`/`round`, used only for rendering.
- `UpdateCamera`: camera placement and rotation calls, the `cameraFOV` it writes from the speed, and its `isRendered` toggling of the player are rendering only. The rotation values it reads are modelled.
- `Render`, `LoadShader`, `LoadMesh`, `FrameStart` and the manager's constructor: GPU and asset calls, not game logic. Meshes and shaders appear only as registry key names.
- `Init`: loads assets and builds the initial scene (the player with its jump flag and drag set, and three platforms: green, white and yellow), passing each object by value to `addGameObject`; scene setup is not modelled. `GameObjects.Construct` and `GameObjects.Copy` model the constructor and copy constructor it goes through.
- `GameOver()`'s console output, key wait and `exit(0)`: modelled only as the terminal `gameOver` flag.
- `window->KeyHold` and `window->MouseHold` polling: the held keys and the right mouse button are parameters.
- Rigid-body integration (`UpdatePhysics`) and the narrow-phase tests of `CollisionManager::getCollisions`: their source is not part of this model. `getCollisions` is a function parameter of `CollisionCheck`, and physics is not modelled.
- `Update`'s per-object loop: the collision ids come from `ManageCollisions`, whose body in `GameObject.cpp` is empty and whose declaration does not match its use. `Events.Event` delivers collision lists and ticks in any order instead.
- `gameObjects[id]` on a missing id: `operator[]` inserts a default-constructed object. The model reads the empty type, which ends the loop, and does not add the entry.
- `currentMaxID` is a 32-bit `int`, and `lives` is assumed to be an `int` (its declaration is in a header that is not part of this model): the model uses unbounded integers and does not model overflow.
- Float rounding of `float` quantities and of every decimal constant that is not exact in binary (among them 0.275, 0.001, 0.9, 0.6, 0.2, 0.1, 0.4, 0.99): all are exact reals.
- `getPosition` and `getDimensions` return a reference to a temporary, a C++ lifetime defect: modelled as by-value reads.
- The static type of the collider `CollisionCheck` passes as its subject is declared in a header that is not part of this model, so the subject is passed whole; the candidates are sliced to base-type values, as the `std::vector<Collider>` demands.
- The collider member's own construction, and the rigid body and jump flag of game objects, are declared in headers that are not part of this model. `GameObjects.Construct` and `GameObjects.Copy` take the collider's default value as a parameter, and `Game.PlayerBody` holds the player's body and jump flag.
- `PlatformManagement`, `OnInputUpdate`, `OnKeyRelease` and `FrameEnd`: empty bodies.
- The `mods` arguments of the key handlers and the absolute mouse coordinates: never read.
- `Tema2.*` and the older `GameObjects/GameObject.*` revision: not part of the game core.
