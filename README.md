# Player locomotion and pet companion — a Dafny model

This project models two per-frame controllers of a Unity dungeon-crawler:

- **AnimationAndMovementController** (`controller.dfy`, module `Controller`) is the player.
  - Its input callbacks set the mode flags `isClickToMove`, `isMovementPressed`, `isRunPressed`, `mousePressed` and `isDancing`.
  - Its movement tick derives `isMoving`, `isRunning` and `speed` from those flags. On arrival within `targetThreshold` it cancels click-to-move.
  - Its rotation tick turns the player only while moving with a nonzero movement vector.
  - Its animation pass mirrors the flags into the animator.
  - Its zoom callback clamps the camera's orthographic size.
- **Pet** (`pet.dfy`, module `Companion`) is the follower. It is either Idle or Seeking, depending on its `comfortZone` and `tether`.
  - A tolerance timer runs while the pet is out of bounds or the player stands still.
  - When the timer reaches its limit, the pet's navigation agent is warped onto the player and the timer restarts.
- **The animator** (`animation.dfy`, module `Animation`) is modelled as three booleans (`isWalking`, `isRunning`, `isDancing`) plus a log of every `SetBool` call.
  - Both controllers use the same pass (`Animation.Sync`).
  - The pass writes walk and run only when they change. It writes dance false on every moving frame.
  - The pure function `SyncWrites` gives the list of writes one pass makes.
- `common.dfy` (module `Common`) holds the vector and rotation values, the engine's approximate zero test and normalisation, and the engine's scalar clamp.

Each controller is a `class` whose fields are the source's fields. Its methods update those fields in place, in the source's order. Each method's postcondition ties the new state to a pure function of the old state and the method's inputs (`AfterMovement`, `AfterCheckMovement`, …). The source's promises are proved as lemmas about those functions:

- single-frame rules;
- multi-event rules over a `Run` of events, for example that only a raycast hit re-enables click-to-move and that a pet kept out of bounds long enough is warped;
- the repeated-zoom formula.

The engine supplies some readings, and they are parameters of the methods:

- the raycast hit, as `Option<Vec3>`;
- the player position;
- the distance to the click target or to the player;
- the grounded flag;
- the interpolated rotation;
- the frame time;
- the player's flags and speed, as the pet reads them.

One might expect directional movement and click-to-move never to govern the player at the same time. The code does not enforce this: a click leaves `isMovementPressed` as it was. If a direction is held through a click-to-move, the player keeps moving after arrival. It moves along the last heading toward the target, not along the held direction (`Controller.HeldDirectionKeepsClickHeading`). The model follows the code.

## Model

| member | source | states |
|---|---|---|
| `Common.Clamp` | Assets/Game/Scripts/AnimationAndMovementController.cs:150 | The clamp lies in `[lo, hi]` whenever `lo <= hi`, is the identity inside the range, gives `lo` below it and `hi` above it |
| `Controller.IsometricConversion` | Assets/Game/Scripts/AnimationAndMovementController.cs:226-232 | The 45-degree yaw keeps the vertical part and maps a horizontal vector to zero exactly when it was zero |
| `Controller.AfterMovementInput` | Assets/Game/Scripts/AnimationAndMovementController.cs:130-140 | A directional event clears click-to-move and dancing, sets movement-pressed exactly when x or y is nonzero, makes the movement vector zero exactly for a zero input, and changes nothing else |
| `Controller.AfterClickToMove` | Assets/Game/Scripts/AnimationAndMovementController.cs:118-128 | A hit turns click-to-move on, clears dancing and targets the hit point at the player's height; a miss changes nothing; no other field changes |
| `Controller.AfterClickPerformed` | Assets/Game/Scripts/AnimationAndMovementController.cs:107-111 | The click action marks the button held, then a hit starts click-to-move toward the point at the player's height while a miss changes nothing else |
| `Controller.AfterClickCanceled` | Assets/Game/Scripts/AnimationAndMovementController.cs:113-116 | Releasing the click clears only the held-button flag |
| `Controller.AfterRun` | Assets/Game/Scripts/AnimationAndMovementController.cs:141-144 | The run callback sets run-held to the button value and changes nothing else |
| `Controller.AfterDanceInput` | Assets/Game/Scripts/AnimationAndMovementController.cs:152-155 | The dance callback sets dancing and changes nothing else |
| `Controller.ZoomedSize` | Assets/Game/Scripts/AnimationAndMovementController.cs:145-151 | One scroll moves the size by the scroll speed, inward for scroll y >= 0 (zero included) and outward otherwise, clamped; the result is in range whenever min <= max |
| `Controller.AfterRotation` | Assets/Game/Scripts/AnimationAndMovementController.cs:177-191 | Facing changes only when moving with a movement vector the engine does not treat as zero, and then becomes the interpolated rotation; nothing else changes |
| `Controller.AfterMovement` | Assets/Game/Scripts/AnimationAndMovementController.cs:157-176 | After the tick, moving = click-to-move or movement-pressed, running = run-held or (click-to-move and run-on-click), and speed is run speed exactly when running, all from the flags before arrival. Click-to-move ends exactly when moving and within the threshold, and is otherwise on only if it was on or a held button's raycast hit. The movement vector is untouched when not moving |
| `Controller.ClickToMoveNeedsHit` | Assets/Game/Scripts/AnimationAndMovementController.cs:118-166 | Once click-to-move is off, no sequence of events without a raycast hit turns it back on |
| `Controller.WalksWithoutRunInput` | Assets/Game/Scripts/AnimationAndMovementController.cs:159-161 | With run-on-click off and the run button never pressed, the player never runs and every frame sets walking speed |
| `Controller.MovementInputOverridesClick` | Assets/Game/Scripts/AnimationAndMovementController.cs:130-166 | After a directional event, the next frame's moving comes from that input alone, running from run-held alone, and click-to-move comes back only from a held button's hit |
| `Controller.ZeroInputFreezesFacing` | Assets/Game/Scripts/AnimationAndMovementController.cs:130-191 | After a zero directional input, the next frame leaves the player not moving and its facing unchanged |
| `Controller.ArrivalStopsNextFrame` | Assets/Game/Scripts/AnimationAndMovementController.cs:159-166 | On the arrival frame the player is still moving and click-to-move ends; the following frame stops the player when no direction or button is held |
| `Controller.HeldDirectionKeepsClickHeading` | Assets/Game/Scripts/AnimationAndMovementController.cs:130-176 | With a direction held through a click-to-move, the player keeps moving after arrival along the old horizontal heading |
| `Controller.ScrolledIsProduct` | Assets/Game/Scripts/AnimationAndMovementController.cs:145-151 | The total of `n` equal scroll steps is `n` times the step and has the step's sign |
| `Controller.ZoomRepeatedIsOneClamp` | Assets/Game/Scripts/AnimationAndMovementController.cs:145-151 | From a size inside the range, `n` scrolls the same way give `clamp(size - n * step, min, max)` |
| `Controller.AnimationAndMovementController.constructor` | Assets/Game/Scripts/AnimationAndMovementController.cs:32-58 | Every flag starts false, speed and vectors start at zero |
| `Controller.AnimationAndMovementController.OnClickToMove` | Assets/Game/Scripts/AnimationAndMovementController.cs:107-111 | The new state is `AfterClickPerformed` of the old |
| `Controller.AnimationAndMovementController.OnClickToMoveStop` | Assets/Game/Scripts/AnimationAndMovementController.cs:113-116 | The new state is `AfterClickCanceled` of the old |
| `Controller.AnimationAndMovementController.ClickToMove` | Assets/Game/Scripts/AnimationAndMovementController.cs:118-128 | The new state is `AfterClickToMove` of the old |
| `Controller.AnimationAndMovementController.OnMovementInput` | Assets/Game/Scripts/AnimationAndMovementController.cs:130-140 | The new state is `AfterMovementInput` of the old |
| `Controller.AnimationAndMovementController.OnRun` | Assets/Game/Scripts/AnimationAndMovementController.cs:141-144 | The new state is `AfterRun` of the old |
| `Controller.AnimationAndMovementController.OnCameraZoom` | Assets/Game/Scripts/AnimationAndMovementController.cs:145-151 | The camera's new size is `ZoomedSize` of the old |
| `Controller.AnimationAndMovementController.OnDanceInput` | Assets/Game/Scripts/AnimationAndMovementController.cs:152-155 | The new state is `AfterDanceInput` of the old |
| `Controller.AnimationAndMovementController.HandleMovement` | Assets/Game/Scripts/AnimationAndMovementController.cs:157-176 | The new state is `AfterMovement` of the old |
| `Controller.Steered` | Assets/Game/Scripts/AnimationAndMovementController.cs:166-173 | Click-to-move stays on exactly when it was on and the target is farther than the threshold; while it lasts, the horizontal heading times the distance is the offset to the target; otherwise the horizontal heading is kept; the vertical part is zero on the ground and lowered by one in the air; no other field changes |
| `Controller.AnimationAndMovementController.Steer` | Assets/Game/Scripts/AnimationAndMovementController.cs:166-173 | The moving branch: click-to-move is dropped within the target threshold, the heading is re-aimed at the target while it lasts, and its vertical part is zeroed on the ground or lowered by one in the air (`Steered` of the old state) |
| `Controller.AnimationAndMovementController.HandleRotation` | Assets/Game/Scripts/AnimationAndMovementController.cs:177-191 | The new state is `AfterRotation` of the old |
| `Controller.AnimationAndMovementController.HandleAnimation` | Assets/Game/Scripts/AnimationAndMovementController.cs:192-224 | Afterwards walking = moving, running = moving and running, moving implies not dancing; the writes made are `SyncWrites` of the stored values |
| `Controller.AnimationAndMovementController.Update` | Assets/Game/Scripts/AnimationAndMovementController.cs:100-105 | Rotate, animate with the flags held at the start of the frame, then move: the new state is one `Frame` step, the animator holds `Synced` of those flags and its log grows by exactly the pass's `SyncWrites` |
| `Animation.SyncWrites` | Assets/Game/Scripts/AnimationAndMovementController.cs:192-223 | At most three writes; walk and run are written, with their new value, exactly when it differs from the stored one; dance is written true exactly when dancing, still and not stored, and written false exactly when moving |
| `Animation.Synced` | Assets/Game/Scripts/AnimationAndMovementController.cs:198-223 | After a pass walking = moving, running = moving and running (so running implies walking), dance excludes walk and run, dancing-while-still sets dance, and otherwise a still player keeps the stored dance |
| `Animation.SyncWritesReachSynced` | Assets/Game/Scripts/AnimationAndMovementController.cs:192-223 | Applying the writes of a pass to the stored values gives exactly `Synced` |
| `Animation.OnlyDanceRewritten` | Assets/Game/Scripts/AnimationAndMovementController.cs:216-223 | Any write that repeats the stored value is a dance-false write on a moving frame |
| `Animation.ReplayAppend` | Assets/Game/Scripts/AnimationAndMovementController.cs:198-223 | Applying two batches of writes in turn is applying their concatenation |
| `Animation.ReplayUntouched` | Assets/Game/Scripts/AnimationAndMovementController.cs:198-223 | A parameter no write names keeps its value |
| `Animation.ReplayLastWriteWins` | Assets/Game/Scripts/AnimationAndMovementController.cs:198-223 | A parameter ends with the value of its last write |
| `Animation.Sync` | Assets/Game/Scripts/AnimationAndMovementController.cs:192-224 | The animator's log grows by `SyncWrites` of the old stored values and the new stored values are `Synced` |
| `Companion.AfterHandleMovement` | Assets/Game/Scripts/Pet.cs:93-97 | The agent's speed becomes the player's speed and its destination the player's position; its position is untouched |
| `Companion.AfterTetherTolerance` | Assets/Game/Scripts/Pet.cs:79-91 | Out of tolerance the timer grows by dt, and on reaching the limit the agent is placed on the player and the timer set to 0; otherwise nothing changes |
| `Companion.AfterCheckMovement` | Assets/Game/Scripts/Pet.cs:55-77 | A seeking pet stays seeking exactly when outside the comfort zone; an idle pet starts seeking exactly when beyond the tether |
| `Companion.IdleWithinTetherStays` | Assets/Game/Scripts/Pet.cs:58-77 | An idle pet within the tether changes nothing: not its state, timer or agent |
| `Companion.IdleBeyondTetherSeeks` | Assets/Game/Scripts/Pet.cs:72-76 | Idle becomes Seeking only beyond the tether; then the agent heads for the player at the player's speed, its position and the timer untouched |
| `Companion.SeekingInComfortZoneStops` | Assets/Game/Scripts/Pet.cs:60-65 | A seeking pet inside the comfort zone becomes idle with timer and agent unchanged |
| `Companion.SeekingOutsideComfortZoneFollows` | Assets/Game/Scripts/Pet.cs:66-70 | A seeking pet outside the comfort zone stays seeking and re-targets the player at the player's speed |
| `Companion.TimerRule` | Assets/Game/Scripts/Pet.cs:79-90 | The timer grows by dt only when seeking, outside the comfort zone and (beyond tolerance or the player still); it resets to 0 exactly when that sum reaches the limit; otherwise it is unchanged |
| `Companion.WarpRule` | Assets/Game/Scripts/Pet.cs:84-89 | The agent's position changes only on a warping step, and then equals the player's position |
| `Companion.TimerStaysBelowLimit` | Assets/Game/Scripts/Pet.cs:79-90 | With dt >= 0 and limit > 0, a timer in `[0, limit)` stays there after a step |
| `Companion.TimerBoundedAlways` | Assets/Game/Scripts/Pet.cs:79-90 | The same bound holds after every run of frames with non-negative frame times |
| `Companion.OutOfBoundsLongEnoughWarps` | Assets/Game/Scripts/Pet.cs:79-90 | A seeking pet kept outside the comfort zone and out of tolerance for at least the time left on its timer is warped during the run |
| `Companion.TimerAccumulatesWithoutWarp` | Assets/Game/Scripts/Pet.cs:79-90 | Over such a run without a warp the pet keeps seeking and the timer has grown by exactly the total frame time |
| `Companion.NavMeshAgent.Warp` | Assets/Game/Scripts/Pet.cs:87 | Warping moves only the agent's position, to the given point |
| `Companion.Pet.constructor` | Assets/Game/Scripts/Pet.cs:38-47 | The pet starts idle with timer 0 and sets the agent's stopping distance to the comfort zone |
| `Companion.Pet.CheckMovement` | Assets/Game/Scripts/Pet.cs:55-77 | The new state is `AfterCheckMovement` of the old; the agent's stopping distance is kept |
| `Companion.Pet.CheckTetherTolerance` | Assets/Game/Scripts/Pet.cs:79-91 | The new state is `AfterTetherTolerance` of the old; the agent's stopping distance is kept |
| `Companion.Pet.HandleMovement` | Assets/Game/Scripts/Pet.cs:93-97 | The agent's new value is `AfterHandleMovement` of the old; its stopping distance is kept |
| `Companion.Pet.HandleAnimation` | Assets/Game/Scripts/Pet.cs:99-131 | Afterwards walking = the pet's moving, running = pet moving and player running, pet moving implies not dancing; the writes are `SyncWrites` with the player's run and dance flags |
| `Companion.Pet.Update` | Assets/Game/Scripts/Pet.cs:49-53 | Follow, then animate with the pet's new moving flag: the new state is `AfterCheckMovement`, the stopping distance set at construction is kept, and the animator holds `Synced` with its log grown by exactly the pass's `SyncWrites` |

## Left out

- Physics raycast, `ScreenPointToRay` and the mouse position: the raycast's hit point is an `Option<Vec3>` parameter.
- `CharacterController.Move` and the grounded test: the model applies no displacement. The grounded flag is a parameter. The model keeps the vertical bias written into `currentMovement`.
- `Vector3.Distance`: the distance to the click target or to the player is a real parameter. The click heading is normalised by that same distance, as the engine does with the vector's length.
- `Quaternion.LookRotation`, `Quaternion.Slerp`, `rotationFactorPerFrame`: the interpolated rotation is a parameter. Only the guard that decides whether facing changes is modelled.
- Single-precision arithmetic: all quantities are reals. The 45-degree matrix entry is the single-precision value 0.70710677. The engine's zero tests use its single-precision thresholds written as reals.
- Input System wiring (`Awake` subscriptions, `OnEnable`, `OnDisable`): every callback is a method that can be called at any time.
- `currentMovementInput` and `currentCameraInput`: these are not kept as fields, because they are only read inside the callback that sets them.
- `Animator.StringToHash` and everything the animator does beyond storing three booleans.
- NavMeshAgent pathfinding: the agent only stores its speed and destination, and its position changes only through `Warp`.
- Debug output (`Debug.Log`, gizmo drawing).
- CameraFollow.cs: it only calls `Vector3.SmoothDamp` and `Transform.LookAt`.
- Ordering between the player's and the pet's updates: the pet reads the player's flags through a parameter, so either order can be expressed.
- Zoom events are not part of the controller's event sequences: they change only the camera. Repeated zooms are modelled by `ZoomRepeated`.
- Editor-only `Range` and `MinMaxSlider` limits on the tunables: they are not assumed, so every lemma holds for any configuration it does not restrict explicitly.
