# Actor behaviour of the platformer, in Dafny

This project models the behaviour layer of a Phaser platformer written in
TypeScript. It proves properties of that model. The model covers:

- **The state-machine engine.** A map of named states with optional enter,
  update and exit hooks, and a nullable current state. It has a throttle
  window, a re-entrancy guard with a FIFO queue of deferred requests, and the
  time of the last transition.
- **The player.** It runs two machines: locomotion (idle, run, kick, jump,
  fall, death) and wielding (nothing, rifle), the second throttled to 400 ms.
  It also has hitpoints, `hit` and `die`, and the input-driven transition rules.
- **The enemy.** It has hitpoints, target detection with a 1000 ms visibility
  timeout, roaming, wall reversal, ledge stops, firing, and two repeating
  timers that death cancels. It spawns sight probes, filtered by facing.
- **The earlier copy of the enemy.** No hitpoints, a stored aim angle, an
  inline sight probe, and a death handler that cancels its timers but keeps
  their handles.
- **The bullet.** A bounce budget and three ways to end.
- **The sight probe.** Platform, player overlap (tell the owner) and timeout.

Each imperative source class becomes a Dafny `class` with the source's
fields. Each class also has a value-level twin, a datatype plus functions,
and every method is proved to move the object exactly as that function
moves the value (`ensures View() == Spec.Op(old(View()), ...)`). The
properties are lemmas about those functions: invariants every operation
keeps, the effect of each handler and tick, what death absorbs, bounce
budgets, and round trips through the engine's queue.

Modules and files:

| file | modules | source |
|---|---|---|
| fsm.dfy | `StateMachines` (machine as a value, class `StateMachine`) | src/app/game/state-machine.ts, src/app/game/models/state-machine.model.ts |
| models.dfy | `PlayerModel`, `EnemyModel`, `MainScene` | src/app/game/models/*.ts |
| player.dfy | `PlayerSpec`, `PlayerActor` (class `Player`) | src/app/game/game-objects/player/player.ts |
| enemy.dfy | `EnemySpec`, `EnemyActor` (class `Enemy`) | src/app/game/game-objects/enemy/enemy.ts |
| early_enemy.dfy | `EarlyEnemySpec`, `EarlyEnemyActor` (classes `EarlyEnemy`, `EarlySightInstance`) | src/app/game/game-objects/enemy.ts |
| sight_instance.dfy | `Probes`, `SightInstances` (class `SightInstance`) | src/app/game/game-objects/enemy/enemy-sight-instance.ts |
| bullet.dfy | `BulletSpec`, `BulletActor` (class `Bullet`) | src/app/game/game-objects/shared/bullet.ts |

How the host's services appear in the model:

- **Clock.** `performance.now()` is an explicit `now` parameter.
  `lastStateChangeTimestamp` is an `Option<int>`. It is `None` before the
  first change, so the throttle test is false and the first transition
  always passes; this follows from the `NaN` comparison in the source.
- **Hooks.** The callbacks bound to the owner are a closed datatype of hook
  identifiers per actor.
- **Running a transition.** `setState` is split into three engine steps:
  `BeginSetState`, `EnterState` and `EndSetState`. The owning actor runs the
  exit and enter hooks between them, so a `setState` issued by an enter hook
  meets the re-entrancy guard and is queued, exactly as in the source.
- **`stateChanged`.** The emitter is an appended trace of
  `Changed`/`Exited`/`Entered`/`Updated` events.
- **Per-tick inputs.** Cursor keys, the Q key, `onFloor`, `blocked.left/right`,
  the tile-ahead lookups and `anims.isPlaying` arrive as a per-tick record
  (`Controls`, `Senses`).
- **Animation events.** The kick animation plays only in KICK, and entering
  another state plays another animation, so the host raises the kick's
  completion only while KICK is current (`PlayerSpec.Step`).
- **Randomness.** `Math.random` draws are parameters.
- **Timers.** `setInterval`/`setTimeout` callbacks are operations the host
  applies. A timer fires only while it is registered: while its handle is
  in `intervals` for the enemy, and while it is in `live` for the earlier
  enemy.
- **Engine calls.** `disableBody`/`destroy` are `active` flags. Bullets and
  sight probes that an enemy creates are appended to output logs (`shots`,
  `probes`), and a bullet or probe object relays to its target or owner
  through a method call.

Behaviour of the code worth knowing, where a reader might expect otherwise:

- **The wielding toggle is level-triggered.** It reads `isDown`, not a key
  edge. Holding Q toggles once per 400 ms throttle window (`PlayerSpec.WieldingToggle`).
- **The wielding machine keeps ticking after the player's death.**
  `update` has no death check, so Q still toggles the rifle after death.
- **Death is not absorbing for the enemy's hitpoints.** The enemy's `hit`
  has no death guard: hitpoints keep dropping after death, while the state
  stays DEATH (`EnemySpec.HitAfterDeath`, `EnemySpec.DeathIsFinal`). The
  player's `hit` does have the guard (`PlayerSpec.HitsWhileDeadChangeNothing`).
- **The player can die holding the rifle.** `die` requests NOTHING on the
  throttled wielding machine. Within 400 ms of a toggle that request is
  dropped, and the player dies with the rifle out (`PlayerSpec.DieEffect`
  states both cases).
- **The earlier enemy keeps stale timer handles.** Its death handler clears
  its timers with `map(clearInterval)` but does not empty the handle array.
  The model keeps the handles (`intervals`) apart from the timers that still
  fire (`live`).
- **The earlier enemy's shots cannot hit.** Its `fireAtTarget` computes a
  velocity from the aim and passes the velocity's x and y to
  `PlayerRifleBullet` where that constructor expects an angle and a flip
  flag. The resulting bullet does not follow the aim and collides with
  platforms only. The model records each shot by the velocity call's
  arguments (`EarlyEnemySpec.RifleShot`).

## Model

| member | source | states |
|---|---|---|
| StateMachines.AddStateRegisters | src/app/game/state-machine.ts:32-41 | registering a state adds or overwrites exactly the entry under its name; other entries, the current state, queue, guard and trace are unchanged |
| StateMachines.FreshHasNoCurrentName | src/app/game/state-machine.ts:18-20 | a new machine has no current state name whatever states are registered on it |
| StateMachines.RegisterAllKeepsCurrent | src/app/game/state-machine.ts:32-41 | registering any sequence of states changes only the state map, never the current state |
| StateMachines.UnknownNameChangesNothing | src/app/game/state-machine.ts:44-47 | a request for an unregistered name changes nothing: no switch, no queue entry, no event |
| StateMachines.SameNameOrThrottleChangesNothing | src/app/game/state-machine.ts:49-51 | a request for the current state, or one inside the throttle window, changes nothing |
| StateMachines.FirstTransitionAlwaysPasses | src/app/game/state-machine.ts:22-24 | before any transition has happened, a request for any other registered state goes through, whatever the throttle time |
| StateMachines.ZeroThrottleNeverThrottles | src/app/game/state-machine.ts:26-30 | with the default throttle of 0 no request is ever inside the throttle window |
| StateMachines.RequestDuringTransitionIsQueued | src/app/game/state-machine.ts:53-56 | a request that passes the name and throttle checks while a transition runs is appended to the queue and nothing else changes |
| StateMachines.TransitionOrder | src/app/game/state-machine.ts:58-74 | a transition records the change event, then the old state's exit hook, then the new state's enter hook; it switches state, stamps the time and clears the guard, leaving the queue and the states alone |
| StateMachines.GuardedRequestsQueue | src/app/game/state-machine.ts:49-56 | any sequence of requests made during a transition appends to the queue exactly the admitted ones (registered, not current, outside the window), in order |
| StateMachines.AdmittedIgnoresQueue | src/app/game/state-machine.ts:49-56 | which requests are admitted does not depend on the queue contents |
| StateMachines.UpdateDrainsOne | src/app/game/state-machine.ts:43-81 | with a non-empty queue an update removes exactly the head, runs no update hook and leaves no transition in progress; the head is judged again, and is dropped with nothing else changed when it is unknown, already current or inside the throttle window, and otherwise performed: the machine switches to its registered state and stamps the time |
| StateMachines.UpdateRunsHandler | src/app/game/state-machine.ts:83-85 | with an empty queue an update runs the current state's update hook with the delta if there is one, and otherwise does nothing |
| StateMachines.DrainOnePerTick | src/app/game/state-machine.ts:77-81 | n updates remove exactly the first n queued requests |
| StateMachines.RequestFromEnterAppliesOnNextUpdate | src/app/game/state-machine.ts:53-81 | a request made by an enter hook is queued, the first transition completes, and the next update performs the queued transition |
| StateMachines.ThrottleKeepsFirst | src/app/game/state-machine.ts:49 | a second request within the throttle time of a transition is dropped: the first state stays current |
| StateMachines.OperationsKeepWellFormed | src/app/game/state-machine.ts:32-86 | every engine operation keeps the current state one of the registered states |
| StateMachines.StateMachine.constructor | src/app/game/state-machine.ts:26-30 | a new machine: no states, no current state, no queue, no last change, the given throttle |
| StateMachines.StateMachine.AddState | src/app/game/state-machine.ts:32-41 | registers the state and returns the same machine |
| StateMachines.StateMachine.CurrentStateName | src/app/game/state-machine.ts:18-20 | the current state's name, none before the first transition |
| StateMachines.StateMachine.IsCurrentState | src/app/game/state-machine.ts:88-90 | whether the named state is current |
| StateMachines.StateMachine.BeginSetState | src/app/game/state-machine.ts:43-65 | judges the request (ignored, queued or proceeding) and, when it proceeds, sets the guard, records the change and returns the exit hook to run |
| StateMachines.StateMachine.EnterState | src/app/game/state-machine.ts:67-71 | switches to the named state and returns its enter hook |
| StateMachines.StateMachine.EndSetState | src/app/game/state-machine.ts:73-74 | stamps the transition time and clears the guard |
| StateMachines.StateMachine.Update | src/app/game/state-machine.ts:77-86 | drains one queued request or reports the update hook to run |
| PlayerModel.NamesIdentifyStates | src/app/game/models/player.model.ts:13-25 | the state-name strings are pairwise distinct, and no locomotion name equals a wielding name |
| EnemyModel.IdleNamesAreActionNames | src/app/game/models/enemy.model.ts:10-20 | each roam choice carries the name of the action state it selects, and only DEATH is named 'Death' |
| MainScene.Scene.constructor | src/app/game/models/main-scene.model.ts:12 | a stand-in for the scene behind the interface's `isGameOver` field: a new scene is not over |
| PlayerSpec.RegisteredTables | src/app/game/game-objects/player/player.ts:131-181 | the two machines register the six locomotion states and the two wielding states with their hooks; throttles 0 and 400 |
| PlayerSpec.SetActionEffect | src/app/game/state-machine.ts:43-75 | a locomotion request keeps the invariant and the wielding machine; it is ignored or switches state, runs the new state's enter hook and stamps the time |
| PlayerSpec.SetWieldingEffect | src/app/game/game-objects/player/player.ts:166-181 | a wielding request keeps the invariant, the body and the locomotion machine; it is ignored or switches wielding state |
| PlayerSpec.LocomotionNeverThrottled | src/app/game/game-objects/player/player.ts:132 | a locomotion request goes through exactly when it names a state other than the current one |
| PlayerSpec.InitialPlayer | src/app/game/game-objects/player/player.ts:16-37 | a new player is valid, in IDLE and NOTHING, with 10 hitpoints, at rest, facing right and enabled |
| PlayerSpec.HitWhileDeadChangesNothing | src/app/game/game-objects/player/player.ts:46-49 | a hit on a dead player changes nothing |
| PlayerSpec.HitsWhileDeadChangeNothing | src/app/game/game-objects/player/player.ts:46-49 | any sequence of hits on a dead player changes nothing |
| PlayerSpec.NonLethalHit | src/app/game/game-objects/player/player.ts:51-59 | a hit that leaves at least one hitpoint only lowers hitpoints |
| PlayerSpec.DieEffect | src/app/game/game-objects/player/player.ts:62-68 | die puts a living player in DEATH and sets game over; the wielding reset succeeds exactly when the player was unarmed already or the throttle window has passed |
| PlayerSpec.LethalHit | src/app/game/game-objects/player/player.ts:46-68 | a hit that leaves fewer than one hitpoint lowers hitpoints, kills the player and ends the game |
| PlayerSpec.LocomotionTickShape | src/app/game/game-objects/player/player.ts:39-41 | a locomotion tick runs the current state's update handler on the machine after its update step, or nothing when the state has none |
| PlayerSpec.WieldingTickKeepsBody | src/app/game/game-objects/player/player.ts:194-217 | a wielding tick changes only the wielding machine |
| PlayerSpec.WieldingToggle | src/app/game/game-objects/player/player.ts:194-217 | a wielding tick switches weapon exactly when Q is down and the 400 ms throttle window has passed |
| PlayerSpec.TakeOffEffect | src/app/game/game-objects/player/player.ts:239-243 | up on the floor requests JUMP (vertical velocity -750); otherwise falling faster than the threshold off the floor requests FALL; otherwise the state stays |
| PlayerSpec.IdleHandler | src/app/game/game-objects/player/player.ts:232-244 | the IDLE update ends in the reference next state (left/right: RUN, else shift: KICK; then jump or fall at 100 override) with the matching velocity |
| PlayerSpec.RunHandler | src/app/game/game-objects/player/player.ts:257-275 | the RUN update sets speed and facing from the keys and ends in the reference next state (KICK/IDLE with no direction; jump or fall at 50 override) |
| PlayerSpec.AirborneHandler | src/app/game/game-objects/player/player.ts:290-357 | the JUMP and FALL updates land in RUN or IDLE by the direction keys when on the floor and set speed -300/300/0 and facing from the keys |
| PlayerSpec.IdleTick | src/app/game/game-objects/player/player.ts:232-244 | a whole player tick in IDLE ends in the reference next state |
| PlayerSpec.RunTick | src/app/game/game-objects/player/player.ts:257-275 | a whole player tick in RUN ends in the reference next state with speed and facing from the keys |
| PlayerSpec.AirborneTick | src/app/game/game-objects/player/player.ts:327-357 | a whole player tick in JUMP or FALL lands by the keys and steers |
| PlayerSpec.KickTick | src/app/game/game-objects/player/player.ts:144-147 | KICK has no update handler: a tick leaves it and the body as they are |
| PlayerSpec.KickCompleteReturnsToIdle | src/app/game/game-objects/player/player.ts:283 | the end of the kick animation returns the player to IDLE, standing still |
| PlayerSpec.DeadTick | src/app/game/game-objects/player/player.ts:364-368 | a tick of a dead player keeps it dead and only disables the body once it rests on the floor |
| PlayerSpec.DieKeepsValid | src/app/game/game-objects/player/player.ts:62-68 | die keeps the player invariant |
| PlayerSpec.TakeOffKeepsValid | src/app/game/game-objects/player/player.ts:239-243 | the jump and fall rules keep the invariant |
| PlayerSpec.HandlerKeepsValid | src/app/game/game-objects/player/player.ts:219-368 | every locomotion update handler keeps the invariant |
| PlayerSpec.StepKeepsValid | src/app/game/game-objects/player/player.ts:39-68 | every operation (tick, hit, die, kick end, physics step) keeps the invariant: both machines settled on their own tables, no transition in progress, no queue |
| PlayerSpec.ApplyKeepsValid | src/app/game/game-objects/player/player.ts:39-68 | any sequence of operations keeps the invariant |
| PlayerSpec.SetActionSpares | src/app/game/state-machine.ts:43-75 | a locomotion request other than DEATH never makes the player dead and leaves the game-over flag alone |
| PlayerSpec.TakeOffSpares | src/app/game/game-objects/player/player.ts:239-243 | the jump and fall rules keep the invariant, never kill and leave the game-over flag alone |
| PlayerSpec.HandlerSpares | src/app/game/game-objects/player/player.ts:232-368 | no locomotion update hook requests DEATH or touches the game-over flag |
| PlayerSpec.TickSpares | src/app/game/game-objects/player/player.ts:39-44 | a tick is dead afterwards exactly when it was dead before, and leaves the game-over flag alone |
| PlayerSpec.StepEndsGameOnDeath | src/app/game/game-objects/player/player.ts:46-68 | every operation keeps "dead implies game over": only `die` enters DEATH, and it sets the flag |
| PlayerSpec.ApplyEndsGameOnDeath | src/app/game/game-objects/player/player.ts:46-68 | any sequence of operations keeps the invariant and "dead implies game over" |
| PlayerSpec.DeathIsFinal | src/app/game/game-objects/player/player.ts:46-49 | after death, any sequence of operations keeps the player dead in the same state, with the same hitpoints and facing and the game over; the body can only be disabled, keeps falling until then and does not move afterwards; only the wielding machine still changes state |
| PlayerSpec.LedgeFall | src/app/game/game-objects/player/player.ts:232-243 | a new player whom the physics step leaves falling faster than 100 off the floor enters FALL on the next tick with no key held |
| PlayerActor.Player.Integrate | src/app/game/game-objects/player/player.ts:29 | moves the player as PlayerSpec.Integrate: the host's physics step sets the velocity of an enabled body and leaves a disabled one still |
| PlayerActor.NewLocomotion | src/app/game/game-objects/player/player.ts:131-161 | builds the locomotion machine with its six states |
| PlayerActor.NewWielding | src/app/game/game-objects/player/player.ts:166-178 | builds the wielding machine with its two states and 400 ms throttle |
| PlayerActor.Player.constructor | src/app/game/game-objects/player/player.ts:18-37 | a new player is the initial player: IDLE, NOTHING, 10 hitpoints |
| PlayerActor.Player.Dispatch | src/app/game/game-objects/player/player.ts:219-362 | runs one locomotion enter hook on the body: IDLE and KICK stop horizontally, JUMP sets vertical velocity -750, the rest change nothing |
| PlayerActor.Player.SetAction | src/app/game/state-machine.ts:43-75 | moves the player as PlayerSpec.SetAction: the locomotion machine judges the request and, when it proceeds, the player runs the old exit hook and the new enter hook between its steps |
| PlayerActor.Player.CompleteAction | src/app/game/state-machine.ts:58-74 | the rest of a proceeding locomotion transition: exit hook, switch, enter hook, time stamp, guard cleared |
| PlayerActor.Player.SetWielding | src/app/game/state-machine.ts:43-75 | moves the player as PlayerSpec.SetWielding: a request on the wielding machine, dropped within 400 ms of the last toggle; only that machine changes |
| PlayerActor.Player.CompleteWielding | src/app/game/state-machine.ts:58-74 | the rest of a proceeding wielding transition; only the wielding machine changes |
| PlayerActor.Player.TakeOff | src/app/game/game-objects/player/player.ts:239-243 | moves the player as PlayerSpec.TakeOff: up on the floor requests JUMP, otherwise falling past the threshold off the floor requests FALL |
| PlayerActor.Player.OnIdleUpdate | src/app/game/game-objects/player/player.ts:232-244 | moves the player as PlayerSpec.OnIdleUpdate: direction requests RUN, else shift requests KICK, then the jump and fall rules at 100 |
| PlayerActor.Player.OnRunUpdate | src/app/game/game-objects/player/player.ts:257-275 | moves the player as PlayerSpec.OnRunUpdate: left/right set speed ∓300 and facing, else shift requests KICK, else IDLE; then the jump and fall rules at 50 |
| PlayerActor.Player.OnAirborneUpdate | src/app/game/game-objects/player/player.ts:290-357 | moves the player as PlayerSpec.OnAirborneUpdate: on the floor it lands in RUN or IDLE by the keys, then steers at -300/300/0 |
| PlayerActor.Player.RunActionUpdate | src/app/game/game-objects/player/player.ts:133-161 | runs the locomotion update hook the machine reports, as PlayerSpec.RunActionUpdate |
| PlayerActor.Player.RunWieldingUpdate | src/app/game/game-objects/player/player.ts:194-217 | runs the wielding update hook the machine reports: Q down requests the other weapon |
| PlayerActor.Player.UpdateLocomotion | src/app/game/game-objects/player/player.ts:40 | one tick of the locomotion machine: drains one queued request or runs the current update hook |
| PlayerActor.Player.UpdateWielding | src/app/game/game-objects/player/player.ts:41 | one tick of the wielding machine: drains one queued request or runs the current update hook |
| PlayerActor.Player.Update | src/app/game/game-objects/player/player.ts:39-44 | moves the player as PlayerSpec.Update: ticks both machines, locomotion first, with no death check |
| PlayerActor.Player.Die | src/app/game/game-objects/player/player.ts:62-68 | moves the player as PlayerSpec.Die: requests DEATH and NOTHING and sets the scene's game-over flag |
| PlayerActor.Player.Hit | src/app/game/game-objects/player/player.ts:46-60 | moves the player as PlayerSpec.Hit: ignored while dead; otherwise lowers hitpoints by the damage and dies below one |
| PlayerActor.Player.KickAnimationComplete | src/app/game/game-objects/player/player.ts:282-284 | moves the player as PlayerSpec.KickComplete: the kick-complete listener requests IDLE |
| EnemySpec.RegisteredTable | src/app/game/game-objects/enemy/enemy.ts:167-190 | the machine registers IDLE, WALK, FIRE and DEATH with their hooks and no throttle |
| EnemySpec.SetActionEffect | src/app/game/state-machine.ts:43-75 | an enemy request is ignored or switches state and runs the new state's enter hook; any request but DEATH keeps the invariant |
| EnemySpec.SetActionFrame | src/app/game/game-objects/enemy/enemy.ts:192-244 | a transition never touches hitpoints, facing, detection, the sighting time, enabled flag or the output logs |
| EnemySpec.HandleFrame | src/app/game/game-objects/enemy/enemy.ts:192-244 | no enter hook touches hitpoints, facing, detection, the sighting time, enabled flag or the output logs |
| EnemySpec.NeverThrottled | src/app/game/game-objects/enemy/enemy.ts:168 | an enemy request goes through exactly when it names a state other than the current one |
| EnemySpec.InitialEnemy | src/app/game/game-objects/enemy/enemy.ts:13-84 | a new enemy is valid, in IDLE, with 3 hitpoints, facing left, both timers running |
| EnemySpec.DieEffect | src/app/game/game-objects/enemy/enemy.ts:65-68 | die puts the enemy in DEATH, not alive, body disabled, timers cleared and emptied |
| EnemySpec.HitEffect | src/app/game/game-objects/enemy/enemy.ts:53-63 | a hit always lowers hitpoints by the damage; the enemy is dead afterwards exactly when it was dead or is left below one hitpoint; otherwise only hitpoints change |
| EnemySpec.HitAfterDeath | src/app/game/game-objects/enemy/enemy.ts:53-57 | a hit on a dead enemy lowers hitpoints and changes nothing else |
| EnemySpec.DetectionEffect | src/app/game/game-objects/enemy/enemy.ts:44-51 | a sighting of a living enemy sets detection, stamps the time and puts it in FIRE; a dead enemy ignores it |
| EnemySpec.RandomStateEffect | src/app/game/game-objects/enemy/enemy.ts:117-125 | the roam choice becomes current; facing flips only on a drawn flip when not walking and not recently at a wall |
| EnemySpec.RandomFlipKeepsValid | src/app/game/game-objects/enemy/enemy.ts:127-135 | the random flip reverses facing exactly on a drawn flip with no recent wall, and changes nothing else |
| EnemySpec.RoamEffect | src/app/game/game-objects/enemy/enemy.ts:88-92 | the roam timer does nothing while a target is detected and otherwise makes the roam choice current |
| EnemySpec.StopEffect | src/app/game/game-objects/enemy/enemy.ts:192-196 | going from WALK to IDLE stops the enemy and changes nothing else |
| EnemySpec.WalkHandler | src/app/game/game-objects/enemy/enemy.ts:203-221 | the WALK update walks at ±80 by facing, turns away from a blocked side with the wall flag set, and stops at a wall or a ledge, matching the reference rules |
| EnemySpec.FireHandler | src/app/game/game-objects/enemy/enemy.ts:228-238 | the FIRE update fires one bullet (speed 300, two bounces) when the cue is over and a target is detected, and drops the target and re-rolls the roam state after 1000 ms without a sighting |
| EnemySpec.TickShape | src/app/game/game-objects/enemy/enemy.ts:37-42 | a tick of a living enemy runs the current state's update handler after the machine's update step |
| EnemySpec.WalkTick | src/app/game/game-objects/enemy/enemy.ts:203-221 | a whole tick in WALK follows the reference walking rules |
| EnemySpec.FireTick | src/app/game/game-objects/enemy/enemy.ts:228-238 | a whole tick in FIRE fires and drops the target as the FIRE rules say |
| EnemySpec.IdleTick | src/app/game/game-objects/enemy/enemy.ts:170-173 | IDLE has no update handler: a tick changes nothing |
| EnemySpec.SightEffect | src/app/game/game-objects/enemy/enemy.ts:94-115 | the sight timer keeps the probe log as it was and appends a subsequence of [top, bottom] that holds exactly the probes travelling the way the enemy faces, one entry per such probe; the machine and the rest of the body are unchanged |
| EnemySpec.DeadStep | src/app/game/game-objects/enemy/enemy.ts:37-68 | any operation on a dead enemy changes at most its hitpoints |
| EnemySpec.StepKeepsValid | src/app/game/game-objects/enemy/enemy.ts:37-68 | every operation (tick, sighting, hit, die, timers) keeps the invariant: settled machine, alive exactly outside DEATH with at least one hitpoint, enabled exactly while alive, timers registered exactly while alive |
| EnemySpec.ApplyKeepsValid | src/app/game/game-objects/enemy/enemy.ts:37-68 | any sequence of operations at non-decreasing times keeps the invariant |
| EnemySpec.DeathIsFinal | src/app/game/game-objects/enemy/enemy.ts:240-244 | after death no sequence of operations changes anything but hitpoints |
| EnemyActor.NewMachine | src/app/game/game-objects/enemy/enemy.ts:167-187 | builds the enemy machine with its four states |
| EnemyActor.Enemy.constructor | src/app/game/game-objects/enemy/enemy.ts:25-33 | a new enemy is the initial enemy |
| EnemyActor.Enemy.Dispatch | src/app/game/game-objects/enemy/enemy.ts:192-244 | runs one enter hook: IDLE and FIRE stop the enemy, WALK clears the wall flag, DEATH clears alive and destroys the running intervals |
| EnemyActor.Enemy.DestroyRunningIntervals | src/app/game/game-objects/enemy/enemy.ts:269-273 | clears and empties the timer list, changing nothing else |
| EnemyActor.Enemy.SetAction | src/app/game/state-machine.ts:43-75 | moves the enemy as EnemySpec.SetAction: the machine judges the request and the enemy runs the hooks between its steps |
| EnemyActor.Enemy.CompleteAction | src/app/game/state-machine.ts:58-74 | the rest of a proceeding enemy transition: exit hook, switch, enter hook, time stamp, guard cleared |
| EnemyActor.Enemy.SetRandomFlipX | src/app/game/game-objects/enemy/enemy.ts:127-135 | moves the enemy as EnemySpec.RandomFlip: reverses facing on a drawn flip unless a wall was touched recently |
| EnemyActor.Enemy.SetRandomState | src/app/game/game-objects/enemy/enemy.ts:117-125 | moves the enemy as EnemySpec.SetRandomState: the random flip unless walking, then a request for the drawn roam state |
| EnemyActor.Enemy.PreventFromFalling | src/app/game/game-objects/enemy/enemy.ts:248-255 | moves the enemy as EnemySpec.PreventFromFalling: requests IDLE when there is no ground ahead in the facing direction |
| EnemyActor.Enemy.OnWalkUpdate | src/app/game/game-objects/enemy/enemy.ts:203-221 | moves the enemy as EnemySpec.OnWalkUpdate: speed ∓80 by facing, wall reversal, then the ledge check |
| EnemyActor.Enemy.Bump | src/app/game/game-objects/enemy/enemy.ts:210-218 | moves the enemy as EnemySpec.Bump: takes the new facing, requests IDLE and sets the wall flag |
| EnemyActor.Enemy.FireAtTarget | src/app/game/game-objects/enemy/enemy.ts:257-267 | appends one bullet at speed 300 with two bounces to the shots fired, changing nothing else |
| EnemyActor.Enemy.OnFireUpdate | src/app/game/game-objects/enemy/enemy.ts:228-238 | moves the enemy as EnemySpec.OnFireUpdate: fires when the cue is over and a target is detected; after 1000 ms unseen drops the target and re-rolls |
| EnemyActor.Enemy.RunHook | src/app/game/game-objects/enemy/enemy.ts:176-182 | runs the update hook the machine reports, as EnemySpec.RunHook |
| EnemyActor.Enemy.Update | src/app/game/game-objects/enemy/enemy.ts:37-42 | moves the enemy as EnemySpec.Update: ticks the machine only while alive |
| EnemyActor.Enemy.PlayerDetected | src/app/game/game-objects/enemy/enemy.ts:44-51 | moves the enemy as EnemySpec.PlayerDetected: when alive, sets detection, stamps the time and requests FIRE |
| EnemyActor.Enemy.Hit | src/app/game/game-objects/enemy/enemy.ts:53-63 | moves the enemy as EnemySpec.Hit: lowers hitpoints by the damage and dies below one, with no death guard |
| EnemyActor.Enemy.Die | src/app/game/game-objects/enemy/enemy.ts:65-68 | moves the enemy as EnemySpec.Die: requests DEATH, then disables the body |
| EnemyActor.Enemy.RoamTick | src/app/game/game-objects/enemy/enemy.ts:88-92 | moves the enemy as EnemySpec.Roam: the random state only while no target is detected |
| EnemyActor.Enemy.CreateSightInstanceAtTarget | src/app/game/game-objects/enemy/enemy.ts:103-115 | logs a probe only when facing agrees with the sign of its horizontal velocity |
| EnemyActor.Enemy.SightTick | src/app/game/game-objects/enemy/enemy.ts:94-100 | moves the enemy as EnemySpec.Sight: tries the top probe, then the bottom probe |
| EarlyEnemySpec.RegisteredTable | src/app/game/game-objects/enemy.ts:196-220 | the machine registers IDLE (with an update hook), WALK, FIRE and DEATH |
| EarlyEnemySpec.SetActionEffect | src/app/game/state-machine.ts:43-75 | a request is ignored or switches state and runs the new state's enter hook; any request but DEATH keeps the invariant |
| EarlyEnemySpec.HandleFrame | src/app/game/game-objects/enemy.ts:222-297 | no enter hook touches facing, detection, the sighting time, the aim, enabled flag, timer handles or the output logs |
| EarlyEnemySpec.SetActionFrame | src/app/game/game-objects/enemy.ts:222-297 | a transition never touches facing, detection, the sighting time, the aim, enabled flag, timer handles or the output logs |
| EarlyEnemySpec.InitialEarlyEnemy | src/app/game/game-objects/enemy.ts:52-106 | a new earlier enemy is valid, in IDLE, facing left, with both timers live and no aim |
| EarlyEnemySpec.DieEffect | src/app/game/game-objects/enemy.ts:293-302 | die puts the enemy in DEATH, disabled, with no live timer but both handles still held |
| EarlyEnemySpec.DetectionEffect | src/app/game/game-objects/enemy.ts:108-116 | a sighting of a living enemy sets detection, stamps the time, stores the aim and puts it in FIRE; a dead enemy ignores it |
| EarlyEnemySpec.RandomFlipEffect | src/app/game/game-objects/enemy.ts:142-150 | the random flip reverses facing exactly on a drawn flip with no recent wall |
| EarlyEnemySpec.RandomStateEffect | src/app/game/game-objects/enemy.ts:132-140 | the roam choice becomes current; facing flips only on a drawn flip when not walking and not recently at a wall |
| EarlyEnemySpec.StopEffect | src/app/game/game-objects/enemy.ts:222-226 | going from WALK to IDLE stops the enemy and changes nothing else |
| EarlyEnemySpec.WalkHandler | src/app/game/game-objects/enemy.ts:237-264 | the WALK update follows the same reference walking rules as the enemy |
| EarlyEnemySpec.FireHandler | src/app/game/game-objects/enemy.ts:271-291 | the FIRE update records one shot computed from base speed 700 and the stored aim exactly when the cue is over and a target is detected, and drops the target and re-rolls after 1000 ms without a sighting |
| EarlyEnemySpec.TickShape | src/app/game/game-objects/enemy.ts:82-87 | a tick of a living enemy runs the current state's update handler after the machine's update step |
| EarlyEnemySpec.IdleTick | src/app/game/game-objects/enemy.ts:228-230 | the empty IDLE update handler runs and changes nothing but the trace |
| EarlyEnemySpec.DeadStep | src/app/game/game-objects/enemy.ts:82-87 | no operation changes a dead earlier enemy |
| EarlyEnemySpec.SightEffect | src/app/game/game-objects/enemy.ts:99-129 | the sight timer keeps the probe log as it was and appends a subsequence of [top, bottom] that holds exactly the probes travelling the way the enemy faces, one entry per such probe; the machine and the rest of the body are unchanged |
| EarlyEnemySpec.StepKeepsValid | src/app/game/game-objects/enemy.ts:82-116 | every operation keeps the invariant: settled machine, alive exactly outside DEATH, handles kept, timers live exactly while alive, an aim whenever a target is detected |
| EarlyEnemySpec.ApplyKeepsValid | src/app/game/game-objects/enemy.ts:82-116 | any sequence of operations at non-decreasing times keeps the invariant |
| EarlyEnemySpec.DeathIsFinal | src/app/game/game-objects/enemy.ts:293-297 | after death no sequence of operations changes anything |
| EarlyEnemyActor.NewMachine | src/app/game/game-objects/enemy.ts:196-217 | builds the machine with its four states |
| EarlyEnemyActor.EarlyEnemy.constructor | src/app/game/game-objects/enemy.ts:65-80 | a new earlier enemy is the initial one |
| EarlyEnemyActor.EarlyEnemy.Dispatch | src/app/game/game-objects/enemy.ts:222-297 | runs one enter hook: IDLE and FIRE stop the enemy, WALK clears the wall flag, DEATH clears alive and cancels the timers without dropping their handles |
| EarlyEnemyActor.EarlyEnemy.SetAction | src/app/game/state-machine.ts:43-75 | moves the enemy as EarlyEnemySpec.SetAction: the machine judges the request and the enemy runs the hooks between its steps |
| EarlyEnemyActor.EarlyEnemy.CompleteAction | src/app/game/state-machine.ts:58-74 | the rest of a proceeding transition: exit hook, switch, enter hook, time stamp, guard cleared |
| EarlyEnemyActor.EarlyEnemy.SetRandomFlipX | src/app/game/game-objects/enemy.ts:142-150 | moves the enemy as EarlyEnemySpec.RandomFlip: reverses facing on a drawn flip unless a wall was touched recently |
| EarlyEnemyActor.EarlyEnemy.SetRandomState | src/app/game/game-objects/enemy.ts:132-140 | moves the enemy as EarlyEnemySpec.SetRandomState: the random flip unless walking, then a request for the drawn roam state |
| EarlyEnemyActor.EarlyEnemy.PreventFromFalling | src/app/game/game-objects/enemy.ts:257-264 | moves the enemy as EarlyEnemySpec.PreventFromFalling: requests IDLE when there is no ground ahead in the facing direction |
| EarlyEnemyActor.EarlyEnemy.OnWalkUpdate | src/app/game/game-objects/enemy.ts:237-255 | moves the enemy as EarlyEnemySpec.OnWalkUpdate: speed ∓80 by facing, wall reversal, then the ledge check |
| EarlyEnemyActor.EarlyEnemy.Bump | src/app/game/game-objects/enemy.ts:244-252 | moves the enemy as EarlyEnemySpec.Bump: takes the new facing, requests IDLE and sets the wall flag |
| EarlyEnemyActor.EarlyEnemy.FireAtTarget | src/app/game/game-objects/enemy.ts:283-291 | appends one shot, recorded as the velocity call's arguments (base speed 700, stored aim), to the shots fired, whichever way the enemy faces |
| EarlyEnemyActor.EarlyEnemy.OnFireUpdate | src/app/game/game-objects/enemy.ts:271-281 | moves the enemy as EarlyEnemySpec.OnFireUpdate: records one shot from the stored aim when the cue is over and a target is detected; after 1000 ms unseen drops the target and re-rolls |
| EarlyEnemyActor.EarlyEnemy.RunHook | src/app/game/game-objects/enemy.ts:199-217 | runs the update hook the machine reports, including the empty IDLE one |
| EarlyEnemyActor.EarlyEnemy.Update | src/app/game/game-objects/enemy.ts:82-87 | moves the enemy as EarlyEnemySpec.Update: ticks the machine only while alive |
| EarlyEnemyActor.EarlyEnemy.PlayerDetected | src/app/game/game-objects/enemy.ts:108-116 | moves the enemy as EarlyEnemySpec.PlayerDetected: when alive, sets detection, stamps the time, stores the aim and requests FIRE |
| EarlyEnemyActor.EarlyEnemy.Die | src/app/game/game-objects/enemy.ts:299-302 | moves the enemy as EarlyEnemySpec.Die: requests DEATH, then disables the body |
| EarlyEnemyActor.EarlyEnemy.RoamTick | src/app/game/game-objects/enemy.ts:93-97 | moves the enemy as EarlyEnemySpec.Roam: the random state only while no target is detected |
| EarlyEnemyActor.EarlyEnemy.CreateSightInstanceAtTarget | src/app/game/game-objects/enemy.ts:118-130 | logs a probe only when facing agrees with the sign of its horizontal velocity |
| EarlyEnemyActor.EarlyEnemy.SightTick | src/app/game/game-objects/enemy.ts:99-105 | moves the enemy as EarlyEnemySpec.Sight: tries the top probe, then the bottom probe |
| EarlyEnemyActor.EarlySightInstance.constructor | src/app/game/game-objects/enemy.ts:15-30 | a new inline probe holds its owner and its velocity and exists |
| EarlyEnemyActor.EarlySightInstance.PlayerDetected | src/app/game/game-objects/enemy.ts:46-49 | tells the owner of the sighting, then destroys the probe |
| EarlyEnemyActor.EarlySightInstance.PlatformHit | src/app/game/game-objects/enemy.ts:42 | a platform contact destroys the probe silently |
| EarlyEnemyActor.EarlySightInstance.Expire | src/app/game/game-objects/enemy.ts:40 | the 360 ms range timer destroys the probe silently |
| Probes.ReactEffect | src/app/game/game-objects/enemy/enemy-sight-instance.ts:34-43 | every callback destroys the probe and keeps its velocity; only the player overlap tells the owner |
| Probes.DestroyedStaysDestroyed | src/app/game/game-objects/enemy/enemy-sight-instance.ts:34-43 | a destroyed probe ignores every later callback |
| Probes.FirstContactDecides | src/app/game/game-objects/enemy/enemy-sight-instance.ts:34-43 | a new probe tells its owner at most once, exactly when its first callback is the player overlap, and is destroyed by any first callback |
| SightInstances.SightInstance.constructor | src/app/game/game-objects/enemy/enemy-sight-instance.ts:9-24 | a new probe holds its owner and its velocity and exists |
| SightInstances.SightInstance.PlayerDetected | src/app/game/game-objects/enemy/enemy-sight-instance.ts:40-43 | tells the owner of the sighting, then destroys the probe |
| SightInstances.SightInstance.PlatformHit | src/app/game/game-objects/enemy/enemy-sight-instance.ts:36 | a platform contact destroys the probe silently |
| SightInstances.SightInstance.Expire | src/app/game/game-objects/enemy/enemy-sight-instance.ts:34 | the 360 ms range timer destroys the probe silently |
| BulletSpec.SpawnEffect | src/app/game/game-objects/shared/bullet.ts:22-51 | the budget is the bounces argument (0 by default); bounce physics is on exactly for a non-zero budget; a bullet spawned inside a tile is disabled at once |
| BulletSpec.FlightFixed | src/app/game/game-objects/shared/bullet.ts:27-42 | no contact sequence changes velocity, rotation, frame or bounce physics |
| BulletSpec.EndedStaysEnded | src/app/game/game-objects/shared/bullet.ts:65-67 | once some contacts have disabled the bullet, any contacts after them change nothing |
| BulletSpec.BounceBudget | src/app/game/game-objects/shared/bullet.ts:57-63 | k platform contacts on a live bullet with budget n: it survives exactly when k is 0 or at most n, the budget drops by one per bounce and never below zero from a non-negative start |
| BulletSpec.TwoBouncesThenGone | src/app/game/game-objects/shared/bullet.ts:57-63 | with two bounces the bullet survives two platform contacts and ends on the third |
| BulletSpec.TargetEndsFlight | src/app/game/game-objects/shared/bullet.ts:69-72 | a target contact disables a live bullet whatever budget is left, for good |
| BulletSpec.BulletsWearDownEnemy | src/app/game/game-objects/enemy/enemy.ts:53-63 | k bullets cost an enemy k hitpoints, and it is dead exactly when it was dead already or k reached its hitpoints |
| BulletSpec.ThirdBulletKillsNewEnemy | src/app/game/game-objects/enemy/enemy.ts:19 | a new enemy survives two bullets and dies on the third |
| BulletActor.Bullet.constructor | src/app/game/game-objects/shared/bullet.ts:14-55 | a new bullet has the given velocity, rotation, frame and budget, bounce physics exactly for a non-zero budget, and is disabled when spawned inside a tile |
| BulletActor.Bullet.DestroyBullet | src/app/game/game-objects/shared/bullet.ts:65-67 | disables the bullet and changes nothing else |
| BulletActor.Bullet.PlatformHit | src/app/game/game-objects/shared/bullet.ts:57-63 | spends one bounce while the budget is positive, and otherwise disables the bullet |
| BulletActor.Bullet.HitEnemy | src/app/game/game-objects/shared/bullet.ts:69-72 | the struck enemy takes EnemySpec.Hit with damage 1, then the bullet is disabled |
| BulletActor.Bullet.HitPlayer | src/app/game/game-objects/shared/bullet.ts:69-72 | the struck player takes PlayerSpec.Hit with damage 1, then the bullet is disabled |

## Left out

- Rendering, animation creation and playback, frames, tints, `setSize`, origins and collider/overlap registration are engine services. Only their effect on the modelled state is kept: the enabled flag, and contact events delivered as method calls.
- Physics integration between ticks (gravity, acceleration, collisions moving the body) belongs to the host. For the player it is the `Physics` operation (`PlayerSpec.Integrate`), which writes a new velocity into an enabled body; the handlers also set velocities, and the host's readings (`onFloor`, `blocked`, ground ahead) are per-tick inputs. The enemies' velocities are set only by their handlers, since none of their rules reads a velocity the host changes.
- Floating-point trigonometry is not part of this model: `Phaser.Math.Angle.Between`, `getBulletVelocity` in src/app/game/helpers/bullet.ts, and the cosine and sine of probe directions. A probe is represented by its horizontal velocity, of which only the sign matters to the facing filter. The earlier enemy's aim is an opaque integer supplied with each sighting.
- Timers are not scheduled: `setInterval`, `setTimeout` and their delays (2000 ms, 100 ms, 360 ms, 50 ms, 10 ms) are operations the host applies at its chosen times. The 360 ms probe range is the `Expire` method.
- The 50 ms tint reset and the dead player's 10 ms delayed `disableBody` are modelled as immediate: a dead player's tick disables the body once it is on the floor.
- Logging (`console.log`/`console.warn`) and the Angular `EventEmitter` wiring are left out. `stateChanged` is the event trace.
- The player's arms, rifle and rifle bullet (src/app/game/game-objects/player-arms.ts, player-rifle.ts, player-rifle-bullet.ts) are presentational or trigonometric and are not part of this model. The wielding machine's notifications to the arms are left out with them.
- src/app/game/game-objects/player.ts (the superseded player) and src/app/game/game.component.ts (boot code) are not part of this model.
- The main scene has no implementation among these sources, only the interface with its `isGameOver` field. `MainScene.Scene` is a stand-in holding that flag, which starts false and which only the player's `die` sets.
- State names are enumerated keys, not strings, so an unknown name can only be a key that is not registered. The string names are kept, and `PlayerModel.NamesIdentifyStates` and `EnemyModel.IdleNamesAreActionNames` show the key and name views agree.
- The bullet's target object is left out. Its overlap callback is the `HitEnemy` or `HitPlayer` method, called with the struck object.
- The enemy's `fireAtTarget` has two identical branches on facing. The model has one.
- The probe's `notified` counter is a field of the model only. It records how often the owner was told, so that "at most once" can be stated.
- EarlyEnemySpec.FireHandler: a shot is recorded by the arguments of `getBulletVelocity(700, aim)` only. The `PlayerRifleBullet` built from it (src/app/game/game-objects/player-rifle-bullet.ts:10-16) takes an angle and a flip flag where the call passes the velocity's x and y, so the bullet does not fly along the aim; it registers a platform collider only (line 43), so it cannot hit the player. The model does not follow the shot after it is recorded.
- EarlyEnemyActor.EarlyEnemy.OnFireUpdate: the shot it records is the same argument record, and it never reaches the player, as for `EarlyEnemySpec.FireHandler`.
- EarlyEnemyActor.EarlyEnemy.FireAtTarget: records the velocity call's arguments, not a bullet that flies along the aim, as for `EarlyEnemySpec.FireHandler`. It also requires a stored aim. The source would compute the velocity from an undefined angle, but it only fires with a target detected, and every sighting stores the angle (`EarlyEnemySpec.Valid`). The fire handler also checks the aim before calling it.
- EnemySpec.SetActionEffect: proves the invariant only for requests other than DEATH. `EnemySpec.DieEffect` covers DEATH.
- Integers are unbounded. Hitpoints, budgets and times are JavaScript numbers that stay far inside the exact integer range in play, and the model does not represent fractional times or velocities.
