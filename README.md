# dogfight game logic in Dafny

A verified model of the game logic of *dogfight*, a small SDL2 space shooter
written in Rust. The player flies a ship, turns, thrusts, brakes and fires
lasers. The model covers the five pieces of state that drive a frame:

- **Cooldown timer** (`timer_object.dfy`, module `Timers`): a two-state
  machine, stopped or running with some time left. Its update reports a
  one-shot `TimerFire` when the time runs out.
- **Input snapshot** (`input_handler.dfy`, module `Inputs`): five held-control
  flags switched by key presses and releases. A quit event stops the game.
- **Player** (`player.dfy`, module `Players`): the fire cooldown, the motion
  integrator (thrust or brake, drag, turning) and the firing logic. Firing
  spawns a laser at the ship's new pose.
- **Laser** (`basic_laser.dfy`, module `Lasers`): a projectile that flies in a
  straight line at constant speed along its spawn heading.
- **Game** (`game.dfy`, module `Games`): a wrapping `u8` frame counter, the
  player and the ordered list of spawned entities.
  - `update`: advances the counter, updates the player, appends a spawned
    laser, then updates every entity in order.
  - `draw`: issues the background colour, the background, every entity and
    the player, and stops at the first copy the render target rejects.

`game_object.dfy` and `game_event.dfy` hold the shared value types (`Bounds`,
textures, colours, draw commands, and `GameEvent`). `util.dfy` holds:

- the frame-time type;
- the `u8` range;
- glam's `Vec2` operations;
- `drag`.

### How the modules are built

- Each Rust struct whose methods update it in place is a Dafny `class`.
- `Player`, `BasicLaser` and `Game` each have a value view: `Snapshot`,
  `State` or `Model`. `TimerObject` needs none: its `length` is a constant
  and its `status` field, a `Timers.Status` value, is its whole state.
- The classes keep the structs' fields, with two exceptions in `Game`:
  - its `camera` is not modelled (see "Left out");
  - its `background` handle is never reassigned after `Game::new` sets it to
    the stars background, so it is the constant texture name
    `StarsBackground` that `Games.SceneOf` issues, not a field.
- Each method is proved against a pure function on that view:
  - `Timers.Start` and `Timers.Advance` for the timer;
  - `Inputs.Apply` for the input handler;
  - `Lasers.Step` for the laser;
  - `Players.Step` for the player;
  - `Games.Step` for a game update, and `Games.SceneOf` with the
    `Games.DrawOutcome` predicate for a draw.
- The properties the game relies on are proved as lemmas about those
  functions.

### Numbers

- An `f32` is a Dafny `real`: arithmetic is exact, with no rounding.
- Every constant is the exact value of the `f32` the source produces, written
  as a decimal. So `0.6` is `0.60000002384185791015625`, the 200 ms cooldown
  is `0.20000000298023223876953125`, and `std::f32::consts::PI` is
  `3.1415927410125732421875`. Integers such as `420.` and `800.` are exact
  already.
- A frame time is a non-negative real (`Util.Seconds`).
- `cos`, `sin`, `powf` and `sqrt` are not interpreted. They are fields of a
  `Util.Numerics` record that every numeric operation takes as a parameter.
  So the straight-line law for lasers holds for any cosine and sine.
- The frame counter is a `u8` with explicit wrap-around.

## Model

| member | source | states |
|---|---|---|
| Util.ZeroIsStable | src/util.rs:16-19 | drag leaves a zero speed at zero; the zero vector normalises to zero (not a NaN) and scales to zero |
| Util.Drag | src/util.rs:16-19 | a zero speed stays zero; a retention factor whose power is 1 keeps the speed and one whose power is 0 stops it |
| Util.NormalizeOrZero | src/player.rs:96-97 | a vector of zero length normalises to the zero vector (never a NaN); otherwise the result scaled back by the length is the vector itself |
| Timers.StartIsIdempotent | src/timer_object.rs:24-31 | starting a stopped timer gives a full `Running(length)`; starting a running one changes nothing; so starting twice equals starting once |
| Timers.Start | src/timer_object.rs:24-31 | after a start the timer runs; a running timer is left as it was and a stopped one gets its full length |
| Timers.Advance | src/timer_object.rs:42-53 | after an update the timer is stopped exactly when it was stopped or this update fires it; if it still runs, it holds its old time left minus the elapsed time, still positive |
| Timers.StepsKeepBounded | src/timer_object.rs:24-55 | with a positive length, starting and updating by a non-negative time keep `0 < left <= length`; an update fires exactly when it stops a running timer |
| Timers.QuietWhileIdle | src/timer_object.rs:42-43 | a stopped timer stays stopped and never fires, over any run of updates |
| Timers.FiresAtMostOnce | src/timer_object.rs:42-53 | `TimerFire` is edge-triggered: without a restart, a run of updates fires at most once |
| Timers.RunWhileRunning | src/timer_object.rs:44-52 | a timer with `left` to go holds `left` minus the elapsed time until that reaches zero; then it stops, having fired exactly once |
| Timers.TimerObject.constructor | src/timer_object.rs:17-22 | a new timer holds the given length and is stopped; with a positive length it satisfies the bound invariant |
| Timers.TimerObject.StartOnlyIfNotRunning | src/timer_object.rs:24-31 | the status becomes `Start` of the old one, a running timer is left alone, the bound invariant is kept |
| Timers.TimerObject.Update | src/timer_object.rs:35-55 | the status becomes `Advance` of the old one; the result is `TimerFire` exactly when the update expires a running timer and `None` otherwise; the bound invariant is kept |
| Inputs.SetKey | src/input_handler.rs:31-38 | the control bound to the key takes the new value and every other control keeps its value; unbound keys change nothing |
| Inputs.Apply | src/input_handler.rs:24-57 | a bound key pressed holds its control; a bound key released lets it go; every other control, and every other event (quit, unbound key, no keycode), leaves the flags as they were |
| Inputs.ApplyIsIdempotent | src/input_handler.rs:24-57 | consuming the same event twice leaves the same flags as consuming it once |
| Inputs.PressThenRelease | src/input_handler.rs:27-54 | pressing then releasing a key lets go of its control and restores every other flag |
| Inputs.InputHandler.constructor | src/input_handler.rs:14-22 | a new handler holds none of the five controls |
| Inputs.InputHandler.Consume | src/input_handler.rs:24-57 | the flags become `Apply` of the old flags; the answer is false exactly for a quit event |
| Lasers.NewLaser | src/basic_laser.rs:18-38 | a laser spawns at the given position and heading, as a square sprite of positive size with the laser texture, moving at a positive speed |
| Lasers.Step | src/basic_laser.rs:49-51 | an update is a flight of `dt`: it changes only the position; heading, speed, size and texture are kept, and a zero frame time changes nothing |
| Lasers.FlightsAdd | src/basic_laser.rs:49-51 | two flights in a row are one flight of the summed time |
| Lasers.StraightLine | src/basic_laser.rs:42-54 | after any run of updates, the laser has moved `speed * (total time)` along its heading, and nothing else has changed |
| Lasers.OnlyTheTotalMatters | src/basic_laser.rs:49-51 | two runs of updates with the same total time leave the laser in the same state |
| Lasers.DrawOf | src/basic_laser.rs:56-70 | a laser draws as one fallible rotated copy of its texture at its bounds, at an angle of its heading plus the texture's rotation offset, kept in radians |
| Lasers.BasicLaser.constructor | src/basic_laser.rs:18-38 | a new laser is 20x20 at `(x, y)` with the given heading, speed 800 and no draw offset |
| Lasers.BasicLaser.Update | src/basic_laser.rs:42-54 | the laser becomes `Step` of its old state, and the result is always `None` |
| Players.Move | src/player.rs:90-124 | the motion integrator changes only position, velocity, angular velocity and heading: size and every tunable (thrust, drag, brake drag, angular thrust, angular drag) are kept |
| Players.RestStaysAtRest | src/player.rs:91-124 | a ship at rest that neither thrusts nor turns stays in place, at rest, with its heading |
| Players.Accelerate | src/player.rs:91-108 | thrust when only forward is held, brake drag when only backward is held, then ambient drag, gives `Velocity` |
| Players.Turn | src/player.rs:110-120 | turning left and/or right, then angular drag, gives `AngularVelocity` |
| Players.Integrate | src/player.rs:90-124 | the movement statements in order give `Move`: velocity, then angular velocity, then position by the new velocity and heading by the new angular velocity |
| Players.FireStep | src/player.rs:80-139 | for any firing state: a shot happens exactly when fire is held and the player was ready or the cooldown fires this frame; a shot clears the flag and leaves the timer running; without a shot the timer only counts down and the flag is set exactly when it was set or the cooldown fired |
| Players.FireStepSpec | src/player.rs:80-139 | under the invariant (`fire_ready` exactly when the timer is stopped): a shot happens exactly when fire is held and the player was ready or the cooldown expired this frame; a shot leaves a full cooldown running with the flag cleared; otherwise the flag is re-armed by an expiry and the timer only counts down; the invariant is kept |
| Players.NoShotDuringCooldown | src/player.rs:127-129 | while a cooldown with `left` to go runs, no shot is fired (fire held or not) until the elapsed time reaches `left` |
| Players.ReadyAfterCooldown | src/player.rs:80-88 | with fire not held, once the elapsed time reaches the cooldown left, the player is ready again and the timer stopped |
| Players.IdleStaysReady | src/player.rs:127-139 | a ready player that does not fire stays ready with the timer stopped |
| Players.CooldownAfterShot | src/player.rs:127-129 | after a shot, no further shot is fired, even with fire held, until the elapsed time reaches the cooldown length |
| Players.InitialPlayerIsValid | src/player.rs:67-68 | the new player is ready to fire with its timer stopped, so it satisfies the firing invariant |
| Players.Step | src/player.rs:74-140 | an update never reports `TimerFire`; a spawned laser sits at the player's new position and heading; the cooldown length and texture are kept |
| Players.StepSpec | src/player.rs:74-140 | a player update never reports `TimerFire`; it shoots exactly when fire is held and the player was ready or the cooldown expired; the laser sits at the player's post-movement position and heading; a shot clears the flag and starts a full cooldown, and no shot only counts the timer down; size, texture, offset and cooldown length are kept; the invariant is kept |
| Players.FirstShotThenCooldown | src/player.rs:127-136 | a ready player holding fire shoots and starts a 0.2 s cooldown; one 0.016 s frame later, still holding fire, it does not shoot and the cooldown less 0.016 s remains |
| Players.DrawOf | src/player.rs:143-160 | the player draws as one fallible rotated copy of its texture at its bounds, at an angle of its heading plus the texture's rotation offset, kept in radians |
| Players.Player.constructor | src/player.rs:43-70 | the new player is at the origin, 100x100, at rest, facing angle 0, with thrust 420, drag 0.6, brake drag 0.3, angular thrust 12 and angular drag 0.15 (each as its exact `f32` value), ready, and with a stopped 0.2 s timer; it satisfies the invariant |
| Players.Player.Update | src/player.rs:74-140 | the player becomes `Step` of its old state; it returns a spawn event exactly when `Step` does, carrying a fresh laser in the `Step` laser's state; the invariant is kept |
| Games.NextFrame | src/game.rs:45 | the `Wrapping<u8>` increment: one more below 255, and 255 wraps to 0 |
| Games.StepLasers | src/game.rs:55-57 | every entity is updated exactly once, in place, and the list keeps its length and order |
| Games.PlayerPhase | src/game.rs:45-54 | the frame wraps forward and the player moves to its update; the old entities are kept in order and at most one is appended |
| Games.Step | src/game.rs:39-60 | the frame wraps forward; the list keeps every old entity at its index, updated once, and grows by at most one |
| Games.StepSpawns | src/game.rs:45-57 | for any world, one game update advances the frame and moves the player to its update; the list grows by one exactly when the player shoots; every old entity stays at its index, updated once; a new laser comes last, spawned at the player's new pose and already moved in this frame |
| Games.FrameCounts | src/game.rs:45 | after `n` updates the frame counter is the old one plus `n`, modulo 256 |
| Games.FrameCycle | src/game.rs:35-45 | 256 updates bring `frame()` back to its starting value |
| Games.EntitiesStay | src/game.rs:52-57 | entities are never removed: over a run the list only grows, and each entity present at the start keeps its index and is updated once per frame |
| Games.EntitiesFlyStraight | src/game.rs:55-57 | each entity present at the start of a run has flown straight for the total time of the run |
| Games.RunKeepsConsistent | src/game.rs:46-51 | the player's firing invariant holds through any run of game updates |
| Games.BackgroundColour | src/game.rs:63-68 | green is 64, red plus blue is 128, and red is the distance of the frame to the nearer end of the `u8` range (so `128 - red` cannot underflow) |
| Games.ColourSymmetric | src/game.rs:65-67 | frames `i` and `255 - i` share a background colour |
| Games.ColourFadesSmoothly | src/game.rs:63-68 | from one frame to the next, red and blue each change by at most one, across the wrap as well |
| Games.LaserDraws | src/game.rs:73-75 | one copy per entity, in list order |
| Games.SceneOf | src/game.rs:62-79 | a full draw is five commands plus one per entity, starting with the frame's background colour and ending with the present |
| Games.SceneLayout | src/game.rs:62-79 | the painter's order: colour, clear, background, the entities in list order, the player on top, then present |
| Games.Issue | src/game.rs:70-71 | a fallible copy followed by `?`: the copy is issued, and drawing goes on exactly when the target accepts it; otherwise the draw stops at the scene's first rejection |
| Games.FirstRejectionIsUnique | src/game.rs:62-79 | a draw that gives up can stop at only one place, the first rejected copy |
| Games.UpdateAll | src/game.rs:55-57 | the loop updates each entity once, in order, and leaves the entity states as `StepLasers` of the old ones |
| Games.Game.constructor | src/game.rs:25-33 | a new game is at frame 0 with a newly allocated player (and player timer) and no entities |
| Games.Game.Frame | src/game.rs:35-37 | `frame()` reads the wrapping counter of the game's value view |
| Games.Game.Update | src/game.rs:39-60 | the game becomes `Step` of its old value, the player's invariant and the entities' freedom from aliasing are kept, every entity in the list afterwards was there before or is newly allocated, and the result is `None` |
| Games.Game.UpdatePlayer | src/game.rs:45-54 | the frame wraps forward, the player is updated, and a spawned laser is appended; any entity in the list afterwards was there before or is new |
| Games.Game.Push | src/game.rs:52 | `push_back` appends the spawned laser and keeps the entities free of aliases |
| Games.Game.UpdateEntities | src/game.rs:55-57 | the entity loop moves every entity one step and changes nothing else |
| Games.Game.Draw | src/game.rs:62-79 | a draw succeeds exactly when the target accepts every copy, having issued the whole scene; otherwise it has issued the scene up to and including the first rejected copy, every earlier copy accepted |
| Games.Game.DrawCopies | src/game.rs:70-78 | background, entities, player and present, each copy fail-fast, give that same outcome |
| Games.Game.DrawEntities | src/game.rs:73-75 | the entity loop either issues every entity's copy, all accepted, or stops at the first rejection |

## Left out

- Floating point: `f32` is an exact `real`, so rounding, NaN and infinities are not modelled.
- `cos`, `sin`, `powf` and `sqrt` are uninterpreted. Because of that:
  - no law of `drag`, `normalize_or_zero` or `from_angle` beyond the zero cases is proved;
  - the drag composition law is not proved.
- `util::lerp` is not used by the core and is not modelled.
- `util::rect`, the `to_degrees` conversion and the `f64`/`i32`/`u32` casts are not modelled. A copy command carries the entity's bounds and its angle in radians.
- The camera is not modelled: its update is an infallible no-op, and its canvas calls go straight to the render target as draw commands, with no world-to-screen transform. The `Camera` type's module is not part of this model.
  - The repository's files disagree on whether updates take a camera. The model follows the logic, not the signatures.
- The render target is an `accepts` predicate over copy commands. Setting the colour, clearing and presenting cannot fail.
- Texture loading and texture handles: a texture is a name (`StarsBackground`, `PlayerTexture`, `LaserTexture`).
- The main loop, event pumping, wall-clock timing, `REFRESH_EVERY` pacing and process start-up are not modelled. Frame times and events are parameters.
- `Box<dyn Drawable>` trait objects and the `LinkedList`: the entity list is a `seq` of the one entity type that exists, the laser.
- Update errors: every update in the shown code returns `Ok`, so the `?` after an update never aborts. The updates are infallible methods.
- Entities never leave the list, since no code removes them. The model keeps that behaviour.
- Players.Move is stated in full, over the uninterpreted primitives, rather than as an opaque step. Only its preservation of size and tunables is a stated ensures; `Players.Integrate` proves the statement-by-statement method equal to it.
