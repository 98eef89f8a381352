/**
  The player ship (src/player.rs): each update advances the fire cooldown,
  integrates the ship's motion, and, when fire is held and the cooldown has
  run out, restarts the cooldown and spawns a laser at the ship's new pose.
*/
module Players {
  import opened Util
  import opened GameObject
  import opened GameEvents
  import Timers
  import Inputs
  import Lasers

  /** `std::f32::consts::PI`, the `f32` nearest to pi, written out exactly. */
  const PI: real := 3.1415927410125732421875

  /** The cooldown between two shots: 200 ms as the `f32` `Duration::as_secs_f32` yields. */
  const FireCooldown: real := 0.20000000298023223876953125

  datatype Physics = Physics(speed: Vec2, acceleration: real, dragConstant: real, breakDragConstant: real)

  datatype RotationPhysics = RotationPhysics(value: real, speed: real, acceleration: real, dragConstant: real)

  /** Everything the player holds, with its timer's length and status. */
  datatype PlayerState = PlayerState(
    bounds: Bounds,
    physics: Physics,
    rotationPhysics: RotationPhysics,
    gameTexture: GameTexture,
    timerLength: real,
    timer: Timers.Status,
    fireReady: bool)

  /** The player as `Player::new` builds it. */
  const InitialPlayer: PlayerState := PlayerState(
    Bounds(0.0, 0.0, 100.0, 100.0),
    Physics(Zero, 420.0, 0.60000002384185791015625, 0.300000011920928955078125),
    RotationPhysics(0.0, 0.0, 12.0, 0.1500000059604644775390625),
    GameTexture(PlayerTexture, PI / 2.0),
    FireCooldown,
    Timers.NotRunning,
    true)

  // ---------------------------------------------------------------- motion

  /** The part of the player the motion integrator changes. */
  datatype Motion = Motion(bounds: Bounds, physics: Physics, rotationPhysics: RotationPhysics)

  /** Drag applied to a velocity: its direction kept, its length decayed. */
  function DragVelocity(num: Numerics, v: Vec2, c: real, dt: real): Vec2
  {
    Scale(NormalizeOrZero(num, v), Drag(num, Length(num, v), c, dt))
  }

  /** The velocity after thrust (forward held alone) or braking (backward held alone). */
  function Thrust(num: Numerics, intents: Inputs.Intents, p: Physics, heading: real, dt: Seconds): Vec2
  {
    if intents.up && !intents.down then
      Add(p.speed, Scale(Scale(FromAngle(num, heading), p.acceleration), dt))
    else if intents.down && !intents.up then
      DragVelocity(num, p.speed, p.breakDragConstant, dt)
    else p.speed
  }

  /** The angular velocity after turning left and/or right, before angular drag. */
  function Spin(intents: Inputs.Intents, rp: RotationPhysics, dt: Seconds): real
  {
    var w := if intents.left then rp.speed - rp.acceleration * dt else rp.speed;
    if intents.right then w + rp.acceleration * dt else w
  }

  /** The velocity after thrust or braking and then ambient drag. */
  function Velocity(num: Numerics, intents: Inputs.Intents, p: Physics, heading: real, dt: Seconds): Vec2
  {
    DragVelocity(num, Thrust(num, intents, p, heading, dt), p.dragConstant, dt)
  }

  /** The angular velocity after turning and then angular drag. */
  function AngularVelocity(num: Numerics, intents: Inputs.Intents, rp: RotationPhysics, dt: Seconds): real
  {
    Drag(num, Spin(intents, rp, dt), rp.dragConstant, dt)
  }

  /**
    The motion integrator over the uninterpreted primitives: thrust or brake,
    ambient drag, turning with angular drag, then integration of position and
    heading. It changes only the position, the velocity, the angular velocity
    and the heading; the size and every tunable stay as they were.
  */
  function Move(num: Numerics, intents: Inputs.Intents, m: Motion, dt: Seconds): (r: Motion)
    ensures r.bounds.width == m.bounds.width && r.bounds.height == m.bounds.height
    ensures r.physics.acceleration == m.physics.acceleration
    ensures r.physics.dragConstant == m.physics.dragConstant
    ensures r.physics.breakDragConstant == m.physics.breakDragConstant
    ensures r.rotationPhysics.acceleration == m.rotationPhysics.acceleration
    ensures r.rotationPhysics.dragConstant == m.rotationPhysics.dragConstant
  {
    var p, rp := m.physics, m.rotationPhysics;
    var v := Velocity(num, intents, p, rp.value, dt);
    var w := AngularVelocity(num, intents, rp, dt);
    Motion(m.bounds.(x := m.bounds.x + v.x * dt, y := m.bounds.y + v.y * dt),
           p.(speed := v),
           rp.(speed := w, value := rp.value + w * dt))
  }

  /**
    Zero-velocity stability: a ship at rest that is not thrusting stays at
    rest and in place, and one that is not turning keeps its heading.
  */
  lemma RestStaysAtRest(num: Numerics, intents: Inputs.Intents, m: Motion, dt: Seconds)
    requires m.physics.speed == Zero && !(intents.up && !intents.down)
    requires m.rotationPhysics.speed == 0.0 && !intents.left && !intents.right
    ensures var r := Move(num, intents, m, dt);
      r.physics.speed == Zero && r.bounds == m.bounds
      && r.rotationPhysics.speed == 0.0 && r.rotationPhysics.value == m.rotationPhysics.value
  {
  }

  /**
    The velocity half of the movement: thrust when forward is held alone,
    braking drag when backward is held alone, then ambient drag, computed on
    a copy of the velocity.
  */
  method Accelerate(num: Numerics, intents: Inputs.Intents, p: Physics, heading: real, dt: Seconds) returns (v: Vec2)
    ensures v == Velocity(num, intents, p, heading, dt)
  {
    v := p.speed;
    if intents.up && !intents.down {
      v := Add(v, Scale(Scale(FromAngle(num, heading), p.acceleration), dt));
    } else if intents.down && !intents.up {
      v := DragVelocity(num, v, p.breakDragConstant, dt);
    }
    v := DragVelocity(num, v, p.dragConstant, dt);
  }

  /**
    The turning half of the movement: left subtracts and right adds the
    angular acceleration, then angular drag, computed on a copy of the
    angular velocity.
  */
  method Turn(num: Numerics, intents: Inputs.Intents, rp: RotationPhysics, dt: Seconds) returns (w: real)
    ensures w == AngularVelocity(num, intents, rp, dt)
  {
    w := rp.speed;
    if intents.left {
      w := w - rp.acceleration * dt;
    }
    if intents.right {
      w := w + rp.acceleration * dt;
    }
    w := Drag(num, w, rp.dragConstant, dt);
  }

  /**
    The movement part of `update` on a copy of the ship's motion: velocity,
    then angular velocity, then position and heading.
  */
  method Integrate(num: Numerics, intents: Inputs.Intents, m: Motion, dt: Seconds) returns (r: Motion)
    ensures r == Move(num, intents, m, dt)
  {
    ghost var target := Move(num, intents, m, dt);
    var bounds, physics, rotationPhysics := m.bounds, m.physics, m.rotationPhysics;
    var v := Accelerate(num, intents, physics, rotationPhysics.value, dt);
    physics := physics.(speed := v);
    assert physics == target.physics;
    var w := Turn(num, intents, rotationPhysics, dt);
    rotationPhysics := rotationPhysics.(speed := w);
    assert target.rotationPhysics.speed == w;
    bounds := bounds.(x := bounds.x + physics.speed.x * dt);
    assert bounds.x == target.bounds.x;
    bounds := bounds.(y := bounds.y + physics.speed.y * dt);
    assert bounds.y == target.bounds.y;
    rotationPhysics := rotationPhysics.(value := rotationPhysics.value + rotationPhysics.speed * dt);
    assert rotationPhysics.value == target.rotationPhysics.value;
    r := Motion(bounds, physics, rotationPhysics);
  }

  // ---------------------------------------------------------------- firing

  /** The firing state: the `fire_ready` flag and the cooldown timer's status. */
  datatype FireState = FireState(ready: bool, timer: Timers.Status)

  /** The firing invariant: the timer is in range, and the player may fire exactly when it is stopped. */
  predicate FireInvariant(length: real, f: FireState)
  {
    Timers.Bounded(length, f.timer) && (f.ready <==> f.timer.NotRunning?)
  }

  datatype FireOutcome = FireOutcome(state: FireState, shot: bool)

  /**
    The firing part of an update: the timer runs first and re-arms the flag
    when it fires; then, if fire is held and the flag is set, the flag is
    cleared and the cooldown started.
  */
  function FireStep(length: real, f: FireState, shoot: bool, dt: Seconds): (o: FireOutcome)
    ensures o.shot <==> shoot && (f.ready || Timers.Fires(f.timer, dt))
    ensures o.shot ==> !o.state.ready && o.state.timer.Running?
    ensures !o.shot ==> o.state.timer == Timers.Advance(f.timer, dt)
    ensures !o.shot ==> (o.state.ready <==> f.ready || Timers.Fires(f.timer, dt))
  {
    var ready := if Timers.Fires(f.timer, dt) then true else f.ready;
    var timer := Timers.Advance(f.timer, dt);
    if shoot && ready then FireOutcome(FireState(false, Timers.Start(length, timer)), true)
    else FireOutcome(FireState(ready, timer), false)
  }

  /**
    Under the firing invariant: a shot happens exactly when fire is held and
    the player was ready or the cooldown expired in this update; a shot
    leaves a full cooldown running, otherwise the timer only counts down;
    and the invariant holds afterwards.
  */
  lemma FireStepSpec(length: real, f: FireState, shoot: bool, dt: Seconds)
    requires FireInvariant(length, f)
    ensures var o := FireStep(length, f, shoot, dt);
      && (o.shot <==> shoot && (f.ready || Timers.Fires(f.timer, dt)))
      && (o.shot ==> o.state == FireState(false, Timers.Running(length)))
      && (!o.shot ==> o.state == FireState(f.ready || Timers.Fires(f.timer, dt), Timers.Advance(f.timer, dt)))
      && FireInvariant(length, o.state)
  {
    Timers.StepsKeepBounded(length, f.timer, dt);
  }

  datatype FireLog = FireLog(state: FireState, shots: nat)

  /** The firing state and the number of shots after a run of updates. */
  function FireRun(length: real, f: FireState, shoots: seq<bool>, dts: seq<Seconds>): FireLog
    requires |shoots| == |dts|
    decreases |dts|
  {
    if dts == [] then FireLog(f, 0)
    else
      var o := FireStep(length, f, shoots[0], dts[0]);
      var rest := FireRun(length, o.state, shoots[1..], dts[1..]);
      FireLog(rest.state, rest.shots + if o.shot then 1 else 0)
  }

  /**
    While a cooldown with `left` seconds to go runs, no shot is fired, whether
    or not fire is held, until the accumulated frame time reaches `left`.
  */
  lemma {:induction false} NoShotDuringCooldown(length: real, left: real, shoots: seq<bool>, dts: seq<Seconds>)
    requires |shoots| == |dts| && Sum(dts) < left
    ensures FireRun(length, FireState(false, Timers.Running(left)), shoots, dts)
         == FireLog(FireState(false, Timers.Running(left - Sum(dts))), 0)
    decreases |dts|
  {
    if dts != [] {
      var d := dts[0];
      assert Sum(dts) == d + Sum(dts[1..]);
      NoShotDuringCooldown(length, left - d, shoots[1..], dts[1..]);
    }
  }

  /** Once the accumulated frame time reaches the time left, the player is ready again. */
  lemma {:induction false} ReadyAfterCooldown(length: real, left: real, dts: seq<Seconds>)
    requires 0.0 < left <= Sum(dts)
    ensures FireRun(length, FireState(false, Timers.Running(left)), seq(|dts|, _ => false), dts)
         == FireLog(FireState(true, Timers.NotRunning), 0)
    decreases |dts|
  {
    var d := dts[0];
    var noShoots := seq(|dts|, _ => false);
    assert noShoots[1..] == seq(|dts| - 1, _ => false);
    assert Sum(dts) == d + Sum(dts[1..]);
    if left - d <= 0.0 {
      IdleStaysReady(length, dts[1..]);
    } else {
      ReadyAfterCooldown(length, left - d, dts[1..]);
    }
  }

  /** A ready player that does not fire stays ready. */
  lemma {:induction false} IdleStaysReady(length: real, dts: seq<Seconds>)
    ensures FireRun(length, FireState(true, Timers.NotRunning), seq(|dts|, _ => false), dts)
         == FireLog(FireState(true, Timers.NotRunning), 0)
    decreases |dts|
  {
    if dts != [] {
      assert seq(|dts|, _ => false)[1..] == seq(|dts| - 1, _ => false);
      IdleStaysReady(length, dts[1..]);
    }
  }

  /**
    The cooldown: after a shot, no further shot is fired, even with fire held,
    until the frame time accumulated since has reached the cooldown length.
  */
  lemma CooldownAfterShot(length: real, f: FireState, dt: Seconds, shoots: seq<bool>, dts: seq<Seconds>)
    requires FireInvariant(length, f) && FireStep(length, f, true, dt).shot
    requires |shoots| == |dts| && Sum(dts) < length
    ensures FireRun(length, FireStep(length, f, true, dt).state, shoots, dts).shots == 0
  {
    FireStepSpec(length, f, true, dt);
    NoShotDuringCooldown(length, length, shoots, dts);
  }

  // ---------------------------------------------------------------- whole update

  datatype PlayerUpdate = PlayerUpdate(player: PlayerState, event: GameEvent<Lasers.LaserState>)

  /** One player update: firing logic, motion, and a laser at the new pose when a shot is fired. */
  function Step(num: Numerics, p: PlayerState, intents: Inputs.Intents, dt: Seconds): (u: PlayerUpdate)
    ensures !u.event.TimerFire?
    ensures u.event.PlayerShoot? ==>
      u.event.entity == Lasers.NewLaser(u.player.bounds.x, u.player.bounds.y, u.player.rotationPhysics.value)
    ensures u.player.timerLength == p.timerLength && u.player.gameTexture == p.gameTexture
  {
    var f := FireStep(p.timerLength, FireState(p.fireReady, p.timer), intents.shoot, dt);
    var m := Move(num, intents, Motion(p.bounds, p.physics, p.rotationPhysics), dt);
    var next := p.(bounds := m.bounds, physics := m.physics, rotationPhysics := m.rotationPhysics,
                   timer := f.state.timer, fireReady := f.state.ready);
    PlayerUpdate(next,
      if f.shot then PlayerShoot(Lasers.NewLaser(m.bounds.x, m.bounds.y, m.rotationPhysics.value))
      else None)
  }

  /** The firing invariant of a player state. */
  predicate Consistent(p: PlayerState)
  {
    FireInvariant(p.timerLength, FireState(p.fireReady, p.timer))
  }

  /** The initial player is stopped and ready to fire. */
  lemma InitialPlayerIsValid()
    ensures Consistent(InitialPlayer) && InitialPlayer.fireReady && InitialPlayer.timer.NotRunning?
  {
  }

  /**
    What an update promises: the player never reports `TimerFire`; a shot
    spawns a laser at the player's new position and heading; size, texture
    offset and cooldown length never change; the firing invariant is kept.
  */
  lemma StepSpec(num: Numerics, p: PlayerState, intents: Inputs.Intents, dt: Seconds)
    requires Consistent(p)
    ensures var u := Step(num, p, intents, dt);
      && !u.event.TimerFire?
      && (u.event.PlayerShoot? <==> intents.shoot && (p.fireReady || Timers.Fires(p.timer, dt)))
      && (u.event.PlayerShoot? ==>
            u.event.entity == Lasers.NewLaser(u.player.bounds.x, u.player.bounds.y, u.player.rotationPhysics.value)
            && !u.player.fireReady && u.player.timer == Timers.Running(p.timerLength))
      && (u.event.None? ==> u.player.timer == Timers.Advance(p.timer, dt))
      && u.player.bounds.width == p.bounds.width && u.player.bounds.height == p.bounds.height
      && u.player.gameTexture == p.gameTexture && u.player.timerLength == p.timerLength
      && Consistent(u.player)
  {
    FireStepSpec(p.timerLength, FireState(p.fireReady, p.timer), intents.shoot, dt);
  }

  /**
    The first-shot scenario: a ready player holding fire shoots and starts a
    0.2 s cooldown; one 0.016 s frame later, still holding fire, it does not
    shoot and the cooldown less 0.016 s remains.
  */
  lemma FirstShotThenCooldown(num: Numerics, p: PlayerState, intents: Inputs.Intents)
    requires p.timerLength == FireCooldown && p.fireReady && p.timer.NotRunning? && intents.shoot
    ensures var u1 := Step(num, p, intents, 0.016);
      var u2 := Step(num, u1.player, intents, 0.016);
      && u1.event.PlayerShoot? && !u1.player.fireReady && u1.player.timer == Timers.Running(FireCooldown)
      && u2.event.None? && !u2.player.fireReady && u2.player.timer == Timers.Running(0.18400000298023223876953125)
  {
  }

  /**
    The copy `draw` issues: the ship's texture at its bounds, turned by its
    heading plus the texture's quarter-turn offset, in radians.
  */
  function DrawOf(p: PlayerState): (c: DrawCommand)
    ensures c == CopyEx(p.gameTexture.texture, p.bounds, p.rotationPhysics.value + p.gameTexture.rotationOffset)
    ensures Fallible(c)
  {
    SpriteCommand(p.bounds, p.gameTexture, p.rotationPhysics.value)
  }

  class Player {
    var bounds: Bounds
    var physics: Physics
    var rotationPhysics: RotationPhysics
    var gameTexture: GameTexture
    const fireTimer: Timers.TimerObject
    var fireReady: bool

    function Snapshot(): PlayerState
      reads this, fireTimer
    {
      PlayerState(bounds, physics, rotationPhysics, gameTexture, fireTimer.length, fireTimer.status, fireReady)
    }

    ghost predicate Valid()
      reads this, fireTimer
    {
      Consistent(Snapshot())
    }

    /**
      `Player::new`: at the origin, 100x100, at rest facing angle 0, ready to
      fire, with a stopped 0.2 s cooldown timer.
    */
    constructor ()
      ensures Snapshot() == InitialPlayer
      ensures Valid() && fresh(fireTimer)
    {
      bounds := Bounds(0.0, 0.0, 100.0, 100.0);
      physics := Physics(Zero, 420.0, 0.60000002384185791015625, 0.300000011920928955078125);
      rotationPhysics := RotationPhysics(0.0, 0.0, 12.0, 0.1500000059604644775390625);
      gameTexture := GameTexture(PlayerTexture, PI / 2.0);
      fireTimer := new Timers.TimerObject(FireCooldown);
      fireReady := true;
    }

    /** One frame of the player: cooldown, motion, then firing. */
    method Update(num: Numerics, input: Inputs.InputHandler, dt: Seconds) returns (ev: GameEvent<Lasers.BasicLaser>)
      modifies this, fireTimer
      ensures var u := Step(num, old(Snapshot()), input.Snapshot(), dt);
        && Snapshot() == u.player
        && (ev.None? <==> u.event.None?)
        && (ev.PlayerShoot? <==> u.event.PlayerShoot?)
        && (ev.PlayerShoot? ==> fresh(ev.entity) && ev.entity.State() == u.event.entity)
      ensures old(Valid()) ==> Valid()
    {
      ghost var p0 := old(Snapshot());
      var intents := input.Snapshot();
      ghost var fire := FireStep(p0.timerLength, FireState(p0.fireReady, p0.timer), intents.shoot, dt);
      var timerEvent: GameEvent<Lasers.BasicLaser> := fireTimer.Update(dt);
      if timerEvent.TimerFire? {
        fireReady := true;
      }

      // movement
      var moved := Integrate(num, intents, MotionOf(), dt);
      bounds, physics, rotationPhysics := moved.bounds, moved.physics, moved.rotationPhysics;

      // projectiles
      if input.shoot && fireReady {
        fireReady := false;
        fireTimer.StartOnlyIfNotRunning();
        var laser := new Lasers.BasicLaser(bounds.x, bounds.y, rotationPhysics.value);
        ev := PlayerShoot(laser);
      } else {
        ev := None;
      }
      assert FireState(fireReady, fireTimer.status) == fire.state;
      if Consistent(p0) {
        FireStepSpec(p0.timerLength, FireState(p0.fireReady, p0.timer), input.shoot, dt);
      }
    }

    function MotionOf(): Motion
      reads this
    {
      Motion(bounds, physics, rotationPhysics)
    }
  }
}
