/**
  The projectile (src/basic_laser.rs): spawned at a pose, it then flies in a
  straight line along its spawn heading at a constant speed.
*/
module Lasers {
  import opened Util
  import opened GameObject
  import opened GameEvents

  datatype LaserState = LaserState(bounds: Bounds, rotation: real, speed: real, gameTexture: GameTexture)

  /** A laser as `BasicLaser::new` builds it at a position and heading. */
  function NewLaser(x: real, y: real, rotation: real): (r: LaserState)
    ensures r.bounds.x == x && r.bounds.y == y && r.rotation == rotation
    ensures r.speed > 0.0 && r.bounds.width == r.bounds.height > 0.0
    ensures r.gameTexture.texture == LaserTexture
  {
    LaserState(Bounds(x, y, 20.0, 20.0), rotation, 800.0, GameTexture(LaserTexture, 0.0))
  }

  /** The laser displaced by `speed * t` along its heading, everything else as it was. */
  function Flown(num: Numerics, s: LaserState, t: real): LaserState
  {
    s.(bounds := s.bounds.(x := s.bounds.x + s.speed * t * num.cos(s.rotation),
                           y := s.bounds.y + s.speed * t * num.sin(s.rotation)))
  }

  /**
    One update is a flight of `dt`: the position moves by `speed * dt` along
    the heading; heading, speed, size and texture never change, and a zero
    step changes nothing.
  */
  function Step(num: Numerics, s: LaserState, dt: Seconds): (r: LaserState)
    ensures r.rotation == s.rotation && r.speed == s.speed && r.gameTexture == s.gameTexture
    ensures r.bounds.width == s.bounds.width && r.bounds.height == s.bounds.height
    ensures dt == 0.0 ==> r == s
  {
    Flown(num, s, dt)
  }

  /** A laser after a run of updates. */
  function Run(num: Numerics, s: LaserState, dts: seq<Seconds>): LaserState
    decreases |dts|
  {
    if dts == [] then s else Run(num, Step(num, s, dts[0]), dts[1..])
  }

  /** Two flights in a row are one flight of the total time. */
  lemma FlightsAdd(num: Numerics, s: LaserState, a: real, b: real)
    ensures Flown(num, Flown(num, s, a), b) == Flown(num, s, a + b)
  {
  }

  /**
    The straight-line law: after any run of updates the laser has moved
    `speed * (total time)` along its heading and nothing else has changed.
  */
  lemma {:induction false} StraightLine(num: Numerics, s: LaserState, dts: seq<Seconds>)
    ensures Run(num, s, dts) == Flown(num, s, Sum(dts))
    decreases |dts|
  {
    if dts != [] {
      var d, rest := dts[0], dts[1..];
      StraightLine(num, Step(num, s, d), rest);
      FlightsAdd(num, s, d, Sum(rest));
      assert Sum(dts) == d + Sum(rest);
    }
  }

  /** Where a laser ends up depends only on the total time, not on how it was split. */
  lemma OnlyTheTotalMatters(num: Numerics, s: LaserState, a: seq<Seconds>, b: seq<Seconds>)
    requires Sum(a) == Sum(b)
    ensures Run(num, s, a) == Run(num, s, b)
  {
    StraightLine(num, s, a);
    StraightLine(num, s, b);
  }

  /**
    The copy `draw` issues: the laser's texture at its bounds, turned by its
    heading plus the texture's offset, in radians.
  */
  function DrawOf(s: LaserState): (c: DrawCommand)
    ensures c == CopyEx(s.gameTexture.texture, s.bounds, s.rotation + s.gameTexture.rotationOffset)
    ensures Fallible(c)
  {
    SpriteCommand(s.bounds, s.gameTexture, s.rotation)
  }

  class BasicLaser {
    var bounds: Bounds
    var rotation: real
    var speed: real
    var gameTexture: GameTexture

    function State(): LaserState
      reads this
    {
      LaserState(bounds, rotation, speed, gameTexture)
    }

    /** `BasicLaser::new`: a 20x20 laser at (x, y) with the given heading, speed 800 and no draw offset. */
    constructor (x: real, y: real, rotation: real)
      ensures bounds == Bounds(x, y, 20.0, 20.0) && this.rotation == rotation
      ensures speed == 800.0 && gameTexture == GameTexture(LaserTexture, 0.0)
      ensures State() == NewLaser(x, y, rotation)
    {
      bounds := Bounds(x, y, 20.0, 20.0);
      this.rotation := rotation;
      speed := 800.0;
      gameTexture := GameTexture(LaserTexture, 0.0);
    }

    /** Moves the laser one step along its heading; a laser never emits an event. */
    method Update(num: Numerics, dt: Seconds) returns (ev: GameEvent<BasicLaser>)
      modifies this
      ensures State() == Step(num, old(State()), dt)
      ensures ev.None?
    {
      var distance := speed * dt;
      bounds := bounds.(x := bounds.x + distance * num.cos(rotation));
      bounds := bounds.(y := bounds.y + distance * num.sin(rotation));
      ev := None;
    }
  }
}
