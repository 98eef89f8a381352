/**
  Numeric helpers shared by the entities: the frame time, the `u8` range,
  the floating-point primitives the model leaves uninterpreted, glam's `Vec2`
  operations used by the player, and `drag` from src/util.rs.
*/
module Util {

  /** A frame time in seconds. `Duration::as_secs_f32` never yields a negative value. */
  type Seconds = r: real | 0.0 <= r

  /** The values of a Rust `u8`. */
  type U8 = n: int | 0 <= n < 256

  /** Total of a run of frame times. */
  function Sum(dts: seq<Seconds>): (total: real)
    ensures total >= 0.0
    ensures |dts| > 0 ==> total >= dts[0]
  {
    if dts == [] then 0.0 else dts[0] + Sum(dts[1..])
  }

  /**
    The floating-point library calls the model does not interpret:
    `f32::cos`, `f32::sin`, `f32::powf` and `f32::sqrt`.
  */
  datatype Numerics = Numerics(
    cos: real -> real,
    sin: real -> real,
    powf: (real, real) -> real,
    sqrt: real -> real)

  /** glam's `Vec2`. */
  datatype Vec2 = Vec2(x: real, y: real)

  const Zero: Vec2 := Vec2(0.0, 0.0)

  function Add(a: Vec2, b: Vec2): Vec2
  {
    Vec2(a.x + b.x, a.y + b.y)
  }

  function Scale(v: Vec2, k: real): Vec2
  {
    Vec2(v.x * k, v.y * k)
  }

  /** `Vec2::from_angle`: the unit heading of an angle in radians. */
  function FromAngle(num: Numerics, angle: real): Vec2
  {
    Vec2(num.cos(angle), num.sin(angle))
  }

  /** `Vec2::length`. */
  function Length(num: Numerics, v: Vec2): real
  {
    num.sqrt(v.x * v.x + v.y * v.y)
  }

  /**
    `Vec2::normalize_or_zero`: the vector divided by its length when that
    length is positive, and the zero vector otherwise (never a NaN).
  */
  function NormalizeOrZero(num: Numerics, v: Vec2): (r: Vec2)
    ensures Length(num, v) <= 0.0 ==> r == Zero
    ensures Length(num, v) > 0.0 ==> Scale(r, Length(num, v)) == v
  {
    var len := Length(num, v);
    if len > 0.0 then Scale(v, 1.0 / len) else Zero
  }

  /**
    `util::drag`: exponential decay of `current` with per-second retention
    factor `c` over `dt` seconds.
  */
  function Drag(num: Numerics, current: real, c: real, dt: real): (r: real)
    ensures current == 0.0 ==> r == 0.0
    ensures num.powf(c, dt) == 1.0 ==> r == current
    ensures num.powf(c, dt) == 0.0 ==> r == 0.0
  {
    current * num.powf(c, dt)
  }

  /**
    Nothing moves away from zero: the zero vector normalises to zero (not to
    a NaN), scaling it gives zero, and drag leaves a zero speed at zero.
  */
  lemma ZeroIsStable(num: Numerics, k: real, c: real, dt: real)
    ensures NormalizeOrZero(num, Zero) == Zero
    ensures Scale(Zero, k) == Zero
    ensures Drag(num, 0.0, c, dt) == 0.0
  {
  }
}
