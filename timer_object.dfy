/**
  The cooldown timer (src/timer_object.rs): a two-state machine whose update
  reports a one-shot `TimerFire` when the remaining time runs out.
*/
module Timers {
  import opened Util
  import opened GameEvents

  datatype Status = NotRunning | Running(left: real)

  /** The timer's invariant: a positive length and, while running, `0 < left <= length`. */
  predicate Bounded(length: real, s: Status)
  {
    0.0 < length && (s.Running? ==> 0.0 < s.left <= length)
  }

  /** `start_only_if_not_running` on the status. */
  function Start(length: real, s: Status): (r: Status)
    ensures r.Running?
    ensures s.Running? ==> r == s
    ensures s.NotRunning? ==> r.left == length
  {
    match s
    case NotRunning => Running(length)
    case Running(_) => s
  }

  /** Whether an update by `dt` reports `TimerFire`. */
  predicate Fires(s: Status, dt: real)
  {
    s.Running? && s.left - dt <= 0.0
  }

  /** The status after an update by `dt`. */
  function Advance(s: Status, dt: real): (r: Status)
    ensures r.NotRunning? <==> s.NotRunning? || Fires(s, dt)
    ensures r.Running? ==> s.Running? && r.left == s.left - dt > 0.0
  {
    match s
    case NotRunning => NotRunning
    case Running(left) =>
      if left - dt <= 0.0 then NotRunning else Running(left - dt)
  }

  /** Starting is a no-op on a running timer, so starting twice equals starting once. */
  lemma StartIsIdempotent(length: real, s: Status)
    ensures s.Running? ==> Start(length, s) == s
    ensures s.NotRunning? ==> Start(length, s) == Running(length)
    ensures Start(length, Start(length, s)) == Start(length, s)
  {
  }

  /** Starting and updating by a non-negative time keep `0 < left <= length`. */
  lemma StepsKeepBounded(length: real, s: Status, dt: Seconds)
    requires Bounded(length, s)
    ensures Bounded(length, Start(length, s))
    ensures Bounded(length, Advance(s, dt))
    ensures Fires(s, dt) <==> s.Running? && Advance(s, dt).NotRunning?
  {
  }

  /** The status after a run of updates with no start in between. */
  function Run(s: Status, dts: seq<Seconds>): Status
    decreases |dts|
  {
    if dts == [] then s else Run(Advance(s, dts[0]), dts[1..])
  }

  /** How many of a run of updates report `TimerFire`. */
  function FireCount(s: Status, dts: seq<Seconds>): nat
    decreases |dts|
  {
    if dts == [] then 0
    else (if Fires(s, dts[0]) then 1 else 0) + FireCount(Advance(s, dts[0]), dts[1..])
  }

  /** A timer that is not running stays so and never fires until it is started again. */
  lemma {:induction false} QuietWhileIdle(dts: seq<Seconds>)
    ensures Run(NotRunning, dts) == NotRunning
    ensures FireCount(NotRunning, dts) == 0
  {
    if dts != [] {
      QuietWhileIdle(dts[1..]);
    }
  }

  /** `TimerFire` is edge-triggered: a run of updates without a start fires at most once. */
  lemma {:induction false} FiresAtMostOnce(s: Status, dts: seq<Seconds>)
    ensures FireCount(s, dts) <= 1
    decreases |dts|
  {
    if dts != [] {
      if Fires(s, dts[0]) {
        QuietWhileIdle(dts[1..]);
      } else {
        FiresAtMostOnce(Advance(s, dts[0]), dts[1..]);
      }
    }
  }

  /**
    A running timer with `left` seconds to go expires exactly when the
    accumulated frame time reaches `left`, firing once; until then it
    holds `left` minus the accumulated time.
  */
  lemma {:induction false} RunWhileRunning(left: real, dts: seq<Seconds>)
    requires 0.0 < left
    ensures Run(Running(left), dts) ==
      if left - Sum(dts) <= 0.0 then NotRunning else Running(left - Sum(dts))
    ensures FireCount(Running(left), dts) == if left - Sum(dts) <= 0.0 then 1 else 0
    decreases |dts|
  {
    if dts != [] {
      var d, rest := dts[0], dts[1..];
      assert Sum(dts) == d + Sum(rest);
      if left - d <= 0.0 {
        QuietWhileIdle(rest);
      } else {
        RunWhileRunning(left - d, rest);
      }
    }
  }

  class TimerObject {
    const length: real
    var status: Status

    ghost predicate Valid()
      reads this
    {
      Bounded(length, status)
    }

    /** `TimerObject::new`: a stopped timer of the given length. */
    constructor (length: real)
      ensures this.length == length && status == NotRunning
      ensures length > 0.0 ==> Valid()
    {
      this.length := length;
      status := NotRunning;
    }

    /** Starts a full cooldown unless one is already running. */
    method StartOnlyIfNotRunning()
      modifies this
      ensures status == Start(length, old(status))
      ensures old(status).Running? ==> status == old(status)
      ensures old(Valid()) ==> Valid()
    {
      match status {
        case NotRunning =>
          status := Running(length);
        case Running(_) =>
      }
    }

    /** Counts the timer down by `dt`; reports `TimerFire` on the update that expires it. */
    method Update<E>(dt: Seconds) returns (ev: GameEvent<E>)
      modifies this
      ensures status == Advance(old(status), dt)
      ensures if Fires(old(status), dt) then ev.TimerFire? else ev.None?
      ensures old(Valid()) ==> Valid()
    {
      match status {
        case NotRunning =>
          ev := None;
        case Running(left) =>
          var newLeft := left - dt;
          if newLeft <= 0.0 {
            status := NotRunning;
            ev := TimerFire;
          } else {
            status := Running(newLeft);
            ev := None;
          }
      }
    }
  }
}
