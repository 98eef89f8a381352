/**
  The input snapshot (src/input_handler.rs): key events from the window
  system switch five held-control flags; a quit event ends the game.
*/
module Inputs {

  datatype Option<T> = None | Some(value: T)

  /** The keycodes the handler maps; every other keycode is `OtherKey`. */
  datatype Keycode = W | S | A | D | Space | OtherKey(code: int)

  /** The window-system events the handler distinguishes. */
  datatype Event =
    | Quit
    | KeyDown(keycode: Option<Keycode>)
    | KeyUp(keycode: Option<Keycode>)
    | OtherEvent

  /** The five flags, as read by the entities each frame. */
  datatype Intents = Intents(up: bool, down: bool, left: bool, right: bool, shoot: bool)

  const NoIntents: Intents := Intents(false, false, false, false, false)

  /** The five controls, one per flag. */
  datatype Control = Up | Down | TurnLeft | TurnRight | Fire

  /** The key binding: W, S, A, D and Space. */
  function Binding(k: Keycode): Option<Control>
  {
    match k
    case W => Some(Up)
    case S => Some(Down)
    case A => Some(TurnLeft)
    case D => Some(TurnRight)
    case Space => Some(Fire)
    case OtherKey(_) => None
  }

  function Held(s: Intents, c: Control): bool
  {
    match c
    case Up => s.up
    case Down => s.down
    case TurnLeft => s.left
    case TurnRight => s.right
    case Fire => s.shoot
  }

  predicate Pressed(e: Event, c: Control)
  {
    e.KeyDown? && e.keycode.Some? && Binding(e.keycode.value) == Some(c)
  }

  predicate Released(e: Event, c: Control)
  {
    e.KeyUp? && e.keycode.Some? && Binding(e.keycode.value) == Some(c)
  }

  /** Sets the flag that key `k` controls, if any, to `v`, and no other. */
  function SetKey(s: Intents, k: Keycode, v: bool): (r: Intents)
    ensures forall c :: Held(r, c) == if Binding(k) == Some(c) then v else Held(s, c)
  {
    match k
    case W => s.(up := v)
    case S => s.(down := v)
    case A => s.(left := v)
    case D => s.(right := v)
    case Space => s.(shoot := v)
    case OtherKey(_) => s
  }

  /**
    The flags after one event: a bound key pressed holds its control, a bound
    key released lets it go, and every other control and every other event
    (quit, unbound keys, key events without a keycode) leaves the flags alone.
  */
  function Apply(s: Intents, e: Event): (r: Intents)
    ensures forall c :: Held(r, c) ==
                        if Pressed(e, c) then true else if Released(e, c) then false else Held(s, c)
  {
    match e
    case KeyDown(Some(k)) => SetKey(s, k, true)
    case KeyUp(Some(k)) => SetKey(s, k, false)
    case _ => s
  }

  /** Two flag states that agree on every control are equal. */
  lemma HeldDetermines(s: Intents, t: Intents)
    requires forall c :: Held(s, c) == Held(t, c)
    ensures s == t
  {
    assert Held(s, Up) == Held(t, Up) && Held(s, Down) == Held(t, Down);
    assert Held(s, TurnLeft) == Held(t, TurnLeft) && Held(s, TurnRight) == Held(t, TurnRight);
    assert Held(s, Fire) == Held(t, Fire);
  }

  /** Consuming the same event twice leaves the flags as consuming it once. */
  lemma {:induction false} ApplyIsIdempotent(s: Intents, e: Event)
    ensures Apply(Apply(s, e), e) == Apply(s, e)
  {
    HeldDetermines(Apply(Apply(s, e), e), Apply(s, e));
  }

  /** Pressing then releasing a key lets go of its control and restores every other flag. */
  lemma {:induction false} PressThenRelease(s: Intents, k: Keycode)
    ensures var r := Apply(Apply(s, KeyDown(Some(k))), KeyUp(Some(k)));
      forall c :: Held(r, c) == (if Binding(k) == Some(c) then false else Held(s, c))
  {
  }

  class InputHandler {
    var up: bool
    var down: bool
    var left: bool
    var right: bool
    var shoot: bool

    function Snapshot(): Intents
      reads this
    {
      Intents(up, down, left, right, shoot)
    }

    /** `InputHandler::new`: nothing held. */
    constructor ()
      ensures Snapshot() == NoIntents
    {
      up, down, left, right, shoot := false, false, false, false, false;
    }

    /** Applies one event to the flags; answers false exactly for a quit event. */
    method Consume(e: Event) returns (running: bool)
      modifies this
      ensures Snapshot() == Apply(old(Snapshot()), e)
      ensures running <==> !e.Quit?
    {
      match e {
        case Quit =>
          running := false;
        case KeyDown(Some(k)) =>
          match k {
            case W => up := true;
            case S => down := true;
            case A => left := true;
            case D => right := true;
            case Space => shoot := true;
            case OtherKey(_) =>
          }
          running := true;
        case KeyUp(Some(k)) =>
          match k {
            case W => up := false;
            case S => down := false;
            case A => left := false;
            case D => right := false;
            case Space => shoot := false;
            case OtherKey(_) =>
          }
          running := true;
        case _ =>
          running := true;
      }
    }
  }
}
