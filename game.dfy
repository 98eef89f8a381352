/**
  The game (src/game.rs): a wrapping frame counter, the player and the list
  of spawned entities. Each update advances the counter, updates the player,
  appends the laser it may spawn and then updates every entity in order; each
  draw issues the background, every entity, the player and a present, giving
  up at the first copy the render target rejects.
*/
module Games {
  import opened Util
  import opened GameObject
  import opened GameEvents
  import Inputs
  import Lasers
  import Players
  import Timers

  /** The whole game as a value: frame counter, player and entities in list order. */
  datatype World = World(frame: U8, player: Players.PlayerState, lasers: seq<Lasers.LaserState>)

  /** The game as `Game::new` builds it: frame 0, a new player, no entities. */
  const InitialWorld: World := World(0, Players.InitialPlayer, [])

  /** `Wrapping<u8>` increment: 255 wraps to 0. */
  function NextFrame(f: U8): (r: U8)
    ensures f < 255 ==> r == f + 1
    ensures f == 255 ==> r == 0
  {
    (f + 1) % 256
  }

  /** Every entity updated once, in place and in order. */
  function StepLasers(num: Numerics, ls: seq<Lasers.LaserState>, dt: Seconds): (r: seq<Lasers.LaserState>)
    ensures |r| == |ls|
    ensures forall k :: 0 <= k < |ls| ==> r[k] == Lasers.Step(num, ls[k], dt)
    decreases |ls|
  {
    if ls == [] then [] else [Lasers.Step(num, ls[0], dt)] + StepLasers(num, ls[1..], dt)
  }

  /**
    The first half of an update: the frame advances, the player moves and may
    shoot, and a spawned laser is appended to the entities.
  */
  function PlayerPhase(num: Numerics, w: World, intents: Inputs.Intents, dt: Seconds): (r: World)
    ensures r.frame == NextFrame(w.frame)
    ensures r.player == Players.Step(num, w.player, intents, dt).player
    ensures w.lasers <= r.lasers && |r.lasers| <= |w.lasers| + 1
  {
    var u := Players.Step(num, w.player, intents, dt);
    World(NextFrame(w.frame), u.player, if u.event.PlayerShoot? then w.lasers + [u.event.entity] else w.lasers)
  }

  /**
    One update: the player phase, then every entity, a just-spawned one
    included, is updated.
  */
  function Step(num: Numerics, w: World, intents: Inputs.Intents, dt: Seconds): (r: World)
    ensures r.frame == NextFrame(w.frame)
    ensures |w.lasers| <= |r.lasers| <= |w.lasers| + 1
    ensures forall k :: 0 <= k < |w.lasers| ==> r.lasers[k] == Lasers.Step(num, w.lasers[k], dt)
  {
    var v := PlayerPhase(num, w, intents, dt);
    v.(lasers := StepLasers(num, v.lasers, dt))
  }

  /**
    What one update does to the entity list: it grows by one exactly when the
    player shoots; every existing entity stays at its place and is updated
    once; a new laser comes last, spawned at the player's new pose and already
    moved by this frame's update.
  */
  lemma StepSpawns(num: Numerics, w: World, intents: Inputs.Intents, dt: Seconds)
    ensures var r := Step(num, w, intents, dt);
      var shot := intents.shoot && (w.player.fireReady || Timers.Fires(w.player.timer, dt));
      && r.frame == NextFrame(w.frame)
      && r.player == Players.Step(num, w.player, intents, dt).player
      && |r.lasers| == |w.lasers| + (if shot then 1 else 0)
      && (forall k :: 0 <= k < |w.lasers| ==> r.lasers[k] == Lasers.Step(num, w.lasers[k], dt))
      && (shot ==>
            r.lasers[|w.lasers|] ==
            Lasers.Step(num, Lasers.NewLaser(r.player.bounds.x, r.player.bounds.y, r.player.rotationPhysics.value), dt))
  {
  }

  /** The game after a run of updates with the given inputs and frame times. */
  function Run(num: Numerics, w: World, inputs: seq<Inputs.Intents>, dts: seq<Seconds>): World
    requires |inputs| == |dts|
    decreases |dts|
  {
    if dts == [] then w else Run(num, Step(num, w, inputs[0], dts[0]), inputs[1..], dts[1..])
  }

  /** The frame counter counts updates modulo 256. */
  lemma {:induction false} FrameCounts(num: Numerics, w: World, inputs: seq<Inputs.Intents>, dts: seq<Seconds>)
    requires |inputs| == |dts|
    ensures Run(num, w, inputs, dts).frame == (w.frame + |dts|) % 256
    decreases |dts|
  {
    if dts != [] {
      var w1 := Step(num, w, inputs[0], dts[0]);
      FrameCounts(num, w1, inputs[1..], dts[1..]);
      assert w1.frame == NextFrame(w.frame);
      WrapThenCount(w.frame, |dts| - 1);
    }
  }

  /** Counting on from the wrapped successor is counting one further. */
  lemma WrapThenCount(f: U8, n: nat)
    ensures (NextFrame(f) + n) % 256 == (f + 1 + n) % 256
  {
    if f == 255 {
      assert f + 1 + n == n + 1 * 256;
    }
  }

  /** After 256 updates the frame counter, and so the background colour, is back where it was. */
  lemma FrameCycle(num: Numerics, w: World, inputs: seq<Inputs.Intents>, dts: seq<Seconds>)
    requires |inputs| == |dts| == 256
    ensures Run(num, w, inputs, dts).frame == w.frame
  {
    FrameCounts(num, w, inputs, dts);
  }

  /**
    Entities are never removed: over a run the list only grows, and each
    entity present at the start is at the same place, updated once per frame.
  */
  lemma {:induction false} EntitiesStay(num: Numerics, w: World, inputs: seq<Inputs.Intents>, dts: seq<Seconds>)
    requires |inputs| == |dts|
    ensures var r := Run(num, w, inputs, dts);
      && |w.lasers| <= |r.lasers|
      && forall k :: 0 <= k < |w.lasers| ==> r.lasers[k] == Lasers.Run(num, w.lasers[k], dts)
    decreases |dts|
  {
    if dts != [] {
      var w1 := Step(num, w, inputs[0], dts[0]);
      EntitiesStay(num, w1, inputs[1..], dts[1..]);
      forall k | 0 <= k < |w.lasers|
        ensures Run(num, w, inputs, dts).lasers[k] == Lasers.Run(num, w.lasers[k], dts)
      {
        assert w1.lasers[k] == Lasers.Step(num, w.lasers[k], dts[0]);
      }
    }
  }

  /** Hence each entity present at the start has flown straight for the total time of the run. */
  lemma EntitiesFlyStraight(num: Numerics, w: World, inputs: seq<Inputs.Intents>, dts: seq<Seconds>, k: nat)
    requires |inputs| == |dts| && k < |w.lasers|
    ensures k < |Run(num, w, inputs, dts).lasers|
    ensures Run(num, w, inputs, dts).lasers[k] == Lasers.Flown(num, w.lasers[k], Sum(dts))
  {
    EntitiesStay(num, w, inputs, dts);
    Lasers.StraightLine(num, w.lasers[k], dts);
  }

  /** The firing invariant of the player holds throughout any run from a consistent game. */
  lemma {:induction false} RunKeepsConsistent(num: Numerics, w: World, inputs: seq<Inputs.Intents>, dts: seq<Seconds>)
    requires |inputs| == |dts| && Players.Consistent(w.player)
    ensures Players.Consistent(Run(num, w, inputs, dts).player)
    decreases |dts|
  {
    if dts != [] {
      Players.StepSpec(num, w.player, inputs[0], dts[0]);
      RunKeepsConsistent(num, Step(num, w, inputs[0], dts[0]), inputs[1..], dts[1..]);
    }
  }

  // ---------------------------------------------------------------- drawing

  /**
    The clear colour of frame `i`: red is the distance of `i` to the nearer
    end of the `u8` range, green is fixed and blue complements red to 128.
  */
  function BackgroundColour(i: U8): (c: Colour)
    ensures c.g == 64 && c.r + c.b == 128
    ensures c.r <= i && c.r <= 255 - i && (c.r == i || c.r == 255 - i)
  {
    var tri := if i < 128 then i else 255 - i;
    Rgb(tri, 64, 128 - tri)
  }

  /** The colour ramp is symmetric: frame `i` and frame `255 - i` share a colour. */
  lemma ColourSymmetric(i: U8)
    ensures BackgroundColour(i) == BackgroundColour(255 - i)
  {
  }

  /** From one frame to the next, red and blue each change by at most one. */
  lemma ColourFadesSmoothly(i: U8)
    ensures var c, d := BackgroundColour(i), BackgroundColour(NextFrame(i));
      -1 <= d.r - c.r <= 1 && -1 <= d.b - c.b <= 1
  {
  }

  /** The copies of the entities, in list order. */
  function LaserDraws(ls: seq<Lasers.LaserState>): (r: seq<DrawCommand>)
    ensures |r| == |ls|
    ensures forall k :: 0 <= k < |ls| ==> r[k] == Lasers.DrawOf(ls[k])
    decreases |ls|
  {
    if ls == [] then [] else [Lasers.DrawOf(ls[0])] + LaserDraws(ls[1..])
  }

  /** Everything one draw issues when the render target accepts every copy. */
  function SceneOf(w: World): (s: seq<DrawCommand>)
    ensures |s| == |w.lasers| + 5
    ensures s[0] == SetDrawColour(BackgroundColour(w.frame)) && s[|s| - 1] == Present
  {
    [SetDrawColour(BackgroundColour(w.frame)), Clear, CopyWhole(StarsBackground)]
    + LaserDraws(w.lasers)
    + [Players.DrawOf(w.player), Present]
  }

  /**
    The painter's order of a frame: colour, clear, the background, then every
    entity in list order, the player on top, and last the present.
  */
  lemma SceneLayout(w: World)
    ensures var s := SceneOf(w);
      && |s| == |w.lasers| + 5
      && s[0] == SetDrawColour(BackgroundColour(w.frame)) && s[1] == Clear && s[2] == CopyWhole(StarsBackground)
      && (forall k :: 0 <= k < |w.lasers| ==> s[3 + k] == Lasers.DrawOf(w.lasers[k]))
      && s[|s| - 2] == Players.DrawOf(w.player) && s[|s| - 1] == Present
  {
  }

  /** Every copy in `cs` is accepted by the render target. */
  predicate AllAccepted(accepts: DrawCommand -> bool, cs: seq<DrawCommand>)
  {
    forall k {:trigger Accepted(accepts, cs[k])} :: 0 <= k < |cs| ==> Accepted(accepts, cs[k])
  }

  /** The render target takes command `c`: it is not a copy, or it is an accepted one. */
  predicate Accepted(accepts: DrawCommand -> bool, c: DrawCommand)
  {
    Fallible(c) ==> accepts(c)
  }

  /** Extending a prefix by the next element gives the next prefix. */
  lemma PrefixGrows<T>(s: seq<T>, n: nat)
    requires n < |s|
    ensures s[..n] + [s[n]] == s[..n + 1]
  {
  }

  /**
    `issued` is what a draw that gives up at the first rejected copy issues:
    a non-empty prefix of the scene whose last command is a rejected copy and
    whose earlier commands were all taken.
  */
  predicate StoppedAtFirstRejection(accepts: DrawCommand -> bool, scene: seq<DrawCommand>, issued: seq<DrawCommand>)
  {
    && 0 < |issued| <= |scene| && issued == scene[..|issued|]
    && AllAccepted(accepts, issued[..|issued| - 1]) && !Accepted(accepts, issued[|issued| - 1])
  }

  /**
    What a draw of `scene` ends with: it succeeds exactly when the target
    takes every command, having issued the whole scene, and otherwise it has
    stopped at the first rejection.
  */
  predicate DrawOutcome(accepts: DrawCommand -> bool, scene: seq<DrawCommand>, issued: seq<DrawCommand>, ok: bool)
  {
    && (ok <==> AllAccepted(accepts, scene))
    && (ok ==> issued == scene)
    && (!ok ==> StoppedAtFirstRejection(accepts, scene, issued))
  }

  /** Stopping after the first `n` commands, the `n`-th rejected, is stopping at the first rejection. */
  lemma Stop(accepts: DrawCommand -> bool, scene: seq<DrawCommand>, n: nat)
    requires 0 < n <= |scene| && AllAccepted(accepts, scene[..n - 1]) && !Accepted(accepts, scene[n - 1])
    ensures StoppedAtFirstRejection(accepts, scene, scene[..n]) && !AllAccepted(accepts, scene)
  {
    assert scene[..n][..n - 1] == scene[..n - 1];
  }

  /**
    One fallible copy followed by `?`: the command is issued, and drawing may
    go on exactly when the render target takes it; if it does not, the draw
    has stopped at the scene's first rejection.
  */
  method Issue(accepts: DrawCommand -> bool, ghost scene: seq<DrawCommand>, issued: seq<DrawCommand>, c: DrawCommand)
    returns (next: seq<DrawCommand>, ok: bool)
    requires |issued| < |scene| && issued == scene[..|issued|] && scene[|issued|] == c
    requires AllAccepted(accepts, issued) && Fallible(c)
    ensures next == scene[..|issued| + 1]
    ensures ok <==> accepts(c)
    ensures ok ==> AllAccepted(accepts, next)
    ensures !ok ==> DrawOutcome(accepts, scene, next, ok)
  {
    PrefixGrows(scene, |issued|);
    next := issued + [c];
    ok := accepts(c);
    if !ok {
      Stop(accepts, scene, |next|);
    }
  }

  /** Before the rejected copy at the end of a stopped draw, every command was taken. */
  lemma StopIsFirst(accepts: DrawCommand -> bool, scene: seq<DrawCommand>, issued: seq<DrawCommand>, n: nat)
    requires StoppedAtFirstRejection(accepts, scene, issued) && n < |issued| - 1
    ensures Accepted(accepts, scene[n])
  {
    assert issued[..|issued| - 1][n] == scene[n];
  }

  /** There is only one first rejection: a scene determines what a failed draw issued. */
  lemma FirstRejectionIsUnique(accepts: DrawCommand -> bool, scene: seq<DrawCommand>, a: seq<DrawCommand>, b: seq<DrawCommand>)
    requires StoppedAtFirstRejection(accepts, scene, a) && StoppedAtFirstRejection(accepts, scene, b)
    ensures a == b
  {
    if |a| < |b| {
      StopIsFirst(accepts, scene, b, |a| - 1);
    } else if |b| < |a| {
      StopIsFirst(accepts, scene, a, |b| - 1);
    }
  }

  /** No entity appears twice: the list owns its boxed entities, so they never alias. */
  predicate Distinct(ls: seq<Lasers.BasicLaser>)
  {
    forall i, j :: 0 <= i < j < |ls| ==> ls[i] != ls[j]
  }

  /** Appending an entity not yet in the list keeps the list free of aliases. */
  lemma DistinctPush(ls: seq<Lasers.BasicLaser>, l: Lasers.BasicLaser)
    requires Distinct(ls) && l !in ls
    ensures Distinct(ls + [l])
  {
  }

  /** The entity states, in list order. */
  function States(ls: seq<Lasers.BasicLaser>): (r: seq<Lasers.LaserState>)
    reads set l | l in ls
    ensures |r| == |ls|
    ensures forall k :: 0 <= k < |ls| ==> r[k] == ls[k].State()
    decreases |ls|
  {
    if ls == [] then [] else [ls[0].State()] + States(ls[1..])
  }

  /** The `for entity in self.entities.iter_mut()` loop of `Game::update`: each entity updated once, in order. */
  method UpdateAll(num: Numerics, ls: seq<Lasers.BasicLaser>, dt: Seconds)
    requires Distinct(ls)
    modifies set l | l in ls
    ensures States(ls) == StepLasers(num, old(States(ls)), dt)
  {
    ghost var before := States(ls);
    var i := 0;
    while i < |ls|
      invariant 0 <= i <= |ls|
      invariant forall k :: 0 <= k < i ==> ls[k].State() == Lasers.Step(num, before[k], dt)
      invariant forall k :: i <= k < |ls| ==> ls[k].State() == before[k]
    {
      var _ := ls[i].Update(num, dt);
      i := i + 1;
    }
  }

  class Game {
    var frame: U8
    const player: Players.Player
    var entities: seq<Lasers.BasicLaser>

    /** `Game::frame`: the value of the wrapping counter. */
    function Frame(): (f: U8)
      reads this, player, player.fireTimer
      ensures f == Model().frame
    {
      frame
    }

    /** The game as a value: frame counter, player state and entity states in list order. */
    function Model(): World
      reads this, player, player.fireTimer, set l | l in entities
    {
      World(frame, player.Snapshot(), States(entities))
    }

    ghost predicate Valid()
      reads this, player, player.fireTimer
    {
      player.Valid() && Distinct(entities)
    }

    /** `Game::new`: frame 0, a new player, no entities. */
    constructor ()
      ensures Model() == InitialWorld && Valid()
      ensures fresh(player) && fresh(player.fireTimer)
    {
      frame := 0;
      player := new Players.Player();
      entities := [];
    }

    /**
      `Game::update`: the game moves to `Step` of its old value, keeping the
      firing invariant and the entities free of aliases; an entity it adds
      is a new object.
    */
    method Update(num: Numerics, input: Inputs.InputHandler, dt: Seconds) returns (ev: GameEvent<Lasers.BasicLaser>)
      requires Valid()
      modifies this, player, player.fireTimer, set l | l in entities
      ensures Valid()
      ensures Model() == Step(num, old(Model()), input.Snapshot(), dt)
      ensures forall l :: l in entities ==> l in old(entities) || fresh(l)
      ensures ev.None?
    {
      UpdatePlayer(num, input, dt);
      UpdateEntities(num, dt);
      ev := None;
    }

    /** The frame increment, the player's update and the push of a spawned laser. */
    method UpdatePlayer(num: Numerics, input: Inputs.InputHandler, dt: Seconds)
      requires Valid()
      modifies this, player, player.fireTimer
      ensures Valid()
      ensures Model() == PlayerPhase(num, old(Model()), input.Snapshot(), dt)
      ensures forall l :: l in entities ==> l in old(entities) || fresh(l)
    {
      ghost var w0, intents := Model(), input.Snapshot();
      ghost var u := Players.Step(num, w0.player, intents, dt);
      frame := (frame + 1) % 256;
      var event := player.Update(num, input, dt);
      assert player.Snapshot() == u.player && player.Valid();
      assert Model() == w0.(frame := NextFrame(w0.frame), player := u.player);
      match event {
        case PlayerShoot(laser) =>
          assert laser !in entities;
          Push(laser);
        case _ =>
      }
      assert input.Snapshot() == intents;
    }

    /** `push_back` of a spawned entity that the list does not hold yet. */
    method Push(laser: Lasers.BasicLaser)
      requires Valid() && laser !in entities
      modifies this
      ensures Valid() && entities == old(entities) + [laser]
      ensures Model() == old(Model()).(lasers := old(Model()).lasers + [laser.State()])
    {
      DistinctPush(entities, laser);
      entities := entities + [laser];
    }

    /** The `for entity in self.entities.iter_mut()` loop. */
    method UpdateEntities(num: Numerics, dt: Seconds)
      requires Valid()
      modifies set l | l in entities
      ensures Valid()
      ensures Model() == old(Model()).(lasers := StepLasers(num, old(Model()).lasers, dt))
    {
      ghost var p := player.Snapshot();
      UpdateAll(num, entities, dt);
      assert player.Snapshot() == p;
    }

    /**
      `Game::draw` against a render target that accepts or rejects each copy:
      when every copy is accepted the whole scene is issued; otherwise drawing
      stops right after the first rejected copy, all earlier copies accepted.
    */
    method Draw(accepts: DrawCommand -> bool) returns (issued: seq<DrawCommand>, ok: bool)
      ensures DrawOutcome(accepts, SceneOf(Model()), issued, ok)
    {
      ghost var scene := SceneOf(Model());
      SceneLayout(Model());
      var i := Frame();
      issued := [SetDrawColour(Rgb(if i < 128 then i else 255 - i, 64, 128 - if i < 128 then i else 255 - i)), Clear];
      assert issued == scene[..2];
      issued, ok := DrawCopies(accepts, scene, issued);
    }

    /** The fallible rest of `Game::draw`: the background, the entities, the player, then the present. */
    method DrawCopies(accepts: DrawCommand -> bool, ghost scene: seq<DrawCommand>, prefix: seq<DrawCommand>)
      returns (issued: seq<DrawCommand>, ok: bool)
      requires |scene| == |entities| + 5 && |prefix| == 2 && prefix == scene[..2] && AllAccepted(accepts, prefix)
      requires scene[2] == CopyWhole(StarsBackground)
      requires forall j :: 0 <= j < |entities| ==> scene[3 + j] == Lasers.DrawOf(entities[j].State())
      requires scene[|scene| - 2] == Players.DrawOf(player.Snapshot()) && scene[|scene| - 1] == Present
      ensures DrawOutcome(accepts, scene, issued, ok)
    {
      issued, ok := Issue(accepts, scene, prefix, CopyWhole(StarsBackground));
      if ok {
        issued, ok := DrawEntities(accepts, scene, issued);
      }
      if ok {
        issued, ok := Issue(accepts, scene, issued, Players.DrawOf(player.Snapshot()));
      }
      if ok {
        PrefixGrows(scene, |scene| - 1);
        issued := issued + [Present];
        assert issued == scene;
      }
    }

    /** The `for entity in self.entities.iter()` loop of `Game::draw`, each copy followed by `?`. */
    method DrawEntities(accepts: DrawCommand -> bool, ghost scene: seq<DrawCommand>, prefix: seq<DrawCommand>)
      returns (issued: seq<DrawCommand>, ok: bool)
      requires |scene| == |entities| + 5 && |prefix| == 3 && prefix == scene[..3] && AllAccepted(accepts, prefix)
      requires forall j :: 0 <= j < |entities| ==> scene[3 + j] == Lasers.DrawOf(entities[j].State())
      ensures ok ==> issued == scene[..3 + |entities|] && AllAccepted(accepts, issued)
      ensures !ok ==> DrawOutcome(accepts, scene, issued, ok)
    {
      issued, ok := prefix, true;
      var k := 0;
      while k < |entities|
        invariant 0 <= k <= |entities|
        invariant issued == scene[..3 + k] && AllAccepted(accepts, issued)
      {
        issued, ok := Issue(accepts, scene, issued, Lasers.DrawOf(entities[k].State()));
        if !ok {
          return;
        }
        k := k + 1;
      }
    }
  }
}
