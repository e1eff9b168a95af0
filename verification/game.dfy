/** Model of the game-state stack `Zeni::Game` (zenilib/include/Zeni/Game.hxx).
    The stack is a sequence whose LAST element is the top. Calls made on a
    state (`on_event`, `perform_logic`, `render`) are recorded in a log, and
    the state's own behaviour during such a call is a parameter: a state
    may push or pop while it runs, and it may throw. */
module GameStack {
  import opened Results

  /** A reference-counted handle to a state object, compared by identity. */
  datatype Gamestate = Gamestate(handle: nat)

  /** An SDL event, opaque here. */
  datatype Event = Event(code: int)

  /** A call the stack dispatched to a state. */
  datatype Dispatch =
    | OnEvent(target: Gamestate, event: Event)
    | PerformLogic(target: Gamestate)
    | Render(target: Gamestate)

  /** `Zero_Gamestate`, thrown when the stack is addressed while empty, or an
  exception a state's own call threw, which the stack lets propagate. */
  datatype GameError = ZeroGamestate | StateThrew(exception: int)

  /** `fpsUpdates` counts the calls of `calculate_fps`, whose body is not
      part of this model. */
  datatype Game = Game(states: seq<Gamestate>, log: seq<Dispatch>, fpsUpdates: nat)

  /** How a state's call ended: the stack it leaves behind, and the
      exception it threw, if any. */
  datatype Reacted = Reacted(states: seq<Gamestate>, thrown: Option<int>)

  /** What a state does while one of its calls runs. */
  type Reaction = seq<Gamestate> -> Reacted

  /** The game after an operation, and what the operation returned or threw.
      `Zero_Gamestate` leaves the game as it was; a state's exception leaves
      the stack as the state left it. */
  datatype Step<T> = Step(game: Game, result: Result<T, GameError>)

  /** The number of states on the stack. */
  function Size(g: Game): (n: nat)
    ensures n == |g.states|
  {
    |g.states|
  }

  function GetCurrentState(g: Game): (r: Result<Gamestate, GameError>)
    ensures r.Failure? <==> Size(g) == 0
    ensures r.Success? ==> r.value == g.states[|g.states| - 1]
  {
    if |g.states| == 0 then Failure(ZeroGamestate) else Success(g.states[|g.states| - 1])
  }

  function PushState(g: Game, s: Gamestate): (g': Game)
    ensures Size(g') == Size(g) + 1
    ensures GetCurrentState(g') == Success(s)
    ensures g'.states[..Size(g)] == g.states
    ensures g'.log == g.log && g'.fpsUpdates == g.fpsUpdates
  {
    g.(states := g.states + [s])
  }

  function PopState(g: Game): (r: Step<Gamestate>)
    ensures Size(g) == 0 ==> r.result == Failure(ZeroGamestate) && r.game == g
    ensures Size(g) > 0 ==>
      && r.result == GetCurrentState(g)
      && Size(r.game) == Size(g) - 1
      && r.game.states == g.states[..Size(g) - 1]
      && r.game.log == g.log && r.game.fpsUpdates == g.fpsUpdates
  {
    if |g.states| == 0 then Step(g, Failure(ZeroGamestate))
    else
      var top := g.states[|g.states| - 1];
      Step(g.(states := g.states[..|g.states| - 1]), Success(top))
  }

  /** `pop_state` undoes `push_state`, and pushing the popped top back
      undoes the pop. */
  lemma PushPopInverse(g: Game, s: Gamestate)
    ensures PopState(PushState(g, s)) == Step(g, Success(s))
    ensures Size(g) > 0 ==> PushState(PopState(g).game, PopState(g).result.value) == g
  {
    assert (g.states + [s])[..|g.states|] == g.states;
  }

  /** Takes the top as it stands before the call, then lets it run: the
      call is logged against that snapshot and the stack becomes whatever
      the running state leaves behind. An exception from the state passes
      through unchanged. */
  function DispatchToTop(g: Game, call: Gamestate -> Dispatch, during: Reaction): (r: Step<()>)
    ensures Size(g) == 0 ==> r == Step(g, Failure(ZeroGamestate))
    ensures Size(g) > 0 ==> Dispatched(g, r, call(g.states[|g.states| - 1]), during(g.states))
  {
    if |g.states| == 0 then Step(g, Failure(ZeroGamestate))
    else
      var gs := g.states[|g.states| - 1];
      var reacted := during(g.states);
      var result := if reacted.thrown.Some? then Failure(StateThrew(reacted.thrown.value)) else Success(());
      Step(g.(states := reacted.states, log := g.log + [call(gs)]), result)
  }

  /** A call `d` on a non-empty stack that ended as `reacted`: the call is
      logged, the stack is what the state left, and the call returns
      exactly when the state did not throw, else the state's exception
      propagates. */
  predicate Dispatched(g: Game, r: Step<()>, d: Dispatch, reacted: Reacted) {
    && r.game.log == g.log + [d]
    && r.game.states == reacted.states
    && (r.result.Success? <==> reacted.thrown.None?)
    && (reacted.thrown.Some? ==> r.result == Failure(StateThrew(reacted.thrown.value)))
  }

  function OnEventCall(e: Event): Gamestate -> Dispatch {
    gs => OnEvent(gs, e)
  }

  function HandleEvent(g: Game, e: Event, during: Reaction): (r: Step<()>)
    ensures Size(g) == 0 ==> r == Step(g, Failure(ZeroGamestate))
    ensures Size(g) > 0 ==>
      && Dispatched(g, r, OnEvent(g.states[|g.states| - 1], e), during(g.states))
      && r.game.fpsUpdates == g.fpsUpdates
  {
    DispatchToTop(g, OnEventCall(e), during)
  }

  function Logic(g: Game, during: Reaction): (r: Step<()>)
    ensures Size(g) == 0 ==> r == Step(g, Failure(ZeroGamestate))
    ensures Size(g) > 0 ==>
      && Dispatched(g, r, PerformLogic(g.states[|g.states| - 1]), during(g.states))
      && r.game.fpsUpdates == g.fpsUpdates
  {
    DispatchToTop(g, gs => PerformLogic(gs), during)
  }

  /** `render()` renders the snapshot top and only then, after the state's
      call has returned, updates the frame statistics; a state that throws
      skips the update. */
  function RenderTop(g: Game, during: Reaction): (r: Step<()>)
    ensures Size(g) == 0 ==> r == Step(g, Failure(ZeroGamestate))
    ensures Size(g) > 0 ==>
      && Dispatched(g, r, Render(g.states[|g.states| - 1]), during(g.states))
      && r.game.fpsUpdates == g.fpsUpdates + (if during(g.states).thrown.None? then 1 else 0)
  {
    var r := DispatchToTop(g, gs => Render(gs), during);
    if r.result.Failure? then r
    else Step(r.game.(fpsUpdates := r.game.fpsUpdates + 1), r.result)
  }

  /** The target is taken before the call: a state that pushes `s` while
      handling an event, and then throws, has still been the one called,
      leaves `s` on top, and its exception reaches the caller. */
  lemma PushDuringEventTargetsOldTop(g: Game, e: Event, s: Gamestate, exception: int)
    requires Size(g) > 0
    ensures var r := HandleEvent(g, e, states => Reacted(states + [s], Some(exception)));
            && r.game.log[|g.log|] == OnEvent(g.states[|g.states| - 1], e)
            && GetCurrentState(r.game) == Success(s)
            && r.game.states[..Size(g)] == g.states
            && r.result == Failure(StateThrew(exception))
  {
    var r := HandleEvent(g, e, states => Reacted(states + [s], Some(exception)));
  }

  // ---------------------------------------------------------------------
  // Sequences of pushes and pops.

  function PushAll(g: Game, xs: seq<Gamestate>): Game
    decreases |xs|
  {
    if xs == [] then g else PushAll(PushState(g, xs[0]), xs[1..])
  }

  /** Pops `n` times, collecting the popped states in the order they come
      off; stops at the first `Zero_Gamestate`. */
  function PopMany(g: Game, n: nat): Step<seq<Gamestate>>
    decreases n
  {
    if n == 0 then Step(g, Success([]))
    else
      var first := PopState(g);
      if first.result.Failure? then Step(first.game, Failure(first.result.error))
      else
        var rest := PopMany(first.game, n - 1);
        if rest.result.Failure? then rest
        else Step(rest.game, Success([first.result.value] + rest.result.value))
  }

  function Reverse<T>(xs: seq<T>): (r: seq<T>)
    ensures |r| == |xs|
    ensures forall i :: 0 <= i < |xs| ==> r[i] == xs[|xs| - 1 - i]
  {
    if xs == [] then [] else Reverse(xs[1..]) + [xs[0]]
  }

  lemma {:induction false} PushAllAppends(g: Game, xs: seq<Gamestate>)
    ensures PushAll(g, xs) == g.(states := g.states + xs)
    decreases |xs|
  {
    if xs != [] {
      PushAllAppends(PushState(g, xs[0]), xs[1..]);
      assert g.states + [xs[0]] + xs[1..] == g.states + xs;
    }
  }

  /** Pops undo pushes in reverse order: pushing `xs` and then popping
      `|xs|` times yields `xs` reversed and restores the stack. */
  lemma {:induction false} PopManyAfterPushAll(g: Game, xs: seq<Gamestate>)
    ensures PopMany(PushAll(g, xs), |xs|) == Step(g, Success(Reverse(xs)))
    decreases |xs|
  {
    PushAllAppends(g, xs);
    if xs != [] {
      var n := |xs|;
      var init := xs[..n - 1];
      var pushed := g.(states := g.states + xs);
      assert pushed.states[..|pushed.states| - 1] == g.states + init;
      var first := PopState(pushed);
      assert first == Step(g.(states := g.states + init), Success(xs[n - 1]));
      PushAllAppends(g, init);
      PopManyAfterPushAll(g, init);
      assert Reverse(xs) == [xs[n - 1]] + Reverse(init);
    }
  }

  /** Push A, B, C on an empty game and pop three times to get C, B, A;
      a fourth pop throws `Zero_Gamestate`. */
  lemma PushThreePopFour(a: Gamestate, b: Gamestate, c: Gamestate)
    ensures var g := PushAll(Game([], [], 0), [a, b, c]);
            && PopMany(g, 3) == Step(Game([], [], 0), Success([c, b, a]))
            && PopMany(g, 4).result == Failure(ZeroGamestate)
  {
    var g := PushAll(Game([], [], 0), [a, b, c]);
    PopManyAfterPushAll(Game([], [], 0), [a, b, c]);
    assert Reverse([a, b, c]) == [c, b, a];
    PushAllAppends(Game([], [], 0), [a, b, c]);
    var p1 := PopState(g);
    var p2 := PopState(p1.game);
    var p3 := PopState(p2.game);
    assert p3.game.states == [];
  }
}
