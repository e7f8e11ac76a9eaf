// The per-tick update of the web playing state: keyboard input and position
// advance first, then the collision handler, then gravity, whose result the
// handler's collision flags override.

module WebPlaying {
  import opened Kinematics

  /** What the collision handler leaves behind: the player as it moved it, and the two flags it returns. */
  datatype HandlerOutcome = HandlerOutcome(body: Body, bottomCollision: bool, topCollision: bool)

  /** One tick: the player the handler was given, what the handler produced, and the final player. */
  datatype TickResult = TickResult(handlerInput: Body, outcome: HandlerOutcome, body: Body)

  predicate AnyCollision(o: HandlerOutcome)
  {
    o.bottomCollision || o.topCollision
  }

  /** One full tick, as a function of the player before it, the keys, the collision handler and gravity. */
  function Tick(b: Body, keys: KeyState, deltaTime: real,
                handle: Body -> HandlerOutcome, gravity: (real, real) -> real): (r: TickResult)
    ensures r.handlerInput == ApplyInput(b, keys, deltaTime) && r.outcome == handle(r.handlerInput)
    ensures AnyCollision(r.outcome) ==> r.body.dy == 0.0
    ensures !AnyCollision(r.outcome) ==> r.body.dy == gravity(r.outcome.body.dy, deltaTime)
  {
    var moved := ApplyInput(b, keys, deltaTime);
    var outcome := handle(moved);
    var fallen := outcome.body.(dy := gravity(outcome.body.dy, deltaTime));
    TickResult(moved, outcome, if AnyCollision(outcome) then fallen.(dy := 0.0) else fallen)
  }

  /**
   * The collision handler always runs on the player the input step produced:
   * dx already set from the keys and the position already advanced.
   */
  lemma HandlerRunsAfterEvents(b: Body, keys: KeyState, deltaTime: real,
                               handle: Body -> HandlerOutcome, gravity: (real, real) -> real)
    ensures var r := Tick(b, keys, deltaTime, handle, gravity);
            r.outcome == handle(r.handlerInput) &&
            r.handlerInput.dx == InputVelocity(keys, deltaTime) &&
            r.handlerInput.x == b.x + r.handlerInput.dx &&
            r.handlerInput.y == b.y + b.dy
  {
  }

  /** Either flag from the handler leaves the player with no vertical velocity, whatever gravity did. */
  lemma FlagsOverrideGravity(b: Body, keys: KeyState, deltaTime: real,
                             handle: Body -> HandlerOutcome, gravity: (real, real) -> real)
    requires AnyCollision(handle(ApplyInput(b, keys, deltaTime)))
    ensures Tick(b, keys, deltaTime, handle, gravity).body.dy == 0.0
  {
  }

  /** Without a flag, dy is gravity applied exactly once to the dy the handler left. */
  lemma GravityAppliedOnce(b: Body, keys: KeyState, deltaTime: real,
                           handle: Body -> HandlerOutcome, gravity: (real, real) -> real)
    requires !AnyCollision(handle(ApplyInput(b, keys, deltaTime)))
    ensures var r := Tick(b, keys, deltaTime, handle, gravity);
            r.body.dy == gravity(r.outcome.body.dy, deltaTime)
  {
  }

  /** Gravity and the flags touch only dy: everything else is as the handler left it. */
  lemma GravityTouchesOnlyDy(b: Body, keys: KeyState, deltaTime: real,
                             handle: Body -> HandlerOutcome, gravity: (real, real) -> real)
    ensures var r := Tick(b, keys, deltaTime, handle, gravity);
            r.body.x == r.outcome.body.x && r.body.y == r.outcome.body.y &&
            r.body.dx == r.outcome.body.dx &&
            r.body.width == r.outcome.body.width && r.body.height == r.outcome.body.height
  {
  }

  class PlayingState {
    const player: Player
    /** The collision handler, with the loaded map and the collision detector fixed. */
    const handle: Body -> HandlerOutcome
    /** Gravity.apply, as a function of the vertical velocity and the elapsed time. */
    const gravity: (real, real) -> real
    var keyState: KeyState

    constructor (player: Player, handle: Body -> HandlerOutcome, gravity: (real, real) -> real)
      ensures this.player == player && this.handle == handle && this.gravity == gravity
      ensures keyState == KeyState(false, false)
    {
      this.player := player;
      this.handle := handle;
      this.gravity := gravity;
      keyState := KeyState(false, false);
    }

    method Update(deltaTime: real)
      modifies player
      ensures player.Snapshot() == Tick(old(player.Snapshot()), keyState, deltaTime, handle, gravity).body
    {
      HandleEvents(deltaTime);

      var outcome := handle(player.Snapshot());
      player.Assign(outcome.body);
      var bottomCollision, topCollision := outcome.bottomCollision, outcome.topCollision;

      player.dy := gravity(player.dy, deltaTime);
      if bottomCollision || topCollision {
        player.dy := 0.0;
      }
    }

    /** Sets dx from the keys, then moves the player by the new dx and the unchanged dy. */
    method HandleEvents(deltaTime: real)
      modifies player
      ensures player.dx == InputVelocity(keyState, deltaTime)
      ensures player.x == old(player.x) + player.dx && player.y == old(player.y) + old(player.dy)
      ensures player.dy == old(player.dy)
      ensures player.width == old(player.width) && player.height == old(player.height)
    {
      if keyState.left && keyState.right {
        player.dx := 0.0;
      } else if keyState.left {
        player.dx := -RunSpeed * deltaTime;
      } else if keyState.right {
        player.dx := RunSpeed * deltaTime;
      } else {
        player.dx := 0.0;
      }

      player.x := player.x + player.dx;
      player.y := player.y + player.dy;
    }
  }
}
