// The per-tick update of the original (non-web) playing state: keyboard input,
// position advance, the world-boundary clamp, the collision correction summed
// from the detector's vectors, the top/bottom classification of that
// correction, and gravity gated on the collision flags.

module LegacyPlaying {
  import opened Kinematics

  /** The world the player is kept inside, in pixels. */
  const WorldWidth: real := 1024.0
  const WorldHeight: real := 640.0

  /** Vertical corrections no larger than this (1e-8) are treated as noise. */
  const Epsilon: real := 0.00000001

  /** A direction along which the detector pushes the player out of an obstacle. */
  datatype Vector = Vector(dx: real, dy: real)

  /** One correction found by the collision detector: a direction and a penetration depth. */
  datatype CollisionVector = CollisionVector(vector: Vector, magnitude: real)

  /** The player after the world clamp, and whether the vertical clamp fired. */
  datatype Clamped = Clamped(body: Body, bottomCollision: bool)

  /** The flags the classification of the correction raises. */
  datatype Hits = Hits(bottom: bool, top: bool)

  /** Everything one tick produces: the new player, the detector's output and the two local flags. */
  datatype TickResult = TickResult(body: Body, collisionVectors: seq<CollisionVector>,
                                   bottomCollision: bool, topCollision: bool)

  // ---------------------------------------------------------------------------
  // The stages of a tick

  predicate OutsideVertically(b: Body)
  {
    b.y > WorldHeight - b.height || b.y < 0.0
  }

  predicate OutsideHorizontally(b: Body)
  {
    b.x > WorldWidth - b.width || b.x < 0.0
  }

  /**
   * Keeps the player inside the world vertically. Leaving the world at the
   * bottom or at the top stops vertical motion and raises bottomCollision
   * (the top edge raises the bottom flag too).
   */
  function ClampVertical(b: Body): (r: Clamped)
    ensures r.bottomCollision <==> OutsideVertically(b)
    ensures r.bottomCollision ==> r.body.dy == 0.0
    ensures !r.bottomCollision ==> r.body == b
    ensures 0.0 <= b.height <= WorldHeight ==> 0.0 <= r.body.y <= WorldHeight - b.height
    ensures b.y > WorldHeight - b.height ==> r.body.y == WorldHeight - b.height
    ensures b.y < 0.0 && b.y <= WorldHeight - b.height ==> r.body.y == 0.0
    ensures r.body.x == b.x && r.body.dx == b.dx
    ensures r.body.width == b.width && r.body.height == b.height
  {
    if b.y > WorldHeight - b.height then Clamped(b.(y := WorldHeight - b.height, dy := 0.0), true)
    else if b.y < 0.0 then Clamped(b.(y := 0.0, dy := 0.0), true)
    else Clamped(b, false)
  }

  /** Keeps the player inside the world horizontally; stops horizontal motion when it fires. */
  function ClampHorizontal(b: Body): (r: Body)
    ensures OutsideHorizontally(b) ==> r.dx == 0.0
    ensures !OutsideHorizontally(b) ==> r == b
    ensures 0.0 <= b.width <= WorldWidth ==> 0.0 <= r.x <= WorldWidth - b.width
    ensures b.x > WorldWidth - b.width ==> r.x == WorldWidth - b.width
    ensures b.x < 0.0 && b.x <= WorldWidth - b.width ==> r.x == 0.0
    ensures r.y == b.y && r.dy == b.dy
    ensures r.width == b.width && r.height == b.height
  {
    if b.x > WorldWidth - b.width then b.(x := WorldWidth - b.width, dx := 0.0)
    else if b.x < 0.0 then b.(x := 0.0, dx := 0.0)
    else b
  }

  /** The vertical clamp followed by the horizontal one; only the vertical one raises a flag. */
  function ClampToWorld(b: Body): (r: Clamped)
    ensures r.bottomCollision <==> OutsideVertically(b)
    ensures 0.0 <= b.height <= WorldHeight ==> 0.0 <= r.body.y <= WorldHeight - b.height
    ensures 0.0 <= b.width <= WorldWidth ==> 0.0 <= r.body.x <= WorldWidth - b.width
    ensures OutsideVertically(b) ==> r.body.dy == 0.0
    ensures OutsideHorizontally(b) ==> r.body.dx == 0.0
    ensures !OutsideVertically(b) ==> r.body.y == b.y && r.body.dy == b.dy
    ensures !OutsideHorizontally(b) ==> r.body.x == b.x && r.body.dx == b.dx
    ensures r.body.width == b.width && r.body.height == b.height
  {
    var v := ClampVertical(b);
    Clamped(ClampHorizontal(v.body), v.bottomCollision)
  }

  /** What one detected vector adds to the correction: its direction scaled by its depth. */
  function Contribution(v: CollisionVector): Vector
  {
    Vector(v.vector.dx * v.magnitude, v.vector.dy * v.magnitude)
  }

  function Plus(a: Vector, b: Vector): Vector
  {
    Vector(a.dx + b.dx, a.dy + b.dy)
  }

  /**
   * The sum of the contributions of all vectors, accumulated front to back:
   * no vectors give no correction, a single vector gives its own contribution.
   */
  function Aggregate(vs: seq<CollisionVector>): (r: Vector)
    ensures vs == [] ==> r == Vector(0.0, 0.0)
    ensures |vs| == 1 ==> r == Contribution(vs[0])
  {
    if vs == [] then Vector(0.0, 0.0)
    else Plus(Aggregate(vs[..|vs| - 1]), Contribution(vs[|vs| - 1]))
  }

  /**
   * Reads the vertical correction: pushed up while falling is a bottom hit,
   * pushed down while rising is a top hit; corrections within Epsilon are ignored.
   */
  function Classify(collisionDeltaY: real, dy: real): (h: Hits)
    ensures h.bottom <==> collisionDeltaY < -Epsilon && dy > 0.0
    ensures h.top <==> collisionDeltaY > Epsilon && dy < 0.0
    ensures !(h.bottom && h.top)
    ensures dy == 0.0 ==> !h.bottom && !h.top
  {
    if collisionDeltaY < -Epsilon && dy > 0.0 then Hits(true, false)
    else if collisionDeltaY > Epsilon && dy < 0.0 then Hits(false, true)
    else Hits(false, false)
  }

  /** Vertical velocity at the end of a tick: zero on a bottom hit, else gravity from zero (top hit) or from dy. */
  function GravityGate(dy: real, bottomCollision: bool, topCollision: bool, deltaTime: real,
                       gravity: (real, real) -> real): (r: real)
    ensures bottomCollision ==> r == 0.0
    ensures !bottomCollision && topCollision ==> r == gravity(0.0, deltaTime)
    ensures !bottomCollision && !topCollision ==> r == gravity(dy, deltaTime)
  {
    if bottomCollision then 0.0
    else gravity(if topCollision then 0.0 else dy, deltaTime)
  }

  /** One full tick, as a function of the player before it, the keys, the detector and gravity. */
  function Tick(b: Body, keys: KeyState, deltaTime: real,
                detect: Body -> seq<CollisionVector>, gravity: (real, real) -> real): (r: TickResult)
    ensures r.collisionVectors == detect(ClampToWorld(ApplyInput(b, keys, deltaTime)).body)
    ensures !(r.bottomCollision && r.topCollision)
    ensures r.bottomCollision ==> r.body.dy == 0.0
    ensures r.body.width == b.width && r.body.height == b.height
  {
    var clamped := ClampToWorld(ApplyInput(b, keys, deltaTime));
    var c := clamped.body;
    var vectors := detect(c);
    var delta := Aggregate(vectors);
    var hits := Classify(delta.dy, c.dy);
    var bottom := clamped.bottomCollision || hits.bottom;
    var corrected := c.(x := c.x + delta.dx, y := c.y + delta.dy);
    TickResult(corrected.(dy := GravityGate(c.dy, bottom, hits.top, deltaTime, gravity)),
               vectors, bottom, hits.top)
  }

  // ---------------------------------------------------------------------------
  // Properties of the correction sum

  lemma {:induction false} AggregateConcat(a: seq<CollisionVector>, b: seq<CollisionVector>)
    ensures Aggregate(a + b) == Plus(Aggregate(a), Aggregate(b))
    decreases |b|
  {
    if b == [] {
      assert a + b == a;
    } else {
      var n := |b| - 1;
      var ab := a + b;
      assert ab[..|ab| - 1] == a + b[..n] && ab[|ab| - 1] == b[n];
      AggregateConcat(a, b[..n]);
      calc {
        Aggregate(ab);
        Plus(Aggregate(a + b[..n]), Contribution(b[n]));
        Plus(Plus(Aggregate(a), Aggregate(b[..n])), Contribution(b[n]));
        Plus(Aggregate(a), Plus(Aggregate(b[..n]), Contribution(b[n])));
        Plus(Aggregate(a), Aggregate(b));
      }
    }
  }

  /** When no vector pushes down, the correction does not push down; and likewise upwards. */
  lemma {:induction false} AggregateSign(vs: seq<CollisionVector>)
    ensures (forall i :: 0 <= i < |vs| ==> Contribution(vs[i]).dy <= 0.0) ==> Aggregate(vs).dy <= 0.0
    ensures (forall i :: 0 <= i < |vs| ==> Contribution(vs[i]).dy >= 0.0) ==> Aggregate(vs).dy >= 0.0
    decreases |vs|
  {
    if vs != [] {
      var n := |vs| - 1;
      AggregateSign(vs[..n]);
      assert forall i :: 0 <= i < n ==> vs[..n][i] == vs[i];
    }
  }

  /** Taking one vector out of the list takes exactly its contribution out of the correction. */
  lemma {:induction false} AggregateRemove(b: seq<CollisionVector>, j: nat)
    requires j < |b|
    ensures Aggregate(b) == Plus(Aggregate(b[..j] + b[j + 1..]), Contribution(b[j]))
  {
    var left, right := b[..j], b[j + 1..];
    assert b == left + ([b[j]] + right);
    AggregateConcat(left, [b[j]] + right);
    AggregateConcat([b[j]], right);
    AggregateConcat(left, right);
    assert Aggregate([b[j]]) == Contribution(b[j]) by {
      assert [b[j]][..0] == [];
    }
  }

  lemma MultisetRemove(a: seq<CollisionVector>, b: seq<CollisionVector>, j: nat)
    requires multiset(a) == multiset(b) && a != [] && j < |b| && b[j] == a[|a| - 1]
    ensures multiset(a[..|a| - 1]) == multiset(b[..j] + b[j + 1..])
  {
    var n := |a| - 1;
    assert a == a[..n] + [a[n]];
    assert b == b[..j] + [b[j]] + b[j + 1..];
    var rest := b[..j] + b[j + 1..];
    assert multiset(b) == multiset(rest) + multiset{a[n]};
    assert multiset(a) == multiset(a[..n]) + multiset{a[n]};
    assert multiset(a[..n]) == multiset(a) - multiset{a[n]};
    assert multiset(rest) == multiset(b) - multiset{a[n]};
  }

  /** The order in which the detector reports its vectors does not change the correction. */
  lemma {:induction false} AggregatePermutation(a: seq<CollisionVector>, b: seq<CollisionVector>)
    requires multiset(a) == multiset(b)
    ensures Aggregate(a) == Aggregate(b)
    decreases |a|
  {
    if a == [] {
      assert |b| == |multiset(b)| == 0;
    } else {
      var n := |a| - 1;
      assert a[n] in multiset(b) by {
        assert a[n] in multiset(a);
      }
      var j :| 0 <= j < |b| && b[j] == a[n];
      MultisetRemove(a, b, j);
      AggregatePermutation(a[..n], b[..j] + b[j + 1..]);
      AggregateRemove(b, j);
    }
  }

  // ---------------------------------------------------------------------------
  // Properties of a tick

  /** The detector sees the player after the input step and the world clamp, and its output is kept. */
  lemma TickDetectsClampedPlayer(b: Body, keys: KeyState, deltaTime: real,
                                 detect: Body -> seq<CollisionVector>, gravity: (real, real) -> real)
    ensures Tick(b, keys, deltaTime, detect, gravity).collisionVectors
         == detect(ClampToWorld(ApplyInput(b, keys, deltaTime)).body)
  {
  }

  /** The summed correction is added to the clamped position exactly once; dx is not touched by it. */
  lemma TickCorrectionAppliedOnce(b: Body, keys: KeyState, deltaTime: real,
                                  detect: Body -> seq<CollisionVector>, gravity: (real, real) -> real)
    ensures var c := ClampToWorld(ApplyInput(b, keys, deltaTime)).body;
            var r := Tick(b, keys, deltaTime, detect, gravity);
            r.body.x == c.x + Aggregate(r.collisionVectors).dx &&
            r.body.y == c.y + Aggregate(r.collisionVectors).dy &&
            r.body.dx == c.dx && r.body.width == b.width && r.body.height == b.height
  {
  }

  /** With no detected vectors the clamped position stands, no top hit is raised and gravity follows the clamp alone. */
  lemma TickWithoutCollisions(b: Body, keys: KeyState, deltaTime: real,
                              detect: Body -> seq<CollisionVector>, gravity: (real, real) -> real)
    requires detect(ClampToWorld(ApplyInput(b, keys, deltaTime)).body) == []
    ensures var clamped := ClampToWorld(ApplyInput(b, keys, deltaTime));
            var r := Tick(b, keys, deltaTime, detect, gravity);
            r.body.x == clamped.body.x && r.body.y == clamped.body.y &&
            !r.topCollision && r.bottomCollision == clamped.bottomCollision
  {
  }

  /** A tick never ends with both the top and the bottom flag raised. */
  lemma TickFlagsExclusive(b: Body, keys: KeyState, deltaTime: real,
                           detect: Body -> seq<CollisionVector>, gravity: (real, real) -> real)
    ensures var r := Tick(b, keys, deltaTime, detect, gravity);
            !(r.bottomCollision && r.topCollision)
  {
  }

  /** The bottom flag is raised by the vertical clamp or by an upward correction while falling, and by nothing else. */
  lemma TickBottomCollision(b: Body, keys: KeyState, deltaTime: real,
                            detect: Body -> seq<CollisionVector>, gravity: (real, real) -> real)
    ensures var moved := ApplyInput(b, keys, deltaTime);
            var c := ClampToWorld(moved).body;
            var r := Tick(b, keys, deltaTime, detect, gravity);
            r.bottomCollision <==> OutsideVertically(moved) || (Aggregate(r.collisionVectors).dy < -Epsilon && c.dy > 0.0)
  {
  }

  /**
   * On a bottom hit dy ends at zero and gravity is skipped; otherwise gravity
   * is applied exactly once, to zero after a top hit and to the clamped dy otherwise.
   */
  lemma TickGravityGate(b: Body, keys: KeyState, deltaTime: real,
                        detect: Body -> seq<CollisionVector>, gravity: (real, real) -> real)
    ensures var c := ClampToWorld(ApplyInput(b, keys, deltaTime)).body;
            var r := Tick(b, keys, deltaTime, detect, gravity);
            (r.bottomCollision ==> r.body.dy == 0.0) &&
            (!r.bottomCollision && r.topCollision ==> r.body.dy == gravity(0.0, deltaTime)) &&
            (!r.bottomCollision && !r.topCollision ==> r.body.dy == gravity(c.dy, deltaTime))
  {
  }

  /**
   * After a tick that ends on a bottom hit, the next input step moves the player
   * only horizontally, provided nothing between the two ticks changed y or dy.
   */
  lemma NoVerticalDriftAfterLanding(b: Body, keys: KeyState, deltaTime: real,
                                    detect: Body -> seq<CollisionVector>, gravity: (real, real) -> real,
                                    next: Body, nextKeys: KeyState, nextDeltaTime: real)
    requires Tick(b, keys, deltaTime, detect, gravity).bottomCollision
    requires next.y == Tick(b, keys, deltaTime, detect, gravity).body.y
    requires next.dy == Tick(b, keys, deltaTime, detect, gravity).body.dy
    ensures ApplyInput(next, nextKeys, nextDeltaTime).y == next.y
  {
    TickGravityGate(b, keys, deltaTime, detect, gravity);
  }

  /**
   * Leaving the world through its top edge counts as a bottom hit: the clamp
   * puts the player at y = 0, after which only the detector's correction moves
   * it vertically; dy ends at zero and gravity is skipped for that tick.
   */
  lemma CeilingHitSkipsGravity(b: Body, keys: KeyState, deltaTime: real,
                               detect: Body -> seq<CollisionVector>, gravity: (real, real) -> real)
    requires 0.0 <= b.height <= WorldHeight
    requires b.y + b.dy < 0.0
    ensures var r := Tick(b, keys, deltaTime, detect, gravity);
            var c := ClampToWorld(ApplyInput(b, keys, deltaTime)).body;
            c.y == 0.0 && r.body.y == Aggregate(r.collisionVectors).dy &&
            r.bottomCollision && !r.topCollision && r.body.dy == 0.0
  {
  }

  /** A player already inside the world is left where it is by the clamp, and no flag is raised. */
  lemma ClampIdempotent(b: Body)
    requires 0.0 <= b.height <= WorldHeight && 0.0 <= b.width <= WorldWidth
    ensures ClampToWorld(ClampToWorld(b).body) == Clamped(ClampToWorld(b).body, false)
  {
  }

  /**
   * The forEach of the update: the corrections of all vectors summed, in the
   * order the detector returned them.
   */
  method SumCorrections(vs: seq<CollisionVector>) returns (collisionDeltaX: real, collisionDeltaY: real)
    ensures Vector(collisionDeltaX, collisionDeltaY) == Aggregate(vs)
  {
    collisionDeltaX, collisionDeltaY := 0.0, 0.0;
    var i := 0;
    while i < |vs|
      invariant 0 <= i <= |vs|
      invariant Vector(collisionDeltaX, collisionDeltaY) == Aggregate(vs[..i])
    {
      var v := vs[i];
      collisionDeltaX := collisionDeltaX + v.vector.dx * v.magnitude;
      collisionDeltaY := collisionDeltaY + v.vector.dy * v.magnitude;
      assert vs[..i + 1][..i] == vs[..i];
      i := i + 1;
    }
    assert vs[..i] == vs;
  }

  /** A tick written out stage by stage, for the in-place update to follow. */
  lemma TickStages(b: Body, keys: KeyState, deltaTime: real,
                   detect: Body -> seq<CollisionVector>, gravity: (real, real) -> real,
                   clamped: Clamped, delta: Vector)
    requires clamped == ClampToWorld(ApplyInput(b, keys, deltaTime))
    requires delta == Aggregate(detect(clamped.body))
    ensures var c := clamped.body;
            var hits := Classify(delta.dy, c.dy);
            var bottom := clamped.bottomCollision || hits.bottom;
            Tick(b, keys, deltaTime, detect, gravity)
              == TickResult(c.(x := c.x + delta.dx, y := c.y + delta.dy,
                               dy := GravityGate(c.dy, bottom, hits.top, deltaTime, gravity)),
                            detect(c), bottom, hits.top)
  {
  }

  // ---------------------------------------------------------------------------
  // The playing state

  class PlayingState {
    const player: Player
    /** The collision detector, with the loaded map's objects fixed. */
    const detect: Body -> seq<CollisionVector>
    /** Gravity.apply, as a function of the vertical velocity and the elapsed time. */
    const gravity: (real, real) -> real
    var keyState: KeyState
    var collisionVectors: seq<CollisionVector>

    constructor (player: Player, detect: Body -> seq<CollisionVector>, gravity: (real, real) -> real)
      ensures this.player == player && this.detect == detect && this.gravity == gravity
      ensures keyState == KeyState(false, false) && collisionVectors == []
    {
      this.player := player;
      this.detect := detect;
      this.gravity := gravity;
      keyState := KeyState(false, false);
      collisionVectors := [];
    }

    /** One tick, mutating the player in place in the order the stages of Tick describe. */
    method Update(deltaTime: real)
      modifies player, this`collisionVectors
      ensures var r := Tick(old(player.Snapshot()), keyState, deltaTime, detect, gravity);
              player.Snapshot() == r.body && collisionVectors == r.collisionVectors
    {
      ghost var before := player.Snapshot();
      ApplyKeys(deltaTime);
      var bottomCollision := KeepInWorld();
      ghost var clamped := ClampToWorld(ApplyInput(before, keyState, deltaTime));

      collisionVectors := detect(player.Snapshot());
      var collisionDeltaX, collisionDeltaY := SumCorrections(collisionVectors);
      var topCollision;
      bottomCollision, topCollision := ApplyCorrection(collisionDeltaX, collisionDeltaY, bottomCollision);
      ApplyGravityGate(bottomCollision, topCollision, deltaTime);
      TickStages(before, keyState, deltaTime, detect, gravity, clamped, Vector(collisionDeltaX, collisionDeltaY));
    }

    /** Sets dx from the keys and moves the player by its velocity. */
    method ApplyKeys(deltaTime: real)
      modifies player
      ensures player.Snapshot() == ApplyInput(old(player.Snapshot()), keyState, deltaTime)
    {
      if keyState.left && keyState.right {
        player.dx := 0.0;
      } else if keyState.left {
        player.dx := -RunSpeed * deltaTime;
      } else if keyState.right {
        player.dx := RunSpeed * deltaTime;
      } else {
        player.dx := 0.0;
      }
      player.x := player.x + player.dx;
      player.y := player.y + player.dy;
    }

    /** The world clamp, in place; reports whether the vertical clamp fired. */
    method KeepInWorld() returns (bottomCollision: bool)
      modifies player
      ensures var r := ClampToWorld(old(player.Snapshot()));
              player.Snapshot() == r.body && bottomCollision == r.bottomCollision
    {
      bottomCollision := false;
      if player.y > WorldHeight - player.height {
        player.y := WorldHeight - player.height;
        player.dy := 0.0;
        bottomCollision := true;
      } else if player.y < 0.0 {
        player.y := 0.0;
        player.dy := 0.0;
        bottomCollision := true;
      }
      if player.x > WorldWidth - player.width {
        player.x := WorldWidth - player.width;
        player.dx := 0.0;
      } else if player.x < 0.0 {
        player.x := 0.0;
        player.dx := 0.0;
      }
    }

    /** Moves the player by the summed correction and classifies its vertical part. */
    method ApplyCorrection(collisionDeltaX: real, collisionDeltaY: real, clampedBottom: bool)
      returns (bottomCollision: bool, topCollision: bool)
      modifies player
      ensures var hits := Classify(collisionDeltaY, old(player.dy));
              bottomCollision == (clampedBottom || hits.bottom) && topCollision == hits.top
      ensures player.Snapshot() == old(player.Snapshot()).(x := old(player.x) + collisionDeltaX,
                                                           y := old(player.y) + collisionDeltaY)
    {
      bottomCollision, topCollision := clampedBottom, false;
      player.x := player.x + collisionDeltaX;
      player.y := player.y + collisionDeltaY;
      if collisionDeltaY < -Epsilon && player.dy > 0.0 {
        bottomCollision := true;
      } else if collisionDeltaY > Epsilon && player.dy < 0.0 {
        topCollision := true;
      }
    }

    /** Stops vertical motion on a bottom hit; otherwise applies gravity once, from zero after a top hit. */
    method ApplyGravityGate(bottomCollision: bool, topCollision: bool, deltaTime: real)
      modifies player
      ensures player.Snapshot() == old(player.Snapshot()).(dy := GravityGate(old(player.dy), bottomCollision,
                                                                             topCollision, deltaTime, gravity))
    {
      if bottomCollision {
        player.dy := 0.0;
      } else {
        if topCollision {
          player.dy := 0.0;
        }
        player.dy := gravity(player.dy, deltaTime);
      }
    }
  }
}
