// The player's physical state and the keyboard rule that both playing states
// (the legacy one and the web one) apply at the start of every tick.

module Kinematics {

  /** A snapshot of the fields of a player that the tick reads or writes. */
  datatype Body = Body(x: real, y: real, dx: real, dy: real, width: real, height: real)

  /** The directional keys held down during a tick. */
  datatype KeyState = KeyState(left: bool, right: bool)

  /** Horizontal speed, in pixels per second, while one direction key is held. */
  const RunSpeed: real := 300.0

  /** The player object both playing states mutate field by field. */
  class Player {
    var x: real
    var y: real
    var dx: real
    var dy: real
    var width: real
    var height: real

    constructor (b: Body)
      ensures Snapshot() == b
    {
      x, y, dx, dy := b.x, b.y, b.dx, b.dy;
      width, height := b.width, b.height;
    }

    function Snapshot(): Body
      reads this
    {
      Body(x, y, dx, dy, width, height)
    }

    /** Overwrites every field at once; stands for a collaborator that mutates the player. */
    method Assign(b: Body)
      modifies this
      ensures Snapshot() == b
    {
      x, y, dx, dy := b.x, b.y, b.dx, b.dy;
      width, height := b.width, b.height;
    }
  }

  /**
   * The horizontal velocity chosen from the keys: holding both keys cancels,
   * holding neither stops, otherwise the player runs towards the held key.
   */
  function InputVelocity(keys: KeyState, deltaTime: real): (dx: real)
    ensures keys.left == keys.right ==> dx == 0.0
    ensures keys.left && !keys.right ==> dx == -RunSpeed * deltaTime
    ensures keys.right && !keys.left ==> dx == RunSpeed * deltaTime
  {
    if keys.left && keys.right then 0.0
    else if keys.left then -RunSpeed * deltaTime
    else if keys.right then RunSpeed * deltaTime
    else 0.0
  }

  /**
   * The first step of a tick: set dx from the keys, then move the player by its
   * new dx and its unchanged dy.
   */
  function ApplyInput(b: Body, keys: KeyState, deltaTime: real): (r: Body)
    ensures r.dx == InputVelocity(keys, deltaTime)
    ensures r.x == b.x + r.dx && r.y == b.y + b.dy
    ensures r.dy == b.dy && r.width == b.width && r.height == b.height
  {
    var v := InputVelocity(keys, deltaTime);
    b.(dx := v, x := b.x + v, y := b.y + b.dy)
  }

  /** Swapping the two keys mirrors the horizontal velocity. */
  lemma InputVelocityMirror(keys: KeyState, deltaTime: real)
    ensures InputVelocity(KeyState(keys.right, keys.left), deltaTime) == -InputVelocity(keys, deltaTime)
  {
  }
}
