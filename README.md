# Wizard Wars: the player's per-tick physics, and map objects

This project models, in Dafny, the part of the Wizard Wars platformer that moves
the player one frame at a time, and the construction of a map obstacle.

- **The legacy playing state** (`src/gamestates/PlayingState.ts`, module
  `LegacyPlaying`). Each tick reads the left/right keys into a horizontal
  velocity (both keys cancel), moves the player by its velocity, and clamps it
  into the 1024 × 640 world. A vertical clamp zeroes `dy` and raises
  `bottomCollision`; a horizontal clamp zeroes `dx`. The tick then asks the
  collision detector for its vectors and keeps them in the `collisionVectors`
  field. It sums `direction × magnitude` over them into one correction and
  moves the player by it once. The vertical part of the correction is read as
  a bottom hit (pushed up while falling) or a top hit (pushed down while
  rising), with a 1e-8 dead band. Last comes gravity: on a bottom hit `dy`
  becomes 0 and gravity is skipped; otherwise gravity is applied once, starting
  from 0 after a top hit.
- **The web playing state** (`web/src/gamestates/playing/PlayingState.ts`,
  module `WebPlaying`). `handleEvents` applies the same keyboard rule and moves
  the player. `update` then runs the collision handler, applies gravity, and
  sets `dy` to 0 when the handler reported either collision flag.
- **Map objects** (`web/src/map/MapObject.ts`, module `MapObjects`). A map
  object keeps the decomposer's convex pieces unchanged, gets one random
  `#RRGGBB` colour per piece, and keeps the vertices of the source polygon.

Module `Kinematics` holds what both playing states share: the player, its
snapshot `Body`, the key state and the keyboard rule.

Each playing state is a class over a mutable `Player` object. Its `Update`
method writes the player's fields in the source's order. Its postcondition ties
the new player to a pure function `Tick` of the old one. The lemmas beside
`Tick` state what the source promises about a tick.

The collaborators whose code is not part of this model are opaque functions,
and nothing is assumed about what they return. `CollisionDetector.detect`
(with the loaded map fixed), `CollisionHandler.handle` and `Gravity.apply` (a
function of `dy` and `deltaTime`) are function-valued constants of the playing
state. `PolygonDecomposer.decompose` is a parameter of `NewMapObject`.
`Math.random()` is a nondeterministic choice of a real in [0, 1). It is scaled
by 16 and rounded down, as in the source. Numbers are `real`.

The legacy `update` is one method in the source. Here `Update` calls one method
per block of it (`ApplyKeys`, `KeepInWorld`, `SumCorrections`,
`ApplyCorrection`, `ApplyGravityGate`), in the same order and with the same
branches.

Behaviour of the source worth noting:
- In the legacy tick, clamping at the top edge raises `bottomCollision`
  (src/gamestates/PlayingState.ts:102-105), not a top flag. So hitting the
  ceiling skips gravity for that tick (`CeilingHitSkipsGravity`).
- In the legacy tick, a top hit does not stop vertical motion for the tick:
  `dy` is set to 0 and gravity is still applied to it
  (src/gamestates/PlayingState.ts:135-138, `TickGravityGate`).
- The world clamp (src/gamestates/PlayingState.ts:98-113) runs before the
  detector call (line 115), so the detector sees the clamped player.

## Model

| member | source | states |
|---|---|---|
| `Kinematics.InputVelocity` | src/gamestates/PlayingState.ts:81-89 | both keys or neither give dx = 0; left alone gives -300·deltaTime; right alone gives 300·deltaTime |
| `Kinematics.ApplyInput` | src/gamestates/PlayingState.ts:81-92 | the input step sets dx from the keys, then moves x by the new dx and y by the unchanged dy; dy, width and height are kept |
| `Kinematics.InputVelocityMirror` | web/src/gamestates/playing/PlayingState.ts:134-142 | swapping the left and right keys negates the horizontal velocity |
| `LegacyPlaying.ClampVertical` | src/gamestates/PlayingState.ts:98-106 | bottomCollision is raised exactly when y is below 0 or above 640 - height, and then dy = 0; the top edge raises it too; y ends on the boundary it crossed and within [0, 640 - height] when height fits; otherwise nothing changes |
| `LegacyPlaying.ClampHorizontal` | src/gamestates/PlayingState.ts:107-113 | leaving [0, 1024 - width] puts x on the crossed boundary and zeroes dx; otherwise nothing changes; y and dy are untouched |
| `LegacyPlaying.ClampToWorld` | src/gamestates/PlayingState.ts:98-113 | after both clamps the player is inside the world when it fits; only the vertical clamp raises a flag; each clamp zeroes the velocity component it cut |
| `LegacyPlaying.Classify` | src/gamestates/PlayingState.ts:126-130 | bottom iff the correction is below -1e-8 while dy > 0; top iff it is above 1e-8 while dy < 0; never both; nothing when dy = 0 |
| `LegacyPlaying.Aggregate` | src/gamestates/PlayingState.ts:117-122 | the reference sum of direction × magnitude that `SumCorrections` is proved equal to: no vectors give a zero correction (x and y unchanged), one vector gives its own contribution; its other properties are `AggregateConcat`, `AggregateRemove`, `AggregatePermutation` and `AggregateSign` |
| `LegacyPlaying.AggregateSign` | src/gamestates/PlayingState.ts:117-122 | if no vector pushes down, the summed correction does not push down, and likewise upwards |
| `LegacyPlaying.GravityGate` | src/gamestates/PlayingState.ts:132-139 | the reference for the end of a tick that `ApplyGravityGate` is proved equal to: 0 on a bottom hit, gravity applied once to 0 after a top hit, otherwise gravity applied once to dy |
| `LegacyPlaying.Tick` | src/gamestates/PlayingState.ts:80-140 | the reference tick that `PlayingState.Update` is proved equal to: its collisionVectors are the detector's output for the clamped player, the two flags never both hold, a bottom hit ends with dy = 0, and the size is kept; its other properties are the `Tick…` lemmas, `CeilingHitSkipsGravity` and `NoVerticalDriftAfterLanding` |
| `LegacyPlaying.AggregateConcat` | src/gamestates/PlayingState.ts:117-122 | the correction of two lists of vectors, one after the other, is the sum of their corrections |
| `LegacyPlaying.AggregateRemove` | src/gamestates/PlayingState.ts:117-122 | taking any one vector out of the list removes exactly its direction × magnitude from the correction |
| `LegacyPlaying.AggregatePermutation` | src/gamestates/PlayingState.ts:117-122 | reordering the detector's vectors does not change the correction |
| `LegacyPlaying.SumCorrections` | src/gamestates/PlayingState.ts:117-122 | the forEach loop computes the sum of direction × magnitude over all vectors |
| `LegacyPlaying.TickDetectsClampedPlayer` | src/gamestates/PlayingState.ts:115 | the detector is asked about the player after the input step and the clamp, and its answer is the tick's collisionVectors |
| `LegacyPlaying.TickCorrectionAppliedOnce` | src/gamestates/PlayingState.ts:117-125 | the final position is the clamped position plus the summed correction, added once; dx and the size are not changed by it |
| `LegacyPlaying.TickWithoutCollisions` | src/gamestates/PlayingState.ts:115-130 | with no detected vectors the clamped position stands, no top hit is raised, and bottomCollision is exactly the clamp's |
| `LegacyPlaying.TickFlagsExclusive` | src/gamestates/PlayingState.ts:94-130 | a tick never ends with both flags raised, because a clamp zeroes dy before the classification |
| `LegacyPlaying.TickBottomCollision` | src/gamestates/PlayingState.ts:98-130 | bottomCollision holds iff the vertical clamp fired or the correction pushed the falling player up by more than 1e-8 |
| `LegacyPlaying.TickGravityGate` | src/gamestates/PlayingState.ts:132-139 | on a bottom hit the final dy is 0 and gravity is skipped; after a top hit dy is gravity applied once to 0; otherwise gravity applied once to the clamped dy |
| `LegacyPlaying.CeilingHitSkipsGravity` | src/gamestates/PlayingState.ts:102-139 | crossing the top edge makes the clamp put the player at y = 0, so its final y is the detector's vertical correction alone; bottomCollision is raised, no top hit, and dy ends at 0 |
| `LegacyPlaying.NoVerticalDriftAfterLanding` | src/gamestates/PlayingState.ts:132-133 | after a tick that ends on a bottom hit, if nothing between the ticks changes y or dy, the next input step does not move the player vertically |
| `LegacyPlaying.ClampIdempotent` | src/gamestates/PlayingState.ts:98-113 | clamping a clamped player changes nothing and raises no flag |
| `LegacyPlaying.PlayingState.constructor` | src/gamestates/PlayingState.ts:21-34 | a new playing state holds its player, no pressed keys and no collision vectors |
| `LegacyPlaying.PlayingState.Update` | src/gamestates/PlayingState.ts:80-140 | the player after the in-place update is `Tick` of the player before it, and the collisionVectors field is the detector's output for that tick |
| `LegacyPlaying.PlayingState.ApplyKeys` | src/gamestates/PlayingState.ts:81-92 | the in-place input step leaves the player equal to `ApplyInput` of the old player |
| `LegacyPlaying.PlayingState.KeepInWorld` | src/gamestates/PlayingState.ts:94-113 | the in-place clamp leaves the player equal to `ClampToWorld` of the old player and returns its flag |
| `LegacyPlaying.PlayingState.ApplyCorrection` | src/gamestates/PlayingState.ts:124-130 | moves the player by the correction and nothing else; the flags are those of `Classify` added to the clamp's bottom flag |
| `LegacyPlaying.PlayingState.ApplyGravityGate` | src/gamestates/PlayingState.ts:132-139 | changes only dy: 0 on a bottom hit, otherwise gravity applied once, to 0 after a top hit |
| `WebPlaying.Tick` | web/src/gamestates/playing/PlayingState.ts:114-124 | the reference tick that `PlayingState.Update` is proved equal to: the handler is given the player after the input step; either flag gives a final dy of 0; no flag gives gravity applied once to the handler's dy; its other properties are `HandlerRunsAfterEvents`, `FlagsOverrideGravity`, `GravityAppliedOnce` and `GravityTouchesOnlyDy` |
| `WebPlaying.HandlerRunsAfterEvents` | web/src/gamestates/playing/PlayingState.ts:114-118 | the collision handler is given the player after the input step: dx set from the keys and the position advanced by (dx, dy) |
| `WebPlaying.FlagsOverrideGravity` | web/src/gamestates/playing/PlayingState.ts:120-123 | if the handler reports either flag, the final dy is 0 whatever gravity returned |
| `WebPlaying.GravityAppliedOnce` | web/src/gamestates/playing/PlayingState.ts:120-121 | if the handler reports no flag, the final dy is gravity applied once to the dy the handler left |
| `WebPlaying.GravityTouchesOnlyDy` | web/src/gamestates/playing/PlayingState.ts:120-123 | gravity and the flag reset change only dy; position, dx and size are as the handler left them |
| `WebPlaying.PlayingState.constructor` | web/src/gamestates/playing/PlayingState.ts:44-51 | a new playing state holds its player and no pressed keys |
| `WebPlaying.PlayingState.Update` | web/src/gamestates/playing/PlayingState.ts:114-124 | the player after the in-place update is `Tick` of the player before it: events, then the handler, then gravity, then the flag reset |
| `WebPlaying.PlayingState.HandleEvents` | web/src/gamestates/playing/PlayingState.ts:133-146 | dx follows the keyboard rule; x advances by the new dx and y by the old dy; dy, width and height are unchanged |
| `MapObjects.RandomColor` | web/src/map/MapObject.ts:8-15 | the result has 7 characters, starts with '#', and every later character is one of 0123456789ABCDEF |
| `MapObjects.NewMapObject` | web/src/map/MapObject.ts:22-26 | polygons is exactly the decomposer's output; there is one well-formed colour per polygon; vertices are the source polygon's coordinates, not the pieces' |

## Left out

- LegacyPlaying.NoVerticalDriftAfterLanding: assumes that nothing between two ticks changes y or dy. In the source, `player.update()` (src/gamestates/PlayingState.ts:141) and the keydown handler given the player (line 63) run between ticks, and neither is part of this model.
- `Player.update()`, called at the end of both ticks, is not part of this model. The player's code is not available. Every postcondition describes the player just before that call.
- `this.items.forEach(item => item.update())` in the web `update` is not modelled. Spell items are not part of this model.
- The collision detector, the polygon decomposer, `Gravity.apply` and `CollisionHandler.handle` are not part of this model. They are opaque function parameters. Gravity is assumed to read and write only `dy`, and the handler to return a new player snapshot with its two flags.
- `CollisionDetector.detect` is given the whole player snapshot. The map objects it also receives are fixed inside the function passed in.
- Rendering (`render`, `translateViewport`, `mouseOffset`, `MapObject.render`) is left out. It is canvas and viewport work.
- Networking (the WebSocket setup, `sendUpdate`, `handleMessage`) is left out. It is I/O and a wire format.
- Event wiring (`setup`, `teardown`, the key and mouse handlers that update the key state, `window.setInterval`) is left out. It is host plumbing. The key state is a field the tick only reads.
- `id` and `moveToState` are left out. They only return constants or the next-state field.
- `MapLoader.load` and the constructors' `new Player(325, 25, 0, 20)` are not part of this model. A playing state is built around a given player.
- Numbers are `real`. IEEE-754 rounding is not modelled, and neither are NaN and infinities.
- `Math.random()` is a nondeterministic choice in [0, 1). No distribution is modelled.
