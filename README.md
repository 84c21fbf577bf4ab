# Subsink player ship — a verified Dafny model

The game is a small arcade game: a ship moves left and right along the water
surface, drops depth charges on submarines below, and is hurt by height charges
rising from them. This project models the player ship, `Ship` in
`src/edu/ucsb/cs56/projects/games/subsink/Ship.java`. The ship's behaviour has
four parts, each a piece of field mutation:

- **Health machine.** Health starts at 3. `damage()` takes one point off and
  calls `destroy()` when the health reaches exactly zero.
- **Saturating accelerator.** `accelerate(left)` changes the horizontal speed
  in steps of 10 px/s and stops at ±100 px/s.
- **Edge clamp.** Before moving, a ship that is past an edge and still moving
  outwards is put on that edge and stopped.
- **Deferred drop latch.** `spawnCharge(left)` only records that a drop is
  wanted, and on which side. The next `update` makes at most one spawn request,
  positioned from the clamped position.

The project has three files:

- `ship_rules.dfy` (module `ShipRules`) states each part as a function on plain
  values (`Accelerated`, `Damaged`, `Clamped`, `Charged`, `Emitted`) and proves
  the ship's promises about them as lemmas.
- `subsink.dfy` (module `Subsink`) holds the imperative model. `Ship` is a class
  with the fields the Java object updates in place. `Update`, `SpawnCharge`,
  `Accelerate`, `Destroy`, `Damage` and `Interact` say, in `ensures`, that the
  new state is the matching `ShipRules` function of the old state (`Clamped`
  and `Emitted`, `Charged`, `Accelerated`, `Destroyed`, `Damaged`). `Finalize`
  only forwards the game-over signal and has no such function. `Update`,
  `Accelerate`, `Damage` and `Interact` require and keep `Valid()`, and the
  constructor establishes it. `Valid()` requires a reachable speed (a multiple
  of 10 in [-100, 100]) and the hull invariant `HullOk`: the ship is alive
  exactly while its health is positive, and `destroy()` has run once if the
  health is gone and never otherwise. `Destroy` on its own does not keep
  `Valid()`: it is meant to be called only from `Damage`, when the health has
  just reached 0. `World` (width, buffered spawn requests,
  game-over count) and `Entity` (the other party of `interact`: a height-charge
  tag, a bounding box and an explosion count) model the two collaborators only
  as far as the ship uses them.
- `scenarios.dfy` (module `ShipScenarios`) holds client methods. They build a
  fresh world and ship and replay the game's expected behaviours using only the
  contracts: two left drops then one update, the walls, four hits, and
  collisions.

Positions and speeds are Java `double` in the source. They are `int` here: every
constant involved (±10, ±100, 80, 15, 12, -5, 75) is whole, and the comparisons
are exact on integers.

Two consequences of the code are easy to miss:

- `damage()` has no floor at 0, so a fourth hit in the same tick takes the
  health to -1. `destroy()` still runs only once, because it is guarded by
  `health == 0`. This is proved in `DamageFromFresh` and played out in
  `FourHits`.
- The clamp tests `x < 0` strictly, so a ship exactly at `x = 0` moving left
  keeps its speed in the pre-movement step. This is played out in
  `OnLeftEdge`. It is only stopped by the next update, after the position
  integration has taken it below zero.

## Model

| member | source | states |
|---|---|---|
| `Subsink.Ship.constructor` | src/edu/ucsb/cs56/projects/games/subsink/Ship.java:9-21 | a new ship is at (x, y - 12), 80 by 15, at rest, with health 3, alive, no drop pending, and satisfies the invariant |
| `Subsink.Ship.Update` | src/edu/ucsb/cs56/projects/games/subsink/Ship.java:32-44 | the three clamp cases (left edge first, then right edge, else unchanged); exactly one spawn request is appended iff a drop was pending on entry, from the clamped position; the latch is always cleared; the invariant is kept |
| `Subsink.Ship.Finalize` | src/edu/ucsb/cs56/projects/games/subsink/Ship.java:54-56 | signals game over to the world exactly once per call |
| `Subsink.Ship.SpawnCharge` | src/edu/ucsb/cs56/projects/games/subsink/Ship.java:63-66 | sets the latch and records the side, overwriting whatever was pending; nothing else changes |
| `Subsink.Ship.Accelerate` | src/edu/ucsb/cs56/projects/games/subsink/Ship.java:73-83 | speed changes by exactly 10 towards the pressed side while the bound is not reached, otherwise stays; only the speed changes; a reachable speed stays reachable |
| `Subsink.Ship.Destroy` | src/edu/ucsb/cs56/projects/games/subsink/Ship.java:91 | the ship is no longer alive and one more destroy() call is recorded |
| `Subsink.Ship.Damage` | src/edu/ucsb/cs56/projects/games/subsink/Ship.java:88-93 | health drops by exactly 1; destroy() runs iff the new health is exactly 0; the hull invariant is kept |
| `Subsink.Ship.Interact` | src/edu/ucsb/cs56/projects/games/subsink/Ship.java:101-108 | nothing changes unless the other entity is a height charge overlapping the ship; then it explodes exactly once and the ship takes exactly one point of damage |
| `Subsink.Ship.GetHealth` | src/edu/ucsb/cs56/projects/games/subsink/Ship.java:114 | returns the health, which is at most 3 and positive exactly while the ship is alive |
| `Subsink.World.Spawn` | src/edu/ucsb/cs56/projects/games/subsink/Ship.java:42 | the ship's spawn request is appended to the world's buffer, nothing else |
| `Subsink.World.GameOver` | src/edu/ucsb/cs56/projects/games/subsink/Ship.java:55 | the game-over notification is counted once per call |
| `Subsink.Entity.Explode` | src/edu/ucsb/cs56/projects/games/subsink/Ship.java:105 | the height charge records one more explosion |
| `ShipRules.Accelerated` | src/edu/ucsb/cs56/projects/games/subsink/Ship.java:73-83 | one press keeps a reachable speed reachable, changes the speed by 0 or one step, and never speeds up against the pressed side |
| `ShipRules.AccelerateSaturates` | src/edu/ucsb/cs56/projects/games/subsink/Ship.java:73-83 | from a reachable speed s, n presses right give min(s + 10n, 100) and n presses left give max(s - 10n, -100) |
| `ShipRules.TenPressesReachLimit` | src/edu/ucsb/cs56/projects/games/subsink/Ship.java:69-83 | from rest, ten or more presses in one direction reach ±100 and every further press is a no-op |
| `ShipRules.TwentyPressesEachWay` | src/edu/ucsb/cs56/projects/games/subsink/Ship.java:73-83 | twenty presses right from 0 give exactly 100; twenty presses left from 100 give exactly -100 |
| `ShipRules.Damaged` | src/edu/ucsb/cs56/projects/games/subsink/Ship.java:88-93 | one hit keeps the hull invariant, lowers the health, calls destroy() at most once, and changes liveness only when the health lands on 0 |
| `ShipRules.DamageFromFresh` | src/edu/ucsb/cs56/projects/games/subsink/Ship.java:88-93 | after n hits a fresh ship has health 3 - n, is alive iff n < 3, and destroy() has run once if n >= 3 and never before: the third hit destroys, the fourth gives -1 without a second destroy() |
| `ShipRules.DamageKeepsHullOk` | src/edu/ucsb/cs56/projects/games/subsink/Ship.java:88-93 | any number of hits keeps the hull invariant and lowers the health by exactly that number |
| `ShipRules.Clamped` | src/edu/ucsb/cs56/projects/games/subsink/Ship.java:33-39 | after the clamp a ship moving left is not left of 0 and a ship moving right does not reach past the right edge; when the clamp acts it stops the ship and moves it inwards onto the edge it was crossing; a reachable speed stays reachable |
| `ShipRules.ClampIdempotent` | src/edu/ucsb/cs56/projects/games/subsink/Ship.java:33-39 | clamping a clamped position changes nothing |
| `ShipRules.LastChargeWins` | src/edu/ucsb/cs56/projects/games/subsink/Ship.java:63-66 | any non-empty run of spawnCharge calls leaves the latch exactly as the last call alone would |
| `ShipRules.DropAt` | src/edu/ucsb/cs56/projects/games/subsink/Ship.java:42 | the charge appears 15 px below the ship's top, left of the ship's x iff dropped on the left side |
| `ShipRules.Emitted` | src/edu/ucsb/cs56/projects/games/subsink/Ship.java:41-44 | an update issues at most one spawn request, exactly one iff a drop is pending, below the ship and on the pending side |
| `ShipRules.OneDropPerUpdate` | src/edu/ucsb/cs56/projects/games/subsink/Ship.java:41-44 | however many spawnCharge calls precede an update, it issues exactly one request, on the last side requested |
| `ShipScenarios.DoubleLeftDrop` | src/edu/ucsb/cs56/projects/games/subsink/Ship.java:41-44 | two left drop requests then one update produce exactly one charge, at (x - 5, y - 12 + 15) |
| `ShipScenarios.LastSideServed` | src/edu/ucsb/cs56/projects/games/subsink/Ship.java:63-66 | requests left then right give one charge on the right, and a second update adds none |
| `ShipScenarios.LeftWall` | src/edu/ucsb/cs56/projects/games/subsink/Ship.java:33-42 | a ship left of 0 moving left ends at x = 0 with speed 0, and its pending drop is made from x = 0 |
| `ShipScenarios.OnLeftEdge` | src/edu/ucsb/cs56/projects/games/subsink/Ship.java:33 | a ship exactly at x = 0 moving left is not clamped in the pre-movement step |
| `ShipScenarios.RightWall` | src/edu/ucsb/cs56/projects/games/subsink/Ship.java:36-38 | a ship past the right edge moving right ends flush at width - 80 with speed 0 |
| `ShipScenarios.FourHits` | src/edu/ucsb/cs56/projects/games/subsink/Ship.java:88-93 | four hits on a fresh ship give health 2, 1, 0, -1 and liveness true, true, false, false |
| `ShipScenarios.Collisions` | src/edu/ucsb/cs56/projects/games/subsink/Ship.java:101-108 | an overlapping height charge explodes once and costs one point; an overlapping entity of another kind neither explodes nor changes the ship's health |
| `ShipScenarios.DistantHazard` | src/edu/ucsb/cs56/projects/games/subsink/Ship.java:104 | a height charge that does not overlap the ship neither explodes nor hurts it |

## Left out

- `paint` (Ship.java:110-112) draws an image through the graphics and image-loading services. It is output only and is not modelled.
- `Subsink.Ship.Update` models only the ship's own pre-movement step. The position integration in `Entity.update` (Ship.java:46) is not modelled, because it multiplies by a floating-point time step and Entity.java is not part of this model.
- `Subsink.World.GameOver` only counts calls. What the application does at game over is outside Ship.java.
- `Subsink.Entity.Explode` only counts calls. The internals of `HeightCharge` and `DepthCharge`, and the world's tick order (update, interact, reap, commit), are in files that are not part of this model.
- `Entity.intersects` is not in Ship.java, and Entity.java is not part of this model. `ShipRules.Intersects` takes it to be a half-open bounding-box overlap, `[x, x + width) × [y, y + height)`.
- The initial speed of 0 comes from the `Entity` constructor, which is not part of this model. It is taken as Java's default for an unset field.
- IEEE double semantics of positions and speeds (rounding, NaN, infinities) are not modelled. Positions and speeds are integers.
- `Subsink.Ship.Destroy` is only ever called from `Damage` in this model. Other callers of `Entity.destroy()` would break the invariant that `destroy()` ran at most once.
