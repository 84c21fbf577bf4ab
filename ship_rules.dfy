/** The rules the player ship follows, stated on plain values.
    Each mutating method of the Ship class (module Subsink) is specified by one
    of these functions, and what the game promises about the ship is proved
    here, once, about the functions. */
module ShipRules {

  /** Speed step of one key press and the speed limit, in px/s. */
  const Step: int := 10
  const MaxSpeed: int := 100

  /** Ship geometry and the offsets of a dropped charge, in px. */
  const ShipWidth: int := 80
  const ShipHeight: int := 15
  const ShipRaise: int := 12
  const StartHealth: int := 3
  const LeftDropOffset: int := -5
  const RightDropOffset: int := 75
  const DropDepth: int := 15

  function Min(a: int, b: int): int { if a <= b then a else b }
  function Max(a: int, b: int): int { if a <= b then b else a }

  // ---------------------------------------------------------------------------
  // Acceleration

  /** The speeds reachable from a standing start: multiples of the step
      within the speed limit. */
  predicate SpeedOk(s: int)
  {
    s % Step == 0 && -MaxSpeed <= s <= MaxSpeed
  }

  /** Horizontal speed after one key press to the left or to the right. */
  function Accelerated(speed: int, left: bool): (r: int)
    ensures SpeedOk(speed) ==> SpeedOk(r)
    ensures r == speed || r == speed + (if left then -Step else Step)
    ensures left ==> r <= speed
    ensures !left ==> r >= speed
  {
    if left then
      if speed > -MaxSpeed then speed - Step else speed
    else
      if speed < MaxSpeed then speed + Step else speed
  }

  /** Speed after n presses in the same direction. */
  function AcceleratedTimes(speed: int, left: bool, n: nat): int
  {
    if n == 0 then speed else Accelerated(AcceleratedTimes(speed, left, n - 1), left)
  }

  /** From any reachable speed, n presses move the speed n steps towards the
      limit and then stop at the limit. */
  lemma {:induction false} AccelerateSaturates(speed: int, n: nat)
    requires SpeedOk(speed)
    ensures AcceleratedTimes(speed, false, n) == Min(speed + Step * n, MaxSpeed)
    ensures AcceleratedTimes(speed, true, n) == Max(speed - Step * n, -MaxSpeed)
  {
    if n > 0 {
      AccelerateSaturates(speed, n - 1);
    }
  }

  /** From rest, ten presses reach the limit and every further press is a no-op. */
  lemma TenPressesReachLimit(n: nat)
    requires n >= 10
    ensures AcceleratedTimes(0, false, n) == MaxSpeed
    ensures AcceleratedTimes(0, true, n) == -MaxSpeed
    ensures AcceleratedTimes(0, false, n + 1) == AcceleratedTimes(0, false, n)
    ensures AcceleratedTimes(0, true, n + 1) == AcceleratedTimes(0, true, n)
  {
    AccelerateSaturates(0, n);
    AccelerateSaturates(0, n + 1);
  }

  /** Twenty presses right from rest give +100; twenty presses left from there give -100. */
  lemma TwentyPressesEachWay()
    ensures AcceleratedTimes(0, false, 20) == MaxSpeed
    ensures AcceleratedTimes(MaxSpeed, true, 20) == -MaxSpeed
  {
    AccelerateSaturates(0, 20);
    AccelerateSaturates(MaxSpeed, 20);
  }

  // ---------------------------------------------------------------------------
  // Health and destruction

  /** The ship's health, its liveness flag and how many times destroy() has
      been called on it. */
  datatype Hull = Hull(health: int, alive: bool, destroyCalls: nat)

  const FreshHull: Hull := Hull(StartHealth, true, 0)

  /** What damage() keeps true: health never rises above its start value, the
      ship is alive exactly while its health is positive, and destroy() has
      been called once if the health is gone and never otherwise. */
  predicate HullOk(h: Hull)
  {
    h.health <= StartHealth &&
    (h.alive <==> h.health > 0) &&
    h.destroyCalls == (if h.health > 0 then 0 else 1)
  }

  /** Effect of destroy(): the ship is no longer alive. */
  function Destroyed(h: Hull): (r: Hull)
    ensures !r.alive && r.health == h.health
    ensures r.destroyCalls == h.destroyCalls + 1
  {
    h.(alive := false, destroyCalls := h.destroyCalls + 1)
  }

  /** Effect of damage(): one point less, and destroy() when it reaches exactly zero. */
  function Damaged(h: Hull): (r: Hull)
    ensures HullOk(h) ==> HullOk(r)
    ensures r.health < h.health
    ensures r.destroyCalls <= h.destroyCalls + 1
    ensures h.alive != r.alive ==> r.health == 0
  {
    var d := h.(health := h.health - 1);
    if d.health == 0 then Destroyed(d) else d
  }

  /** The hull after n hits. */
  function DamagedTimes(h: Hull, n: nat): Hull
  {
    if n == 0 then h else Damaged(DamagedTimes(h, n - 1))
  }

  /** A fresh ship survives two hits, the third destroys it, and every later
      hit only lowers the health further: destroy() runs exactly once. */
  lemma {:induction false} DamageFromFresh(n: nat)
    ensures DamagedTimes(FreshHull, n) ==
            Hull(StartHealth - n, n < StartHealth, if n < StartHealth then 0 else 1)
  {
    if n > 0 {
      DamageFromFresh(n - 1);
    }
  }

  /** Any number of hits keeps the hull invariant. */
  lemma {:induction false} DamageKeepsHullOk(h: Hull, n: nat)
    requires HullOk(h)
    ensures HullOk(DamagedTimes(h, n))
    ensures DamagedTimes(h, n).health == h.health - n
  {
    if n > 0 {
      DamageKeepsHullOk(h, n - 1);
    }
  }

  // ---------------------------------------------------------------------------
  // Boundary clamp

  /** Horizontal position and speed of the ship. */
  datatype Lateral = Lateral(x: int, speedX: int)

  /** The pre-movement clamp: a ship moving out past an edge of the playfield
      is put on that edge and stopped. */
  function Clamped(m: Lateral, width: int, worldWidth: int): (r: Lateral)
    ensures r.speedX < 0 ==> r.x >= 0
    ensures r.speedX > 0 ==> r.x + width <= worldWidth
    ensures r == m || r.speedX == 0
    ensures r != m ==> (m.speedX < 0 && r.x == 0 && m.x < r.x) ||
                       (m.speedX > 0 && r.x + width == worldWidth && r.x < m.x)
    ensures SpeedOk(m.speedX) ==> SpeedOk(r.speedX)
  {
    if m.speedX < 0 && m.x < 0 then Lateral(0, 0)
    else if m.speedX > 0 && m.x + width > worldWidth then Lateral(worldWidth - width, 0)
    else m
  }

  /** Clamping twice is clamping once. */
  lemma ClampIdempotent(m: Lateral, width: int, worldWidth: int)
    ensures Clamped(Clamped(m, width, worldWidth), width, worldWidth) == Clamped(m, width, worldWidth)
  {
  }

  // ---------------------------------------------------------------------------
  // Deferred charge drop

  /** A depth charge the ship asks the world to add, at its top-left position. */
  datatype Spawn = DepthCharge(x: int, y: int)

  /** The spawn latch: whether a drop is pending, and on which side. */
  datatype Latch = Latch(spawning: bool, left: bool)

  /** Effect of spawnCharge(left): a drop is pending on the given side,
      whatever was pending before. */
  function Charged(l: Latch, left: bool): (r: Latch)
    ensures r.spawning && r.left == left
  {
    Latch(true, left)
  }

  /** The latch after a run of spawnCharge calls, oldest first. */
  function ChargedAll(l: Latch, sides: seq<bool>): Latch
    decreases |sides|
  {
    if sides == [] then l else ChargedAll(Charged(l, sides[0]), sides[1..])
  }

  /** A run of spawnCharge calls leaves the latch as the last call alone would. */
  lemma {:induction false} LastChargeWins(l: Latch, sides: seq<bool>)
    requires sides != []
    ensures ChargedAll(l, sides) == Charged(l, sides[|sides| - 1])
    decreases |sides|
  {
    if |sides| > 1 {
      LastChargeWins(Charged(l, sides[0]), sides[1..]);
    }
  }

  /** Where a charge dropped from a ship at (x, y) appears. */
  function DropAt(x: int, y: int, left: bool): (c: Spawn)
    ensures c.y == y + DropDepth
    ensures left <==> c.x < x
  {
    DepthCharge(if left then x + LeftDropOffset else x + RightDropOffset, y + DropDepth)
  }

  /** The spawn requests one update issues for a given latch, from the ship's
      position after the clamp: at most one, and one exactly if a drop was pending. */
  function Emitted(l: Latch, x: int, y: int): (r: seq<Spawn>)
    ensures |r| <= 1
    ensures |r| == 1 <==> l.spawning
    ensures forall c :: c in r ==> c.y == y + DropDepth && (c.x < x <==> l.left)
  {
    if l.spawning then [DropAt(x, y, l.left)] else []
  }

  /** However many spawnCharge calls precede an update, it emits exactly one
      charge, on the side of the last call. */
  lemma OneDropPerUpdate(l: Latch, sides: seq<bool>, x: int, y: int)
    requires sides != []
    ensures Emitted(ChargedAll(l, sides), x, y) == [DropAt(x, y, sides[|sides| - 1])]
  {
    LastChargeWins(l, sides);
  }

  // ---------------------------------------------------------------------------
  // Collision

  /** An axis-aligned bounding box [x, x + width) x [y, y + height). */
  datatype Box = Box(x: int, y: int, width: int, height: int)

  /** Half-open bounding-box overlap. */
  predicate Intersects(a: Box, b: Box)
  {
    a.x < b.x + b.width && b.x < a.x + a.width &&
    a.y < b.y + b.height && b.y < a.y + a.height
  }
}
