/** The player ship of the submarine game and the two collaborators it talks
    to: the world it lives in and the other entities it may collide with. */
module Subsink {
  import opened ShipRules

  /** The playfield as the ship sees it: its width, the spawn requests made
      so far, and how many times game over has been signalled. */
  class World {
    const width: int
    var spawns: seq<Spawn>
    ghost var gameOvers: nat

    constructor (width: int)
      ensures this.width == width && spawns == [] && gameOvers == 0
    {
      this.width := width;
      spawns := [];
      gameOvers := 0;
    }

    /** Buffer a new entity; it joins the live set only after the tick. */
    method Spawn(c: Spawn)
      modifies this`spawns
      ensures spawns == old(spawns) + [c]
    {
      spawns := spawns + [c];
    }

    /** Report the end of the game to the surrounding application. */
    method GameOver()
      modifies this`gameOvers
      ensures gameOvers == old(gameOvers) + 1
    {
      gameOvers := gameOvers + 1;
    }
  }

  /** Another entity of the world, seen from the ship: its bounding box,
      whether it is a height charge, and how often it was made to explode. */
  class Entity {
    const isHeightCharge: bool
    const x: int
    const y: int
    const width: int
    const height: int
    var explosions: nat

    constructor (isHeightCharge: bool, x: int, y: int, width: int, height: int)
      ensures this.isHeightCharge == isHeightCharge
      ensures Bounds() == Box(x, y, width, height) && explosions == 0
    {
      this.isHeightCharge := isHeightCharge;
      this.x, this.y, this.width, this.height := x, y, width, height;
      explosions := 0;
    }

    function Bounds(): Box
    {
      Box(x, y, width, height)
    }

    method Explode()
      modifies this`explosions
      ensures explosions == old(explosions) + 1
    {
      explosions := explosions + 1;
    }
  }

  /** The player entity: moves left and right along the surface and drops charges. */
  class Ship {
    var x: int
    var y: int
    var speedX: int
    const width: int
    const height: int
    var alive: bool
    var health: int
    var spawning: bool
    var spawnLeft: bool
    ghost var destroyCalls: nat

    /** The speed is one the key presses can reach, and the hull invariant holds. */
    ghost predicate Valid()
      reads this
    {
      SpeedOk(speedX) && HullOk(HullState())
    }

    ghost function HullState(): Hull
      reads this
    {
      Hull(health, alive, destroyCalls)
    }

    function Position(): Lateral
      reads this
    {
      Lateral(x, speedX)
    }

    function Pending(): Latch
      reads this
    {
      Latch(spawning, spawnLeft)
    }

    function Bounds(): Box
      reads this
    {
      Box(x, y, width, height)
    }

    /** A ship at horizontal position x, raised 12 px above the given y, at
        rest, with full health and no drop pending. */
    constructor (x: int, y: int)
      ensures Valid()
      ensures this.x == x && this.y == y - ShipRaise
      ensures width == ShipWidth && height == ShipHeight
      ensures speedX == 0 && alive && health == StartHealth && HullState() == FreshHull
      ensures !spawning && !spawnLeft
    {
      this.x := x;
      this.y := y - ShipRaise;
      speedX := 0;
      width := ShipWidth;
      height := ShipHeight;
      alive := true;
      health := StartHealth;
      spawning := false;
      spawnLeft := false;
      destroyCalls := 0;
    }

    /** The ship's own part of a tick: the edge clamp, then at most one
        pending charge drop, made from the clamped position. The position
        integration that follows it is not modelled. */
    method Update(world: World)
      requires Valid()
      modifies this, world`spawns
      ensures Valid()
      ensures Position() == Clamped(old(Position()), width, world.width)
      ensures old(speedX < 0 && x < 0) ==> x == 0 && speedX == 0
      ensures old(!(speedX < 0 && x < 0) && speedX > 0 && x + width > world.width) ==>
                x == world.width - width && speedX == 0
      ensures old(!(speedX < 0 && x < 0) && !(speedX > 0 && x + width > world.width)) ==>
                x == old(x) && speedX == old(speedX)
      ensures world.spawns == old(world.spawns) + Emitted(old(Pending()), x, y)
      ensures !spawning && spawnLeft == old(spawnLeft)
      ensures y == old(y) && HullState() == old(HullState())
    {
      if speedX < 0 && x < 0 {
        speedX := 0;
        x := 0;
      } else if speedX > 0 && x + width > world.width {
        speedX := 0;
        x := world.width - width;
      }

      if spawning {
        world.Spawn(DropAt(x, y, spawnLeft));
        spawning := false;
      }
    }

    /** Register the death of the player: game over. */
    method Finalize(world: World)
      modifies world`gameOvers
      ensures world.gameOvers == old(world.gameOvers) + 1
    {
      world.GameOver();
    }

    /** Ask for a charge to be dropped off one side at the next update. */
    method SpawnCharge(left: bool)
      modifies this`spawning, this`spawnLeft
      ensures Pending() == Charged(old(Pending()), left)
    {
      spawning := true;
      spawnLeft := left;
    }

    /** One key press: speed up by 10 px/s to one side, up to 100 px/s. */
    method Accelerate(left: bool)
      requires Valid()
      modifies this`speedX
      ensures Valid()
      ensures speedX == Accelerated(old(speedX), left)
      ensures left ==> speedX == if old(speedX) > -MaxSpeed then old(speedX) - Step else old(speedX)
      ensures !left ==> speedX == if old(speedX) < MaxSpeed then old(speedX) + Step else old(speedX)
    {
      if left {
        if speedX > -MaxSpeed {
          speedX := speedX - Step;
        }
      } else {
        if speedX < MaxSpeed {
          speedX := speedX + Step;
        }
      }
    }

    /** Effect of Entity.destroy(): the ship is marked for removal. */
    method Destroy()
      modifies this`alive, this`destroyCalls
      ensures HullState() == Destroyed(old(HullState()))
    {
      alive := false;
      destroyCalls := destroyCalls + 1;
    }

    /** One point of damage; at exactly zero health the ship is destroyed. */
    method Damage()
      requires Valid()
      modifies this`health, this`alive, this`destroyCalls
      ensures Valid()
      ensures HullState() == Damaged(old(HullState()))
      ensures health == old(health) - 1
      ensures destroyCalls == old(destroyCalls) + (if health == 0 then 1 else 0)
    {
      health := health - 1;
      if health == 0 {
        Destroy();
      }
    }

    /** Whether meeting the other entity hurts the ship: it is a height
        charge and the boxes overlap. */
    predicate Hits(other: Entity)
      reads this
    {
      other.isHeightCharge && Intersects(Bounds(), other.Bounds())
    }

    /** React to another entity: only an overlapping height charge matters;
        it explodes once and the ship takes one point of damage. */
    method Interact(other: Entity)
      requires Valid()
      modifies this`health, this`alive, this`destroyCalls, other`explosions
      ensures Valid()
      ensures Hits(other) ==> HullState() == Damaged(old(HullState())) &&
                              other.explosions == old(other.explosions) + 1
      ensures !Hits(other) ==> HullState() == old(HullState()) &&
                               other.explosions == old(other.explosions)
    {
      if !other.isHeightCharge {
        return;
      }
      if Intersects(Bounds(), other.Bounds()) {
        other.Explode();
        Damage();
      }
    }

    /** The current health; positive exactly while the ship is alive. */
    method GetHealth() returns (h: int)
      requires Valid()
      ensures h == health
      ensures h <= StartHealth && (h > 0 <==> alive)
    {
      h := health;
    }
  }
}
