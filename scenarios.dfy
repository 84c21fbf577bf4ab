/** Clients of the Ship class that play out the game's expected behaviours,
    using nothing but the contracts of Subsink. */
module ShipScenarios {
  import opened ShipRules
  import opened Subsink

  /** Two requests for a left drop, then one update: exactly one charge,
      5 px left of the ship and 15 px below its top. */
  method DoubleLeftDrop(x: int, y: int, worldWidth: int) returns (requests: seq<Spawn>)
    ensures requests == [DepthCharge(x - 5, y - 12 + 15)]
  {
    var world := new World(worldWidth);
    var ship := new Ship(x, y);
    ship.SpawnCharge(true);
    ship.SpawnCharge(true);
    ship.Update(world);
    requests := world.spawns;
  }

  /** Requests on both sides, then one update: only the last side is served,
      and a second update with nothing pending adds nothing. */
  method LastSideServed(x: int, y: int, worldWidth: int) returns (requests: seq<Spawn>)
    ensures requests == [DepthCharge(x + 75, y - 12 + 15)]
  {
    var world := new World(worldWidth);
    var ship := new Ship(x, y);
    ship.SpawnCharge(true);
    ship.SpawnCharge(false);
    ship.Update(world);
    ship.Update(world);
    requests := world.spawns;
  }

  /** A ship left of the playfield moving left is put on the left edge and
      stopped, and the drop it had pending is made from the edge. */
  method LeftWall(x: int, y: int, worldWidth: int) returns (finalX: int, finalSpeed: int, requests: seq<Spawn>)
    requires x < 0
    ensures finalX == 0 && finalSpeed == 0
    ensures requests == [DepthCharge(75, y - 12 + 15)]
  {
    var world := new World(worldWidth);
    var ship := new Ship(x, y);
    ship.Accelerate(true);
    ship.SpawnCharge(false);
    ship.Update(world);
    finalX, finalSpeed, requests := ship.x, ship.speedX, world.spawns;
  }

  /** The clamp tests x < 0 strictly: a ship exactly on the left edge that is
      moving left keeps its speed in the pre-movement step. */
  method OnLeftEdge(y: int, worldWidth: int) returns (finalX: int, finalSpeed: int)
    ensures finalX == 0 && finalSpeed == -10
  {
    var world := new World(worldWidth);
    var ship := new Ship(0, y);
    ship.Accelerate(true);
    ship.Update(world);
    finalX, finalSpeed := ship.x, ship.speedX;
  }

  /** A ship hanging over the right edge and moving right is put flush
      against it and stopped. */
  method RightWall(y: int, worldWidth: int) returns (finalX: int, finalSpeed: int)
    ensures finalX == worldWidth - 80 && finalSpeed == 0
  {
    var world := new World(worldWidth);
    var ship := new Ship(worldWidth - 79, y);
    ship.Accelerate(false);
    ship.Update(world);
    finalX, finalSpeed := ship.x, ship.speedX;
  }

  /** Four hits on a fresh ship: alive after two, destroyed by the third
      (destroy() runs once), and the fourth takes the health to -1. */
  method FourHits(x: int, y: int) returns (healths: seq<int>, alive: seq<bool>)
    ensures healths == [2, 1, 0, -1]
    ensures alive == [true, true, false, false]
  {
    var ship := new Ship(x, y);
    healths, alive := [], [];
    ship.Damage();
    healths, alive := healths + [ship.health], alive + [ship.alive];
    ship.Damage();
    healths, alive := healths + [ship.health], alive + [ship.alive];
    ship.Damage();
    assert ship.destroyCalls == 1;
    healths, alive := healths + [ship.health], alive + [ship.alive];
    ship.Damage();
    assert ship.destroyCalls == 1;
    healths, alive := healths + [ship.health], alive + [ship.alive];
  }

  /** An overlapping height charge explodes and costs one point of health;
      an overlapping entity of another kind changes nothing. */
  method Collisions(x: int, y: int)
    returns (afterHazard: int, afterOther: int, hazardExplosions: nat, otherExplosions: nat)
    ensures afterHazard == 2 && hazardExplosions == 1
    ensures afterOther == 2 && otherExplosions == 0
  {
    var ship := new Ship(x, y);
    var hazard := new Entity(true, x + 10, y - 12, 20, 20);
    var other := new Entity(false, x + 10, y - 12, 20, 20);
    ship.Interact(hazard);
    afterHazard := ship.GetHealth();
    ship.Interact(other);
    afterOther := ship.GetHealth();
    hazardExplosions, otherExplosions := hazard.explosions, other.explosions;
  }

  /** A height charge that does not overlap the ship is ignored. */
  method DistantHazard(x: int, y: int) returns (health: int, explosions: nat)
    ensures health == 3 && explosions == 0
  {
    var ship := new Ship(x, y);
    var hazard := new Entity(true, x + 80, y - 12, 20, 20);
    ship.Interact(hazard);
    health := ship.GetHealth();
    explosions := hazard.explosions;
  }
}
