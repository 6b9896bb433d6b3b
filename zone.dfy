/** The operation zone (env/ZoneOperation.java): inclusive box bounds, weather
    and current, and a list of static obstacles. */
module Zone {
  import opened Geometry
  import opened Obstacles

  /** Some obstacle of the list contains the point. */
  predicate HitsObstacle(obstacles: seq<Obstacle>, p: Vec3)
  {
    exists i :: 0 <= i < |obstacles| && obstacles[i].Contains(p)
  }

  /** The box test of `isInside`: every coordinate between the corners, both ends included. */
  predicate Within(minCoord: Vec3, maxCoord: Vec3, p: Vec3)
  {
    minCoord.x <= p.x <= maxCoord.x &&
    minCoord.y <= p.y <= maxCoord.y &&
    minCoord.z <= p.z <= maxCoord.z
  }

  /** What a movement tick reads from the zone: its bounds, wind, precipitation
      and sea current. */
  datatype Environment = Environment(
    minCoord: Vec3,
    maxCoord: Vec3,
    vent: Vec3,
    precipitations: real,
    courantMarin: Vec3)
  {
    predicate IsInside(p: Vec3) { Within(minCoord, maxCoord, p) }
  }

  /** The zone services the movement ticks call but that ZoneOperation.java does
      not define: the land map, the path planner (its flag means "is marine")
      and the collision test against other collidables. */
  datatype ZoneQueries = ZoneQueries(
    isLand: Vec3 -> bool,
    findPath: (Vec3, Vec3, bool) -> seq<Vec3>,
    collides: Vec3 -> bool)

  class ZoneOperation {
    const minCoord: Vec3
    const maxCoord: Vec3
    var vent: Vec3
    var precipitations: real
    var courantMarin: Vec3
    var obstacles: seq<Obstacle>

    /** A new zone has no wind, no precipitation, no current and no obstacle. */
    constructor (minCoord: Vec3, maxCoord: Vec3)
      ensures this.minCoord == minCoord && this.maxCoord == maxCoord
      ensures vent == Origin && precipitations == 0.0 && courantMarin == Origin
      ensures obstacles == []
    {
      this.minCoord, this.maxCoord := minCoord, maxCoord;
      vent, precipitations, courantMarin := Origin, 0.0, Origin;
      obstacles := [];
    }

    method SetVent(vent: Vec3)
      modifies this`vent
      ensures this.vent == vent
    {
      this.vent := vent;
    }

    method SetPrecipitations(precipitations: real)
      modifies this`precipitations
      ensures this.precipitations == precipitations
    {
      this.precipitations := precipitations;
    }

    method SetCourantMarin(courantMarin: Vec3)
      modifies this`courantMarin
      ensures this.courantMarin == courantMarin
    {
      this.courantMarin := courantMarin;
    }

    /** Appends exactly one obstacle at the end of the list. */
    method AddObstacle(o: Obstacle)
      modifies this`obstacles
      ensures obstacles == old(obstacles) + [o]
    {
      obstacles := obstacles + [o];
    }

    /** The static-obstacle test: scans the list and stops at the first
        obstacle that contains the point. */
    method IsCollision(point: Vec3) returns (r: bool)
      ensures r <==> HitsObstacle(obstacles, point)
    {
      var i := 0;
      while i < |obstacles|
        invariant 0 <= i <= |obstacles|
        invariant forall j :: 0 <= j < i ==> !obstacles[j].Contains(point)
      {
        if obstacles[i].Contains(point) {
          return true;
        }
        i := i + 1;
      }
      return false;
    }

    predicate IsInside(point: Vec3)
    {
      Within(minCoord, maxCoord, point)
    }

    /** The values a movement tick reads from this zone. */
    function Snapshot(): (e: Environment)
      reads this
      ensures e.minCoord == minCoord && e.maxCoord == maxCoord
      ensures e.vent == vent && e.precipitations == precipitations && e.courantMarin == courantMarin
    {
      Environment(minCoord, maxCoord, vent, precipitations, courantMarin)
    }
  }

  /** Both corners of a well-ordered box are inside it: the test is inclusive at both ends,
      and a point past the upper bound on one axis is outside. */
  lemma BoundsInclusive(minCoord: Vec3, maxCoord: Vec3, p: Vec3)
    requires minCoord.x <= maxCoord.x && minCoord.y <= maxCoord.y && minCoord.z <= maxCoord.z
    ensures Within(minCoord, maxCoord, minCoord) && Within(minCoord, maxCoord, maxCoord)
    ensures p.x > maxCoord.x || p.y > maxCoord.y || p.z > maxCoord.z ==> !Within(minCoord, maxCoord, p)
  {
  }

  /** With no obstacle nothing collides. */
  lemma NoObstacleNoCollision(p: Vec3)
    ensures !HitsObstacle([], p)
  {
  }

  /** After appending an obstacle, a point collides exactly when it collided
      before or the new obstacle contains it. */
  lemma HitsAfterAppend(obstacles: seq<Obstacle>, o: Obstacle, p: Vec3)
    ensures HitsObstacle(obstacles + [o], p) <==> HitsObstacle(obstacles, p) || o.Contains(p)
  {
    var all := obstacles + [o];
    if HitsObstacle(obstacles, p) {
      var i :| 0 <= i < |obstacles| && obstacles[i].Contains(p);
      assert all[i] == obstacles[i];
    }
    if o.Contains(p) {
      assert all[|obstacles|] == o;
    }
    if HitsObstacle(all, p) {
      var i :| 0 <= i < |all| && all[i].Contains(p);
      if i < |obstacles| {
        assert obstacles[i] == all[i];
      }
    }
  }

  /** Adding an obstacle never removes a collision. */
  lemma AddObstacleMonotone(obstacles: seq<Obstacle>, o: Obstacle, p: Vec3)
    ensures HitsObstacle(obstacles, p) ==> HitsObstacle(obstacles + [o], p)
  {
    HitsAfterAppend(obstacles, o, p);
  }
}
