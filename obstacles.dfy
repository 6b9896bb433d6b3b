/** Spherical obstacles of the operation zone (env/Obstacle.java). */
module Obstacles {
  import opened Geometry

  /** An obstacle is a centre and a radius, both fixed by its constructor. */
  datatype Obstacle = Obstacle(position: Vec3, radius: real)
  {
    /** The sphere test: the squared distance from the centre is at most the
        squared radius, the boundary included. */
    predicate Contains(p: Vec3)
    {
      SqNorm(Sub(p, position)) <= radius * radius
    }
  }

  lemma SquareNonNegative(x: real)
    ensures 0.0 <= x * x
  {
    if x < 0.0 {
      assert x * x == (-x) * (-x);
    }
  }

  /** The centre of an obstacle is inside it, whatever its radius. */
  lemma CentreContained(o: Obstacle)
    ensures o.Contains(o.position)
  {
    assert Sub(o.position, o.position) == Origin;
    SquareNonNegative(o.radius);
  }

  /** Only the square of the radius is used: radius r and -r give the same test. */
  lemma RadiusSignIrrelevant(c: Vec3, r: real, p: Vec3)
    ensures Obstacle(c, r).Contains(p) <==> Obstacle(c, -r).Contains(p)
  {
    assert (-r) * (-r) == r * r;
  }

  /** A point at distance exactly the radius from the centre (a point on the
      sphere) is contained: the comparison is inclusive. */
  lemma BoundaryContained(o: Obstacle, p: Vec3, dist: real)
    requires 0.0 <= dist && dist * dist == SqNorm(Sub(p, o.position))
    requires dist == Abs(o.radius)
    ensures o.Contains(p)
  {
    ContainsWithinRadius(o, p, dist);
  }

  /** A point strictly farther than the radius on one axis is not contained. */
  lemma FarOnAxisNotContained(o: Obstacle, p: Vec3)
    requires 0.0 <= o.radius < p.x - o.position.x
    ensures !o.Contains(p)
  {
    var d := Sub(p, o.position);
    SquareStrict(o.radius, d.x);
    SquareNonNegative(d.y);
    SquareNonNegative(d.z);
  }

  /** With `dist` the Euclidean distance from the centre, a point is contained
      exactly when `dist` is at most the magnitude of the radius. */
  lemma ContainsWithinRadius(o: Obstacle, p: Vec3, dist: real)
    requires 0.0 <= dist && dist * dist == SqNorm(Sub(p, o.position))
    ensures o.Contains(p) <==> dist <= Abs(o.radius)
  {
    var r := Abs(o.radius);
    assert r * r == o.radius * o.radius;
    if dist < r {
      SquareStrict(dist, r);
    } else if r < dist {
      SquareStrict(r, dist);
    }
  }

  function Abs(r: real): real { if r < 0.0 then -r else r }

  lemma SquareStrict(a: real, b: real)
    requires 0.0 <= a < b
    ensures a * a < b * b
  {
    PositiveProduct(b - a, b + a);
  }

  lemma PositiveProduct(x: real, y: real)
    requires x > 0.0 && y > 0.0
    ensures x * y > 0.0
  {
  }
}
