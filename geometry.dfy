/** Coordinates of the simulation (core/Point3D.java).

    `Point3D` is the mutable record of the source.  Everywhere else the model
    stores positions, targets, wind and current as `Vec3` values, the contents
    of a `Point3D` at the moment it is read; sharing of `Point3D` objects
    between owners is not modelled. Java `double` is modelled as `real`. */
module Geometry {

  /** The three coordinates held by a Point3D. */
  datatype Vec3 = Vec3(x: real, y: real, z: real)

  const Origin := Vec3(0.0, 0.0, 0.0)

  function Add(a: Vec3, b: Vec3): Vec3 { Vec3(a.x + b.x, a.y + b.y, a.z + b.z) }

  function Sub(a: Vec3, b: Vec3): Vec3 { Vec3(a.x - b.x, a.y - b.y, a.z - b.z) }

  function Scale(a: Vec3, k: real): Vec3 { Vec3(a.x * k, a.y * k, a.z * k) }

  /** Component-wise division, the normalisation `dx / distance` of the resolvers. */
  function Div(a: Vec3, k: real): Vec3
    requires k != 0.0
  {
    Vec3(a.x / k, a.y / k, a.z / k)
  }

  /** The horizontal projection (z set to 0), used by the land resolver. */
  function Flat(a: Vec3): Vec3 { Vec3(a.x, a.y, 0.0) }

  /** Squared Euclidean length: `dx * dx + dy * dy + dz * dz`. */
  function SqNorm(a: Vec3): real { a.x * a.x + a.y * a.y + a.z * a.z }

  /** Squared horizontal length: `dx * dx + dy * dy`. */
  function SqNorm2D(a: Vec3): real { a.x * a.x + a.y * a.y }

  /** A point of the simulation, with fields updated in place by its setters. */
  class Point3D {
    var x: real
    var y: real
    var z: real

    constructor (x: real, y: real, z: real)
      ensures this.x == x && this.y == y && this.z == z
    {
      this.x, this.y, this.z := x, y, z;
    }

    /** The coordinates this point holds now. */
    function Value(): (v: Vec3)
      reads this
      ensures v.x == x && v.y == y && v.z == z
    {
      Vec3(x, y, z)
    }

    method SetX(x: real)
      modifies this`x
      ensures this.x == x && y == old(y) && z == old(z)
    {
      this.x := x;
    }

    method SetY(y: real)
      modifies this`y
      ensures this.y == y && x == old(x) && z == old(z)
    {
      this.y := y;
    }

    method SetZ(z: real)
      modifies this`z
      ensures this.z == z && x == old(x) && y == old(y)
    {
      this.z := z;
    }
  }

  /** A step of `speed` along the normalised direction `d / dist` is the fraction
      `speed / dist` of the displacement `d`, and that fraction lies in (0, 1] when
      the step does not overshoot. */
  lemma StepOnSegment(d: Vec3, dist: real, speed: real)
    requires dist > 0.0 && 0.0 < speed <= dist
    ensures Scale(Div(d, dist), speed) == Scale(d, speed / dist)
    ensures 0.0 < speed / dist <= 1.0
  {
    assert (d.x / dist) * speed == d.x * (speed / dist);
    assert (d.y / dist) * speed == d.y * (speed / dist);
    assert (d.z / dist) * speed == d.z * (speed / dist);
    FractionInUnit(speed, dist);
  }

  lemma FractionInUnit(a: real, b: real)
    requires 0.0 < a <= b
    ensures 0.0 < a / b <= 1.0
  {
  }

  /** With `dist` the length of `d`, the fraction `speed / dist` of `d` has
      length `speed` (stated on squares). */
  lemma StepLength(d: Vec3, dist: real, speed: real)
    requires dist > 0.0 && dist * dist == SqNorm(d)
    ensures SqNorm(Scale(d, speed / dist)) == speed * speed
  {
    ScaledNorm(d, speed / dist);
    FractionTimesWhole(dist, speed);
    SquareOfScaled(SqNorm(d), dist, speed / dist, speed);
  }

  lemma ScaledNorm(u: Vec3, k: real)
    ensures SqNorm(Scale(u, k)) == SqNorm(u) * (k * k)
  {
  }

  lemma FractionTimesWhole(a: real, s: real)
    requires a != 0.0
    ensures a * (s / a) == s
  {
  }

  lemma SquareOfScaled(n: real, a: real, f: real, s: real)
    requires n == a * a && a * f == s
    ensures n * (f * f) == s * s
  {
    Regroup(a, f);
  }

  lemma Regroup(a: real, f: real)
    ensures (a * a) * (f * f) == (a * f) * (a * f)
  {
  }

  /** A normalised direction scaled by the full distance gives back the displacement. */
  lemma FullStep(d: Vec3, dist: real)
    requires dist != 0.0
    ensures Scale(Div(d, dist), dist) == d
  {
    assert (d.x / dist) * dist == d.x;
    assert (d.y / dist) * dist == d.y;
    assert (d.z / dist) * dist == d.z;
  }

  /** The squared length of a flattened vector is its squared horizontal length. */
  lemma FlatNorm(a: Vec3)
    ensures SqNorm(Flat(a)) == SqNorm2D(a)
  {
  }
}
