/**
 * The `Electron` component: the per-frame motion law that moves an electron
 * sphere and its label, and the 101-point guide line drawn along its orbit.
 *
 * An electron is configured by `radius` (the component's numeric `position`
 * prop; its sign sets the starting side of the orbit), `speed` and `plane`.
 */
module Electron {
  import opened Maths

  /** A plane value that tilts the orbit out of the horizontal xz-plane. */
  predicate IsTilted(plane: string)
  {
    plane == "xy" || plane == "xy2"
  }

  /**
   * The orbit point at angle `theta`: x = r·cos θ and z = r·sin θ; y follows z
   * for "xy", mirrors it for "xy2", and is 0 in every other plane.
   */
  function OrbitPoint(m: MathLib, radius: real, plane: string, theta: real): (p: Vec3)
    ensures p.x == radius * m.cos(theta) && p.z == radius * m.sin(theta)
    ensures plane == "xy" ==> p.y == p.z
    ensures plane == "xy2" ==> p.y == -p.z
    ensures !IsTilted(plane) ==> p.y == 0.0
  {
    Vec3(radius * m.cos(theta),
         if plane == "xy" then radius * m.sin(theta)
         else if plane == "xy2" then -radius * m.sin(theta)
         else 0.0,
         radius * m.sin(theta))
  }

  /** Replacing the radius by its negation puts the electron at the antipodal point. */
  lemma NegatedRadiusIsAntipodal(m: MathLib, radius: real, plane: string, theta: real)
    ensures OrbitPoint(m, -radius, plane, theta) == Neg(OrbitPoint(m, radius, plane, theta))
  {
  }

  /** In the xz-plane the electron stays on the circle of radius |radius|. */
  lemma FlatOrbitIsCircle(m: MathLib, radius: real, plane: string, theta: real)
    requires Pythagorean(m)
    requires !IsTilted(plane)
    ensures NormSq(OrbitPoint(m, radius, plane, theta)) == radius * radius
  {
  }

  /**
   * In a tilted plane the point's x and z still trace the circle of radius |r|,
   * and y repeats ±z, so the point lies on the plane y = ±z and its squared
   * distance from the nucleus is r²(1 + sin²θ), between r² and 2r².
   */
  lemma TiltedOrbitDistance(m: MathLib, radius: real, plane: string, theta: real)
    requires Pythagorean(m)
    requires IsTilted(plane)
    ensures NormSq(OrbitPoint(m, radius, plane, theta))
            == radius * radius * (1.0 + m.sin(theta) * m.sin(theta))
    ensures radius * radius <= NormSq(OrbitPoint(m, radius, plane, theta)) <= 2.0 * radius * radius
    ensures var q := OrbitPoint(m, radius, plane, theta); q.x * q.x + q.z * q.z == radius * radius
  {
  }

  /** Advancing the time by one period 2π/speed brings the electron back to the same point. */
  lemma MotionIsPeriodic(m: MathLib, radius: real, plane: string, speed: real, time: real)
    requires Periodic(m)
    requires speed != 0.0
    ensures OrbitPoint(m, radius, plane, (time + 2.0 * m.pi / speed) * speed)
            == OrbitPoint(m, radius, plane, time * speed)
  {
  }

  /** The angle used for guide-line point `i` of 0..100: (i/100)·π·2, from 0 up to a full turn. */
  function PathAngle(m: MathLib, i: nat): (t: real)
    ensures i == 0 ==> t == 0.0
    ensures i == 100 ==> t == 2.0 * m.pi
  {
    (i as real / 100.0) * m.pi * 2.0
  }

  /** The guide line: 101 orbit points for angles evenly spaced over [0, 2π]. */
  ghost function Path(m: MathLib, radius: real, plane: string): (ps: seq<Vec3>)
    ensures |ps| == 101
  {
    seq(101, i requires 0 <= i < 101 => OrbitPoint(m, radius, plane, PathAngle(m, i)))
  }

  /** The `points` builder: pushes the orbit point for i = 0, 1, …, 100. */
  method PathPoints(m: MathLib, radius: real, plane: string) returns (points: seq<Vec3>)
    ensures points == Path(m, radius, plane)
    ensures |points| == 101
    ensures points[0] == OrbitPoint(m, radius, plane, 0.0)
    ensures points[100] == OrbitPoint(m, radius, plane, 2.0 * m.pi)
    ensures forall i :: 0 <= i < |points| ==> points[i] == OrbitPoint(m, radius, plane, PathAngle(m, i))
  {
    points := [];
    for i := 0 to 101
      invariant |points| == i
      invariant forall j :: 0 <= j < i ==> points[j] == OrbitPoint(m, radius, plane, PathAngle(m, j))
    {
      var t := (i as real / 100.0) * m.pi * 2.0;
      assert t == PathAngle(m, i);
      points := points + [Vec3(radius * m.cos(t),
                               if plane == "xy" then radius * m.sin(t)
                               else if plane == "xy2" then -radius * m.sin(t)
                               else 0.0,
                               radius * m.sin(t))];
    }
  }

  /** Given 2π-periodicity the guide line is closed: its last point is its first. */
  lemma PathIsClosed(m: MathLib, radius: real, plane: string)
    requires Periodic(m)
    ensures Path(m, radius, plane)[100] == Path(m, radius, plane)[0]
  {
  }

  /** The guide line of the negated radius is the point-by-point mirror image. */
  lemma PathOfNegatedRadius(m: MathLib, radius: real, plane: string)
    ensures forall i :: 0 <= i < 101 ==> Path(m, -radius, plane)[i] == Neg(Path(m, radius, plane)[i])
  {
  }

  /** A mutable three.js vector (`Object3D.position`). */
  class Vector3 {
    var x: real
    var y: real
    var z: real

    constructor (x: real, y: real, z: real)
      ensures this.x == x && this.y == y && this.z == z
    {
      this.x, this.y, this.z := x, y, z;
    }

    function Value(): Vec3
      reads this
    {
      Vec3(x, y, z)
    }

    /** `copy(v)`: takes over all three coordinates of `v`. */
    method Copy(v: Vector3)
      modifies this
      ensures Value() == old(v.Value())
    {
      x, y, z := v.x, v.y, v.z;
    }
  }

  /** One mounted electron: the sphere's position and its label group's position. */
  class ElectronView {
    const radius: real
    const speed: real
    const plane: string
    /** `ref.current.position` */
    const bodyPos: Vector3
    /** `labelRef.current.position` */
    const labelPos: Vector3

    /** The two vectors are distinct, and a flat orbit never lifts the sphere off y = 0. */
    ghost predicate Valid()
      reads this, bodyPos, labelPos
    {
      bodyPos != labelPos && (!IsTilted(plane) ==> bodyPos.y == 0.0)
    }

    /** Mounting: the sphere starts at `[radius, 0, 0]`, the label group at the origin. */
    constructor (radius: real, speed: real, plane: string)
      ensures Valid() && fresh(bodyPos) && fresh(labelPos)
      ensures this.radius == radius && this.speed == speed && this.plane == plane
      ensures bodyPos.Value() == Vec3(radius, 0.0, 0.0) && labelPos.Value() == Vec3(0.0, 0.0, 0.0)
    {
      this.radius, this.speed, this.plane := radius, speed, plane;
      bodyPos := new Vector3(radius, 0.0, 0.0);
      labelPos := new Vector3(0.0, 0.0, 0.0);
    }

    /**
     * The `useFrame` callback at elapsed time `time`: writes x and z, writes y
     * only for a tilted plane, then copies the sphere's position to the label.
     */
    method Frame(m: MathLib, time: real)
      requires Valid()
      modifies bodyPos, labelPos
      ensures Valid()
      ensures bodyPos.x == radius * m.cos(time * speed)
      ensures bodyPos.z == radius * m.sin(time * speed)
      ensures bodyPos.y == if plane == "xy" then bodyPos.z
                        else if plane == "xy2" then -bodyPos.z
                        else old(bodyPos.y)
      ensures bodyPos.Value() == OrbitPoint(m, radius, plane, time * speed)
      ensures labelPos.Value() == bodyPos.Value()
    {
      bodyPos.x := radius * m.cos(time * speed);
      bodyPos.z := radius * m.sin(time * speed);
      if plane == "xy" {
        bodyPos.y := radius * m.sin(time * speed);
      } else if plane == "xy2" {
        bodyPos.y := -radius * m.sin(time * speed);
      }
      labelPos.Copy(bodyPos);
    }
  }
}
