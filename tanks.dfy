/** A tank: its position, its direction, and the sample sequence of one shot. */
module Tanks {

  /** Gravitational constant of the trajectory formula. */
  const Gravity: real := 9.81

  /** Number of samples one shot yields. */
  const ShotSamples: nat := 1000

  /** Tanks left of this column get direction +1. */
  const LeftTankLimit: int := 10

  /** A tank; `hit` starts false and nothing sets it. */
  datatype Tank = Tank(xPosition: int, height: int, hit: bool)

  /** The constructor: position and height as given, not hit. */
  function New(xPosition: int, height: int): (t: Tank)
    ensures t.xPosition == xPosition && t.height == height && !t.hit
  {
    Tank(xPosition, height, false)
  }

  /** Direction: +1 for a tank left of column 10, -1 otherwise. `Shoot` does not read it.
      A tank is a value whose position never changes, so the direction never goes stale. */
  function Direction(t: Tank): (d: int)
    ensures d == 1 || d == -1
    ensures d == 1 <==> t.xPosition < LeftTankLimit
  {
    if t.xPosition < LeftTankLimit then 1 else -1
  }

  /** The closed-form ballistic position `time` steps after firing, where `cos` and `sin`
      are those of the firing angle. */
  function Position(t: Tank, velocity: int, cos: real, sin: real, time: real): (real, real)
  {
    (velocity as real * cos * time + t.xPosition as real,
     -0.5 * Gravity * (time * time) + velocity as real * sin * time + t.height as real)
  }

  /** The samples of one shot at `angle` degrees, one per time step; `trig` gives the
      cosine and sine of an angle in degrees. */
  function Shoot(t: Tank, angle: int, velocity: int, trig: int -> (real, real)): (samples: seq<(real, real)>)
    ensures |samples| == ShotSamples
    ensures samples[0] == (t.xPosition as real, t.height as real)
  {
    var (cos, sin) := trig(angle);
    seq(ShotSamples, i => Position(t, velocity, cos, sin, i as real))
  }

  /** Horizontally the projectile moves by the same amount at every step. */
  lemma ShotStepsEvenly(t: Tank, angle: int, velocity: int, trig: int -> (real, real), i: nat)
    requires i + 1 < ShotSamples
    ensures var s := Shoot(t, angle, velocity, trig); s[i + 1].0 - s[i].0 == s[1].0 - s[0].0
  {
    var (cos, sin) := trig(angle);
    var v, r := velocity as real * cos, i as real;
    assert (i + 1) as real == r + 1.0;
    assert v * (r + 1.0) == v * r + v;
  }

  /** The direction plays no part in a shot: with positive velocity and cosine, every
      shot moves toward +x, whichever direction its tank has. */
  lemma ShotIgnoresDirection(t: Tank, angle: int, velocity: int, trig: int -> (real, real), i: nat)
    requires velocity > 0 && trig(angle).0 > 0.0 && i + 1 < ShotSamples
    ensures var s := Shoot(t, angle, velocity, trig); s[i + 1].0 > s[i].0
  {
    var (cos, sin) := trig(angle);
    var v, r := velocity as real * cos, i as real;
    assert v > 0.0;
    assert (i + 1) as real == r + 1.0;
    assert v * (r + 1.0) == v * r + v;
  }

  /** Vertically the trajectory is a downward parabola: every second difference is -Gravity. */
  lemma ShotIsConcave(t: Tank, angle: int, velocity: int, trig: int -> (real, real), i: nat)
    requires i + 2 < ShotSamples
    ensures var s := Shoot(t, angle, velocity, trig); s[i + 2].1 - 2.0 * s[i + 1].1 + s[i].1 == -Gravity
  {
    var (cos, sin) := trig(angle);
    var r := i as real;
    assert (i + 1) as real == r + 1.0 && (i + 2) as real == r + 2.0;
    HeightIsConcave(t, velocity, cos, sin, r);
  }

  /** At any real time `x`, the height's second difference over unit steps is -Gravity. */
  lemma HeightIsConcave(t: Tank, velocity: int, cos: real, sin: real, x: real)
    ensures Position(t, velocity, cos, sin, x + 2.0).1 - 2.0 * Position(t, velocity, cos, sin, x + 1.0).1
            + Position(t, velocity, cos, sin, x).1 == -Gravity
  {
    var w := velocity as real * sin;
    assert (x + 1.0) * (x + 1.0) == x * x + 2.0 * x + 1.0;
    assert (x + 2.0) * (x + 2.0) == x * x + 4.0 * x + 4.0;
    assert w * (x + 1.0) == w * x + w && w * (x + 2.0) == w * x + 2.0 * w;
  }
}
