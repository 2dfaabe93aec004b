/*
 * Geometry of the interpreter (conversions.c): polar-to-Cartesian steps,
 * rounding to the character grid and folding angles into [0, 360).
 * Doubles are modelled as mathematical reals.
 */
module Conversions {

  /** cos and sin of an angle given in DEGREES, that is libm's cos(RADIAN(d)) and
      sin(RADIAN(d)) with RADIAN(d) = d * PI / 180 (conversions.h). Their values
      are not part of the model, so every caller passes them in. */
  datatype Trig = Trig(cos: real -> real, sin: real -> real)

  /** A position on the drawing plane; y grows downwards, as on the screen. */
  datatype Point = Point(x: real, y: real)

  /** defineCoordinates: the point `distance` units away from p along `angle`
      degrees; the y component is subtracted, so angle 90 points up the screen.
      The C function writes x1 and y1 through pointers; here they are the result. */
  function DefineCoordinates(p: Point, angle: real, distance: real, trig: Trig): Point
  {
    Point(distance * trig.cos(angle) + p.x, p.y - distance * trig.sin(angle))
  }

  /** Going nowhere: a distance of 0 ends where it starts. */
  lemma ZeroDistanceStays(p: Point, angle: real, trig: Trig)
    ensures DefineCoordinates(p, angle, 0.0, trig) == p
  {
  }

  /** Two steps along the same heading are one step of the summed length. */
  lemma StepsAdd(p: Point, angle: real, d1: real, d2: real, trig: Trig)
    ensures DefineCoordinates(DefineCoordinates(p, angle, d1, trig), angle, d2, trig)
         == DefineCoordinates(p, angle, d1 + d2, trig)
  {
    var c, s := trig.cos(angle), trig.sin(angle);
    assert d2 * c + (d1 * c + p.x) == (d1 + d2) * c + p.x;
    assert (p.y - d1 * s) - d2 * s == p.y - (d1 + d2) * s;
  }

  /** A step back by the same distance returns to the start. */
  lemma StepBackReturns(p: Point, angle: real, d: real, trig: Trig)
    ensures DefineCoordinates(DefineCoordinates(p, angle, d, trig), angle, -d, trig) == p
  {
    StepsAdd(p, angle, d, -d, trig);
    ZeroDistanceStays(p, angle, trig);
  }

  /** round: floor(x + 0.5), converted to int. */
  function Round(x: real): int
  {
    (x + 0.5).Floor
  }

  /** round is the integer nearest to x, within 1/2 of it, and ties go up:
      Round(x) is the only integer k with k - 1/2 <= x < k + 1/2. */
  lemma RoundIsNearest(x: real, k: int)
    ensures x - 0.5 < Round(x) as real <= x + 0.5
    ensures (k as real - 0.5 <= x < k as real + 0.5) <==> k == Round(x)
  {
  }

  /** Ties round towards +infinity. */
  lemma RoundTies()
    ensures Round(2.5) == 3 && Round(-2.5) == -2 && Round(2.49) == 2 && Round(-2.51) == -3
  {
  }

  /** Whole numbers are kept, and rounding commutes with integer shifts. */
  lemma RoundShift(x: real, n: int)
    ensures Round(n as real) == n
    ensures Round(x + n as real) == Round(x) + n
  {
  }

  /** C's truncation of a quotient towards zero. */
  function Trunc(r: real): int
  {
    if r >= 0.0 then r.Floor else -((-r).Floor)
  }

  /** fmod(x, 360): the remainder after truncating division, with the sign of x. */
  function Fmod360(x: real): real
  {
    x - 360.0 * (Trunc(x / 360.0) as real)
  }

  lemma Fmod360Bounds(x: real)
    ensures x >= 0.0 ==> 0.0 <= Fmod360(x) < 360.0
    ensures x < 0.0 ==> -360.0 < Fmod360(x) <= 0.0
  {
    var q := x / 360.0;
    assert x == 360.0 * q;
  }

  /** defineAngle: fmod(fmod(a, 360) + 360, 360). */
  function DefineAngle(a: real): real
  {
    Fmod360(Fmod360(a) + 360.0)
  }

  /** The mathematical angle in [0, 360) that differs from a by whole turns. */
  function Normalised(a: real): real
  {
    a - 360.0 * ((a / 360.0).Floor as real)
  }

  /** A value in [0, 360) that differs from a by k whole turns is Normalised(a). */
  lemma NormalisedUnique(a: real, r: real, k: int)
    requires 0.0 <= r < 360.0
    requires a == r + 360.0 * (k as real)
    ensures r == Normalised(a)
  {
    var q := a / 360.0;
    assert q == r / 360.0 + k as real;
    assert 0.0 <= r / 360.0 < 1.0;
    assert q.Floor == k;
  }

  /** defineAngle agrees with the mathematical normalisation, for negative angles too,
      and its result lies in [0, 360). */
  lemma DefineAngleIsNormalised(a: real)
    ensures DefineAngle(a) == Normalised(a)
    ensures 0.0 <= DefineAngle(a) < 360.0
  {
    var f := Fmod360(a);
    Fmod360Bounds(a);
    var t1 := Trunc(a / 360.0);
    assert f == a - 360.0 * (t1 as real);
    assert f + 360.0 >= 0.0;
    Fmod360Bounds(f + 360.0);
    var t2 := Trunc((f + 360.0) / 360.0);
    var r := DefineAngle(a);
    assert r == f + 360.0 - 360.0 * (t2 as real);
    assert a == r + 360.0 * ((t1 + t2 - 1) as real);
    NormalisedUnique(a, r, t1 + t2 - 1);
  }

  /** defineAngle is the identity on [0, 360) and therefore idempotent. */
  lemma DefineAngleIdentity(a: real)
    ensures 0.0 <= a < 360.0 ==> DefineAngle(a) == a
    ensures DefineAngle(DefineAngle(a)) == DefineAngle(a)
  {
    DefineAngleIsNormalised(a);
    if 0.0 <= a < 360.0 {
      NormalisedUnique(a, a, 0);
    }
    var r := DefineAngle(a);
    DefineAngleIsNormalised(r);
    NormalisedUnique(r, r, 0);
  }

  /** A whole turn more or less does not change the folded angle. */
  lemma DefineAnglePeriodic(a: real)
    ensures DefineAngle(a + 360.0) == DefineAngle(a)
    ensures DefineAngle(a - 360.0) == DefineAngle(a)
  {
    DefineAngleIsNormalised(a);
    DefineAngleIsNormalised(a + 360.0);
    DefineAngleIsNormalised(a - 360.0);
    var r := DefineAngle(a);
    var k := (a / 360.0).Floor;
    NormalisedUnique(a + 360.0, r, k + 1);
    NormalisedUnique(a - 360.0, r, k - 1);
  }

  lemma DefineAngleExamples()
    ensures DefineAngle(370.0) == 10.0
    ensures DefineAngle(-10.0) == 350.0
    ensures DefineAngle(720.0) == 0.0
  {
    DefineAngleIsNormalised(370.0);
    NormalisedUnique(370.0, 10.0, 1);
    DefineAngleIsNormalised(-10.0);
    NormalisedUnique(-10.0, 350.0, -1);
    DefineAngleIsNormalised(720.0);
    NormalisedUnique(720.0, 0.0, 2);
  }
}
