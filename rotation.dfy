/**
 * The orientation preview of the Python host (`SensorGUI._rotate_point`):
 * a point is turned by yaw about Z, then by pitch about Y using the yawed
 * coordinates, then by roll about X using the yawed-and-pitched ones.
 *
 * Each angle enters only through its sine and cosine, so an angle is
 * represented here by that pair; computing them from radians is left out.
 */
module Rotation {

  /** The sine and cosine of one angle. */
  datatype Trig = Trig(sin: real, cos: real)

  /** The pair belongs to a real angle. */
  predicate OnUnitCircle(t: Trig) {
    t.sin * t.sin + t.cos * t.cos == 1.0
  }

  /** The zero angle and the quarter turn (pi/2). */
  const Zero: Trig := Trig(0.0, 1.0)
  const QuarterTurn: Trig := Trig(1.0, 0.0)

  datatype Point = Point(x: real, y: real, z: real)

  function SquaredNorm(p: Point): real {
    p.x * p.x + p.y * p.y + p.z * p.z
  }

  /** `_rotate_point(x, y, z, pitch, roll, yaw)`, stage by stage. */
  function RotatePoint(p: Point, pitch: Trig, roll: Trig, yaw: Trig): Point
  {
    // yaw about Z
    var xYaw := p.x * yaw.cos - p.y * yaw.sin;
    var yYaw := p.x * yaw.sin + p.y * yaw.cos;
    // pitch about Y, on the yawed x and the original z
    var xPitch := xYaw * pitch.cos + p.z * pitch.sin;
    var zPitch := -xYaw * pitch.sin + p.z * pitch.cos;
    // roll about X, on the yawed y and the pitched z
    var yRoll := yYaw * roll.cos - zPitch * roll.sin;
    var zRoll := yYaw * roll.sin + zPitch * roll.cos;
    Point(xPitch, yRoll, zRoll)
  }

  /** The origin stays put for every choice of angles. */
  lemma OriginFixed(pitch: Trig, roll: Trig, yaw: Trig)
    ensures RotatePoint(Point(0.0, 0.0, 0.0), pitch, roll, yaw) == Point(0.0, 0.0, 0.0)
  {
  }

  /** Zero angles leave every point where it is. */
  lemma ZeroAnglesIdentity(p: Point)
    ensures RotatePoint(p, Zero, Zero, Zero) == p
  {
  }

  /** The returned x is the pitched x: roll never changes it. */
  lemma XIndependentOfRoll(p: Point, pitch: Trig, roll1: Trig, roll2: Trig, yaw: Trig)
    ensures RotatePoint(p, pitch, roll1, yaw).x == RotatePoint(p, pitch, roll2, yaw).x
  {
  }

  /** A quarter turn of yaw alone takes the X axis onto the Y axis. */
  lemma YawQuarterTurnOnXAxis()
    ensures RotatePoint(Point(1.0, 0.0, 0.0), Zero, Zero, QuarterTurn) == Point(0.0, 1.0, 0.0)
  {
  }

  /**
   * The stage order is yaw first: with a quarter turn of both yaw and pitch
   * the X axis lands on Y. Pitch first would have taken it to -Z and kept it there.
   */
  lemma YawBeforePitch()
    ensures RotatePoint(Point(1.0, 0.0, 0.0), QuarterTurn, Zero, QuarterTurn) == Point(0.0, 1.0, 0.0)
  {
  }

  /** A rotation in one coordinate plane keeps the sum of squares of that plane. */
  lemma PlaneRotationKeepsLength(a: real, b: real, t: Trig)
    requires OnUnitCircle(t)
    ensures (a * t.cos - b * t.sin) * (a * t.cos - b * t.sin) + (a * t.sin + b * t.cos) * (a * t.sin + b * t.cos)
      == a * a + b * b
  {
    var s, c := t.sin, t.cos;
    calc {
      (a * c - b * s) * (a * c - b * s) + (a * s + b * c) * (a * s + b * c);
      a * a * (c * c + s * s) + b * b * (s * s + c * c);
      { assert c * c + s * s == 1.0; }
      a * a + b * b;
    }
  }

  /** With genuine angles the staged rotation keeps distances from the origin. */
  lemma RotationKeepsLength(p: Point, pitch: Trig, roll: Trig, yaw: Trig)
    requires OnUnitCircle(pitch) && OnUnitCircle(roll) && OnUnitCircle(yaw)
    ensures SquaredNorm(RotatePoint(p, pitch, roll, yaw)) == SquaredNorm(p)
  {
    var xYaw := p.x * yaw.cos - p.y * yaw.sin;
    var yYaw := p.x * yaw.sin + p.y * yaw.cos;
    PlaneRotationKeepsLength(p.x, p.y, yaw);
    var xPitch := xYaw * pitch.cos + p.z * pitch.sin;
    var zPitch := -xYaw * pitch.sin + p.z * pitch.cos;
    // the pitch stage is the plane rotation of (z, x) by pitch
    PlaneRotationKeepsLength(p.z, xYaw, pitch);
    assert zPitch == p.z * pitch.cos - xYaw * pitch.sin;
    assert xPitch == p.z * pitch.sin + xYaw * pitch.cos;
    PlaneRotationKeepsLength(yYaw, zPitch, roll);
  }
}
