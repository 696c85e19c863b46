/** Numeric and geometric vocabulary shared by the camera state and the pose table.
    Floating-point values of the viewer are modelled as exact reals; the glm
    quaternion and matrix numerics stay symbolic. */
module Geometry {

  /** M_PI as the viewer defines it when the platform headers do not. */
  const Pi: real := 3.1415926535897932

  /** The three coordinate axes that rotations in the viewer are taken about. */
  datatype Axis = XAxis | YAxis | ZAxis

  /** A glm::vec3 over the reals. */
  datatype Vec3 = Vec3(x: real, y: real, z: real) {
    function Plus(v: Vec3): Vec3 { Vec3(x + v.x, y + v.y, z + v.z) }
    function Minus(v: Vec3): Vec3 { Vec3(x - v.x, y - v.y, z - v.z) }
    function Scale(k: real): Vec3 { Vec3(x * k, y * k, z * k) }
    function Neg(): Vec3 { Vec3(-x, -y, -z) }
  }

  const Zero: Vec3 := Vec3(0.0, 0.0, 0.0)

  lemma PlusAssoc(a: Vec3, b: Vec3, c: Vec3)
    ensures a.Plus(b).Plus(c) == a.Plus(b.Plus(c))
  {
  }

  lemma PlusSwap(a: Vec3, b: Vec3, c: Vec3)
    ensures a.Plus(b).Plus(c) == a.Plus(c).Plus(b)
  {
  }

  /** The world "up" the camera moves along for Space and Shift. */
  const WorldUp: Vec3 := Vec3(0.0, 1.0, 0.0)

  /** A camera orientation, kept as the symbolic glm expression that produced it:
      the identity quaternion, glm::angleAxis(radians(degrees), axis), a quaternion
      product, or glm::slerp(from, to, factor). */
  datatype Orientation =
    | Identity
    | AngleAxis(degrees: real, axis: Axis)
    | Product(first: Orientation, second: Orientation)
    | Slerp(from: Orientation, to: Orientation, factor: real)

  function Abs(x: real): (r: real)
    ensures 0.0 <= r && (r == x || r == -x)
  {
    if x < 0.0 then -x else x
  }

  /** The integer part of x / y, rounded toward zero as C's fmod does. */
  function TruncatedQuotient(x: real, y: real): int
    requires y > 0.0
  {
    if 0.0 <= x then (x / y).Floor else -((-x) / y).Floor
  }

  lemma FloorScaled(x: real, y: real)
    requires 0.0 <= x && 0.0 < y
    ensures 0.0 <= x - (x / y).Floor as real * y < y
  {
    var q := x / y;
    var f := q.Floor as real;
    assert f <= q < f + 1.0;
    assert x == q * y;
    assert x - f * y == (q - f) * y;
    var d := q - f;
    assert 0.0 <= d < 1.0;
    assert x - f * y == d * y;
    assert 0.0 < (1.0 - d) * y;
    assert (1.0 - d) * y == y - d * y;
    assert 0.0 <= d * y;
    assert x - f * y < y;
  }

  /** C's fmod on reals: the remainder of x after removing a whole number of y,
      carrying the sign of x. */
  function FMod(x: real, y: real): (r: real)
    requires y > 0.0
    ensures 0.0 <= x ==> 0.0 <= r < y
    ensures x < 0.0 ==> -y < r <= 0.0
    ensures x - r == TruncatedQuotient(x, y) as real * y
  {
    if 0.0 <= x then
      FloorScaled(x, y);
      x - (x / y).Floor as real * y
    else
      FloorScaled(-x, y);
      x + ((-x) / y).Floor as real * y
  }

  /** Below one period fmod is the identity. */
  lemma FModBelow(x: real, y: real)
    requires 0.0 <= x < y
    ensures FMod(x, y) == x
  {
    assert x / y < 1.0;
  }

  /** Adding one period to a nonnegative x does not change its remainder. */
  lemma {:induction false} FModPeriodic(x: real, y: real)
    requires 0.0 <= x && 0.0 < y
    ensures FMod(x + y, y) == FMod(x, y)
  {
    var q := x / y;
    assert q * y == x;
    assert (q + 1.0) * y == x + y;
    var d := (x + y) / y - (q + 1.0);
    assert ((x + y) / y) * y == x + y;
    assert d * y == 0.0;
    assert d == 0.0;
    assert (q + 1.0).Floor == q.Floor + 1;
  }
}
