/** Real-valued 3D and 2D vectors: the part of three.js's Vector3 and Vector2
    that the game's physics relies on. Square roots (Vector3.length and
    normalize) are never computed here: a length enters as a value `len`
    together with the fact IsLength(v, len) that it is the square root of
    the squared length. */
module Vectors {

  datatype Vec3 = Vec3(x: real, y: real, z: real)

  datatype Vec2 = Vec2(x: real, y: real)

  /** An angle, given by its cosine and sine. */
  datatype Angle = Angle(cos: real, sin: real)

  const ZERO := Vec3(0.0, 0.0, 0.0)

  function Abs(r: real): real {
    if r < 0.0 then -r else r
  }

  function Add(a: Vec3, b: Vec3): Vec3 {
    Vec3(a.x + b.x, a.y + b.y, a.z + b.z)
  }

  /** a - b */
  function Sub(a: Vec3, b: Vec3): Vec3 {
    Vec3(a.x - b.x, a.y - b.y, a.z - b.z)
  }

  /** Vector3.multiplyScalar */
  function Scale(v: Vec3, k: real): Vec3 {
    Vec3(k * v.x, k * v.y, k * v.z)
  }

  function Dot(a: Vec3, b: Vec3): real {
    a.x * b.x + a.y * b.y + a.z * b.z
  }

  function LengthSq(v: Vec3): real {
    Dot(v, v)
  }

  /** `len` is what Vector3.length() returns for v. */
  predicate IsLength(v: Vec3, len: real) {
    len >= 0.0 && len * len == LengthSq(v)
  }

  predicate IsUnit(v: Vec3) {
    LengthSq(v) == 1.0
  }

  predicate OnUnitCircle(a: Angle) {
    a.cos * a.cos + a.sin * a.sin == 1.0
  }

  lemma MulPositive(p: real, q: real)
    requires p > 0.0 && q > 0.0
    ensures p * q > 0.0
  {
  }

  lemma MulNonNegative(p: real, q: real)
    requires p >= 0.0 && q >= 0.0
    ensures p * q >= 0.0
  {
  }

  /** Squaring is strictly monotonic on the non-negative reals. */
  lemma SquareMonotonic(a: real, b: real)
    requires a >= 0.0 && b >= 0.0
    ensures a < b <==> a * a < b * b
  {
    assert b * b - a * a == (b - a) * (b + a);
    if a < b {
      MulPositive(b - a, b + a);
    } else {
      MulNonNegative(a - b, a + b);
    }
  }

  /** Comparing a length with a non-negative bound is the same as comparing
      the squared length with the squared bound. */
  lemma CompareLength(v: Vec3, len: real, bound: real)
    requires IsLength(v, len) && bound >= 0.0
    ensures len < bound <==> LengthSq(v) < bound * bound
    ensures len > bound <==> LengthSq(v) > bound * bound
  {
    SquareMonotonic(len, bound);
    SquareMonotonic(bound, len);
  }

  /** A vector whose only non-zero component is z has length |z|. */
  lemma FlatLength(v: Vec3, len: real)
    requires v.x == 0.0 && v.y == 0.0 && IsLength(v, len)
    ensures len == Abs(v.z)
  {
    var a := Abs(v.z);
    assert LengthSq(v) == v.z * v.z == a * a;
    SquareMonotonic(len, a);
    SquareMonotonic(a, len);
  }

  lemma ScaleLengthSq(v: Vec3, k: real)
    ensures LengthSq(Scale(v, k)) == k * k * LengthSq(v)
  {
  }

  lemma ScaleDot(v: Vec3, k: real, w: Vec3)
    ensures Dot(Scale(v, k), w) == k * Dot(v, w)
  {
  }

  /** A vector along z alone has length |z|. */
  lemma FlatIsLength(v: Vec3)
    requires v.x == 0.0 && v.y == 0.0
    ensures IsLength(v, Abs(v.z))
  {
  }

  /** Vector3.normalize: divides by the length, or by 1 when the length is 0
      (three.js writes `divideScalar(this.length() || 1)`). */
  function Normalize(v: Vec3, len: real): (u: Vec3)
    requires IsLength(v, len)
    ensures len > 0.0 ==> IsUnit(u)
    ensures len == 0.0 ==> u == v && LengthSq(u) == 0.0
    ensures Dot(u, v) == len
  {
    if len == 0.0 then
      v
    else
      var k := 1.0 / len;
      assert k * len == 1.0;
      assert Dot(Scale(v, k), v) == k * LengthSq(v);
      assert LengthSq(Scale(v, k)) == k * k * LengthSq(v);
      assert k * k * (len * len) == (k * len) * (k * len);
      Scale(v, k)
  }
}
