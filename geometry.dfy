/** Vectors, 3x4 transforms and quaternions over `real`, plus the model of `sqrtf`.
    Floating-point rounding is not modelled: every float of the source is a `real` here. */
module Geometry {

  datatype Vec3 = Vec3(x: real, y: real, z: real)

  /** A 3x4 row-major transform: entry `mij` is `m[i][j]` of the source's `float[3][4]`.
      Columns 0..2 are the rotation block, column 3 the translation. */
  datatype Mat34 = Mat34(
    m00: real, m01: real, m02: real, m03: real,
    m10: real, m11: real, m12: real, m13: real,
    m20: real, m21: real, m22: real, m23: real)

  /** A quaternion in the source's array order: quat[0..3] = x, y, z, w. */
  datatype Quat = Quat(x: real, y: real, z: real, w: real)

  const Origin: Vec3 := Vec3(0.0, 0.0, 0.0)

  function Add(a: Vec3, b: Vec3): Vec3 {
    Vec3(a.x + b.x, a.y + b.y, a.z + b.z)
  }

  function Scale(k: real, a: Vec3): Vec3 {
    Vec3(k * a.x, k * a.y, k * a.z)
  }

  function Cross(a: Vec3, b: Vec3): Vec3 {
    Vec3(a.y * b.z - a.z * b.y, a.z * b.x - a.x * b.z, a.x * b.y - a.y * b.x)
  }

  /** The vector part (x, y, z) of a quaternion. */
  function Axis(q: Quat): Vec3 {
    Vec3(q.x, q.y, q.z)
  }

  /** Textbook rotation of `v` by `q`: v + 2w (u x v) + 2 u x (u x v), with u the vector part. */
  function Rotate(q: Quat, v: Vec3): Vec3 {
    var u := Axis(q);
    Add(Add(v, Scale(2.0 * q.w, Cross(u, v))), Scale(2.0, Cross(u, Cross(u, v))))
  }

  /** Column 3 of a transform. */
  function Translation(m: Mat34): Vec3 {
    Vec3(m.m03, m.m13, m.m23)
  }

  /** The rotation block applied to a vector. */
  function Linear(m: Mat34, v: Vec3): Vec3 {
    Vec3(m.m00 * v.x + m.m01 * v.y + m.m02 * v.z,
         m.m10 * v.x + m.m11 * v.y + m.m12 * v.z,
         m.m20 * v.x + m.m21 * v.y + m.m22 * v.z)
  }

  /** The affine map the transform stands for. */
  function TransformPoint(m: Mat34, p: Vec3): Vec3 {
    Add(Linear(m, p), Translation(m))
  }

  /** The standard rotation matrix of a quaternion, with no translation. */
  function RotationOf(q: Quat): Mat34 {
    Mat34(
      1.0 - 2.0 * (q.y * q.y + q.z * q.z), 2.0 * (q.x * q.y - q.w * q.z), 2.0 * (q.x * q.z + q.w * q.y), 0.0,
      2.0 * (q.x * q.y + q.w * q.z), 1.0 - 2.0 * (q.x * q.x + q.z * q.z), 2.0 * (q.y * q.z - q.w * q.x), 0.0,
      2.0 * (q.x * q.z - q.w * q.y), 2.0 * (q.y * q.z + q.w * q.x), 1.0 - 2.0 * (q.x * q.x + q.y * q.y), 0.0)
  }

  /** Column 3 is where a transform sends the origin of its source frame. */
  lemma TranslationIsImageOfOrigin(m: Mat34)
    ensures Translation(m) == TransformPoint(m, Origin)
  {
  }

  /** Row 0 of the rotation matrix of Quat(a, b, c, w) applied to (v0, v1, v2); rows 1 and 2
      are the same expression with (a, b, c) and (v0, v1, v2) rotated cyclically. */
  function MatrixRow(a: real, b: real, c: real, w: real, v0: real, v1: real, v2: real): real {
    (1.0 - 2.0 * (b * b + c * c)) * v0 + 2.0 * (a * b - w * c) * v1 + 2.0 * (a * c + w * b) * v2
  }

  /** Component 0 of `Rotate` written out, with the same cyclic convention as `MatrixRow`. */
  function CrossRow(a: real, b: real, c: real, w: real, v0: real, v1: real, v2: real): real {
    v0 + 2.0 * w * (b * v2 - c * v1) + 2.0 * (b * (a * v1 - b * v0) - c * (c * v0 - a * v2))
  }

  /** The polynomial identity behind `RotateMatchesRotationMatrix`, one row at a time. */
  lemma RowIdentity(a: real, b: real, c: real, w: real, v0: real, v1: real, v2: real)
    ensures CrossRow(a, b, c, w, v0, v1, v2) == MatrixRow(a, b, c, w, v0, v1, v2)
  {
    assert v0 + 2.0 * w * (b * v2 - c * v1) + 2.0 * (b * (a * v1 - b * v0) - c * (c * v0 - a * v2))
        == (1.0 - 2.0 * (b * b + c * c)) * v0 + 2.0 * (a * b - w * c) * v1 + 2.0 * (a * c + w * b) * v2;
  }

  lemma LinearRowX(q: Quat, v: Vec3)
    ensures Linear(RotationOf(q), v).x == MatrixRow(q.x, q.y, q.z, q.w, v.x, v.y, v.z)
  {
  }

  lemma LinearRowY(q: Quat, v: Vec3)
    ensures Linear(RotationOf(q), v).y == MatrixRow(q.y, q.z, q.x, q.w, v.y, v.z, v.x)
  {
  }

  lemma LinearRowZ(q: Quat, v: Vec3)
    ensures Linear(RotationOf(q), v).z == MatrixRow(q.z, q.x, q.y, q.w, v.z, v.x, v.y)
  {
  }

  lemma RotRowX(q: Quat, v: Vec3)
    ensures Rotate(q, v).x == CrossRow(q.x, q.y, q.z, q.w, v.x, v.y, v.z)
  {
  }

  lemma RotRowY(q: Quat, v: Vec3)
    ensures Rotate(q, v).y == CrossRow(q.y, q.z, q.x, q.w, v.y, v.z, v.x)
  {
  }

  lemma RotRowZ(q: Quat, v: Vec3)
    ensures Rotate(q, v).z == CrossRow(q.z, q.x, q.y, q.w, v.z, v.x, v.y)
  {
  }

  /** The cross-product expansion and the matrix form rotate every vector alike,
      for every quaternion (the identity does not need a unit norm). */
  lemma RotateMatchesRotationMatrix(q: Quat, v: Vec3)
    ensures Rotate(q, v) == Linear(RotationOf(q), v)
  {
    RotRowX(q, v);
    RotRowY(q, v);
    RotRowZ(q, v);
    LinearRowX(q, v);
    LinearRowY(q, v);
    LinearRowZ(q, v);
    RowIdentity(q.x, q.y, q.z, q.w, v.x, v.y, v.z);
    RowIdentity(q.y, q.z, q.x, q.w, v.y, v.z, v.x);
    RowIdentity(q.z, q.x, q.y, q.w, v.z, v.x, v.y);
  }

  function Square(a: real): real {
    a * a
  }

  /** Width of the bracket [lo, hi] after `steps` halvings. */
  function Gap(lo: real, hi: real, steps: nat): real
    decreases steps
  {
    if steps == 0 then hi - lo else Gap(lo, hi, steps - 1) / 2.0
  }

  /** Either half of [lo, hi], halved once fewer, ends as narrow as [lo, hi]. */
  lemma {:induction false} GapHalves(lo: real, hi: real, steps: nat)
    ensures Gap(lo, (lo + hi) / 2.0, steps) == Gap(lo, hi, steps + 1)
    ensures Gap((lo + hi) / 2.0, hi, steps) == Gap(lo, hi, steps + 1)
  {
    if steps > 0 {
      GapHalves(lo, hi, steps - 1);
    }
  }

  datatype Bracket = Bracket(lo: real, hi: real)

  /** Bisection for the square root of x on [lo, hi]: `steps` halvings, each keeping the
      half whose ends still enclose the root. */
  function Bisect(x: real, lo: real, hi: real, steps: nat): (b: Bracket)
    requires 0.0 <= lo <= hi
    requires Square(lo) <= x <= Square(hi)
    ensures lo <= b.lo <= b.hi <= hi
    ensures Square(b.lo) <= x <= Square(b.hi)
    ensures b.hi - b.lo == Gap(lo, hi, steps)
    decreases steps
  {
    if steps == 0 then Bracket(lo, hi)
    else
      var mid := (lo + hi) / 2.0;
      GapHalves(lo, hi, steps - 1);
      if Square(mid) <= x then Bisect(x, mid, hi, steps - 1)
      else Bisect(x, lo, mid, steps - 1)
  }

  /** Number of halvings used for `sqrtf`: one per bit of a single-precision significand. */
  const SqrtSteps: nat := 24

  lemma SquareAtLeast(x: real)
    requires x >= 1.0
    ensures x <= Square(x)
  {
    assert x * x - x == x * (x - 1.0);
  }

  /** The starting bracket: [1, x] above 1, [0, 1] below; either encloses the root. */
  function SqrtStart(x: real): (b: Bracket)
    requires x >= 0.0
    ensures 0.0 <= b.lo <= b.hi
    ensures Square(b.lo) <= x <= Square(b.hi)
    ensures x >= 1.0 ==> b.lo == 1.0
  {
    if x >= 1.0 then
      SquareAtLeast(x);
      Bracket(1.0, x)
    else
      assert Square(1.0) == 1.0;
      Bracket(0.0, 1.0)
  }

  /** The final bisection bracket of `sqrtf`. */
  function SqrtBracket(x: real): (b: Bracket)
    requires x >= 0.0
    ensures SqrtStart(x).lo <= b.lo <= b.hi
    ensures Square(b.lo) <= x <= Square(b.hi)
    ensures b.hi - b.lo == Gap(SqrtStart(x).lo, SqrtStart(x).hi, SqrtSteps)
  {
    Bisect(x, SqrtStart(x).lo, SqrtStart(x).hi, SqrtSteps)
  }

  /** The model of `sqrtf` on non-negative arguments: the lower end of the final bisection
      bracket, so its square never exceeds x, and the root lies below the upper end,
      which is one final bracket width higher. */
  function Sqrt(x: real): (r: real)
    requires x >= 0.0
    ensures r >= 0.0
    ensures x >= 1.0 ==> r >= 1.0
    ensures Square(r) <= x <= Square(SqrtBracket(x).hi)
    ensures SqrtBracket(x).hi - r == Gap(SqrtStart(x).lo, SqrtStart(x).hi, SqrtSteps)
  {
    SqrtBracket(x).lo
  }
}
