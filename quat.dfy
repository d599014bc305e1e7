/** `openvrTransformToQuat`: the orientation of a 3x4 device transform as a quaternion,
    by the usual four-way choice on the trace and the diagonal. Every branch divides by
    s = 2 * sqrt(radicand), and the choice keeps the radicand at least 1 for any real matrix. */
module QuatExtract {
  import opened Geometry

  /** The four branches of the extractor, in the order the source tests them. */
  datatype Branch = TraceBranch | XBranch | YBranch | ZBranch

  function Trace(m: Mat34): real {
    m.m00 + m.m11 + m.m22
  }

  /** The branch the source takes. Each diagonal branch is taken only when the trace is not
      positive and its own diagonal entry is a largest one. */
  function BranchOf(m: Mat34): (b: Branch)
    ensures b == TraceBranch <==> Trace(m) > 0.0
    ensures b == XBranch ==> m.m00 > m.m11 && m.m00 > m.m22
    ensures b == YBranch ==> m.m11 >= m.m00 && m.m11 > m.m22
    ensures b == ZBranch ==> m.m22 >= m.m00 && m.m22 >= m.m11
  {
    if Trace(m) > 0.0 then TraceBranch
    else if m.m00 > m.m11 && m.m00 > m.m22 then XBranch
    else if m.m11 > m.m22 then YBranch
    else ZBranch
  }

  /** The argument of `sqrtf` in the chosen branch. It is at least 1 in every branch, and above
      1 in the trace branch, because each diagonal branch fires only on a largest entry of a
      diagonal whose sum is not positive. */
  function Radicand(m: Mat34): (r: real)
    ensures r >= 1.0
    ensures BranchOf(m) == TraceBranch ==> r > 1.0
  {
    match BranchOf(m)
    case TraceBranch => 1.0 + Trace(m)
    case XBranch => 1.0 + m.m00 - m.m11 - m.m22
    case YBranch => 1.0 + m.m11 - m.m00 - m.m22
    case ZBranch => 1.0 + m.m22 - m.m00 - m.m11
  }

  /** The divisor s of the chosen branch; it is never below 2, so no branch divides by zero. */
  function Divisor(m: Mat34): (s: real)
    ensures s >= 2.0
  {
    2.0 * Sqrt(Radicand(m))
  }

  /** The component a branch sets to s/4. */
  function LeadComponent(q: Quat, b: Branch): real {
    match b
    case TraceBranch => q.w
    case XBranch => q.x
    case YBranch => q.y
    case ZBranch => q.z
  }

  /** `openvrTransformToQuat`, with its out-array as a `Quat` (x, y, z, w). The component of
      the chosen branch is s/4, hence at least 1/2; the other three are quotients by s. */
  function TransformToQuat(m: Mat34): (q: Quat)
    ensures LeadComponent(q, BranchOf(m)) == Divisor(m) / 4.0
    ensures LeadComponent(q, BranchOf(m)) >= 0.5
  {
    var s := Divisor(m);
    match BranchOf(m)
    case TraceBranch => Quat((m.m21 - m.m12) / s, (m.m02 - m.m20) / s, (m.m10 - m.m01) / s, s * 0.25)
    case XBranch => Quat(s * 0.25, (m.m01 + m.m10) / s, (m.m20 + m.m02) / s, (m.m21 - m.m12) / s)
    case YBranch => Quat((m.m01 + m.m10) / s, s * 0.25, (m.m12 + m.m21) / s, (m.m02 - m.m20) / s)
    case ZBranch => Quat((m.m02 + m.m20) / s, (m.m12 + m.m21) / s, s * 0.25, (m.m10 - m.m01) / s)
  }

  /** A symmetric rotation block with positive trace (the identity among them) has no
      rotation axis: x = y = z = 0. */
  lemma SymmetricPositiveTraceHasZeroAxis(m: Mat34)
    requires Trace(m) > 0.0
    requires m.m01 == m.m10 && m.m02 == m.m20 && m.m12 == m.m21
    ensures var q := TransformToQuat(m); q.x == 0.0 && q.y == 0.0 && q.z == 0.0
  {
    assert BranchOf(m) == TraceBranch;
    var s := Divisor(m);
    assert m.m21 - m.m12 == 0.0 && m.m02 - m.m20 == 0.0 && m.m10 - m.m01 == 0.0;
    assert TransformToQuat(m) == Quat(0.0 / s, 0.0 / s, 0.0 / s, s * 0.25);
  }

  /** The three off-diagonal combinations a branch reads from the matrix, in the order of
      the quaternion components it divides them into. */
  function OffDiagonal(m: Mat34, b: Branch): Vec3 {
    match b
    case TraceBranch => Vec3(m.m21 - m.m12, m.m02 - m.m20, m.m10 - m.m01)
    case XBranch => Vec3(m.m01 + m.m10, m.m02 + m.m20, m.m21 - m.m12)
    case YBranch => Vec3(m.m01 + m.m10, m.m12 + m.m21, m.m02 - m.m20)
    case ZBranch => Vec3(m.m02 + m.m20, m.m12 + m.m21, m.m10 - m.m01)
  }

  /** Sums and differences of mirrored entries of a rotation matrix are products of two
      quaternion components. */
  lemma MirroredEntries(q: Quat)
    ensures var r := RotationOf(q);
      && r.m01 + r.m10 == 4.0 * (q.x * q.y)
      && r.m02 + r.m20 == 4.0 * (q.x * q.z)
      && r.m12 + r.m21 == 4.0 * (q.y * q.z)
      && r.m21 - r.m12 == 4.0 * (q.w * q.x)
      && r.m02 - r.m20 == 4.0 * (q.w * q.y)
      && r.m10 - r.m01 == 4.0 * (q.w * q.z)
  {
    SumAndDifference(q.x * q.y, q.w * q.z);
    SumAndDifference(q.x * q.z, q.w * q.y);
    SumAndDifference(q.y * q.z, q.w * q.x);
  }

  /** Twice p - r and twice p + r add up to four p and differ by four r. */
  lemma SumAndDifference(p: real, r: real)
    ensures 2.0 * (p - r) + 2.0 * (p + r) == 4.0 * p
    ensures 2.0 * (p + r) + 2.0 * (p - r) == 4.0 * p
    ensures 2.0 * (p + r) - 2.0 * (p - r) == 4.0 * r
  {
  }

  /** The lead component s/4 times a quotient a/s, four times over, gives back a. */
  lemma LeadTimesQuotient(s: real, a: real)
    requires s != 0.0
    ensures 4.0 * ((s * 0.25) * (a / s)) == a
    ensures 4.0 * ((a / s) * (s * 0.25)) == a
  {
    assert (s * 0.25) * (a / s) == 0.25 * (s * (a / s));
    assert s * (a / s) == a;
  }

  /** The trace branch's quaternion (a/s, b/s, c/s, s/4) reproduces a, b, c. */
  lemma TraceFormReconstructs(s: real, a: real, b: real, c: real)
    requires s != 0.0
    ensures var r := RotationOf(Quat(a / s, b / s, c / s, s * 0.25));
      Vec3(r.m21 - r.m12, r.m02 - r.m20, r.m10 - r.m01) == Vec3(a, b, c)
  {
    MirroredEntries(Quat(a / s, b / s, c / s, s * 0.25));
    LeadTimesQuotient(s, a);
    LeadTimesQuotient(s, b);
    LeadTimesQuotient(s, c);
  }

  /** The x branch's quaternion (s/4, a/s, b/s, c/s) reproduces a, b, c. */
  lemma XFormReconstructs(s: real, a: real, b: real, c: real)
    requires s != 0.0
    ensures var r := RotationOf(Quat(s * 0.25, a / s, b / s, c / s));
      Vec3(r.m01 + r.m10, r.m02 + r.m20, r.m21 - r.m12) == Vec3(a, b, c)
  {
    MirroredEntries(Quat(s * 0.25, a / s, b / s, c / s));
    LeadTimesQuotient(s, a);
    LeadTimesQuotient(s, b);
    LeadTimesQuotient(s, c);
  }

  /** The y branch's quaternion (a/s, s/4, b/s, c/s) reproduces a, b, c. */
  lemma YFormReconstructs(s: real, a: real, b: real, c: real)
    requires s != 0.0
    ensures var r := RotationOf(Quat(a / s, s * 0.25, b / s, c / s));
      Vec3(r.m01 + r.m10, r.m12 + r.m21, r.m02 - r.m20) == Vec3(a, b, c)
  {
    MirroredEntries(Quat(a / s, s * 0.25, b / s, c / s));
    LeadTimesQuotient(s, a);
    LeadTimesQuotient(s, b);
    LeadTimesQuotient(s, c);
  }

  /** The z branch's quaternion (a/s, b/s, s/4, c/s) reproduces a, b, c. */
  lemma ZFormReconstructs(s: real, a: real, b: real, c: real)
    requires s != 0.0
    ensures var r := RotationOf(Quat(a / s, b / s, s * 0.25, c / s));
      Vec3(r.m02 + r.m20, r.m12 + r.m21, r.m10 - r.m01) == Vec3(a, b, c)
  {
    MirroredEntries(Quat(a / s, b / s, s * 0.25, c / s));
    LeadTimesQuotient(s, a);
    LeadTimesQuotient(s, b);
    LeadTimesQuotient(s, c);
  }

  lemma TraceBranchReconstructs(m: Mat34)
    requires BranchOf(m) == TraceBranch
    ensures OffDiagonal(RotationOf(TransformToQuat(m)), TraceBranch) == OffDiagonal(m, TraceBranch)
  {
    var s := Divisor(m);
    assert TransformToQuat(m) == Quat((m.m21 - m.m12) / s, (m.m02 - m.m20) / s, (m.m10 - m.m01) / s, s * 0.25);
    TraceFormReconstructs(s, m.m21 - m.m12, m.m02 - m.m20, m.m10 - m.m01);
  }

  lemma XBranchReconstructs(m: Mat34)
    requires BranchOf(m) == XBranch
    ensures OffDiagonal(RotationOf(TransformToQuat(m)), XBranch) == OffDiagonal(m, XBranch)
  {
    var s := Divisor(m);
    assert TransformToQuat(m) == Quat(s * 0.25, (m.m01 + m.m10) / s, (m.m20 + m.m02) / s, (m.m21 - m.m12) / s);
    XFormReconstructs(s, m.m01 + m.m10, m.m20 + m.m02, m.m21 - m.m12);
  }

  lemma YBranchReconstructs(m: Mat34)
    requires BranchOf(m) == YBranch
    ensures OffDiagonal(RotationOf(TransformToQuat(m)), YBranch) == OffDiagonal(m, YBranch)
  {
    var s := Divisor(m);
    assert TransformToQuat(m) == Quat((m.m01 + m.m10) / s, s * 0.25, (m.m12 + m.m21) / s, (m.m02 - m.m20) / s);
    YFormReconstructs(s, m.m01 + m.m10, m.m12 + m.m21, m.m02 - m.m20);
  }

  lemma ZBranchReconstructs(m: Mat34)
    requires BranchOf(m) == ZBranch
    ensures OffDiagonal(RotationOf(TransformToQuat(m)), ZBranch) == OffDiagonal(m, ZBranch)
  {
    var s := Divisor(m);
    assert TransformToQuat(m) == Quat((m.m02 + m.m20) / s, (m.m12 + m.m21) / s, s * 0.25, (m.m10 - m.m01) / s);
    ZFormReconstructs(s, m.m02 + m.m20, m.m12 + m.m21, m.m10 - m.m01);
  }

  /** Whatever branch is taken, the rotation matrix of the extracted quaternion agrees with
      the input exactly on the three off-diagonal combinations that branch reads. */
  lemma ExtractionReproducesOffDiagonal(m: Mat34)
    ensures OffDiagonal(RotationOf(TransformToQuat(m)), BranchOf(m)) == OffDiagonal(m, BranchOf(m))
  {
    match BranchOf(m)
    case TraceBranch => TraceBranchReconstructs(m);
    case XBranch => XBranchReconstructs(m);
    case YBranch => YBranchReconstructs(m);
    case ZBranch => ZBranchReconstructs(m);
  }
}
