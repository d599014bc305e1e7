/** The per-frame part of `updateTracking`: which pose answers lead to which return value and
    whether the eye translations are written, and the arithmetic that places each eye in
    tracking space from the head pose. */
module Tracking {
  import opened Geometry
  import QuatExtract

  /** One eye's offset from the head origin, column 3 of its eye-to-head transform. */
  datatype EyeOffset = EyeOffset(offset: Vec3)

  /** `ETrackingResult`: only Running_OK matters to the source; every other value is alike. */
  datatype TrackingResult = RunningOk | RunningOutOfRange | Uninitialized | CalibratingInProgress | CalibratingOutOfRange

  /** `EVRCompositorError`: `NoError` is VRCompositorError_None, any other value an error code. */
  datatype CompositorError = NoError | CompositorFailure(code: int)

  /** The fields of `TrackedDevicePose_t` that the source reads. */
  datatype DevicePose = DevicePose(deviceToAbsolute: Mat34, poseIsValid: bool, trackingResult: TrackingResult)

  /** The answer of one `WaitGetPoses` call: its error code and the pose of the HMD slot. */
  datatype PoseFetch = PoseFetch(error: CompositorError, head: DevicePose)

  /** The four ways one call of `updateTracking` can go. */
  datatype TrackingStep = NotConnected | FetchFailed | PoseUnusable | EyesWritten

  /** Which way a call goes: the compositor check first, then the fetch error, then the
      head pose's validity and tracking result. */
  function StepOf(connected: bool, fetch: PoseFetch): (st: TrackingStep)
    ensures st == NotConnected <==> !connected
    ensures st == FetchFailed <==> connected && fetch.error != NoError
    ensures st == EyesWritten <==>
      connected && fetch.error == NoError && fetch.head.poseIsValid && fetch.head.trackingResult == RunningOk
  {
    if !connected then NotConnected
    else if fetch.error != NoError then FetchFailed
    else if !fetch.head.poseIsValid || fetch.head.trackingResult != RunningOk then PoseUnusable
    else EyesWritten
  }

  /** The value `updateTracking` returns. */
  function Returns(connected: bool, fetch: PoseFetch): (ok: bool)
    ensures ok <==> connected && fetch.error == NoError
  {
    StepOf(connected, fetch) != NotConnected && StepOf(connected, fetch) != FetchFailed
  }

  /** Whether `updateTracking` writes the eye translations: only on a successful fetch of a
      valid head pose whose tracking is Running_OK, and never without a `true` return. */
  function WritesEyes(connected: bool, fetch: PoseFetch): (w: bool)
    ensures w <==> Returns(connected, fetch) && fetch.head.poseIsValid && fetch.head.trackingResult == RunningOk
  {
    StepOf(connected, fetch) == EyesWritten
  }

  /** Component 0 of the source's eye translation before the head position is added, for
      Quat(a, b, c, w) and offset (o0, o1, o2): uv = 2 (q x offset), then o0 + w uv0 + b uv2 - c uv1.
      Components 1 and 2 are the same expression with both triples rotated cyclically. */
  function SourceRow(a: real, b: real, c: real, w: real, o0: real, o1: real, o2: real): real
  {
    var uv0 := 2.0 * (b * o2 - c * o1);
    var uv1 := 2.0 * (c * o0 - a * o2);
    var uv2 := 2.0 * (a * o1 - b * o0);
    o0 + w * uv0 + b * uv2 - c * uv1
  }

  /** The eye translation exactly as the source computes it, component by component:
      uv = 2 (q x offset), translation = offset + w uv + q x uv + head position. */
  function EyeTranslation(q: Quat, head: Vec3, off: Vec3): (t: Vec3)
    ensures t == Add(Rotate(q, off), head)
  {
    LiteralRowIdentity(q.x, q.y, q.z, q.w, off.x, off.y, off.z);
    LiteralRowIdentity(q.y, q.z, q.x, q.w, off.y, off.z, off.x);
    LiteralRowIdentity(q.z, q.x, q.y, q.w, off.z, off.x, off.y);
    RotRowX(q, off);
    RotRowY(q, off);
    RotRowZ(q, off);
    Vec3(SourceRow(q.x, q.y, q.z, q.w, off.x, off.y, off.z) + head.x,
         SourceRow(q.y, q.z, q.x, q.w, off.y, off.z, off.x) + head.y,
         SourceRow(q.z, q.x, q.y, q.w, off.z, off.x, off.y) + head.z)
  }

  /** Each component of the source's expansion equals the matching component of `Rotate`. */
  lemma LiteralRowIdentity(a: real, b: real, c: real, w: real, o0: real, o1: real, o2: real)
    ensures SourceRow(a, b, c, w, o0, o1, o2) == CrossRow(a, b, c, w, o0, o1, o2)
  {
  }

  /** By `RotateMatchesRotationMatrix` the source's expansion is also q's rotation matrix
      applied to the offset, moved to the head position. */
  lemma EyeTranslationRotatesOffset(q: Quat, head: Vec3, off: Vec3)
    ensures EyeTranslation(q, head, off) == Add(Rotate(q, off), head)
    ensures EyeTranslation(q, head, off) == Add(Linear(RotationOf(q), off), head)
  {
    RotateMatchesRotationMatrix(q, off);
  }

  /** With the identity orientation (0, 0, 0, 1) each eye sits at its offset from the head. */
  lemma IdentityOrientationAddsOffset(head: Vec3, off: Vec3)
    ensures EyeTranslation(Quat(0.0, 0.0, 0.0, 1.0), head, off) == Add(off, head)
  {
  }

  /** A head turned 90 degrees about +y (q = (0, s, 0, s) with s*s = 1/2) carries a left-eye
      offset of 3.2 cm along -x to 3.2 cm along +z. */
  lemma QuarterTurnAboutY(s: real)
    requires s * s == 0.5
    ensures EyeTranslation(Quat(0.0, s, 0.0, s), Origin, Vec3(-0.032, 0.0, 0.0)) == Vec3(0.0, 0.0, 0.032)
  {
    var uvz := 2.0 * (0.0 * 0.0 - s * -0.032);
    assert uvz == 0.064 * s;
    assert s * uvz == 0.064 * (s * s);
  }

  /** The translations of both eyes for a tracked head transform, as the loop writes them:
      the position is column 3, the orientation comes from the quaternion extractor. */
  function EyeTranslations(head: Mat34, offsets: seq<EyeOffset>): (t: seq<Vec3>)
    requires |offsets| == 2
    ensures |t| == 2
    ensures forall e :: 0 <= e < 2 ==>
      t[e] == Add(Rotate(QuatExtract.TransformToQuat(head), offsets[e].offset), Translation(head))
  {
    var q := QuatExtract.TransformToQuat(head);
    [EyeTranslation(q, Translation(head), offsets[0].offset),
     EyeTranslation(q, Translation(head), offsets[1].offset)]
  }

  /** A quaternion with a zero axis leaves every vector where it is, whatever its w. */
  lemma ZeroAxisRotatesNothing(q: Quat, v: Vec3)
    requires q.x == 0.0 && q.y == 0.0 && q.z == 0.0
    ensures Rotate(q, v) == v
  {
    assert Axis(q) == Origin;
    assert Cross(Origin, v) == Origin;
  }

  /** End to end: when the head transform has the identity rotation block, each eye is written
      at its offset plus column 3. The extracted w is only near 1 (the square root is
      approximated), but the extracted axis is exactly zero, so w plays no part. */
  lemma IdentityHeadAddsOffsets(head: Mat34, offsets: seq<EyeOffset>)
    requires |offsets| == 2
    requires head.m00 == 1.0 && head.m11 == 1.0 && head.m22 == 1.0
    requires head.m01 == 0.0 && head.m02 == 0.0 && head.m10 == 0.0
    requires head.m12 == 0.0 && head.m20 == 0.0 && head.m21 == 0.0
    ensures forall e :: 0 <= e < 2 ==> EyeTranslations(head, offsets)[e] == Add(offsets[e].offset, Translation(head))
  {
    var q := QuatExtract.TransformToQuat(head);
    QuatExtract.SymmetricPositiveTraceHasZeroAxis(head);
    ZeroAxisRotatesNothing(q, offsets[0].offset);
    ZeroAxisRotatesNothing(q, offsets[1].offset);
  }
}
