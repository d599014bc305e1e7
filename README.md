# OpenVR backend of bgfx's HMD layer, modelled in Dafny

This project models `VRImplOpenVR`, the OpenVR backend of bgfx's head-mounted-display layer
(`src/hmd_openvr.cpp`, `src/hmd_openvr.h`). It has three parts:

- **Session ownership.** `shutdown`, `connect`, `disconnect`, `recenter` and `isConnected`
  manage the object's two runtime handles (`m_system`, `m_compositor`). They also use two
  process-wide slot pairs:
  - `g_platformData.session` / `g_platformData.compositor`: non-null when the embedding
    application owns the runtime;
  - `g_internalData.session` / `g_internalData.compositor`: where the backend publishes the
    handles it acquired itself.
- **Per-frame tracking.** `updateTracking` returns `false` when there is no compositor or the
  pose fetch fails. It returns `true` and leaves the output alone for an unusable head pose.
  Otherwise it writes both eye translations: each eye offset is rotated by the head quaternion
  and the head position is added.
- **Quaternion extraction.** `openvrTransformToQuat` makes a four-way choice on the trace and
  the diagonal of the 3x4 head transform.

Files:

- `wrappers.dfy` — `Option`.
- `geometry.dfy` — vectors, 3x4 transforms and quaternions over `real`:
  - rotation by the cross-product formula, proved equal to rotation by the quaternion's matrix;
  - `Sqrt`, a model of `sqrtf` on non-negative arguments, computed by 24 steps of bisection.
- `quat.dfy` — `openvrTransformToQuat` as the pure function `QuatExtract.TransformToQuat`.
- `tracking.dfy` — the pose datatypes, the return and write rules of `updateTracking`, and
  the eye-translation arithmetic exactly as the source writes it.
- `lifecycle.dfy` — the ownership state machine as values:
  - specification functions `ShutdownSpec`, `ConnectSpec`, `DisconnectSpec`, `RecenterSpec`;
  - `Run` over any sequence of calls;
  - the lemmas that state its properties.
- `hmd_openvr.dfy` — the object itself:
  - class `VRImplOpenVR`, with the fields of the header;
  - classes for the global slots (`PlatformData`, `InternalData`), for the `VRDesc` fields
    `connect` writes, and for the translations of `HMD::eye[2]`;
  - `Runtime`, which logs the state-changing runtime calls (`VR_Init`, `VR_Shutdown`,
    `ResetSeatedZeroPose`).

  Each method is proved against the functions of `Lifecycle` and `Tracking`.

The OpenVR runtime is a foreign service. Every answer it gives comes in as a value:
- a `ConnectScript` holds `VR_Init`'s result, the compositor and extended-display lookups,
  the recommended size, the head-to-eye depth, and the per-eye raw projections and
  eye-to-head transforms;
- a `PoseFetch` holds the error and head pose of `WaitGetPoses`.

Calls that change the runtime's state are appended to `Runtime.calls`.

Array indexing is checked by Dafny. So the fact that `connect` and the tracking loop only
touch eyes 0 and 1 of two-element arrays is part of what verifies.

Three behaviours of the code are easy to miss, and the model keeps them as written:

- **An extended-display failure under an external session does not detach.** Suppose the
  session is external and the extended-display lookup fails (`src/hmd_openvr.cpp:123-129`).
  The `shutdown` that follows returns at once, so the object keeps the attached system and
  compositor, and `isConnected` stays true (`Lifecycle.ExternalExtendedDisplayFailureStaysConnected`).
  The same early return keeps the system handle after a failed compositor lookup under an
  external session. It also keeps a compositor that an earlier `connect` recorded in
  `g_internalData.compositor` (`Lifecycle.ExternalFailedLookupKeepsStaleSlot`).
- **`VR_Shutdown` can run more than once.** A `connect` that fails after `VR_Init` has already
  called `VR_Shutdown`, and a following `disconnect` calls it again
  (`Lifecycle.FailedConnectThenDisconnectShutsDownTwice`). A `disconnect` of an object that
  never connected calls it too (`Lifecycle.DisconnectFreshShutsDown`). A cycle whose connect
  completes calls each of `VR_Init` and `VR_Shutdown` exactly once
  (`Lifecycle.ConnectDisconnectCycles`).
- **`shutdown` clears both internal slots**, `g_internalData.session` and
  `g_internalData.compositor`, together with the object's own two handles.

The lemmas over call sequences (`Run`, `Cycles`) take one `Platform` value for the whole
sequence. They assume that the embedding application does not change `g_platformData`
between calls, although the class reads it afresh on every call.

## Model

| member | source | states |
|---|---|---|
| `Geometry.Sqrt` | src/hmd_openvr.cpp:20 | the stand-in for `sqrtf` is non-negative, at least 1 for arguments of at least 1; its square does not exceed the argument, which lies below the square of the bisection's upper end |
| `Geometry.RotateMatchesRotationMatrix` | src/hmd_openvr.cpp:197-202 | for every quaternion and vector, v + 2w(u x v) + 2u x (u x v) equals the quaternion's rotation matrix applied to v |
| `Geometry.TranslationIsImageOfOrigin` | src/hmd_openvr.cpp:189-191 | column 3 of a transform, read as the head position and the eye offsets, is where the transform sends the origin |
| `QuatExtract.BranchOf` | src/hmd_openvr.cpp:16-49 | the trace branch is taken exactly when the trace is positive; the x branch only when m00 strictly beats m11 and m22, the y branch only when m11 is a largest diagonal entry (ties with m00 allowed), the z branch only when m22 is a largest one |
| `QuatExtract.Radicand` | src/hmd_openvr.cpp:20-44 | the argument of `sqrtf` is at least 1 in every branch, for any real matrix, and above 1 in the trace branch |
| `QuatExtract.Divisor` | src/hmd_openvr.cpp:20-44 | every branch divides by s >= 2, so no division by zero |
| `QuatExtract.TransformToQuat` | src/hmd_openvr.cpp:14-50 | the component the chosen branch sets (w for the trace branch, x, y or z for the diagonal branch whose entry wins) is s/4, hence at least 1/2 |
| `QuatExtract.SymmetricPositiveTraceHasZeroAxis` | src/hmd_openvr.cpp:18-24 | a symmetric block with positive trace, the identity among them, gives x = y = z = 0 |
| `QuatExtract.ExtractionReproducesOffDiagonal` | src/hmd_openvr.cpp:21-48 | in every branch, the rotation matrix of the extracted quaternion has exactly the off-diagonal sums and differences the branch divided by s |
| `Tracking.StepOf` | src/hmd_openvr.cpp:169-205 | the call stops as not connected exactly without a compositor, as a failed fetch exactly with a compositor and a fetch error, and writes exactly with a compositor, no error and a valid Running_OK head pose |
| `Tracking.EyeTranslation` | src/hmd_openvr.cpp:197-202 | the source's per-component formula, uv = 2(q x offset) written out, is the offset rotated by q plus the head position |
| `Tracking.Returns` | src/hmd_openvr.cpp:167-208 | `updateTracking` returns true exactly when a compositor is held and the pose fetch reports no error |
| `Tracking.WritesEyes` | src/hmd_openvr.cpp:176-205 | the translations are written exactly when the call returns true and the head pose is valid and Running_OK |
| `Tracking.EyeTranslationRotatesOffset` | src/hmd_openvr.cpp:195-202 | the source's per-component formula is also the head quaternion's rotation matrix applied to the offset, plus the head position |
| `Tracking.IdentityOrientationAddsOffset` | src/hmd_openvr.cpp:195-202 | with orientation (0, 0, 0, 1) each eye's translation is its offset plus the head position |
| `Tracking.IdentityHeadAddsOffsets` | src/hmd_openvr.cpp:186-203 | end to end: for a head transform whose rotation block is the identity, each written eye translation is its offset plus column 3 |
| `Tracking.QuarterTurnAboutY` | src/hmd_openvr.cpp:195-202 | a head turned 90 degrees about +y carries an offset of 3.2 cm along -x to 3.2 cm along +z |
| `Tracking.EyeTranslations` | src/hmd_openvr.cpp:186-203 | both written translations are the eye offsets rotated by the quaternion extracted from the head transform, plus its column 3 |
| `Lifecycle.NeckDepth` | src/hmd_openvr.cpp:141-145 | the horizontal neck offset is the reported depth unless that is exactly 0, when it is 0.0805; it is never 0 |
| `Lifecycle.FovOf` | src/hmd_openvr.cpp:150-152 | each eye's left and down extents are the negated raw values, right and up are unchanged |
| `Lifecycle.EyeOffsetOf` | src/hmd_openvr.cpp:154-157 | an eye offset is column 3 of the eye-to-head transform, the image of the eye's origin |
| `Lifecycle.ShutdownSpec` | src/hmd_openvr.cpp:72-84 | `shutdown` adds at most one call to the log, keeps the controller ids, always leaves the destructor's check satisfied, and disconnects when the session is not external |
| `Lifecycle.DisconnectSpec` | src/hmd_openvr.cpp:161-165 | after `disconnect` both controller ids are invalid and the destructor's check holds; without an external session the object is not connected |
| `Lifecycle.RecenterSpec` | src/hmd_openvr.cpp:214-220 | `recenter` changes no handle, slot or id, and adds exactly `ResetSeatedZeroPose` to the log exactly when a system is held |
| `Lifecycle.StageOf` | src/hmd_openvr.cpp:90-129 | `connect` completes exactly when it has a system (external or from `VR_Init`), a compositor (external or looked up) and the extended display; it can fail at `VR_Init` only when the session is not external |
| `Lifecycle.AcquireSystem` | src/hmd_openvr.cpp:90-104 | with an external session the system step attaches to it, leaving the log and the internal session slot; otherwise it calls `VR_Init`, and on success holds a system and records it in the internal session slot |
| `Lifecycle.AcquireCompositor` | src/hmd_openvr.cpp:106-121 | the compositor step changes only the compositor and its slot: it attaches to an external compositor without recording it, and otherwise holds the looked-up one and records it when non-null |
| `Lifecycle.ConnectSpec` | src/hmd_openvr.cpp:86-129 | `connect` only appends to the log, keeps the controller ids, never holds a compositor without a system, and is left connected only when it completed or when an external session met an extended-display failure |
| `Lifecycle.ShutdownExternalKeepsAll` | src/hmd_openvr.cpp:72-77 | with an external session `shutdown` changes nothing: own handles, both internal slots and the runtime log keep their values |
| `Lifecycle.ShutdownOwnedClears` | src/hmd_openvr.cpp:79-83 | otherwise it calls `VR_Shutdown` once, clears both handles and both internal slots, leaves the controller ids, and passes the destructor's check |
| `Lifecycle.ShutdownIdempotentOnHandles` | src/hmd_openvr.cpp:72-84 | a second `shutdown` leaves every handle, slot and controller id as the first left them |
| `Lifecycle.DisconnectInvalidatesControllers` | src/hmd_openvr.cpp:161-165 | `disconnect` is `shutdown` followed by setting both controller ids to the invalid index |
| `Lifecycle.ConnectAttachesExternalSession` | src/hmd_openvr.cpp:90-121 | under an external session `connect` never calls `VR_Init` or `VR_Shutdown`, holds the external session, and leaves the internal session slot; it attaches to an external compositor without recording it, and otherwise holds the looked-up compositor and records it in the internal slot when it is non-null |
| `Lifecycle.ExternalFailedLookupKeepsStaleSlot` | src/hmd_openvr.cpp:106-116 | under an external session, a `connect` whose compositor lookup fails after one that succeeded is not connected, but the internal compositor slot still names the earlier compositor |
| `Lifecycle.ConnectOwnedCompletes` | src/hmd_openvr.cpp:90-121 | a completed `connect` on an owned session called `VR_Init`, holds the returned system and the acquired or external compositor, and recorded in the internal slots exactly the handles it acquired |
| `Lifecycle.ConnectOwnedFailureClears` | src/hmd_openvr.cpp:90-129 | a failed `connect` on an owned session ends with all four handles null, not connected, after `VR_Init` then `VR_Shutdown` |
| `Lifecycle.ConnectedIffCompleted` | src/hmd_openvr.cpp:86-159 | on an owned session `connect` leaves the object connected exactly when every step succeeded |
| `Lifecycle.ExternalExtendedDisplayFailureStaysConnected` | src/hmd_openvr.cpp:123-129 | under an external session a failed extended-display lookup leaves the object connected and attached to the external session |
| `Lifecycle.ExternalConnectedIffCompositor` | src/hmd_openvr.cpp:106-129 | under an external session `connect` leaves the object connected exactly when a compositor was external or acquired |
| `Lifecycle.ConnectCompositorNeedsSystem` | src/hmd_openvr.cpp:90-129 | after any `connect`, a held compositor implies a held system |
| `Lifecycle.FreshIsCoherent` | src/hmd_openvr.cpp:52-55 | a new object holds no handles, is not connected, passes the destructor's check, and has both controller ids invalid |
| `Lifecycle.StepKeepsCoherent` | src/hmd_openvr.cpp:72-220 | every lifecycle call keeps the bookkeeping coherent: a compositor is held only with a system; with an owned session the internal session slot is the held system, and the compositor slot is the held compositor unless that is external; whatever owns the session, a held compositor the object acquired itself is the one in the compositor slot |
| `Lifecycle.RunKeepsCoherent` | src/hmd_openvr.cpp:72-220 | the same holds after any sequence of `connect`, `shutdown`, `disconnect` and `recenter` calls |
| `Lifecycle.ExternalSessionNeverManaged` | src/hmd_openvr.cpp:72-104 | under an external session no sequence of calls ever initialises or shuts down the runtime; the log only gains `ResetSeatedZeroPose` |
| `Lifecycle.RunEndingInShutdownPassesDestructor` | src/hmd_openvr.cpp:57-65 | on an owned session, any sequence of calls ending in `shutdown` or `disconnect` leaves the system handle null, as the destructor checks |
| `Lifecycle.DisconnectFreshShutsDown` | src/hmd_openvr.cpp:161-165 | with no external session, `disconnect` of a new object calls `VR_Shutdown` once |
| `Lifecycle.FailedConnectThenDisconnectShutsDownTwice` | src/hmd_openvr.cpp:94-98 | a `connect` failing after `VR_Init`, then `disconnect`, calls `VR_Shutdown` twice |
| `Lifecycle.ConnectDisconnectCycles` | src/hmd_openvr.cpp:86-165 | repeated `connect`/`disconnect` on an owned session ends with every handle and internal slot null and both controller ids invalid; when every connect completes, each cycle calls `VR_Init` and `VR_Shutdown` exactly once |
| `HmdOpenVR.VRImplOpenVR.IsConnected` | src/hmd_openvr.h:28-31 | true exactly when a compositor is held; a function, so it changes no state |
| `HmdOpenVR.VRImplOpenVR.constructor` | src/hmd_openvr.cpp:52-55 | a new object has null system and compositor, is not connected, has both controller ids invalid and two eye offsets; the global slots and the runtime are untouched |
| `HmdOpenVR.VRImplOpenVR.Shutdown` | src/hmd_openvr.cpp:72-84 | the new handles, slots and log are `ShutdownSpec` of the old ones, and the destructor's check holds afterwards |
| `HmdOpenVR.VRImplOpenVR.Connect` | src/hmd_openvr.cpp:86-159 | the new handles, slots and log are `ConnectSpec` of the old ones; a completed connect has written the descriptor fields and eye offsets, any other leaves them unchanged |
| `HmdOpenVR.VRImplOpenVR.ReadDisplay` | src/hmd_openvr.cpp:134-158 | both eye sizes are the recommended size, the neck offset is `NeckDepth` of the reported depth and 0.075, each eye's field of view is `FovOf` its raw projection and its offset is column 3 of its eye-to-head transform |
| `HmdOpenVR.VRImplOpenVR.Disconnect` | src/hmd_openvr.cpp:161-165 | the new state is `DisconnectSpec` of the old one |
| `HmdOpenVR.VRImplOpenVR.UpdateTracking` | src/hmd_openvr.cpp:167-208 | returns `Tracking.Returns`; writes both eye translations as `Tracking.EyeTranslations` when `Tracking.WritesEyes`, and otherwise leaves the output unchanged |
| `HmdOpenVR.VRImplOpenVR.Recenter` | src/hmd_openvr.cpp:214-220 | calls `ResetSeatedZeroPose` exactly when a system handle is held, and changes nothing else |

## Left out

- IEEE single-precision arithmetic: every `float` is a `real`. The model proves no rounding
  or accuracy bounds, and no claim that the extracted quaternion has unit length.
- Geometry.Sqrt: a 24-step bisection stands in for `sqrtf`. It is not exact even where
  `sqrtf` is: on a perfect square such as 4 it returns a value just below the root, so the
  identity transform extracts a w slightly below 1. Only the properties the proofs
  need are stated (non-negative, at least 1 for arguments of at least 1, a bracketing of the
  true root), not correct rounding.
- The OpenVR runtime's behaviour. `VR_Init`, `VR_GetGenericInterface`, `WaitGetPoses`,
  `GetRecommendedRenderTargetSize`, `GetFloatTrackedDeviceProperty`, `GetProjectionRaw` and
  `GetEyeToHeadTransform` are scripted answers. `VR_Shutdown` and `ResetSeatedZeroPose` are
  log entries.
- The runtime's error codes: a failed `VR_Init` carries its code, which the model does not
  use, and a failed interface lookup is a null handle.
- `init`: it only forwards `VR_IsRuntimeInstalled`, a foreign call.
- `updateInput`: its body is empty.
- The swap-chain, mirror and render-target operations: they are pure virtual in this class.
- `BX_TRACE` logging.
- The `BX_CHECK` of the destructor is stated as the predicate `Lifecycle.DestructorCheck`
  and proved after `shutdown`, rather than modelled as a destructor.
- The window bounds, the `m_deviceType` placeholder and the refresh rate that `connect`
  copies into `VRDesc`: they are passed through unchanged from foreign calls.
- The other fields of `VRDesc` and `HMD`: only those this class writes are modelled.
- `m_eyeOffsets` before the first completed `connect`: the C++ leaves it uninitialised, while
  the model starts it at zero.
- The poses of devices other than the HMD: `WaitGetPoses` fills an array of them, but only
  the HMD slot is read.
- The `BGFX_CONFIG_USE_OPENVR` compile-time gating.
- Concurrency: the source runs on a single render thread.
- HmdOpenVR.VRImplOpenVR.ReadDisplay: the tail of `connect` (lines 132-158) is split out as
  a method of its own so that each proof stays small. `Connect` calls it only once every
  interface is held, as the source does.
