/** The session-ownership state machine of the OpenVR backend as values: what `shutdown`,
    `connect`, `disconnect` and `recenter` do to the object's two handles, the two
    process-wide slots it records its own handles in, the controller ids, and the log of
    state-changing runtime calls. The class in module HmdOpenVR is proved against these
    functions; the lemmas below are the properties of the state machine. */
module Lifecycle {
  import opened Wrappers
  import opened Geometry
  import opened Tracking

  /** An opaque runtime interface pointer; `None` in an `Option<Handle>` is NULL. */
  type Handle = nat

  /** `vr::TrackedDeviceIndex_t`, an unsigned 32-bit index. */
  newtype DeviceIndex = x: int | 0 <= x < 0x1_0000_0000

  /** `vr::k_unTrackedDeviceIndexInvalid`. */
  const InvalidDevice: DeviceIndex := 0xFFFF_FFFF

  /** Runtime calls that change the runtime's state, in the order the object makes them. */
  datatype RuntimeCall = VRInit | VRShutdown | ResetSeatedZeroPose

  /** `g_platformData.session` and `g_platformData.compositor`: handles owned by the
      embedding application; a non-null session means the runtime is not ours to manage. */
  datatype Platform = Platform(session: Option<Handle>, compositor: Option<Handle>)

  /** The object's handles, `g_internalData`'s two slots, the controller ids and the call log. */
  datatype Session = Session(
    system: Option<Handle>,
    compositor: Option<Handle>,
    internalSession: Option<Handle>,
    internalCompositor: Option<Handle>,
    leftController: DeviceIndex,
    rightController: DeviceIndex,
    calls: seq<RuntimeCall>)

  /** The state right after construction: no handles, no controllers, no calls. */
  const Fresh: Session := Session(None, None, None, None, InvalidDevice, InvalidDevice, [])

  /** `isConnected`. */
  predicate IsConnected(s: Session) {
    s.compositor.Some?
  }

  /** The destructor's check: unless the session is external, `m_system` must be null. */
  predicate DestructorCheck(p: Platform, s: Session) {
    p.session.Some? || s.system.None?
  }

  /** `shutdown`: nothing when the session is external; otherwise `VR_Shutdown` and all
      four handles cleared. */
  function ShutdownSpec(p: Platform, s: Session): (t: Session)
    ensures s.calls <= t.calls && |t.calls| <= |s.calls| + 1
    ensures DestructorCheck(p, t)
    ensures p.session.None? ==> !IsConnected(t)
    ensures t.leftController == s.leftController && t.rightController == s.rightController
  {
    if p.session.Some? then s
    else s.(system := None, compositor := None, internalSession := None, internalCompositor := None,
            calls := s.calls + [VRShutdown])
  }

  /** `disconnect`: `shutdown`, then both controller ids invalid. */
  function DisconnectSpec(p: Platform, s: Session): (t: Session)
    ensures t.leftController == InvalidDevice && t.rightController == InvalidDevice
    ensures DestructorCheck(p, t)
    ensures p.session.None? ==> !IsConnected(t)
  {
    ShutdownSpec(p, s).(leftController := InvalidDevice, rightController := InvalidDevice)
  }

  /** `recenter`: `ResetSeatedZeroPose` when a system interface is held. */
  function RecenterSpec(s: Session): (t: Session)
    ensures t.(calls := s.calls) == s
    ensures s.calls <= t.calls
    ensures |t.calls| > |s.calls| <==> s.system.Some?
    ensures |t.calls| > |s.calls| ==> t.calls[|s.calls|..] == [ResetSeatedZeroPose]
  {
    if s.system.Some? then s.(calls := s.calls + [ResetSeatedZeroPose]) else s
  }

  /** The answer of `VR_Init`: a system interface, or an `EVRInitError` other than None. */
  datatype InitAnswer = InitOk(system: Handle) | InitError(code: int)

  /** The four values `GetProjectionRaw` returns for one eye, named after the fields the
      call at src/hmd_openvr.cpp:150 writes them to: `down` is the value OpenVR returns through
      its third pointer, `pfTop`, and `up` the one through its fourth, `pfBottom`. */
  datatype RawProjection = RawProjection(left: real, right: real, down: real, up: real)

  /** `VRDesc`'s recommended eye render size. */
  datatype Size = Size(w: nat, h: nat)

  /** `VRDesc`'s field of view of one eye. */
  datatype Fov = Fov(left: real, right: real, down: real, up: real)

  /** Everything the runtime answers during one `connect`, in call order. */
  datatype ConnectScript = ConnectScript(
    init: InitAnswer,
    compositor: Option<Handle>,
    extendedDisplay: bool,
    recommendedSize: Size,
    headToEyeDepth: real,
    projection: seq<RawProjection>,
    eyeToHead: seq<Mat34>)
  {
    /** The runtime answers per-eye queries for exactly the two eyes. */
    predicate WellFormed() {
      |projection| == 2 && |eyeToHead| == 2
    }
  }

  /** Where `connect` stops. */
  datatype ConnectStage = InitFailed | CompositorFailed | ExtendedDisplayFailed | Completed

  /** `connect` completes exactly when it has a system (external, or from `VR_Init`), a
      compositor (external, or from the lookup) and the extended display. */
  function StageOf(p: Platform, script: ConnectScript): (st: ConnectStage)
    ensures st == Completed <==>
      && (p.session.Some? || script.init.InitOk?)
      && (p.compositor.Some? || script.compositor.Some?)
      && script.extendedDisplay
    ensures st == InitFailed ==> p.session.None?
  {
    if p.session.None? && script.init.InitError? then InitFailed
    else if p.compositor.None? && script.compositor.None? then CompositorFailed
    else if !script.extendedDisplay then ExtendedDisplayFailed
    else Completed
  }

  /** The system step of `connect`: `VR_Init` when no session is external (recording the
      handle in `g_internalData.session` on success), otherwise attach. */
  function AcquireSystem(p: Platform, s: Session, init: InitAnswer): (t: Session)
    ensures t.compositor == s.compositor && t.internalCompositor == s.internalCompositor
    ensures p.session.Some? ==> t.system == p.session && t.internalSession == s.internalSession && t.calls == s.calls
    ensures p.session.None? ==> t.calls == s.calls + [VRInit]
    ensures p.session.None? && init.InitOk? ==> t.system.Some? && t.internalSession == t.system
  {
    if p.session.None? then
      match init
      case InitOk(h) => s.(system := Some(h), internalSession := Some(h), calls := s.calls + [VRInit])
      case InitError(_) => s.(system := None, calls := s.calls + [VRInit])
    else s.(system := p.session)
  }

  /** The compositor step of `connect`: acquire when none is external (recording it in
      `g_internalData.compositor` when non-null), otherwise attach. */
  function AcquireCompositor(p: Platform, s: Session, compositor: Option<Handle>): (t: Session)
    ensures t.(compositor := s.compositor, internalCompositor := s.internalCompositor) == s
    ensures p.compositor.Some? ==> t.compositor == p.compositor && t.internalCompositor == s.internalCompositor
    ensures p.compositor.None? ==> t.compositor == compositor
    ensures p.compositor.None? && t.compositor.Some? ==> t.internalCompositor == t.compositor
  {
    if p.compositor.None? then
      s.(compositor := compositor, internalCompositor := if compositor.Some? then compositor else s.internalCompositor)
    else s.(compositor := p.compositor)
  }

  /** The handles and log after `connect`; each failed step ends in `shutdown`. */
  function ConnectSpec(p: Platform, s: Session, script: ConnectScript): (t: Session)
    ensures s.calls <= t.calls
    ensures t.leftController == s.leftController && t.rightController == s.rightController
    ensures t.compositor.Some? ==> t.system.Some?
    ensures IsConnected(t) ==>
      StageOf(p, script) == Completed || (p.session.Some? && StageOf(p, script) == ExtendedDisplayFailed)
  {
    var s1 := AcquireSystem(p, s, script.init);
    if StageOf(p, script) == InitFailed then ShutdownSpec(p, s1)
    else
      var s2 := AcquireCompositor(p, s1, script.compositor);
      if StageOf(p, script) == Completed then s2 else ShutdownSpec(p, s2)
  }

  /** `m_neckOffset[0]`: the reported head-to-eye depth, with 0.0805 m standing in for an
      exact zero; the result is never zero. */
  function NeckDepth(reported: real): (d: real)
    ensures d != 0.0
    ensures reported != 0.0 ==> d == reported
    ensures reported == 0.0 ==> d == 0.0805
  {
    if reported == 0.0 then 0.0805 else reported
  }

  /** `m_neckOffset[1]`. */
  const NeckHeight: real := 0.075

  /** One eye's `m_eyeFov` after `connect` negates the left and down extents. */
  function FovOf(raw: RawProjection): (f: Fov)
    ensures f.right == raw.right && f.up == raw.up
    ensures f.left + raw.left == 0.0 && f.down + raw.down == 0.0
  {
    Fov(-raw.left, raw.right, -raw.down, raw.up)
  }

  /** One eye's offset as `connect` stores it: column 3 of the eye-to-head transform. */
  function EyeOffsetOf(eyeToHead: Mat34): (o: EyeOffset)
    ensures o.offset == TransformPoint(eyeToHead, Origin)
  {
    TranslationIsImageOfOrigin(eyeToHead);
    EyeOffset(Translation(eyeToHead))
  }

  /** A sequence of lifecycle calls, the input of `Run`. */
  datatype Call = Connect(script: ConnectScript) | Shutdown | Disconnect | Recenter

  function Step(p: Platform, s: Session, c: Call): Session {
    match c
    case Connect(script) => ConnectSpec(p, s, script)
    case Shutdown => ShutdownSpec(p, s)
    case Disconnect => DisconnectSpec(p, s)
    case Recenter => RecenterSpec(s)
  }

  function Run(p: Platform, s: Session, cs: seq<Call>): Session
    decreases |cs|
  {
    if |cs| == 0 then s else Run(p, Step(p, s, cs[0]), cs[1..])
  }

  // ---------------------------------------------------------------- shutdown

  /** With an external session `shutdown` leaves every handle, both internal slots and the log
      as they were. */
  lemma ShutdownExternalKeepsAll(p: Platform, s: Session)
    requires p.session.Some?
    ensures ShutdownSpec(p, s) == s
  {
  }

  /** Without an external session `shutdown` calls `VR_Shutdown` once and clears the four
      handles; the controller ids are left alone. */
  lemma ShutdownOwnedClears(p: Platform, s: Session)
    requires p.session.None?
    ensures var t := ShutdownSpec(p, s);
      && t.system.None? && t.compositor.None? && t.internalSession.None? && t.internalCompositor.None?
      && !IsConnected(t) && DestructorCheck(p, t)
      && t.calls == s.calls + [VRShutdown]
      && t.leftController == s.leftController && t.rightController == s.rightController
  {
  }

  /** The handles of a second `shutdown` are those of the first (only the log grows). */
  lemma ShutdownIdempotentOnHandles(p: Platform, s: Session)
    ensures ShutdownSpec(p, ShutdownSpec(p, s)).(calls := []) == ShutdownSpec(p, s).(calls := [])
  {
  }

  /** `disconnect` is `shutdown` followed by invalidating both controller ids. */
  lemma DisconnectInvalidatesControllers(p: Platform, s: Session)
    ensures var t := DisconnectSpec(p, s);
      && t.leftController == InvalidDevice && t.rightController == InvalidDevice
      && t.(leftController := s.leftController, rightController := s.rightController) == ShutdownSpec(p, s)
  {
  }

  // ---------------------------------------------------------------- connect

  /** A `connect` under an external session never calls `VR_Init` or `VR_Shutdown`, always
      holds the external session afterwards, and attaches to an external compositor. */
  lemma ConnectAttachesExternalSession(p: Platform, s: Session, script: ConnectScript)
    requires p.session.Some?
    ensures var t := ConnectSpec(p, s, script);
      && t.calls == s.calls
      && t.system == p.session
      && t.internalSession == s.internalSession
      && (p.compositor.Some? ==> t.compositor == p.compositor && t.internalCompositor == s.internalCompositor)
      && (p.compositor.None? ==> t.compositor == script.compositor)
      && (p.compositor.None? ==>
            t.internalCompositor == (if script.compositor.Some? then script.compositor else s.internalCompositor))
  {
  }

  /** Under an external session, a `connect` whose compositor lookup fails leaves the compositor
      null but keeps the compositor an earlier `connect` recorded in `g_internalData`: the
      `shutdown` that would clear it returns early. */
  lemma ExternalFailedLookupKeepsStaleSlot(p: Platform, s: Session, first: ConnectScript, second: ConnectScript)
    requires p.session.Some? && p.compositor.None?
    requires first.compositor.Some? && second.compositor.None?
    ensures var t := ConnectSpec(p, ConnectSpec(p, s, first), second);
      && !IsConnected(t)
      && t.internalCompositor == first.compositor
  {
    ConnectAttachesExternalSession(p, s, first);
    ConnectAttachesExternalSession(p, ConnectSpec(p, s, first), second);
  }

  /** A `connect` that owns the session calls `VR_Init` first; when it completes it holds the
      handles the runtime gave and has recorded the ones it acquired itself. */
  lemma ConnectOwnedCompletes(p: Platform, s: Session, script: ConnectScript)
    requires p.session.None? && StageOf(p, script) == Completed
    ensures var t := ConnectSpec(p, s, script);
      && script.init.InitOk?
      && t.system == Some(script.init.system) && t.internalSession == t.system
      && t.calls == s.calls + [VRInit]
      && (p.compositor.None? ==> t.compositor == script.compositor && t.compositor.Some? && t.internalCompositor == t.compositor)
      && (p.compositor.Some? ==> t.compositor == p.compositor && t.internalCompositor == s.internalCompositor)
      && IsConnected(t)
  {
  }

  /** A `connect` that owns the session and stops early leaves all four handles null, is not
      connected, and has called `VR_Init` then `VR_Shutdown`. */
  lemma ConnectOwnedFailureClears(p: Platform, s: Session, script: ConnectScript)
    requires p.session.None? && StageOf(p, script) != Completed
    ensures var t := ConnectSpec(p, s, script);
      && t.system.None? && t.compositor.None? && t.internalSession.None? && t.internalCompositor.None?
      && !IsConnected(t)
      && t.calls == s.calls + [VRInit, VRShutdown]
  {
  }

  /** Without an external session, `connect` leaves the object connected exactly when it
      completes. */
  lemma ConnectedIffCompleted(p: Platform, s: Session, script: ConnectScript)
    requires p.session.None?
    ensures IsConnected(ConnectSpec(p, s, script)) <==> StageOf(p, script) == Completed
  {
    if StageOf(p, script) == Completed {
      ConnectOwnedCompletes(p, s, script);
    } else {
      ConnectOwnedFailureClears(p, s, script);
    }
  }

  /** Under an external session a failed extended-display lookup does not disconnect: the
      `shutdown` it triggers returns early, so the attached or acquired compositor stays. */
  lemma ExternalExtendedDisplayFailureStaysConnected(p: Platform, s: Session, script: ConnectScript)
    requires p.session.Some? && StageOf(p, script) == ExtendedDisplayFailed
    ensures IsConnected(ConnectSpec(p, s, script))
    ensures ConnectSpec(p, s, script).system == p.session
  {
  }

  /** Under an external session `connect` leaves the object connected exactly when some
      compositor was attached or acquired, whatever the extended display answered. */
  lemma ExternalConnectedIffCompositor(p: Platform, s: Session, script: ConnectScript)
    requires p.session.Some?
    ensures IsConnected(ConnectSpec(p, s, script)) <==> (p.compositor.Some? || script.compositor.Some?)
  {
  }

  /** Whatever state it starts from, `connect` never holds a compositor without a system. */
  lemma ConnectCompositorNeedsSystem(p: Platform, s: Session, script: ConnectScript)
    ensures var t := ConnectSpec(p, s, script); t.compositor.Some? ==> t.system.Some?
  {
  }

  /** `disconnect` of an object that never connected still calls `VR_Shutdown` when the
      session is not external. */
  lemma DisconnectFreshShutsDown(p: Platform)
    requires p.session.None?
    ensures DisconnectSpec(p, Fresh).calls == [VRShutdown]
  {
  }

  // ---------------------------------------------------------------- invariants over runs

  /** The object's own bookkeeping: a compositor is only ever held together with a system;
      when it owns the session, `g_internalData` records exactly the handles it holds (the
      compositor slot too, when that is not external); and whatever owns the session, a
      compositor it acquired itself is the one recorded in `g_internalData.compositor`. */
  predicate Coherent(p: Platform, s: Session) {
    && (s.compositor.Some? ==> s.system.Some?)
    && (p.session.None? ==> s.internalSession == s.system)
    && (p.session.None? && p.compositor.None? ==> s.internalCompositor == s.compositor)
    && (p.compositor.None? && s.compositor.Some? ==> s.internalCompositor == s.compositor)
  }

  lemma FreshIsCoherent(p: Platform)
    ensures Coherent(p, Fresh) && !IsConnected(Fresh) && DestructorCheck(p, Fresh)
    ensures Fresh.leftController == InvalidDevice && Fresh.rightController == InvalidDevice
  {
  }

  lemma StepKeepsCoherent(p: Platform, s: Session, c: Call)
    requires Coherent(p, s)
    ensures Coherent(p, Step(p, s, c))
  {
    if c.Connect? {
      ConnectCompositorNeedsSystem(p, s, c.script);
    }
  }

  /** Every sequence of lifecycle calls keeps the bookkeeping coherent. */
  lemma {:induction false} RunKeepsCoherent(p: Platform, s: Session, cs: seq<Call>)
    requires Coherent(p, s)
    ensures Coherent(p, Run(p, s, cs))
    decreases |cs|
  {
    if |cs| > 0 {
      StepKeepsCoherent(p, s, cs[0]);
      RunKeepsCoherent(p, Step(p, s, cs[0]), cs[1..]);
    }
  }

  /** Under an external session the calls a step adds to the log are all `ResetSeatedZeroPose`. */
  predicate OnlyRecenters(log: seq<RuntimeCall>) {
    forall i :: 0 <= i < |log| ==> log[i] == ResetSeatedZeroPose
  }

  lemma StepUnderExternalSession(p: Platform, s: Session, c: Call)
    requires p.session.Some?
    ensures s.calls <= Step(p, s, c).calls
    ensures OnlyRecenters(Step(p, s, c).calls[|s.calls|..])
  {
    var t := Step(p, s, c);
    if c.Connect? {
      ConnectAttachesExternalSession(p, s, c.script);
    }
    assert t.calls == s.calls || t.calls == s.calls + [ResetSeatedZeroPose];
    if t.calls == s.calls {
      assert t.calls[|s.calls|..] == [];
    } else {
      assert t.calls[|s.calls|..] == [ResetSeatedZeroPose];
    }
  }

  /** An externally owned runtime is never initialised or shut down by this object, over any
      sequence of lifecycle calls: the log only ever gains `ResetSeatedZeroPose`. */
  lemma {:induction false} ExternalSessionNeverManaged(p: Platform, s: Session, cs: seq<Call>)
    requires p.session.Some?
    ensures s.calls <= Run(p, s, cs).calls
    ensures OnlyRecenters(Run(p, s, cs).calls[|s.calls|..])
    decreases |cs|
  {
    if |cs| > 0 {
      var t := Step(p, s, cs[0]);
      StepUnderExternalSession(p, s, cs[0]);
      ExternalSessionNeverManaged(p, t, cs[1..]);
      var r := Run(p, s, cs);
      assert r == Run(p, t, cs[1..]);
      forall i | |s.calls| <= i < |r.calls|
        ensures r.calls[i] == ResetSeatedZeroPose
      {
        if i < |t.calls| {
          assert r.calls[i] == t.calls[i] == t.calls[|s.calls|..][i - |s.calls|];
        } else {
          assert r.calls[i] == r.calls[|t.calls|..][i - |t.calls|];
        }
      }
    }
  }

  /** A run that owns the session and ends with `shutdown` or `disconnect` passes the
      destructor's check and is not connected. */
  lemma RunEndingInShutdownPassesDestructor(p: Platform, s: Session, cs: seq<Call>)
    requires p.session.None? && |cs| > 0 && (cs[|cs| - 1] == Shutdown || cs[|cs| - 1] == Disconnect)
    ensures DestructorCheck(p, Run(p, s, cs)) && !IsConnected(Run(p, s, cs))
  {
    RunSplitsLast(p, s, cs);
  }

  /** `Run` of a non-empty sequence is the last step after the run of the rest. */
  lemma {:induction false} RunSplitsLast(p: Platform, s: Session, cs: seq<Call>)
    requires |cs| > 0
    ensures Run(p, s, cs) == Step(p, Run(p, s, cs[..|cs| - 1]), cs[|cs| - 1])
    decreases |cs|
  {
    if |cs| > 1 {
      RunSplitsLast(p, Step(p, s, cs[0]), cs[1..]);
      assert cs[1..][..|cs[1..]| - 1] == cs[..|cs| - 1][1..];
    }
  }

  /** A `connect` that fails after `VR_Init`, followed by `disconnect`, calls `VR_Shutdown`
      twice: the failure path has already shut the runtime down. */
  lemma FailedConnectThenDisconnectShutsDownTwice(p: Platform, s: Session, script: ConnectScript)
    requires p.session.None? && StageOf(p, script) != Completed
    ensures DisconnectSpec(p, ConnectSpec(p, s, script)).calls == s.calls + [VRInit, VRShutdown, VRShutdown]
  {
    ConnectOwnedFailureClears(p, s, script);
  }

  /** `connect` then `disconnect`, once per script. */
  function Cycles(scripts: seq<ConnectScript>): (cs: seq<Call>)
    ensures |cs| == 2 * |scripts|
    decreases |scripts|
  {
    if |scripts| == 0 then [] else [Connect(scripts[0]), Disconnect] + Cycles(scripts[1..])
  }

  /** `n` copies of the pair `VR_Init`, `VR_Shutdown`. */
  function InitShutdownPairs(n: nat): seq<RuntimeCall>
    decreases n
  {
    if n == 0 then [] else [VRInit, VRShutdown] + InitShutdownPairs(n - 1)
  }

  /** Repeated `connect`/`disconnect` cycles on an owned session leak nothing: every handle
      and both internal slots end null, both controller ids invalid; and when every connect
      completes, each cycle initialises and shuts the runtime down exactly once. */
  lemma {:induction false} ConnectDisconnectCycles(p: Platform, s: Session, scripts: seq<ConnectScript>)
    requires p.session.None? && |scripts| > 0
    ensures var t := Run(p, s, Cycles(scripts));
      && t.system.None? && t.compositor.None? && t.internalSession.None? && t.internalCompositor.None?
      && t.leftController == InvalidDevice && t.rightController == InvalidDevice
    ensures (forall i :: 0 <= i < |scripts| ==> StageOf(p, scripts[i]) == Completed) ==>
      Run(p, s, Cycles(scripts)).calls == s.calls + InitShutdownPairs(|scripts|)
    decreases |scripts|
  {
    var t1 := DisconnectSpec(p, ConnectSpec(p, s, scripts[0]));
    assert Cycles(scripts)[2..] == Cycles(scripts[1..]);
    assert Run(p, s, Cycles(scripts)) == Run(p, t1, Cycles(scripts[1..]));
    if StageOf(p, scripts[0]) == Completed {
      ConnectOwnedCompletes(p, s, scripts[0]);
      assert t1.calls == s.calls + [VRInit, VRShutdown];
    }
    if |scripts| > 1 {
      ConnectDisconnectCycles(p, t1, scripts[1..]);
      if forall i :: 0 <= i < |scripts| ==> StageOf(p, scripts[i]) == Completed {
        assert forall i :: 0 <= i < |scripts[1..]| ==> StageOf(p, scripts[1..][i]) == Completed by {
          forall i | 0 <= i < |scripts[1..]| ensures StageOf(p, scripts[1..][i]) == Completed {
            assert scripts[1..][i] == scripts[i + 1];
          }
        }
        assert InitShutdownPairs(|scripts|) == [VRInit, VRShutdown] + InitShutdownPairs(|scripts[1..]|);
      }
    } else {
      assert Cycles(scripts[1..]) == [];
      assert InitShutdownPairs(1) == [VRInit, VRShutdown];
    }
  }
}
