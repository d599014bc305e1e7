/** The OpenVR backend object `VRImplOpenVR` and the state it updates in place: its own
    handles, its two eye offsets and controller ids, the process-wide `g_platformData` and
    `g_internalData` slots, the `VRDesc` that `connect` fills and the `HMD` that
    `updateTracking` writes. The OpenVR runtime is a `Runtime` object that logs the calls
    that change its state; the answers of its queries come in as `ConnectScript` and
    `PoseFetch` values. Each method is proved against the functions of module Lifecycle
    and module Tracking. */
module HmdOpenVR {
  import opened Wrappers
  import opened Geometry
  import opened Tracking
  import opened Lifecycle
  import QuatExtract

  /** `g_platformData`'s two slots, set by the embedding application. */
  class PlatformData {
    var session: Option<Handle>
    var compositor: Option<Handle>

    constructor(session: Option<Handle>, compositor: Option<Handle>)
      ensures this.session == session && this.compositor == compositor
    {
      this.session := session;
      this.compositor := compositor;
    }
  }

  /** `g_internalData`'s two slots, where the backend publishes the handles it acquired. */
  class InternalData {
    var session: Option<Handle>
    var compositor: Option<Handle>

    constructor()
      ensures session.None? && compositor.None?
    {
      session := None;
      compositor := None;
    }
  }

  /** The OpenVR runtime, reduced to the log of the calls that change its state. */
  class Runtime {
    var calls: seq<RuntimeCall>

    constructor()
      ensures calls == []
    {
      calls := [];
    }

    /** `VR_Init`: the system interface, or null together with an error. */
    method Init(answer: InitAnswer) returns (system: Option<Handle>)
      modifies this
      ensures calls == old(calls) + [VRInit]
      ensures system == if answer.InitOk? then Some(answer.system) else None
    {
      calls := calls + [VRInit];
      system := if answer.InitOk? then Some(answer.system) else None;
    }

    method Shutdown()
      modifies this
      ensures calls == old(calls) + [VRShutdown]
    {
      calls := calls + [VRShutdown];
    }

    method ResetSeatedZeroPose()
      modifies this
      ensures calls == old(calls) + [Lifecycle.ResetSeatedZeroPose]
    {
      calls := calls + [Lifecycle.ResetSeatedZeroPose];
    }
  }

  /** The fields of `VRDesc` that `connect` writes, one slot per eye. */
  class VRDesc {
    const eyeSize: array<Size>
    const eyeFov: array<Fov>
    const neckOffset: array<real>

    ghost predicate Valid()
      reads this
    {
      eyeSize.Length == 2 && eyeFov.Length == 2 && neckOffset.Length == 2
    }

    constructor()
      ensures Valid() && fresh(eyeSize) && fresh(eyeFov) && fresh(neckOffset)
    {
      eyeSize := new Size[2](_ => Size(0, 0));
      eyeFov := new Fov[2](_ => Fov(0.0, 0.0, 0.0, 0.0));
      neckOffset := new real[2](_ => 0.0);
    }
  }

  /** The translation of each of `HMD::eye[2]`, the only part of `HMD` the backend writes. */
  class HMD {
    const translation: array<Vec3>

    ghost predicate Valid()
      reads this
    {
      translation.Length == 2
    }

    constructor()
      ensures Valid() && fresh(translation)
    {
      translation := new Vec3[2](_ => Origin);
    }
  }

  class VRImplOpenVR {
    var compositor: Option<Handle>
    var system: Option<Handle>
    /** `m_eyeOffsets[2]`. */
    const eyeOffsets: array<EyeOffset>
    var leftControllerId: DeviceIndex
    var rightControllerId: DeviceIndex
    /** The process-wide slots and the runtime every instance shares. */
    const platform: PlatformData
    const internal: InternalData
    const runtime: Runtime

    ghost predicate Valid()
      reads this
    {
      eyeOffsets.Length == 2
    }

    function PlatformValue(): Platform
      reads this, platform
    {
      Platform(platform.session, platform.compositor)
    }

    /** The backend's part of the state machine as a value of module Lifecycle. */
    function State(): Session
      reads this, internal, runtime
    {
      Session(system, compositor, internal.session, internal.compositor,
              leftControllerId, rightControllerId, runtime.calls)
    }

    /** `isConnected`: a read of the compositor handle, the predicate of the state machine. */
    function IsConnected(): (c: bool)
      reads this, internal, runtime
      ensures c == Lifecycle.IsConnected(State())
    {
      compositor != None
    }

    /** A new backend holds no handles and no controllers, and is not connected. The global
        slots and the runtime keep whatever they held. */
    constructor(platform: PlatformData, internal: InternalData, runtime: Runtime)
      ensures Valid() && fresh(eyeOffsets)
      ensures this.platform == platform && this.internal == internal && this.runtime == runtime
      ensures system.None? && compositor.None? && !IsConnected()
      ensures leftControllerId == InvalidDevice && rightControllerId == InvalidDevice
      ensures State() == Fresh.(internalSession := internal.session, internalCompositor := internal.compositor,
                                calls := runtime.calls)
    {
      system := None;
      compositor := None;
      eyeOffsets := new EyeOffset[2](_ => EyeOffset(Origin));
      leftControllerId := InvalidDevice;
      rightControllerId := InvalidDevice;
      this.platform := platform;
      this.internal := internal;
      this.runtime := runtime;
    }

    method Shutdown()
      requires Valid()
      modifies this`system, this`compositor, internal, runtime
      ensures Valid()
      ensures State() == ShutdownSpec(PlatformValue(), old(State()))
      ensures DestructorCheck(PlatformValue(), State())
    {
      if platform.session != None {
        return;
      }
      runtime.Shutdown();
      system := None;
      compositor := None;
      internal.session := None;
      internal.compositor := None;
    }

    /** `connect`, with the runtime's answers in `script`. */
    method Connect(desc: VRDesc, script: ConnectScript)
      requires Valid() && desc.Valid() && script.WellFormed()
      modifies this`system, this`compositor, internal, runtime, eyeOffsets,
        desc.eyeSize, desc.eyeFov, desc.neckOffset
      ensures Valid()
      ensures State() == ConnectSpec(PlatformValue(), old(State()), script)
      ensures StageOf(PlatformValue(), script) == Completed ==> DisplayRead(desc, script)
      ensures StageOf(PlatformValue(), script) != Completed ==>
        && desc.eyeSize[..] == old(desc.eyeSize[..])
        && desc.neckOffset[..] == old(desc.neckOffset[..])
        && desc.eyeFov[..] == old(desc.eyeFov[..])
        && eyeOffsets[..] == old(eyeOffsets[..])
    {
      ghost var p := PlatformValue();
      ghost var s0 := State();
      if platform.session == None {
        system := runtime.Init(script.init);
        if script.init.InitError? {
          Shutdown();
          return;
        }
        internal.session := system;
      } else {
        system := platform.session;
      }
      assert State() == AcquireSystem(p, s0, script.init);

      if platform.compositor == None {
        compositor := script.compositor;
        if compositor == None {
          Shutdown();
          return;
        }
        internal.compositor := compositor;
      } else {
        compositor := platform.compositor;
      }
      assert State() == AcquireCompositor(p, AcquireSystem(p, s0, script.init), script.compositor);

      if !script.extendedDisplay {
        Shutdown();
        return;
      }

      ReadDisplay(desc, script);
    }

    /** What a completed `connect` has written: both eyes get the recommended size, the neck
        offset is the reported depth (or its stand-in) and 0.075 m, and each eye gets its
        field of view and its offset from the head. */
    ghost predicate DisplayRead(desc: VRDesc, script: ConnectScript)
      requires Valid() && desc.Valid() && script.WellFormed()
      reads this, eyeOffsets, desc, desc.eyeSize, desc.eyeFov, desc.neckOffset
    {
      && desc.eyeSize[..] == [script.recommendedSize, script.recommendedSize]
      && desc.neckOffset[..] == [NeckDepth(script.headToEyeDepth), NeckHeight]
      && desc.eyeFov[..] == [FovOf(script.projection[0]), FovOf(script.projection[1])]
      && eyeOffsets[..] == [EyeOffsetOf(script.eyeToHead[0]), EyeOffsetOf(script.eyeToHead[1])]
    }

    /** The tail of `connect` once every interface is held: the display queries and the loop
        over both eyes. */
    method ReadDisplay(desc: VRDesc, script: ConnectScript)
      requires Valid() && desc.Valid() && script.WellFormed()
      modifies eyeOffsets, desc.eyeSize, desc.eyeFov, desc.neckOffset
      ensures DisplayRead(desc, script)
    {
      desc.eyeSize[0] := script.recommendedSize;
      desc.eyeSize[1] := desc.eyeSize[0];

      desc.neckOffset[0] := script.headToEyeDepth;
      if desc.neckOffset[0] == 0.0 {
        desc.neckOffset[0] := 0.0805;
      }
      desc.neckOffset[1] := 0.075;

      for eye := 0 to 2
        invariant desc.eyeSize[..] == [script.recommendedSize, script.recommendedSize]
        invariant desc.neckOffset[..] == [NeckDepth(script.headToEyeDepth), NeckHeight]
        invariant forall e :: 0 <= e < eye ==> desc.eyeFov[e] == FovOf(script.projection[e])
        invariant forall e :: 0 <= e < eye ==> eyeOffsets[e] == EyeOffsetOf(script.eyeToHead[e])
      {
        var raw := script.projection[eye];
        desc.eyeFov[eye] := Fov(raw.left, raw.right, raw.down, raw.up);
        desc.eyeFov[eye] := desc.eyeFov[eye].(left := desc.eyeFov[eye].left * -1.0);
        desc.eyeFov[eye] := desc.eyeFov[eye].(down := desc.eyeFov[eye].down * -1.0);

        var xform := script.eyeToHead[eye];
        eyeOffsets[eye] := EyeOffset(Vec3(xform.m03, xform.m13, xform.m23));
      }
      assert desc.eyeFov[..] == [desc.eyeFov[0], desc.eyeFov[1]];
      assert eyeOffsets[..] == [eyeOffsets[0], eyeOffsets[1]];
    }

    method Disconnect()
      requires Valid()
      modifies this, internal, runtime
      ensures Valid()
      ensures State() == DisconnectSpec(PlatformValue(), old(State()))
    {
      Shutdown();
      leftControllerId := InvalidDevice;
      rightControllerId := InvalidDevice;
    }

    /** `updateTracking`, with the answer of `WaitGetPoses` in `fetch`. */
    method UpdateTracking(hmd: HMD, fetch: PoseFetch) returns (ok: bool)
      requires Valid() && hmd.Valid()
      modifies hmd.translation
      ensures ok == Returns(IsConnected(), fetch)
      ensures WritesEyes(IsConnected(), fetch) ==>
        hmd.translation[..] == EyeTranslations(fetch.head.deviceToAbsolute, eyeOffsets[..])
      ensures !WritesEyes(IsConnected(), fetch) ==> hmd.translation[..] == old(hmd.translation[..])
    {
      if compositor == None {
        return false;
      }
      if fetch.error != NoError {
        return false;
      }
      var headPose := fetch.head;
      if headPose.poseIsValid {
        if headPose.trackingResult == RunningOk {
          var m := headPose.deviceToAbsolute;
          var position := Vec3(m.m03, m.m13, m.m23);
          var q := QuatExtract.TransformToQuat(m);
          for eye := 0 to 2
            invariant forall e :: 0 <= e < eye ==>
              hmd.translation[e] == EyeTranslation(q, position, eyeOffsets[e].offset)
          {
            hmd.translation[eye] := EyeTranslation(q, position, eyeOffsets[eye].offset);
          }
          assert hmd.translation[..] == EyeTranslations(m, eyeOffsets[..]);
        }
      }
      return true;
    }

    method Recenter()
      modifies runtime
      ensures State() == RecenterSpec(old(State()))
    {
      if system != None {
        runtime.ResetSeatedZeroPose();
      }
    }
  }
}
