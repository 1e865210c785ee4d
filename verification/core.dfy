/**
 * The native runtime seen from the wrapper layer, and the wrapper objects
 * every extension module builds on: `Instance` (which owns the immutable
 * extension set), `Session`, `Space` and `Swapchain`.
 *
 * The runtime answers every call with a result code and output fields of
 * its own choosing; its methods make those choices with `:|`, so every
 * property proved of a wrapper holds whatever the runtime answers. It keeps
 * the set of live handles and a log of the calls made to it.
 */
module Core {
  import opened Xr
  import opened CallLog

  class Runtime {
    /** The extensions enabled when the instance was created; fixed from then on. */
    const enabled: set<Extension>
    var live: map<Handle, LiveHandle>
    var log: seq<Call>
    var nextHandle: Handle
    /** Which wrapper object owns each handle; no handle has two owners. */
    ghost var owner: map<Handle, object>

    /** A handle type's functions exist only when its extension is enabled. */
    predicate Available(ty: ObjectType) {
      ExtensionOf(ty).Some? ==> ExtensionOf(ty).value in enabled
    }

    ghost predicate Valid()
      reads this
    {
      && WellFormed(log)
      && live == Live(log)
      && 0 < nextHandle
      && (forall h :: h in Issued(log) ==> h < nextHandle)
      && (forall h :: h in live ==> Available(live[h].objectType))
      && owner.Keys <= live.Keys
    }

    /** `who` owns `h`, a live handle of type `ty` created in session `session`. */
    ghost predicate Holds(h: Handle, ty: ObjectType, session: Handle, who: object)
      reads this
    {
      h in live && live[h] == LiveHandle(ty, session) && h in owner && owner[h] == who
    }

    constructor (enabled: set<Extension>)
      ensures Valid()
      ensures this.enabled == enabled && live == map[] && log == [] && owner == map[]
    {
      this.enabled := enabled;
      live, log, nextHandle := map[], [], 1;
      owner := map[];
    }

    /** A native create function: xrCreateFaceTracker2FB, xrCreateFoveationProfileFB, xrCreateSwapchain, ... */
    method Create(session: Handle, info: CreateInfo) returns (code: ResultCode, out: Handle)
      requires Valid() && Available(ObjectTypeOf(info))
      modifies this
      ensures Valid() && owner == old(owner)
      ensures log == old(log) + [Call.Create(session, info, code, out)]
      ensures Succeeded(code) ==>
                && out != NULL_HANDLE && StateOf(old(log), out) == Absent
                && live == old(live)[out := LiveHandle(ObjectTypeOf(info), session)]
      ensures !Succeeded(code) ==> out == NULL_HANDLE && live == old(live)
    {
      code :| true;
      if Succeeded(code) {
        out :| out >= nextHandle;
        nextHandle := out + 1;
        live := live[out := LiveHandle(ObjectTypeOf(info), session)];
      } else {
        out := NULL_HANDLE;
      }
      var c := Call.Create(session, info, code, out);
      Snoc(log, c, out);
      LiveWereIssued(log);
      log := log + [c];
    }

    /** A native destroy function; the result code it returns is ignored by every caller. */
    method Destroy(ty: ObjectType, h: Handle)
      requires Valid() && IsLiveAs(live, h, ty)
      modifies this
      ensures Valid()
      ensures log == old(log) + [Call.Destroy(ty, h)]
      ensures live == old(live) - {h} && owner == old(owner) - {h}
      ensures StateOf(log, h) == Destroyed && DestroyCount(log, h) == 1
    {
      var c := Call.Destroy(ty, h);
      Snoc(log, c, h);
      LiveWereIssued(log);
      DestroyCountMatchesState(log, h);
      log := log + [c];
      live := live - {h};
      owner := owner - {h};
      DestroyCountMatchesState(log, h);
    }

    /** A wrapper takes ownership of a live handle nobody owns. */
    ghost method Adopt(h: Handle, who: object)
      requires Valid() && h in live && h !in owner
      modifies this
      ensures Valid() && owner == old(owner)[h := who]
      ensures log == old(log) && live == old(live) && nextHandle == old(nextHandle)
    {
      owner := owner[h := who];
    }

    /** xrGetFaceExpressionWeights2FB: fills the weight and confidence buffers. */
    method GetFaceExpressionWeights2(
      tracker: Handle, time: Time, weightCount: nat, weights: array<Option<F32>>,
      confidenceCount: nat, confidences: array<F32>)
      returns (code: ResultCode, reply: FaceExpressionWeights2Reply)
      requires Valid() && IsLiveAs(live, tracker, ObjectFaceTracker2FB)
      requires weights.Length == weightCount && confidences.Length == confidenceCount
      requires weights as object != confidences as object
      modifies this, weights, confidences
      ensures Valid() && live == old(live) && owner == old(owner)
      ensures log == old(log) + [Call.GetFaceExpressionWeights2(
        tracker, time, weightCount, confidenceCount, code, reply, weights[..], confidences[..])]
      ensures Honoured(Last(log))
    {
      code :| true;
      reply :| true;
      var w: seq<Option<F32>> :| |w| == weightCount && (Succeeded(code) && reply.isValid ==> AllWritten(w)) by {
        assert |seq(weightCount, _ => Some(0 as F32))| == weightCount;
        assert AllWritten(seq(weightCount, _ => Some(0 as F32)));
      }
      var cs: seq<F32> :| |cs| == confidenceCount by {
        assert |seq(confidenceCount, _ => 0 as F32)| == confidenceCount;
      }
      forall i | 0 <= i < weights.Length {
        weights[i] := w[i];
      }
      assert weights[..] == w;
      forall i | 0 <= i < confidences.Length {
        confidences[i] := cs[i];
      }
      assert confidences[..] == cs && weights[..] == w;
      var c := Call.GetFaceExpressionWeights2(tracker, time, weightCount, confidenceCount, code, reply, w, cs);
      Snoc(log, c, tracker);
      log := log + [c];
    }

    /** xrLocateBodyJointsFB (also used by XR_META_body_tracking_full_body): fills the joint buffer. */
    method LocateBodyJoints(
      tracker: Handle, baseSpace: Handle, time: Time, jointCount: nat,
      joints: array<BodyJointLocation>)
      returns (code: ResultCode, reply: BodyJointLocationsReply)
      requires Valid() && IsLiveAs(live, tracker, ObjectBodyTrackerFB)
      requires joints.Length == jointCount
      modifies this, joints
      ensures Valid() && live == old(live) && owner == old(owner)
      ensures log == old(log) + [Call.LocateBodyJoints(
        tracker, baseSpace, time, jointCount, old(joints[..]), code, reply, joints[..])]
      ensures Honoured(Last(log))
    {
      var before := joints[..];
      code :| true;
      reply :| true;
      var js: seq<BodyJointLocation> :| |js| == jointCount by {
        assert |before| == jointCount;
      }
      forall i | 0 <= i < joints.Length {
        joints[i] := js[i];
      }
      assert joints[..] == js;
      var c := Call.LocateBodyJoints(tracker, baseSpace, time, jointCount, before, code, reply, js);
      Snoc(log, c, tracker);
      log := log + [c];
    }

    /** xrGetEyeGazesFB: writes the whole XrEyeGazesFB. */
    method GetEyeGazes(tracker: Handle, baseSpace: Handle, time: Time)
      returns (code: ResultCode, reply: EyeGazesReply)
      requires Valid() && IsLiveAs(live, tracker, ObjectEyeTrackerFB)
      modifies this
      ensures Valid() && live == old(live) && owner == old(owner)
      ensures log == old(log) + [Call.GetEyeGazes(tracker, baseSpace, time, code, reply)]
      ensures Honoured(Last(log))
    {
      code :| true;
      var g: EyeGazeReply :| true;
      reply :| |reply.gaze| == 2 by {
        assert |EyeGazesReply([g, g], time).gaze| == 2;
      }
      var c := Call.GetEyeGazes(tracker, baseSpace, time, code, reply);
      Snoc(log, c, tracker);
      log := log + [c];
    }

    /** xrGetFacialExpressionsHTC: fills the expression buffer. */
    method GetFacialExpressions(
      tracker: Handle, ty: StructureType, expressionCount: nat, weights: array<Option<F32>>)
      returns (code: ResultCode, reply: FacialExpressionsReply)
      requires Valid() && IsLiveAs(live, tracker, ObjectFacialTrackerHTC)
      requires weights.Length == expressionCount
      modifies this, weights
      ensures Valid() && live == old(live) && owner == old(owner)
      ensures log == old(log) + [Call.GetFacialExpressions(tracker, ty, expressionCount, code, reply, weights[..])]
      ensures Honoured(Last(log))
    {
      code :| true;
      reply :| true;
      var w: seq<Option<F32>> :| |w| == expressionCount && (Succeeded(code) && reply.isActive ==> AllWritten(w)) by {
        assert |seq(expressionCount, _ => Some(0 as F32))| == expressionCount;
        assert AllWritten(seq(expressionCount, _ => Some(0 as F32)));
      }
      forall i | 0 <= i < weights.Length {
        weights[i] := w[i];
      }
      assert weights[..] == w;
      var c := Call.GetFacialExpressions(tracker, ty, expressionCount, code, reply, w);
      Snoc(log, c, tracker);
      log := log + [c];
    }

    /** xrUpdateSwapchainFB. */
    method UpdateSwapchain(swapchain: Handle, state: SwapchainStateFoveation) returns (code: ResultCode)
      requires Valid() && IsLiveAs(live, swapchain, ObjectSwapchain)
      modifies this
      ensures Valid() && live == old(live) && owner == old(owner)
      ensures log == old(log) + [Call.UpdateSwapchain(swapchain, state, code)]
    {
      code :| true;
      var c := Call.UpdateSwapchain(swapchain, state, code);
      Snoc(log, c, swapchain);
      log := log + [c];
    }
  }

  /** `after` is `before` with one more call at the end. */
  ghost predicate OneMoreCall(before: seq<Call>, after: seq<Call>) {
    |after| == |before| + 1 && after[..|before|] == before
  }

  /** An XrInstance: its extension set is the one its runtime was created with. */
  class Instance {
    const runtime: Runtime
    const handle: Handle

    constructor (runtime: Runtime, handle: Handle)
      ensures this.runtime == runtime && this.handle == handle
    {
      this.runtime, this.handle := runtime, handle;
    }

    /** `exts()`: which extension function tables were loaded. */
    function Exts(): set<Extension> {
      runtime.enabled
    }
  }

  /**
   * A session. The source's `Session<G>` is a handle to a shared
   * `SessionInner`; here one object plays both, and object identity is the
   * identity of the shared inner record.
   */
  class Session {
    const instance: Instance
    const handle: Handle

    constructor (instance: Instance, handle: Handle)
      ensures this.instance == instance && this.handle == handle
    {
      this.instance, this.handle := instance, handle;
    }

    ghost predicate Valid()
      reads instance.runtime
    {
      instance.runtime.Valid()
    }
  }

  /** A reference space, tied to the session it was created from. */
  class Space {
    const session: Session
    const handle: Handle

    constructor (session: Session, handle: Handle)
      ensures this.session == session && this.handle == handle
    {
      this.session, this.handle := session, handle;
    }
  }

  /** A swapchain wrapper, owning its handle. */
  class Swapchain {
    const session: Session
    const handle: Handle

    constructor FromRawParts(session: Session, handle: Handle)
      ensures this.session == session && this.handle == handle
    {
      this.session, this.handle := session, handle;
    }

    ghost predicate Valid()
      reads session.instance.runtime
    {
      var rt := session.instance.runtime;
      rt.Valid() && rt.Holds(handle, ObjectSwapchain, session.handle, this)
    }
  }

  /** `SwapchainCreateInfo<G>`: the safe create info, with the graphics API's own format type. */
  datatype SwapchainCreateInfo<Format> = SwapchainCreateInfo(
    createFlags: Flags, usageFlags: Flags, format: Format, sampleCount: nat,
    width: nat, height: nat, faceCount: nat, arraySize: nat, mipCount: nat)
}
