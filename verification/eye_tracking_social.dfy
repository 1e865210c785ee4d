/**
 * XR_FB_eye_tracking_social: `EyeTrackerSocial`, its creation from a
 * session, the eye-gaze query, and its destruction.
 */
module EyeTrackingSocial {
  import opened Xr
  import opened CallLog
  import opened Core

  /** `EyeGaze`: one eye's pose and confidence. */
  datatype EyeGaze = EyeGaze(pose: Posef, confidence: F32)

  /** `EyeGazes`: one optional gaze per eye, left then right, and the runtime's time. */
  datatype EyeGazes = EyeGazes(gaze: seq<Option<EyeGaze>>, time: Time)

  /** One eye's result: present exactly when the runtime marks that eye valid. */
  function GazeOf(g: EyeGazeReply): (r: Option<EyeGaze>)
    ensures r.Some? <==> g.isValid
    ensures r.Some? ==> r.value.pose == g.gazePose && r.value.confidence == g.gazeConfidence
  {
    if g.isValid then Some(EyeGaze(g.gazePose, g.gazeConfidence)) else None
  }

  /**
   * The shaped reply of a successful query: each eye is decided by its own
   * validity flag alone, and the time is the one the runtime reported.
   */
  function ShapeEyeGazes(reply: EyeGazesReply): (r: EyeGazes)
    requires |reply.gaze| == 2
    ensures |r.gaze| == 2 && r.time == reply.time
    ensures forall i :: 0 <= i < 2 ==>
              && (r.gaze[i].Some? <==> reply.gaze[i].isValid)
              && (r.gaze[i].Some? ==> r.gaze[i].value == EyeGaze(reply.gaze[i].gazePose, reply.gaze[i].gazeConfidence))
  {
    EyeGazes([GazeOf(reply.gaze[0]), GazeOf(reply.gaze[1])], reply.time)
  }

  /** Each eye's result depends on that eye's native record only. */
  lemma EyesDecidedIndependently(reply1: EyeGazesReply, reply2: EyeGazesReply, i: nat)
    requires |reply1.gaze| == 2 && |reply2.gaze| == 2 && i < 2
    requires reply1.gaze[i] == reply2.gaze[i]
    ensures ShapeEyeGazes(reply1).gaze[i] == ShapeEyeGazes(reply2).gaze[i]
  {
  }

  /** The case `{left = false, right = true}` gives `[None, Some(pose, confidence)]`. */
  lemma LeftInvalidRightValid(left: EyeGazeReply, right: EyeGazeReply, time: Time)
    requires !left.isValid && right.isValid
    ensures ShapeEyeGazes(EyeGazesReply([left, right], time))
         == EyeGazes([None, Some(EyeGaze(right.gazePose, right.gazeConfidence))], time)
  {
  }

  /**
   * What the query returns: a panic when the base space belongs to another
   * session, the code when the native call failed, and otherwise the shaped
   * reply.
   */
  function GazesResult(sameSession: bool, code: ResultCode, reply: EyeGazesReply): (r: Outcome<Result<EyeGazes>>)
    requires sameSession && Succeeded(code) ==> |reply.gaze| == 2
    ensures r.Panic? <==> !sameSession
    ensures r.Return? ==> (r.value.Err? <==> !Succeeded(code))
    ensures r.Return? && r.value.Err? ==> r.value.code == code
    ensures r.Return? && r.value.Ok? ==> r.value.value == ShapeEyeGazes(reply)
  {
    if !sameSession then Panic
    else if !Succeeded(code) then Return(Err(code))
    else Return(Ok(ShapeEyeGazes(reply)))
  }

  class EyeTrackerSocial {
    const session: Session
    const handle: Handle

    constructor Wrap(session: Session, handle: Handle)
      ensures this.session == session && this.handle == handle
    {
      this.session, this.handle := session, handle;
    }

    function Rt(): Runtime {
      session.instance.runtime
    }

    /** The tracker owns a live eye-tracker handle of its session. */
    ghost predicate Valid()
      reads Rt()
    {
      Rt().Valid() && Rt().Holds(handle, ObjectEyeTrackerFB, session.handle, this)
    }

    /** Take ownership of a live eye-tracker handle of `session` that no wrapper owns. */
    static method FromRaw(session: Session, handle: Handle) returns (t: EyeTrackerSocial)
      requires session.Valid()
      requires handle in session.instance.runtime.live
      requires session.instance.runtime.live[handle] == LiveHandle(ObjectEyeTrackerFB, session.handle)
      requires handle !in session.instance.runtime.owner
      modifies session.instance.runtime
      ensures fresh(t) && t.session == session && t.handle == handle && t.Valid()
      ensures var rt := session.instance.runtime;
              rt.log == old(rt.log) && rt.live == old(rt.live) && rt.owner == old(rt.owner)[handle := t]
    {
      t := new EyeTrackerSocial.Wrap(session, handle);
      session.instance.runtime.Adopt(handle, t);
    }

    /** `fp()`: the extension's function table; for a valid tracker the lookup cannot fail. */
    function Fp(): (ext: Extension)
      reads Rt()
      requires Valid()
      ensures ext == FbEyeTrackingSocial && ext in session.instance.Exts()
    {
      FbEyeTrackingSocial
    }

    /** `get_eye_gazes`: the session check comes before any native call. */
    method GetEyeGazes(base: Space, time: Time) returns (r: Outcome<Result<EyeGazes>>)
      requires Valid()
      modifies Rt()
      ensures Valid() && Rt().live == old(Rt().live) && Rt().owner == old(Rt().owner)
      ensures base.session != session ==> r == Panic && unchanged(Rt())
      ensures base.session == session ==>
                && OneMoreCall(old(Rt().log), Rt().log)
                && var c := Last(Rt().log);
                && c.GetEyeGazes? && c.tracker == handle && c.baseSpace == base.handle && c.time == time
                && Honoured(c)
                && r == GazesResult(true, c.code, c.eyeReply)
    {
      if base.session != session {
        return Panic;
      }
      var _ := Fp();
      var code, eyeGazes := Rt().GetEyeGazes(handle, base.handle, time);
      if !Succeeded(code) {
        return Return(Err(code));
      }
      var leftValid := eyeGazes.gaze[0].isValid;
      var rightValid := eyeGazes.gaze[1].isValid;
      var left := if leftValid then Some(EyeGaze(eyeGazes.gaze[0].gazePose, eyeGazes.gaze[0].gazeConfidence)) else None;
      var right := if rightValid then Some(EyeGaze(eyeGazes.gaze[1].gazePose, eyeGazes.gaze[1].gazeConfidence)) else None;
      r := Return(Ok(EyeGazes([left, right], eyeGazes.time)));
    }

    /** `drop`: one destroy call on the handle, after which it is destroyed for good. */
    method Drop()
      requires Valid()
      modifies Rt()
      ensures Rt().Valid() && !Valid()
      ensures Rt().log == old(Rt().log) + [Call.Destroy(ObjectEyeTrackerFB, handle)]
      ensures Rt().live == old(Rt().live) - {handle} && Rt().owner == old(Rt().owner) - {handle}
      ensures StateOf(Rt().log, handle) == Destroyed && DestroyCount(Rt().log, handle) == 1
    {
      var _ := Fp();
      Rt().Destroy(ObjectEyeTrackerFB, handle);
    }
  }

  /** `Session::create_eye_tracker_social`. */
  method CreateEyeTracker(session: Session) returns (r: Result<EyeTrackerSocial>)
    requires session.Valid()
    modifies session.instance.runtime
    ensures session.Valid()
    ensures FbEyeTrackingSocial !in session.instance.Exts() ==>
              r == Err(ERROR_EXTENSION_NOT_PRESENT) && unchanged(session.instance.runtime)
    ensures var rt := session.instance.runtime;
            FbEyeTrackingSocial in session.instance.Exts() ==>
              && OneMoreCall(old(rt.log), rt.log)
              && var c := Last(rt.log);
              && c.Create? && c.session == session.handle && c.info == EyeTrackerCreateInfo
              && (r.Err? <==> !Succeeded(c.code))
              && (r.Err? ==> r.code == c.code && rt.live == old(rt.live) && rt.owner == old(rt.owner))
              && (r.Ok? ==> && fresh(r.value) && r.value.session == session && r.value.handle == c.out
                            && r.value.Valid() && StateOf(old(rt.log), c.out) == Absent && StateOf(rt.log, c.out) == Alive
                            && rt.live == old(rt.live)[c.out := LiveHandle(ObjectEyeTrackerFB, session.handle)]
                            && rt.owner == old(rt.owner)[c.out := r.value])
  {
    var rt := session.instance.runtime;
    if FbEyeTrackingSocial !in session.instance.Exts() {
      return Err(ERROR_EXTENSION_NOT_PRESENT);
    }
    var code, out := rt.Create(session.handle, EyeTrackerCreateInfo);
    if !Succeeded(code) {
      return Err(code);
    }
    var tracker := new EyeTrackerSocial.Wrap(session, out);
    rt.Adopt(out, tracker);
    r := Ok(tracker);
  }
}
