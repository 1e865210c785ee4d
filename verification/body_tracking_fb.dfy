/**
 * XR_FB_body_tracking: `BodyTrackerFB`, its creation from a session, the
 * joint-location query, and its destruction.
 */
module BodyTrackingFB {
  import opened Xr
  import opened CallLog
  import opened Core

  const BODY_JOINT_COUNT: nat := 70

  /** A joint record with every field zero: what the query's buffer starts as. */
  const ZERO_JOINT: BodyJointLocation :=
    BodyJointLocation(0, Posef(Quaternionf(0, 0, 0, 0), Vector3f(0, 0, 0)))

  /** `LocateBodyJointsFBResult`. */
  datatype LocateBodyJointsResult = LocateBodyJointsResult(
    jointLocations: seq<BodyJointLocation>,
    confidence: F32,
    isActive: bool,
    skeletonChangedCount: nat,
    time: Time)

  /**
   * What the query returns: only `SUCCESS` gives a result, carrying the joint
   * buffer and the runtime's header as written, whether or not the body is
   * active; every other code, success codes included, is an error.
   */
  function LocateResult(code: ResultCode, reply: BodyJointLocationsReply, joints: seq<BodyJointLocation>)
    : (r: Result<LocateBodyJointsResult>)
    ensures r.Ok? <==> code == SUCCESS
    ensures r.Err? ==> r.code == code
    ensures r.Ok? ==>
              && r.value.jointLocations == joints
              && r.value.confidence == reply.confidence
              && r.value.isActive == reply.isActive
              && r.value.skeletonChangedCount == reply.skeletonChangedCount
              && r.value.time == reply.time
  {
    if code == SUCCESS then
      Ok(LocateBodyJointsResult(joints, reply.confidence, reply.isActive, reply.skeletonChangedCount, reply.time))
    else Err(code)
  }

  /**
   * The query is stricter than the usual success test: a qualified success
   * such as `SESSION_LOSS_PENDING` counts as success for `cvt` but is
   * returned as an error here.
   */
  lemma QualifiedSuccessIsError(reply: BodyJointLocationsReply, joints: seq<BodyJointLocation>)
    ensures Succeeded(SESSION_LOSS_PENDING) && Succeeded(TIMEOUT_EXPIRED)
    ensures LocateResult(SESSION_LOSS_PENDING, reply, joints) == Err(SESSION_LOSS_PENDING)
    ensures LocateResult(TIMEOUT_EXPIRED, reply, joints) == Err(TIMEOUT_EXPIRED)
  {
  }

  /** An inactive body does not suppress the result: there is no validity gate. */
  lemma InactiveBodyStillReported(reply: BodyJointLocationsReply, joints: seq<BodyJointLocation>)
    requires !reply.isActive
    ensures LocateResult(SUCCESS, reply, joints).Ok?
    ensures LocateResult(SUCCESS, reply, joints).value.jointLocations == joints
  {
  }

  class BodyTrackerFB {
    const session: Session
    const handle: Handle

    constructor Wrap(session: Session, handle: Handle)
      ensures this.session == session && this.handle == handle
    {
      this.session, this.handle := session, handle;
    }

    function Rt(): Runtime {
      session.instance.runtime
    }

    /** The tracker owns a live body-tracker handle of its session. */
    ghost predicate Valid()
      reads Rt()
    {
      Rt().Valid() && Rt().Holds(handle, ObjectBodyTrackerFB, session.handle, this)
    }

    /** Take ownership of a live body-tracker handle of `session` that no wrapper owns. */
    static method FromRaw(session: Session, handle: Handle) returns (t: BodyTrackerFB)
      requires session.Valid()
      requires handle in session.instance.runtime.live
      requires session.instance.runtime.live[handle] == LiveHandle(ObjectBodyTrackerFB, session.handle)
      requires handle !in session.instance.runtime.owner
      modifies session.instance.runtime
      ensures fresh(t) && t.session == session && t.handle == handle && t.Valid()
      ensures var rt := session.instance.runtime;
              rt.log == old(rt.log) && rt.live == old(rt.live) && rt.owner == old(rt.owner)[handle := t]
    {
      t := new BodyTrackerFB.Wrap(session, handle);
      session.instance.runtime.Adopt(handle, t);
    }

    /** `fp()`: the extension's function table; for a valid tracker the lookup cannot fail. */
    function Fp(): (ext: Extension)
      reads Rt()
      requires Valid()
      ensures ext == FbBodyTracking && ext in session.instance.Exts()
    {
      FbBodyTracking
    }

    /** `locate_body_joints`: a zeroed 70-joint buffer, filled by the runtime. */
    method LocateBodyJoints(space: Space, time: Time) returns (r: Result<LocateBodyJointsResult>)
      requires Valid()
      modifies Rt()
      ensures Valid() && Rt().live == old(Rt().live) && Rt().owner == old(Rt().owner)
      ensures OneMoreCall(old(Rt().log), Rt().log)
      ensures var c := Last(Rt().log);
              && c.LocateBodyJoints? && c.tracker == handle && c.baseSpace == space.handle && c.time == time
              && c.jointCount == BODY_JOINT_COUNT
              && c.jointsSent == seq(BODY_JOINT_COUNT, _ => ZERO_JOINT)
              && Honoured(c)
              && r == LocateResult(c.code, c.bodyReply, c.joints)
    {
      var _ := Fp();
      var jointLocations := new BodyJointLocation[BODY_JOINT_COUNT](_ => ZERO_JOINT);
      assert jointLocations[..] == seq(BODY_JOINT_COUNT, _ => ZERO_JOINT);
      var code, reply := Rt().LocateBodyJoints(handle, space.handle, time, BODY_JOINT_COUNT, jointLocations);
      if code == SUCCESS {
        r := Ok(LocateBodyJointsResult(
          jointLocations[..], reply.confidence, reply.isActive, reply.skeletonChangedCount, reply.time));
      } else {
        r := Err(code);
      }
    }

    /** `drop`: one destroy call on the handle, after which it is destroyed for good. */
    method Drop()
      requires Valid()
      modifies Rt()
      ensures Rt().Valid() && !Valid()
      ensures Rt().log == old(Rt().log) + [Call.Destroy(ObjectBodyTrackerFB, handle)]
      ensures Rt().live == old(Rt().live) - {handle} && Rt().owner == old(Rt().owner) - {handle}
      ensures StateOf(Rt().log, handle) == Destroyed && DestroyCount(Rt().log, handle) == 1
    {
      var _ := Fp();
      Rt().Destroy(ObjectBodyTrackerFB, handle);
    }
  }

  /** `Session::create_body_tracker_fb`: always asks for the default joint set. */
  method CreateBodyTracker(session: Session) returns (r: Result<BodyTrackerFB>)
    requires session.Valid()
    modifies session.instance.runtime
    ensures session.Valid()
    ensures FbBodyTracking !in session.instance.Exts() ==>
              r == Err(ERROR_EXTENSION_NOT_PRESENT) && unchanged(session.instance.runtime)
    ensures var rt := session.instance.runtime;
            FbBodyTracking in session.instance.Exts() ==>
              && OneMoreCall(old(rt.log), rt.log)
              && var c := Last(rt.log);
              && c.Create? && c.session == session.handle && c.info == BodyTrackerCreateInfo(BODY_JOINT_SET_DEFAULT)
              && (r.Err? <==> !Succeeded(c.code))
              && (r.Err? ==> r.code == c.code && rt.live == old(rt.live) && rt.owner == old(rt.owner))
              && (r.Ok? ==> && fresh(r.value) && r.value.session == session && r.value.handle == c.out
                            && r.value.Valid() && StateOf(old(rt.log), c.out) == Absent && StateOf(rt.log, c.out) == Alive
                            && rt.live == old(rt.live)[c.out := LiveHandle(ObjectBodyTrackerFB, session.handle)]
                            && rt.owner == old(rt.owner)[c.out := r.value])
  {
    var rt := session.instance.runtime;
    if FbBodyTracking !in session.instance.Exts() {
      return Err(ERROR_EXTENSION_NOT_PRESENT);
    }
    var info := BodyTrackerCreateInfo(BODY_JOINT_SET_DEFAULT);
    var code, out := rt.Create(session.handle, info);
    if !Succeeded(code) {
      return Err(code);
    }
    var tracker := new BodyTrackerFB.Wrap(session, out);
    rt.Adopt(out, tracker);
    r := Ok(tracker);
  }
}
