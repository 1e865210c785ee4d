/**
 * XR_META_body_tracking_full_body: `BodyTrackerFullBodyMETA`, its creation
 * from a session with a choice of joint set, and its destruction.
 */
module BodyTrackingFullBodyMeta {
  import opened Xr
  import opened CallLog
  import opened Core

  const BODY_JOINT_COUNT_META: nat := 70
  const BODY_JOINT_FULL_BODY_COUNT_META: nat := 84

  /** `BodyJointFullBodyMETALocations`: exactly one location per full-body joint. */
  type BodyJointFullBodyLocations = s: seq<BodyJointLocation> | |s| == BODY_JOINT_FULL_BODY_COUNT_META
    witness seq(84, _ => BodyJointLocation(0, Posef(Quaternionf(0, 0, 0, 0), Vector3f(0, 0, 0))))

  /** The joint set a tracker asks for: the full-body set exactly when `fullBody`. */
  function FullBodyJointSet(fullBody: bool): (jointSet: int)
    ensures jointSet == BODY_JOINT_SET_FULL_BODY_META <==> fullBody
    ensures jointSet == BODY_JOINT_SET_DEFAULT <==> !fullBody
  {
    if fullBody then BODY_JOINT_SET_FULL_BODY_META else BODY_JOINT_SET_DEFAULT
  }

  /** The full-body set has more joints than the default set, and its location array covers all of them. */
  lemma FullBodyLocationsCoverEveryJoint(locations: BodyJointFullBodyLocations)
    ensures |locations| == BODY_JOINT_FULL_BODY_COUNT_META
    ensures BODY_JOINT_COUNT_META < |locations|
  {
  }

  class BodyTrackerFullBodyMETA {
    const session: Session
    const handle: Handle

    constructor Wrap(session: Session, handle: Handle)
      ensures this.session == session && this.handle == handle
    {
      this.session, this.handle := session, handle;
    }

    function Rt(): Runtime {
      session.instance.runtime
    }

    /** The tracker owns a live full-body tracker handle of its session. */
    ghost predicate Valid()
      reads Rt()
    {
      Rt().Valid() && Rt().Holds(handle, ObjectBodyTrackerFullBodyMETA, session.handle, this)
    }

    /** Take ownership of a live full-body tracker handle of `session` that no wrapper owns. */
    static method FromRaw(session: Session, handle: Handle) returns (t: BodyTrackerFullBodyMETA)
      requires session.Valid()
      requires handle in session.instance.runtime.live
      requires session.instance.runtime.live[handle] == LiveHandle(ObjectBodyTrackerFullBodyMETA, session.handle)
      requires handle !in session.instance.runtime.owner
      modifies session.instance.runtime
      ensures fresh(t) && t.session == session && t.handle == handle && t.Valid()
      ensures var rt := session.instance.runtime;
              rt.log == old(rt.log) && rt.live == old(rt.live) && rt.owner == old(rt.owner)[handle := t]
    {
      t := new BodyTrackerFullBodyMETA.Wrap(session, handle);
      session.instance.runtime.Adopt(handle, t);
    }

    /** `fp()`: the extension's function table; for a valid tracker the lookup cannot fail. */
    function Fp(): (ext: Extension)
      reads Rt()
      requires Valid()
      ensures ext == MetaBodyTrackingFullBody && ext in session.instance.Exts()
    {
      MetaBodyTrackingFullBody
    }

    /** `drop`: one destroy call on the handle, after which it is destroyed for good. */
    method Drop()
      requires Valid()
      modifies Rt()
      ensures Rt().Valid() && !Valid()
      ensures Rt().log == old(Rt().log) + [Call.Destroy(ObjectBodyTrackerFullBodyMETA, handle)]
      ensures Rt().live == old(Rt().live) - {handle} && Rt().owner == old(Rt().owner) - {handle}
      ensures StateOf(Rt().log, handle) == Destroyed && DestroyCount(Rt().log, handle) == 1
    {
      var _ := Fp();
      Rt().Destroy(ObjectBodyTrackerFullBodyMETA, handle);
    }
  }

  /** `Session::create_body_tracker_full_body_meta`. */
  method CreateBodyTrackerFullBody(session: Session, fullBody: bool) returns (r: Result<BodyTrackerFullBodyMETA>)
    requires session.Valid()
    modifies session.instance.runtime
    ensures session.Valid()
    ensures MetaBodyTrackingFullBody !in session.instance.Exts() ==>
              r == Err(ERROR_EXTENSION_NOT_PRESENT) && unchanged(session.instance.runtime)
    ensures var rt := session.instance.runtime;
            MetaBodyTrackingFullBody in session.instance.Exts() ==>
              && OneMoreCall(old(rt.log), rt.log)
              && var c := Last(rt.log);
              && c.Create? && c.session == session.handle
              && c.info == BodyTrackerFullBodyCreateInfo(FullBodyJointSet(fullBody))
              && (r.Err? <==> !Succeeded(c.code))
              && (r.Err? ==> r.code == c.code && rt.live == old(rt.live) && rt.owner == old(rt.owner))
              && (r.Ok? ==> && fresh(r.value) && r.value.session == session && r.value.handle == c.out
                            && r.value.Valid() && StateOf(old(rt.log), c.out) == Absent && StateOf(rt.log, c.out) == Alive
                            && rt.live == old(rt.live)[c.out := LiveHandle(ObjectBodyTrackerFullBodyMETA, session.handle)]
                            && rt.owner == old(rt.owner)[c.out := r.value])
  {
    var rt := session.instance.runtime;
    if MetaBodyTrackingFullBody !in session.instance.Exts() {
      return Err(ERROR_EXTENSION_NOT_PRESENT);
    }
    var code, out := rt.Create(session.handle, BodyTrackerFullBodyCreateInfo(FullBodyJointSet(fullBody)));
    if !Succeeded(code) {
      return Err(code);
    }
    var tracker := new BodyTrackerFullBodyMETA.Wrap(session, out);
    rt.Adopt(out, tracker);
    r := Ok(tracker);
  }
}
