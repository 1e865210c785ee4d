/**
 * XR_HTC_facial_tracking: `FacialTrackerHTC`, its creation from a session
 * with the expression count chosen from the tracking type, the expression
 * query, and its destruction.
 *
 * The query as written in htc_facial_tracking.rs differs from what it
 * evidently means in two places. Both are modelled twice below: as written
 * (`GetFacialExpressionsAsWritten`, with `RequestTagAsWritten` and
 * `ExpressionsResultAsWritten`) with lemmas showing the difference, and
 * corrected (`GetFacialExpressions`, with `RequestTag` and
 * `ExpressionsResult`).
 */
module HtcFacialTracking {
  import opened Xr
  import opened CallLog
  import opened Core

  /** `FaceExpressionWeightsHTC`. */
  datatype FaceExpressionWeightsHTC = FaceExpressionWeightsHTC(weights: seq<F32>, sampleTime: Time)

  /** The number of expression weights a tracker of the given type reports. */
  function ExpressionCountFor(facialTrackingType: FacialTrackingType): (count: nat)
    ensures count == FACIAL_EXPRESSION_EYE_COUNT_HTC <==> facialTrackingType == FACIAL_TRACKING_TYPE_EYE_DEFAULT
    ensures count == FACIAL_EXPRESSION_LIP_COUNT_HTC <==> facialTrackingType != FACIAL_TRACKING_TYPE_EYE_DEFAULT
  {
    if facialTrackingType == FACIAL_TRACKING_TYPE_EYE_DEFAULT then FACIAL_EXPRESSION_EYE_COUNT_HTC
    else FACIAL_EXPRESSION_LIP_COUNT_HTC
  }

  /** Every type other than the eye type, the lip type and unknown values alike, gets the lip count. */
  lemma LipCountIsTheDefault(facialTrackingType: FacialTrackingType)
    requires facialTrackingType != FACIAL_TRACKING_TYPE_EYE_DEFAULT
    ensures ExpressionCountFor(facialTrackingType) == ExpressionCountFor(FACIAL_TRACKING_TYPE_LIP_DEFAULT)
  {
  }

  /** The structure tag the query puts on its output record, as written: the face-tracking-FB tag. */
  const RequestTagAsWritten: StructureType := TypeFaceExpressionWeightsFB

  /** The tag the output record evidently should carry: its own type's. */
  const RequestTag: StructureType := TypeFacialExpressionsHTC

  /** The tag as written is not the tag of the record it is put on. */
  lemma RequestTagMismatch()
    ensures RequestTagAsWritten != TypeFacialExpressionsHTC
    ensures RequestTag == TypeFacialExpressionsHTC
  {
  }

  /**
   * What the query returns as written: the code on failure, nothing when
   * the tracker is inactive, and otherwise the weight vector together with
   * the sample time. The vector is created with a capacity and its length
   * is never set, so it is returned empty whatever the runtime wrote.
   */
  function ExpressionsResultAsWritten(code: ResultCode, reply: FacialExpressionsReply, buffer: seq<Option<F32>>)
    : (r: Result<Option<FaceExpressionWeightsHTC>>)
    ensures r.Err? <==> !Succeeded(code)
    ensures r.Err? ==> r.code == code
    ensures r.Ok? ==> (r.value.Some? <==> reply.isActive)
    ensures r.Ok? && r.value.Some? ==> r.value.value.weights == [] && r.value.value.sampleTime == reply.sampleTime
  {
    if !Succeeded(code) then Err(code)
    else if !reply.isActive then Ok(None)
    else Ok(Some(FaceExpressionWeightsHTC([], reply.sampleTime)))
  }

  /**
   * What the query evidently means to return: as above, but an active
   * result carries the weights the runtime wrote, one per expression.
   */
  function ExpressionsResult(code: ResultCode, reply: FacialExpressionsReply, buffer: seq<Option<F32>>)
    : (r: Result<Option<FaceExpressionWeightsHTC>>)
    requires Succeeded(code) && reply.isActive ==> AllWritten(buffer)
    ensures r.Err? <==> !Succeeded(code)
    ensures r.Err? ==> r.code == code
    ensures r.Ok? ==> (r.value.Some? <==> reply.isActive)
    ensures r.Ok? && r.value.Some? ==>
              && |r.value.value.weights| == |buffer|
              && (forall i :: 0 <= i < |buffer| ==> buffer[i] == Some(r.value.value.weights[i]))
              && r.value.value.sampleTime == reply.sampleTime
  {
    if !Succeeded(code) then Err(code)
    else if !reply.isActive then Ok(None)
    else Ok(Some(FaceExpressionWeightsHTC(Written(buffer), reply.sampleTime)))
  }

  /** The two agree on everything but the weights of an active result. */
  lemma AsWrittenDiffersOnlyInWeights(code: ResultCode, reply: FacialExpressionsReply, buffer: seq<Option<F32>>)
    requires Succeeded(code) && reply.isActive ==> AllWritten(buffer)
    ensures var w, c := ExpressionsResultAsWritten(code, reply, buffer), ExpressionsResult(code, reply, buffer);
            && (w.Err? <==> c.Err?) && (w.Err? ==> w == c)
            && (w.Ok? ==> (w.value.Some? <==> c.value.Some?))
            && (w.Ok? && w.value.Some? ==> w.value.value == c.value.value.(weights := []))
  {
  }

  /**
   * The input that shows the lost weights: a successful query of an active
   * lip tracker, whose runtime wrote all 37 weights, returns none of them.
   */
  lemma WeightsLostWhenActive(sampleTime: Time, weight: F32)
    ensures var buffer := seq(FACIAL_EXPRESSION_LIP_COUNT_HTC, _ => Some(weight));
            var reply := FacialExpressionsReply(true, sampleTime);
            && ExpressionsResultAsWritten(SUCCESS, reply, buffer) == Ok(Some(FaceExpressionWeightsHTC([], sampleTime)))
            && |ExpressionsResult(SUCCESS, reply, buffer).value.value.weights| == FACIAL_EXPRESSION_LIP_COUNT_HTC
  {
    var buffer := seq(FACIAL_EXPRESSION_LIP_COUNT_HTC, _ => Some(weight));
    assert AllWritten(buffer);
  }

  class FacialTrackerHTC {
    const session: Session
    const handle: Handle
    /** Fixed for the tracker's lifetime. */
    const expressionCount: nat

    constructor Wrap(session: Session, handle: Handle, expressionCount: nat)
      ensures this.session == session && this.handle == handle && this.expressionCount == expressionCount
    {
      this.session, this.handle, this.expressionCount := session, handle, expressionCount;
    }

    function Rt(): Runtime {
      session.instance.runtime
    }

    /** The tracker owns a live facial-tracker handle of its session. */
    ghost predicate Valid()
      reads Rt()
    {
      Rt().Valid() && Rt().Holds(handle, ObjectFacialTrackerHTC, session.handle, this)
    }

    /**
     * Take ownership of a live facial-tracker handle of `session` that no
     * wrapper owns. The expression count is taken as given: nothing checks
     * it against the tracker's type.
     */
    static method FromRaw(session: Session, handle: Handle, expressionCount: nat) returns (t: FacialTrackerHTC)
      requires session.Valid()
      requires handle in session.instance.runtime.live
      requires session.instance.runtime.live[handle] == LiveHandle(ObjectFacialTrackerHTC, session.handle)
      requires handle !in session.instance.runtime.owner
      modifies session.instance.runtime
      ensures fresh(t) && t.session == session && t.handle == handle && t.expressionCount == expressionCount
      ensures t.Valid()
      ensures var rt := session.instance.runtime;
              rt.log == old(rt.log) && rt.live == old(rt.live) && rt.owner == old(rt.owner)[handle := t]
    {
      t := new FacialTrackerHTC.Wrap(session, handle, expressionCount);
      session.instance.runtime.Adopt(handle, t);
    }

    /** `fp()`: the extension's function table; for a valid tracker the lookup cannot fail. */
    function Fp(): (ext: Extension)
      reads Rt()
      requires Valid()
      ensures ext == HtcFacialTracking && ext in session.instance.Exts()
    {
      HtcFacialTracking
    }

    /**
     * `get_facial_expressions`, with the corrected tag and weights: the
     * runtime gets a buffer of `expressionCount` entries and that same count.
     */
    method GetFacialExpressions() returns (r: Result<Option<FaceExpressionWeightsHTC>>)
      requires Valid()
      modifies Rt()
      ensures Valid() && Rt().live == old(Rt().live) && Rt().owner == old(Rt().owner)
      ensures OneMoreCall(old(Rt().log), Rt().log)
      ensures var c := Last(Rt().log);
              && c.GetFacialExpressions? && c.tracker == handle && c.ty == RequestTag
              && c.expressionCount == expressionCount
              && Honoured(c)
              && r == ExpressionsResult(c.code, c.facialReply, c.weights)
    {
      var _ := Fp();
      var weights := new Option<F32>[expressionCount](_ => None);
      var code, facialExpressions := Rt().GetFacialExpressions(handle, RequestTag, expressionCount, weights);
      if !Succeeded(code) {
        return Err(code);
      }
      if facialExpressions.isActive {
        r := Ok(Some(FaceExpressionWeightsHTC(Written(weights[..]), facialExpressions.sampleTime)));
      } else {
        r := Ok(None);
      }
    }

    /**
     * `get_facial_expressions` as written: the output record carries the
     * face-tracking-FB tag, and an active result returns the weight vector
     * whose length was never set.
     */
    method GetFacialExpressionsAsWritten() returns (r: Result<Option<FaceExpressionWeightsHTC>>)
      requires Valid()
      modifies Rt()
      ensures Valid() && Rt().live == old(Rt().live) && Rt().owner == old(Rt().owner)
      ensures OneMoreCall(old(Rt().log), Rt().log)
      ensures var c := Last(Rt().log);
              && c.GetFacialExpressions? && c.tracker == handle && c.ty == RequestTagAsWritten
              && c.ty != TypeFacialExpressionsHTC
              && c.expressionCount == expressionCount
              && Honoured(c)
              && r == ExpressionsResultAsWritten(c.code, c.facialReply, c.weights)
    {
      var _ := Fp();
      var weights := new Option<F32>[expressionCount](_ => None);
      var code, facialExpressions := Rt().GetFacialExpressions(handle, RequestTagAsWritten, expressionCount, weights);
      if !Succeeded(code) {
        return Err(code);
      }
      if facialExpressions.isActive {
        r := Ok(Some(FaceExpressionWeightsHTC([], facialExpressions.sampleTime)));
      } else {
        r := Ok(None);
      }
    }

    /** `drop`: one destroy call on the handle, after which it is destroyed for good. */
    method Drop()
      requires Valid()
      modifies Rt()
      ensures Rt().Valid() && !Valid()
      ensures Rt().log == old(Rt().log) + [Call.Destroy(ObjectFacialTrackerHTC, handle)]
      ensures Rt().live == old(Rt().live) - {handle} && Rt().owner == old(Rt().owner) - {handle}
      ensures StateOf(Rt().log, handle) == Destroyed && DestroyCount(Rt().log, handle) == 1
    {
      var _ := Fp();
      Rt().Destroy(ObjectFacialTrackerHTC, handle);
    }
  }

  /**
   * `Session::create_facial_tracker_htc`: the type is passed through
   * unchecked, and the expression count is chosen from it once the native
   * create has succeeded.
   */
  method CreateFacialTracker(session: Session, facialTrackingType: FacialTrackingType)
    returns (r: Result<FacialTrackerHTC>)
    requires session.Valid()
    modifies session.instance.runtime
    ensures session.Valid()
    ensures HtcFacialTracking !in session.instance.Exts() ==>
              r == Err(ERROR_EXTENSION_NOT_PRESENT) && unchanged(session.instance.runtime)
    ensures var rt := session.instance.runtime;
            HtcFacialTracking in session.instance.Exts() ==>
              && OneMoreCall(old(rt.log), rt.log)
              && var c := Last(rt.log);
              && c.Create? && c.session == session.handle && c.info == FacialTrackerCreateInfo(facialTrackingType)
              && (r.Err? <==> !Succeeded(c.code))
              && (r.Err? ==> r.code == c.code && rt.live == old(rt.live) && rt.owner == old(rt.owner))
              && (r.Ok? ==> && fresh(r.value) && r.value.session == session && r.value.handle == c.out
                            && r.value.expressionCount == ExpressionCountFor(facialTrackingType)
                            && r.value.Valid() && StateOf(old(rt.log), c.out) == Absent && StateOf(rt.log, c.out) == Alive
                            && rt.live == old(rt.live)[c.out := LiveHandle(ObjectFacialTrackerHTC, session.handle)]
                            && rt.owner == old(rt.owner)[c.out := r.value])
  {
    var rt := session.instance.runtime;
    if HtcFacialTracking !in session.instance.Exts() {
      return Err(ERROR_EXTENSION_NOT_PRESENT);
    }
    var code, out := rt.Create(session.handle, FacialTrackerCreateInfo(facialTrackingType));
    if !Succeeded(code) {
      return Err(code);
    }
    var tracker := new FacialTrackerHTC.Wrap(session, out, ExpressionCountFor(facialTrackingType));
    rt.Adopt(out, tracker);
    r := Ok(tracker);
  }
}
