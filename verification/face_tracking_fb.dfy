/**
 * XR_FB_face_tracking2: `FaceTracker2FB`, its creation from a session, the
 * expression-weight query, and its destruction.
 */
module FaceTrackingFB {
  import opened Xr
  import opened CallLog
  import opened Core

  const FACE_EXPRESSION2_COUNT: nat := 70
  const FACE_CONFIDENCE2_COUNT: nat := 2

  /** What a valid expression-weight query returns. */
  datatype FaceExpressionWeights2 = FaceExpressionWeights2(
    weights: seq<F32>,
    lowerFaceConfidence: F32,
    upperFaceConfidence: F32,
    isEyeFollowingBlendshapesValid: bool,
    dataSource: FaceTrackingDataSource2,
    time: Time)

  /**
   * The data sources a tracker asks for: visual tracking when `visual`,
   * audio-driven tracking when `audio`, visual first.
   */
  function RequestedDataSources(visual: bool, audio: bool): (sources: seq<FaceTrackingDataSource2>)
    ensures DATA_SOURCE2_VISUAL in sources <==> visual
    ensures DATA_SOURCE2_AUDIO in sources <==> audio
    ensures |sources| == (if visual then 1 else 0) + (if audio then 1 else 0)
    ensures visual ==> sources[0] == DATA_SOURCE2_VISUAL
  {
    (if visual then [DATA_SOURCE2_VISUAL] else []) + (if audio then [DATA_SOURCE2_AUDIO] else [])
  }

  /** The create info for `create_face_tracker2_fb(visual, audio)`. */
  function TrackerCreateInfo(visual: bool, audio: bool): (info: CreateInfo)
    ensures info.FaceTrackerCreateInfo2? && info.faceExpressionSet == FACE_EXPRESSION_SET2_DEFAULT
    ensures info.requestedDataSources == RequestedDataSources(visual, audio)
    ensures info.requestedDataSourceCount == |info.requestedDataSources|
  {
    var sources := RequestedDataSources(visual, audio);
    FaceTrackerCreateInfo2(FACE_EXPRESSION_SET2_DEFAULT, |sources|, sources)
  }

  /**
   * What the query returns for a native reply: the code when the call
   * failed, nothing when the weights are not valid, and otherwise the
   * written weights, both confidences, the runtime's flags and the time
   * that was asked for.
   */
  function WeightsResult(
    code: ResultCode, reply: FaceExpressionWeights2Reply,
    weights: seq<Option<F32>>, confidences: seq<F32>, time: Time)
    : (r: Result<Option<FaceExpressionWeights2>>)
    requires Succeeded(code) && reply.isValid ==>
               AllWritten(weights) && |weights| == FACE_EXPRESSION2_COUNT && |confidences| == FACE_CONFIDENCE2_COUNT
    ensures r.Err? <==> !Succeeded(code)
    ensures r.Err? ==> r.code == code
    ensures r.Ok? ==> (r.value.Some? <==> reply.isValid)
    ensures r.Ok? && r.value.Some? ==>
              var v := r.value.value;
              && |v.weights| == FACE_EXPRESSION2_COUNT
              && (forall i :: 0 <= i < FACE_EXPRESSION2_COUNT ==> weights[i] == Some(v.weights[i]))
              && v.lowerFaceConfidence == confidences[0] && v.upperFaceConfidence == confidences[1]
              && v.isEyeFollowingBlendshapesValid == reply.isEyeFollowingBlendshapesValid
              && v.dataSource == reply.dataSource
              && v.time == time
  {
    if !Succeeded(code) then Err(code)
    else if !reply.isValid then Ok(None)
    else Ok(Some(FaceExpressionWeights2(
      Written(weights), confidences[0], confidences[1],
      reply.isEyeFollowingBlendshapesValid, reply.dataSource, time)))
  }

  /** A reply whose weights are not valid never exposes the buffers, written or not. */
  lemma InvalidWeightsNeverRead(
    code: ResultCode, reply: FaceExpressionWeights2Reply, time: Time,
    weights1: seq<Option<F32>>, confidences1: seq<F32>,
    weights2: seq<Option<F32>>, confidences2: seq<F32>)
    requires !reply.isValid
    ensures WeightsResult(code, reply, weights1, confidences1, time)
         == WeightsResult(code, reply, weights2, confidences2, time)
    ensures WeightsResult(code, reply, weights1, confidences1, time).Ok?
         ==> WeightsResult(code, reply, weights1, confidences1, time).value.None?
  {
  }

  class FaceTracker2FB {
    const session: Session
    const handle: Handle

    constructor Wrap(session: Session, handle: Handle)
      ensures this.session == session && this.handle == handle
    {
      this.session, this.handle := session, handle;
    }

    function Rt(): Runtime {
      session.instance.runtime
    }

    /** The tracker owns a live face-tracker handle of its session. */
    ghost predicate Valid()
      reads Rt()
    {
      Rt().Valid() && Rt().Holds(handle, ObjectFaceTracker2FB, session.handle, this)
    }

    /** Take ownership of a live face-tracker handle of `session` that no wrapper owns. */
    static method FromRaw(session: Session, handle: Handle) returns (t: FaceTracker2FB)
      requires session.Valid()
      requires handle in session.instance.runtime.live
      requires session.instance.runtime.live[handle] == LiveHandle(ObjectFaceTracker2FB, session.handle)
      requires handle !in session.instance.runtime.owner
      modifies session.instance.runtime
      ensures fresh(t) && t.session == session && t.handle == handle && t.Valid()
      ensures var rt := session.instance.runtime;
              rt.log == old(rt.log) && rt.live == old(rt.live) && rt.owner == old(rt.owner)[handle := t]
    {
      t := new FaceTracker2FB.Wrap(session, handle);
      session.instance.runtime.Adopt(handle, t);
    }

    /** `fp()`: the extension's function table; for a valid tracker the lookup cannot fail. */
    function Fp(): (ext: Extension)
      reads Rt()
      requires Valid()
      ensures ext == FbFaceTracking2 && ext in session.instance.Exts()
    {
      FbFaceTracking2
    }

    /** `get_face_expression_weights`. */
    method GetFaceExpressionWeights(time: Time) returns (r: Result<Option<FaceExpressionWeights2>>)
      requires Valid()
      modifies Rt()
      ensures Valid() && Rt().live == old(Rt().live) && Rt().owner == old(Rt().owner)
      ensures OneMoreCall(old(Rt().log), Rt().log)
      ensures var c := Last(Rt().log);
              && c.GetFaceExpressionWeights2? && c.tracker == handle && c.time == time
              && c.weightCount == FACE_EXPRESSION2_COUNT && c.confidenceCount == FACE_CONFIDENCE2_COUNT
              && Honoured(c)
              && r == WeightsResult(c.code, c.faceReply, c.weights, c.confidences, time)
    {
      var _ := Fp();
      var weights := new Option<F32>[FACE_EXPRESSION2_COUNT](_ => None);
      var confidences := new F32[FACE_CONFIDENCE2_COUNT](_ => 0);
      var code, reply := Rt().GetFaceExpressionWeights2(
        handle, time, FACE_EXPRESSION2_COUNT, weights, FACE_CONFIDENCE2_COUNT, confidences);
      if !Succeeded(code) {
        return Err(code);
      }
      if reply.isValid {
        r := Ok(Some(FaceExpressionWeights2(
          Written(weights[..]), confidences[0], confidences[1],
          reply.isEyeFollowingBlendshapesValid, reply.dataSource, time)));
      } else {
        r := Ok(None);
      }
    }

    /** `drop`: one destroy call on the handle, after which it is destroyed for good. */
    method Drop()
      requires Valid()
      modifies Rt()
      ensures Rt().Valid() && !Valid()
      ensures Rt().log == old(Rt().log) + [Call.Destroy(ObjectFaceTracker2FB, handle)]
      ensures Rt().live == old(Rt().live) - {handle} && Rt().owner == old(Rt().owner) - {handle}
      ensures StateOf(Rt().log, handle) == Destroyed && DestroyCount(Rt().log, handle) == 1
    {
      var _ := Fp();
      Rt().Destroy(ObjectFaceTracker2FB, handle);
    }
  }

  /** `Session::create_face_tracker2_fb`. */
  method CreateFaceTracker2(session: Session, visual: bool, audio: bool) returns (r: Result<FaceTracker2FB>)
    requires session.Valid()
    modifies session.instance.runtime
    ensures session.Valid()
    ensures FbFaceTracking2 !in session.instance.Exts() ==>
              r == Err(ERROR_EXTENSION_NOT_PRESENT) && unchanged(session.instance.runtime)
    ensures var rt := session.instance.runtime;
            FbFaceTracking2 in session.instance.Exts() ==>
              && OneMoreCall(old(rt.log), rt.log)
              && var c := Last(rt.log);
              && c.Create? && c.session == session.handle && c.info == TrackerCreateInfo(visual, audio)
              && (r.Err? <==> !Succeeded(c.code))
              && (r.Err? ==> r.code == c.code && rt.live == old(rt.live) && rt.owner == old(rt.owner))
              && (r.Ok? ==> && fresh(r.value) && r.value.session == session && r.value.handle == c.out
                            && r.value.Valid() && StateOf(old(rt.log), c.out) == Absent && StateOf(rt.log, c.out) == Alive
                            && rt.live == old(rt.live)[c.out := LiveHandle(ObjectFaceTracker2FB, session.handle)]
                            && rt.owner == old(rt.owner)[c.out := r.value])
  {
    var rt := session.instance.runtime;
    if FbFaceTracking2 !in session.instance.Exts() {
      return Err(ERROR_EXTENSION_NOT_PRESENT);
    }
    var requested: seq<FaceTrackingDataSource2> := [];
    if visual {
      requested := requested + [DATA_SOURCE2_VISUAL];
    }
    if audio {
      requested := requested + [DATA_SOURCE2_AUDIO];
    }
    var info := FaceTrackerCreateInfo2(FACE_EXPRESSION_SET2_DEFAULT, |requested|, requested);
    var code, out := rt.Create(session.handle, info);
    if !Succeeded(code) {
      return Err(code);
    }
    var tracker := new FaceTracker2FB.Wrap(session, out);
    rt.Adopt(out, tracker);
    r := Ok(tracker);
  }

  /**
   * Two trackers of one session coexist: creating the second and dropping
   * the first leave the other valid, and once both are dropped each handle
   * has been destroyed exactly once.
   */
  method CreateTwoAndDrop(session: Session, visual: bool, audio: bool) returns (handles: seq<Handle>)
    requires session.Valid()
    modifies session.instance.runtime
    ensures session.Valid()
    ensures |handles| <= 2 && (|handles| == 2 ==> handles[0] != handles[1])
    ensures forall h :: h in handles ==> StateOf(session.instance.runtime.log, h) == Destroyed
    ensures forall h :: h in handles ==> DestroyCount(session.instance.runtime.log, h) == 1
  {
    var rt := session.instance.runtime;
    handles := [];
    var first := CreateFaceTracker2(session, visual, audio);
    if first.Err? {
      return;
    }
    var a := first.value;
    var second := CreateFaceTracker2(session, visual, audio);
    if second.Err? {
      a.Drop();
      return [a.handle];
    }
    var b := second.value;
    a.Drop();
    ghost var afterA := rt.log;
    b.Drop();
    assert afterA + rt.log[|afterA|..] == rt.log;
    DestroyedIsFinal(afterA, rt.log[|afterA|..], a.handle);
    handles := [a.handle, b.handle];
  }
}
