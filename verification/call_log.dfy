/**
 * What a sequence of native calls means for the handles it mentions. A
 * handle is absent until a successful create returns it, live until the one
 * destroy call on it, and destroyed from then on. `WellFormed` says a log
 * only ever destroys or queries live handles of the right type, that the
 * runtime never hands out a handle twice, and that every reply has the
 * shape the extension promises.
 */
module CallLog {
  import opened Xr

  /** What the runtime knows of a live handle: its type and the session it was created in. */
  datatype LiveHandle = LiveHandle(objectType: ObjectType, session: Handle)

  datatype LifeState = Absent | Alive | Destroyed

  function Rank(s: LifeState): nat {
    match s
    case Absent => 0
    case Alive => 1
    case Destroyed => 2
  }

  predicate IsLiveAs(live: map<Handle, LiveHandle>, h: Handle, ty: ObjectType) {
    h in live && live[h].objectType == ty
  }

  /** The live handles after one more call. */
  function Step(live: map<Handle, LiveHandle>, c: Call): map<Handle, LiveHandle> {
    match c
    case Create(session, info, code, out) =>
      if Succeeded(code) then live[out := LiveHandle(ObjectTypeOf(info), session)] else live
    case Destroy(_, h) => live - {h}
    case _ => live
  }

  /** The handles a call brings into existence. */
  function Minted(c: Call): set<Handle> {
    if c.Create? && Succeeded(c.code) then {c.out} else {}
  }

  function Live(log: seq<Call>): map<Handle, LiveHandle>
    decreases |log|
  {
    if log == [] then map[] else Step(Live(log[..|log| - 1]), Last(log))
  }

  function Issued(log: seq<Call>): set<Handle>
    decreases |log|
  {
    if log == [] then {} else Issued(log[..|log| - 1]) + Minted(Last(log))
  }

  function DestroyCount(log: seq<Call>, h: Handle): nat
    decreases |log|
  {
    if log == [] then 0
    else DestroyCount(log[..|log| - 1], h) + (if Last(log).Destroy? && Last(log).target == h then 1 else 0)
  }

  function StateOf(log: seq<Call>, h: Handle): LifeState {
    if h in Live(log) then Alive else if h in Issued(log) then Destroyed else Absent
  }

  /** What the caller of a native function must ensure: the handle it passes is live and of the right type. */
  predicate Permitted(live: map<Handle, LiveHandle>, issued: set<Handle>, c: Call) {
    match c
    case Create(_, _, code, out) => Succeeded(code) ==> out != NULL_HANDLE && out !in issued
    case Destroy(ty, h) => IsLiveAs(live, h, ty)
    case GetFaceExpressionWeights2(t, _, _, _, _, _, _, _) => IsLiveAs(live, t, ObjectFaceTracker2FB)
    case LocateBodyJoints(t, _, _, _, _, _, _, _) => IsLiveAs(live, t, ObjectBodyTrackerFB)
    case GetEyeGazes(t, _, _, _, _) => IsLiveAs(live, t, ObjectEyeTrackerFB)
    case GetFacialExpressions(t, _, _, _, _, _) => IsLiveAs(live, t, ObjectFacialTrackerHTC)
    case UpdateSwapchain(sc, _, _) => IsLiveAs(live, sc, ObjectSwapchain)
  }

  /**
   * What the runtime promises of its reply: the buffers keep their capacity,
   * and whatever the validity flag vouches for has been written.
   */
  predicate Honoured(c: Call) {
    match c
    case GetFaceExpressionWeights2(_, _, weightCount, confidenceCount, code, reply, weights, confidences) =>
      && |weights| == weightCount && |confidences| == confidenceCount
      && (Succeeded(code) && reply.isValid ==> AllWritten(weights))
    case LocateBodyJoints(_, _, _, jointCount, sent, _, _, joints) =>
      |sent| == jointCount && |joints| == jointCount
    case GetEyeGazes(_, _, _, _, reply) => |reply.gaze| == 2
    case GetFacialExpressions(_, _, expressionCount, code, reply, weights) =>
      && |weights| == expressionCount
      && (Succeeded(code) && reply.isActive ==> AllWritten(weights))
    case _ => true
  }

  predicate WellFormed(log: seq<Call>)
    decreases |log|
  {
    log == [] ||
    (var prefix := log[..|log| - 1];
     WellFormed(prefix) && Permitted(Live(prefix), Issued(prefix), Last(log)) && Honoured(Last(log)))
  }

  /** Appending one call: how each summary of the log moves. */
  lemma Snoc(log: seq<Call>, c: Call, h: Handle)
    ensures (log + [c])[..|log|] == log && Last(log + [c]) == c
    ensures Live(log + [c]) == Step(Live(log), c)
    ensures Issued(log + [c]) == Issued(log) + Minted(c)
    ensures DestroyCount(log + [c], h) == DestroyCount(log, h) + (if c.Destroy? && c.target == h then 1 else 0)
    ensures WellFormed(log + [c]) <==> WellFormed(log) && Permitted(Live(log), Issued(log), c) && Honoured(c)
  {
    assert (log + [c])[..|log|] == log;
  }

  /** Only handles the runtime handed out can be live. */
  lemma {:induction false} LiveWereIssued(log: seq<Call>)
    requires WellFormed(log)
    ensures Live(log).Keys <= Issued(log)
  {
    if log != [] {
      var prefix := log[..|log| - 1];
      LiveWereIssued(prefix);
    }
  }

  /**
   * Destroy exactly once: in a well-formed log a handle has been destroyed
   * once if it was handed out and is no longer live, and never otherwise.
   */
  lemma {:induction false} DestroyCountMatchesState(log: seq<Call>, h: Handle)
    requires WellFormed(log)
    ensures DestroyCount(log, h) == if StateOf(log, h) == Destroyed then 1 else 0
  {
    if log != [] {
      var prefix, c := log[..|log| - 1], Last(log);
      assert log == prefix + [c];
      Snoc(prefix, c, h);
      DestroyCountMatchesState(prefix, h);
      LiveWereIssued(prefix);
      if c.Create? && Succeeded(c.code) && c.out == h {
        assert h !in Issued(prefix);
      }
    }
  }

  /** The life of a handle only moves forward: absent, then live, then destroyed. */
  lemma {:induction false} LifecycleAdvances(log: seq<Call>, c: Call, h: Handle)
    requires WellFormed(log + [c])
    ensures Rank(StateOf(log, h)) <= Rank(StateOf(log + [c], h))
    ensures StateOf(log, h) == Destroyed ==> StateOf(log + [c], h) == Destroyed
  {
    Snoc(log, c, h);
    LiveWereIssued(log);
  }

  /** A destroyed handle stays destroyed through every well-formed continuation of the log. */
  lemma {:induction false} DestroyedIsFinal(log: seq<Call>, more: seq<Call>, h: Handle)
    requires WellFormed(log + more)
    requires StateOf(log, h) == Destroyed
    ensures StateOf(log + more, h) == Destroyed
    ensures DestroyCount(log + more, h) == 1
    decreases |more|
  {
    if more == [] {
      assert log + more == log;
    } else {
      var front, c := more[..|more| - 1], Last(more);
      assert log + more == (log + front) + [c];
      Snoc(log + front, c, h);
      DestroyedIsFinal(log, front, h);
      LifecycleAdvances(log + front, c, h);
    }
    DestroyCountMatchesState(log + more, h);
  }
}
