/**
 * XR_FB_foveation and XR_FB_swapchain_update_state: foveation profiles,
 * which are shared between clones and destroyed when the last clone goes,
 * swapchains created with a foveation record chained on, and the update
 * that applies a profile to a swapchain.
 */
module FoveationFB {
  import opened Xr
  import opened CallLog
  import opened Core

  /** `FoveationLevelProfile`: the safe form of the optional level-profile record. */
  datatype FoveationLevelProfile = FoveationLevelProfile(
    level: FoveationLevel,
    verticalOffset: F32,
    dynamic: FoveationDynamic)

  /**
   * The record chained behind the profile create info: present exactly when
   * a level profile was given, and then carrying its three fields unchanged.
   */
  function LevelProfileChain(levelProfile: Option<FoveationLevelProfile>)
    : (next: Option<FoveationLevelProfileCreateInfo>)
    ensures next.Some? <==> levelProfile.Some?
    ensures next.Some? ==>
              && next.value.level == levelProfile.value.level
              && next.value.verticalOffset == levelProfile.value.verticalOffset
              && next.value.dynamic == levelProfile.value.dynamic
  {
    match levelProfile
    case None => None
    case Some(lp) => Some(FoveationLevelProfileCreateInfo(lp.level, lp.verticalOffset, lp.dynamic))
  }

  /** Reading the safe level profile back out of a chained record. */
  function LevelProfileOf(next: Option<FoveationLevelProfileCreateInfo>): Option<FoveationLevelProfile> {
    match next
    case None => None
    case Some(info) => Some(FoveationLevelProfile(info.level, info.verticalOffset, info.dynamic))
  }

  /** The chain loses nothing: the runtime can recover exactly the profile the caller gave. */
  lemma LevelProfileChainRoundTrip(levelProfile: Option<FoveationLevelProfile>)
    ensures LevelProfileOf(LevelProfileChain(levelProfile)) == levelProfile
  {
  }

  /** Different level profiles give different create infos. */
  lemma LevelProfileChainInjective(a: Option<FoveationLevelProfile>, b: Option<FoveationLevelProfile>)
    requires FoveationProfileCreateInfo(LevelProfileChain(a)) == FoveationProfileCreateInfo(LevelProfileChain(b))
    ensures a == b
  {
    LevelProfileChainRoundTrip(a);
    LevelProfileChainRoundTrip(b);
  }

  /**
   * The native swapchain create info: a foveation record with `flags`
   * chained on, the format lowered to the graphics API's integer, and every
   * other field copied.
   */
  function SwapchainInfoWithFoveation<F>(info: SwapchainCreateInfo<F>, lowerFormat: F -> int, flags: Flags)
    : (sys: CreateInfo)
    ensures sys.SwapchainCreateInfoSys? && ObjectTypeOf(sys) == ObjectSwapchain
    ensures sys.foveation == Some(SwapchainCreateInfoFoveation(flags))
    ensures sys.format == lowerFormat(info.format)
    ensures && sys.createFlags == info.createFlags && sys.usageFlags == info.usageFlags
            && sys.sampleCount == info.sampleCount && sys.width == info.width && sys.height == info.height
            && sys.faceCount == info.faceCount && sys.arraySize == info.arraySize && sys.mipCount == info.mipCount
  {
    SwapchainCreateInfoSys(
      Some(SwapchainCreateInfoFoveation(flags)),
      info.createFlags, info.usageFlags, lowerFormat(info.format), info.sampleCount,
      info.width, info.height, info.faceCount, info.arraySize, info.mipCount)
  }

  /** The state `update_foveation` hands the runtime: no state flags, and the profile's raw handle. */
  function FoveationState(profile: Handle): (state: SwapchainStateFoveation)
    ensures state.flags == FLAGS_EMPTY && state.profile == profile
  {
    SwapchainStateFoveation(FLAGS_EMPTY, profile)
  }

  /**
   * `FoveationProfileFBInner`: the record every clone of a profile shares.
   * `strongCount` is the number of clones still alive, which are `clones`.
   */
  class FoveationProfileInner {
    const instance: Instance
    const handle: Handle
    var strongCount: nat
    ghost var clones: set<FoveationProfileFB>

    constructor (instance: Instance, handle: Handle)
      ensures this.instance == instance && this.handle == handle
      ensures strongCount == 1 && clones == {}
    {
      this.instance, this.handle := instance, handle;
      strongCount := 1;
      clones := {};
    }

    /** While a clone is alive the record owns a live foveation-profile handle. */
    ghost predicate Valid()
      reads this, instance.runtime
    {
      var rt := instance.runtime;
      && rt.Valid()
      && IsLiveAs(rt.live, handle, ObjectFoveationProfileFB)
      && handle in rt.owner && rt.owner[handle] == this
      && strongCount == |clones| && strongCount > 0
    }

    /**
     * `drop` of the shared record, run when the last clone goes: destroys the
     * handle if the instance has the foveation functions, which it always
     * has, since the handle could only be created through them.
     */
    method Drop()
      requires instance.runtime.Valid()
      requires IsLiveAs(instance.runtime.live, handle, ObjectFoveationProfileFB)
      modifies instance.runtime
      ensures FbFoveation in instance.Exts()
      ensures var rt := instance.runtime;
              && rt.Valid()
              && rt.log == old(rt.log) + [Call.Destroy(ObjectFoveationProfileFB, handle)]
              && rt.live == old(rt.live) - {handle} && rt.owner == old(rt.owner) - {handle}
              && StateOf(rt.log, handle) == Destroyed && DestroyCount(rt.log, handle) == 1
    {
      var rt := instance.runtime;
      assert rt.Available(ObjectFoveationProfileFB);
      if FbFoveation in instance.Exts() {
        rt.Destroy(ObjectFoveationProfileFB, handle);
      }
    }
  }

  /** `FoveationProfileFB`: one clone of a shared profile. */
  class FoveationProfileFB {
    const inner: FoveationProfileInner

    constructor Share(inner: FoveationProfileInner)
      ensures this.inner == inner
    {
      this.inner := inner;
    }

    ghost predicate Valid()
      reads inner, inner.instance.runtime
    {
      inner.Valid() && this in inner.clones
    }

    /** Take ownership of a live foveation-profile handle of `instance` that no wrapper owns. */
    static method FromRaw(instance: Instance, handle: Handle) returns (p: FoveationProfileFB)
      requires instance.runtime.Valid()
      requires IsLiveAs(instance.runtime.live, handle, ObjectFoveationProfileFB)
      requires handle !in instance.runtime.owner
      modifies instance.runtime
      ensures fresh(p) && fresh(p.inner) && p.inner.instance == instance && p.inner.handle == handle
      ensures p.inner.strongCount == 1 && p.Valid()
      ensures var rt := instance.runtime;
              rt.log == old(rt.log) && rt.live == old(rt.live) && rt.owner == old(rt.owner)[handle := p.inner]
    {
      var inner := new FoveationProfileInner(instance, handle);
      p := new FoveationProfileFB.Share(inner);
      inner.clones := {p};
      instance.runtime.Adopt(handle, inner);
    }

    /** `as_raw`: the shared handle, which is live as long as a clone is. */
    function AsRaw(): (h: Handle)
      reads inner, inner.instance.runtime
      requires Valid()
      ensures h == inner.handle && IsLiveAs(inner.instance.runtime.live, h, ObjectFoveationProfileFB)
    {
      inner.handle
    }

    /** `clone`: a new clone of the same shared record, one more strong reference. */
    method Clone() returns (p: FoveationProfileFB)
      requires Valid()
      modifies inner
      ensures fresh(p) && p.inner == inner
      ensures inner.strongCount == old(inner.strongCount) + 1 && inner.clones == old(inner.clones) + {p}
      ensures Valid() && p.Valid()
    {
      p := new FoveationProfileFB.Share(inner);
      inner.strongCount := inner.strongCount + 1;
      inner.clones := inner.clones + {p};
    }

    /**
     * `drop` of one clone: one strong reference fewer; the handle is
     * destroyed, once, only when this was the last clone.
     */
    method Drop()
      requires Valid()
      modifies inner, inner.instance.runtime
      ensures inner.strongCount == old(inner.strongCount) - 1 && inner.clones == old(inner.clones) - {this}
      ensures !Valid()
      ensures var rt := inner.instance.runtime;
              old(inner.strongCount) > 1 ==> unchanged(rt) && inner.Valid()
      ensures var rt := inner.instance.runtime;
              old(inner.strongCount) == 1 ==>
                && rt.Valid()
                && rt.log == old(rt.log) + [Call.Destroy(ObjectFoveationProfileFB, inner.handle)]
                && rt.live == old(rt.live) - {inner.handle} && rt.owner == old(rt.owner) - {inner.handle}
                && StateOf(rt.log, inner.handle) == Destroyed && DestroyCount(rt.log, inner.handle) == 1
    {
      inner.strongCount := inner.strongCount - 1;
      inner.clones := inner.clones - {this};
      if inner.strongCount == 0 {
        inner.Drop();
      }
    }
  }

  /** `Session::create_foveation_profile`. The profile keeps the instance, not the session. */
  method CreateFoveationProfile(session: Session, levelProfile: Option<FoveationLevelProfile>)
    returns (r: Result<FoveationProfileFB>)
    requires session.Valid()
    modifies session.instance.runtime
    ensures session.Valid()
    ensures FbFoveation !in session.instance.Exts() ==>
              r == Err(ERROR_EXTENSION_NOT_PRESENT) && unchanged(session.instance.runtime)
    ensures var rt := session.instance.runtime;
            FbFoveation in session.instance.Exts() ==>
              && OneMoreCall(old(rt.log), rt.log)
              && var c := Last(rt.log);
              && c.Create? && c.session == session.handle
              && c.info == FoveationProfileCreateInfo(LevelProfileChain(levelProfile))
              && (r.Err? <==> !Succeeded(c.code))
              && (r.Err? ==> r.code == c.code && rt.live == old(rt.live) && rt.owner == old(rt.owner))
              && (r.Ok? ==> && fresh(r.value) && fresh(r.value.inner)
                            && r.value.inner.instance == session.instance && r.value.inner.handle == c.out
                            && r.value.inner.strongCount == 1 && r.value.Valid()
                            && StateOf(old(rt.log), c.out) == Absent && StateOf(rt.log, c.out) == Alive
                            && rt.live == old(rt.live)[c.out := LiveHandle(ObjectFoveationProfileFB, session.handle)]
                            && rt.owner == old(rt.owner)[c.out := r.value.inner])
  {
    var rt := session.instance.runtime;
    if FbFoveation !in session.instance.Exts() {
      return Err(ERROR_EXTENSION_NOT_PRESENT);
    }
    var code, profile := rt.Create(session.handle, FoveationProfileCreateInfo(LevelProfileChain(levelProfile)));
    if !Succeeded(code) {
      return Err(code);
    }
    var p := FoveationProfileFB.FromRaw(session.instance, profile);
    r := Ok(p);
  }

  /**
   * `Session::create_swapchain_with_foveation`. There is no extension check:
   * the core create function is always present. `lowerFormat` is the graphics
   * API's `lower_format`.
   */
  method CreateSwapchainWithFoveation<F>(
    session: Session, info: SwapchainCreateInfo<F>, lowerFormat: F -> int, flags: Flags)
    returns (r: Result<Swapchain>)
    requires session.Valid()
    modifies session.instance.runtime
    ensures session.Valid()
    ensures var rt := session.instance.runtime;
            && OneMoreCall(old(rt.log), rt.log)
            && var c := Last(rt.log);
            && c.Create? && c.session == session.handle
            && c.info == SwapchainInfoWithFoveation(info, lowerFormat, flags)
            && (r.Err? <==> !Succeeded(c.code))
            && (r.Err? ==> r.code == c.code && rt.live == old(rt.live) && rt.owner == old(rt.owner))
            && (r.Ok? ==> && fresh(r.value) && r.value.session == session && r.value.handle == c.out
                          && r.value.Valid() && StateOf(old(rt.log), c.out) == Absent && StateOf(rt.log, c.out) == Alive
                          && rt.live == old(rt.live)[c.out := LiveHandle(ObjectSwapchain, session.handle)]
                          && rt.owner == old(rt.owner)[c.out := r.value])
  {
    var rt := session.instance.runtime;
    var code, out := rt.Create(session.handle, SwapchainInfoWithFoveation(info, lowerFormat, flags));
    if !Succeeded(code) {
      return Err(code);
    }
    var swapchain := new Swapchain.FromRawParts(session, out);
    rt.Adopt(out, swapchain);
    r := Ok(swapchain);
  }

  /**
   * `Swapchain::update_foveation`: gated on XR_FB_swapchain_update_state of
   * the swapchain's instance; applies the profile's raw handle.
   */
  method UpdateFoveation(swapchain: Swapchain, profile: FoveationProfileFB) returns (r: Result<()>)
    requires swapchain.Valid()
    modifies swapchain.session.instance.runtime
    ensures swapchain.Valid()
    ensures var rt := swapchain.session.instance.runtime;
            rt.live == old(rt.live) && rt.owner == old(rt.owner)
    ensures FbSwapchainUpdateState !in swapchain.session.instance.Exts() ==>
              r == Err(ERROR_EXTENSION_NOT_PRESENT) && unchanged(swapchain.session.instance.runtime)
    ensures var rt := swapchain.session.instance.runtime;
            FbSwapchainUpdateState in swapchain.session.instance.Exts() ==>
              && OneMoreCall(old(rt.log), rt.log)
              && var c := Last(rt.log);
              && c == Call.UpdateSwapchain(swapchain.handle, FoveationState(profile.inner.handle), c.code)
              && (r.Err? <==> !Succeeded(c.code))
              && (r.Err? ==> r.code == c.code)
  {
    var rt := swapchain.session.instance.runtime;
    if FbSwapchainUpdateState !in swapchain.session.instance.Exts() {
      return Err(ERROR_EXTENSION_NOT_PRESENT);
    }
    var code := rt.UpdateSwapchain(swapchain.handle, FoveationState(profile.inner.handle));
    if !Succeeded(code) {
      return Err(code);
    }
    r := Ok(());
  }
}
