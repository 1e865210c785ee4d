# Extension-gated trackers and profiles of the openxrs binding

This project models the vendor-extension wrappers of the `openxr` crate. The crate is a safe Rust binding to OpenXR. The modelled extensions are:

- XR_FB_face_tracking2;
- XR_FB_foveation and XR_FB_swapchain_update_state;
- XR_FB_body_tracking;
- XR_FB_eye_tracking_social;
- XR_HTC_facial_tracking;
- XR_META_body_tracking_full_body.

Each wrapper follows the same life cycle:

1. Look up the extension in the instance's extension set, which never changes. Fail with `ERROR_EXTENSION_NOT_PRESENT` when it is absent, before any native call.
2. Build the create info from the arguments.
3. Call the native create. Either propagate the error, or wrap the handle the runtime wrote.
4. On drop, destroy the handle exactly once.

Query methods turn the runtime's output into safe results. Each extension gates its output in its own way.

The native runtime is the class `Core.Runtime`.

- Its extension set is fixed at construction.
- It keeps the map of live handles and a log of every call made to it. It also keeps a ghost map from each handle to the wrapper object that owns it.
- It picks every result code, output handle and output field with `:|`, within a few promises listed under "## Left out". Every property holds for every runtime that keeps those promises.
- Buffers that the source passes by pointer are Dafny arrays, allocated by the wrapper and written by the runtime method. A buffer that starts uninitialised is an `array<Option<F32>>`, initialised to `None`.

Module `CallLog` defines what a log means:

- which handles are live;
- which handles were ever issued;
- how often each handle was destroyed;
- each handle's life state: absent, then alive, then destroyed.

It also proves that in a well-formed log a handle is destroyed at most once, and stays destroyed forever.

Module `Xr` holds the native types and constants. Each other module follows one source file.

The trackers are classes holding their session and handle. Their `Valid()` says the runtime is consistent and the tracker owns a live handle of its type, created in its session. Foveation profiles are shared: all clones point to one `FoveationProfileInner` record, which carries a strong count. Its handle is destroyed when the last clone is dropped.

## Model

| member | source | states |
|---|---|---|
| CallLog.DestroyCountMatchesState | openxr/src/face_tracking_fb.rs:128-134 | In any well-formed call log, a handle has been destroyed exactly once if it was issued and is no longer live, and never otherwise: destroy happens exactly once. |
| CallLog.LifecycleAdvances | openxr/src/htc_facial_tracking.rs:113-119 | One more call only moves a handle forward through absent, alive, destroyed; a destroyed handle stays destroyed. |
| CallLog.DestroyedIsFinal | openxr/src/body_tracking_fb.rs:111-117 | After a drop, no well-formed continuation of the log revives or destroys the handle again: its destroy count stays 1. |
| FaceTrackingFB.RequestedDataSources | openxr/src/face_tracking_fb.rs:101-107 | VISUAL is requested iff `visual`, AUDIO iff `audio`, VISUAL first, and the list has one entry per flag set. |
| FaceTrackingFB.TrackerCreateInfo | openxr/src/face_tracking_fb.rs:109-116 | The create info uses the default expression set, those data sources, and a count equal to the list length. |
| FaceTrackingFB.WeightsResult | openxr/src/face_tracking_fb.rs:66-86 | Native failure gives `Err` with its code; `is_valid` false gives `Ok(None)`; otherwise `Some` with the 70 written weights, confidences[0] and [1] as lower and upper confidence, the eye-following flag and data source copied, and the requested time. |
| FaceTrackingFB.InvalidWeightsNeverRead | openxr/src/face_tracking_fb.rs:73-86 | When `is_valid` is false the result does not depend on the buffers at all. |
| FaceTrackingFB.FaceTracker2FB.FromRaw | openxr/src/face_tracking_fb.rs:22-27 | Wraps exactly the given handle and session, and takes ownership of the handle. |
| FaceTrackingFB.FaceTracker2FB.Fp | openxr/src/face_tracking_fb.rs:29-37 | For a valid tracker the extension is present, so the lookup never panics. |
| FaceTrackingFB.FaceTracker2FB.GetFaceExpressionWeights | openxr/src/face_tracking_fb.rs:40-88 | One native call with weight capacity 70 and confidence capacity 2, and the result is `WeightsResult` of the runtime's reply. |
| FaceTrackingFB.FaceTracker2FB.Drop | openxr/src/face_tracking_fb.rs:128-134 | One destroy call on the tracker's handle, after which the handle is destroyed with a destroy count of 1. |
| FaceTrackingFB.CreateFaceTracker2 | openxr/src/face_tracking_fb.rs:91-125 | Without the extension: `ERROR_EXTENSION_NOT_PRESENT` and no call. Otherwise one create with `TrackerCreateInfo(visual, audio)`; failure propagated with nothing built; on success a fresh valid tracker holding the session and exactly the handle the runtime returned, a handle never issued before. The live and owner maps gain that one entry and are otherwise unchanged, so other wrappers stay valid. |
| FaceTrackingFB.CreateTwoAndDrop | openxr/src/face_tracking_fb.rs:91-134 | Two trackers of one session coexist: each stays valid while the other is created and dropped. Their handles differ, and once both are dropped each is destroyed exactly once. |
| FoveationFB.LevelProfileChain | openxr/src/foveation_fb.rs:47-58 | A level-profile record is chained iff one was given, with the same level, vertical offset and dynamic. |
| FoveationFB.LevelProfileChainRoundTrip | openxr/src/foveation_fb.rs:47-53 | Reading the chained record back gives exactly the caller's level profile. |
| FoveationFB.LevelProfileChainInjective | openxr/src/foveation_fb.rs:47-63 | Different level profiles lead to different profile create infos. |
| FoveationFB.SwapchainInfoWithFoveation | openxr/src/foveation_fb.rs:79-98 | The swapchain create info chains a foveation record with the given flags, lowers the format, and copies every other field. |
| FoveationFB.FoveationState | openxr/src/foveation_fb.rs:119-124 | The update state carries empty flags and the profile's raw handle. |
| FoveationFB.FoveationProfileInner.Drop | openxr/src/foveation_fb.rs:137-143 | Destroys the handle if the instance has XR_FB_foveation, which it always has for a live profile handle. |
| FoveationFB.FoveationProfileFB.FromRaw | openxr/src/foveation_fb.rs:23-27 | A new shared record holding the instance and handle, with strong count 1, owning the handle. |
| FoveationFB.FoveationProfileFB.AsRaw | openxr/src/foveation_fb.rs:30-32 | Returns the shared handle, which is live while any clone is. |
| FoveationFB.FoveationProfileFB.Clone | openxr/src/foveation_fb.rs:5-8 | A new clone sharing the same record, with the strong count one higher. |
| FoveationFB.FoveationProfileFB.Drop | openxr/src/foveation_fb.rs:132-143 | The strong count drops by one. The runtime is untouched unless this was the last clone; then the handle is destroyed exactly once. |
| FoveationFB.CreateFoveationProfile | openxr/src/foveation_fb.rs:36-70 | Without XR_FB_foveation: `ERROR_EXTENSION_NOT_PRESENT` and no call. Otherwise one create whose chain is `LevelProfileChain(levelProfile)`; failure propagated; on success a profile holding the instance (not the session) and the returned, never-issued handle. The live and owner maps gain that one entry and are otherwise unchanged. |
| FoveationFB.CreateSwapchainWithFoveation | openxr/src/foveation_fb.rs:74-107 | No extension check; one create with `SwapchainInfoWithFoveation`; failure propagated; on success a valid swapchain wrapping the returned, never-issued handle. The live and owner maps gain that one entry and are otherwise unchanged. |
| FoveationFB.UpdateFoveation | openxr/src/foveation_fb.rs:111-129 | Without XR_FB_swapchain_update_state on the swapchain's instance: `ERROR_EXTENSION_NOT_PRESENT` and no call. Otherwise one update call on the swapchain with `FoveationState(profile handle)`; its failure propagated. |
| BodyTrackingFB.LocateResult | openxr/src/body_tracking_fb.rs:71-80 | `Ok` iff the code is `SUCCESS`, and then joints, confidence, `is_active`, skeleton counter and runtime time copied; every other code is `Err` with that code. |
| BodyTrackingFB.QualifiedSuccessIsError | openxr/src/body_tracking_fb.rs:71-80 | `SESSION_LOSS_PENDING` and `TIMEOUT_EXPIRED` count as success for `cvt` but give `Err` here. |
| BodyTrackingFB.InactiveBodyStillReported | openxr/src/body_tracking_fb.rs:72-78 | `is_active` false does not suppress a successful result. |
| BodyTrackingFB.BodyTrackerFB.FromRaw | openxr/src/body_tracking_fb.rs:22-27 | Wraps exactly the given handle and session, and takes ownership of the handle. |
| BodyTrackingFB.BodyTrackerFB.Fp | openxr/src/body_tracking_fb.rs:29-37 | For a valid tracker the extension is present, so the lookup never panics. |
| BodyTrackingFB.BodyTrackerFB.LocateBodyJoints | openxr/src/body_tracking_fb.rs:40-81 | One native call with 70 zeroed joint records and a joint count of 70, and the result is `LocateResult` of the reply. |
| BodyTrackingFB.BodyTrackerFB.Drop | openxr/src/body_tracking_fb.rs:111-117 | One destroy call on the tracker's handle, after which the handle is destroyed with a destroy count of 1. |
| BodyTrackingFB.CreateBodyTracker | openxr/src/body_tracking_fb.rs:84-108 | Without the extension: `ERROR_EXTENSION_NOT_PRESENT` and no call. Otherwise one create asking for the default joint set; failure propagated; on success a valid tracker holding the session and the returned, never-issued handle. The live and owner maps gain that one entry and are otherwise unchanged. |
| EyeTrackingSocial.GazeOf | openxr/src/eye_tracking_social.rs:71-78 | An eye's gaze is present iff the runtime marks it valid, and then carries its pose and confidence. |
| EyeTrackingSocial.ShapeEyeGazes | openxr/src/eye_tracking_social.rs:66-81 | Two gazes; gaze i is `Some` iff native gaze i is valid, with its pose and confidence; the time is the runtime's. |
| EyeTrackingSocial.EyesDecidedIndependently | openxr/src/eye_tracking_social.rs:66-79 | Each eye's result depends only on that eye's native record. |
| EyeTrackingSocial.LeftInvalidRightValid | openxr/src/eye_tracking_social.rs:69-81 | An invalid left eye and a valid right eye give `[None, Some(right pose, right confidence)]`. |
| EyeTrackingSocial.GazesResult | openxr/src/eye_tracking_social.rs:42-82 | A panic iff the base space is from another session; otherwise native failure gives `Err` with its code, and success gives the shaped gazes. |
| EyeTrackingSocial.EyeTrackerSocial.FromRaw | openxr/src/eye_tracking_social.rs:22-27 | Wraps exactly the given handle and session, and takes ownership of the handle. |
| EyeTrackingSocial.EyeTrackerSocial.Fp | openxr/src/eye_tracking_social.rs:29-39 | For a valid tracker the extension is present, so the lookup never panics. |
| EyeTrackingSocial.EyeTrackerSocial.GetEyeGazes | openxr/src/eye_tracking_social.rs:41-82 | A base space from another session panics with no native call; otherwise one native call, and the result is `GazesResult` of the reply. |
| EyeTrackingSocial.EyeTrackerSocial.Drop | openxr/src/eye_tracking_social.rs:111-117 | One destroy call on the tracker's handle, after which the handle is destroyed with a destroy count of 1. |
| EyeTrackingSocial.CreateEyeTracker | openxr/src/eye_tracking_social.rs:85-108 | Without the extension: `ERROR_EXTENSION_NOT_PRESENT` and no call. Otherwise one create; failure propagated; on success a valid tracker wrapping exactly the returned, never-issued handle. The live and owner maps gain that one entry and are otherwise unchanged. |
| HtcFacialTracking.ExpressionCountFor | openxr/src/htc_facial_tracking.rs:99-103 | The count is the eye count iff the type is `EYE_DEFAULT`, and the lip count otherwise. |
| HtcFacialTracking.LipCountIsTheDefault | openxr/src/htc_facial_tracking.rs:99-103 | Every type other than `EYE_DEFAULT`, unknown values included, gets the same count as `LIP_DEFAULT`. |
| HtcFacialTracking.RequestTagMismatch | openxr/src/htc_facial_tracking.rs:49-50 | The as-written tag, which `GetFacialExpressionsAsWritten` puts on its call, is not the record's own type tag; the corrected tag is. |
| HtcFacialTracking.ExpressionsResultAsWritten | openxr/src/htc_facial_tracking.rs:46-73 | As written: `Err` on native failure, `Ok(None)` when inactive, otherwise `Some` with the sample time and an empty weight vector. |
| HtcFacialTracking.ExpressionsResult | openxr/src/htc_facial_tracking.rs:58-72 | Corrected: the same gating, but an active result carries every weight the runtime wrote, one per buffer slot. |
| HtcFacialTracking.AsWrittenDiffersOnlyInWeights | openxr/src/htc_facial_tracking.rs:47-68 | The as-written and corrected results agree except for the weights of an active result. |
| HtcFacialTracking.WeightsLostWhenActive | openxr/src/htc_facial_tracking.rs:47-68 | An active lip tracker whose runtime wrote 37 weights returns none of them as written, and 37 when corrected. |
| HtcFacialTracking.FacialTrackerHTC.FromRaw | openxr/src/htc_facial_tracking.rs:23-33 | Wraps the given handle and session and keeps the caller's expression count unchecked. |
| HtcFacialTracking.FacialTrackerHTC.Fp | openxr/src/htc_facial_tracking.rs:35-43 | For a valid tracker the extension is present, so the lookup never panics. |
| HtcFacialTracking.FacialTrackerHTC.GetFacialExpressions | openxr/src/htc_facial_tracking.rs:45-73 | Corrected: one native call with a buffer of `expressionCount` entries and that same count, using the corrected tag; the result is `ExpressionsResult` of the reply. |
| HtcFacialTracking.FacialTrackerHTC.GetFacialExpressionsAsWritten | openxr/src/htc_facial_tracking.rs:45-73 | As written: one native call with a buffer and count of `expressionCount`, on a record tagged with the face-tracking-FB type rather than its own. The result is `ExpressionsResultAsWritten` of the reply, so an active result has no weights. |
| HtcFacialTracking.FacialTrackerHTC.Drop | openxr/src/htc_facial_tracking.rs:113-119 | One destroy call on the tracker's handle, after which the handle is destroyed with a destroy count of 1. |
| HtcFacialTracking.CreateFacialTracker | openxr/src/htc_facial_tracking.rs:76-110 | Without the extension: `ERROR_EXTENSION_NOT_PRESENT` and no call. Otherwise one create with the given type; failure propagated; on success a valid tracker with the returned, never-issued handle and `ExpressionCountFor(type)` expressions. The live and owner maps gain that one entry and are otherwise unchanged. |
| BodyTrackingFullBodyMeta.FullBodyJointSet | openxr/src/body_tracking_full_body_meta.rs:56-60 | The joint set is `FULL_BODY` iff `full_body`, and `DEFAULT` otherwise. |
| BodyTrackingFullBodyMeta.FullBodyLocationsCoverEveryJoint | openxr/src/body_tracking_full_body_meta.rs:7-8 | A full-body location array has exactly 84 entries, more than the 70 of the default set. |
| BodyTrackingFullBodyMeta.BodyTrackerFullBodyMETA.FromRaw | openxr/src/body_tracking_full_body_meta.rs:27-32 | Wraps exactly the given handle and session, and takes ownership of the handle. |
| BodyTrackingFullBodyMeta.BodyTrackerFullBodyMETA.Fp | openxr/src/body_tracking_full_body_meta.rs:34-42 | For a valid tracker the extension is present, so the lookup never panics. |
| BodyTrackingFullBodyMeta.BodyTrackerFullBodyMETA.Drop | openxr/src/body_tracking_full_body_meta.rs:72-78 | One destroy call on the tracker's handle, after which the handle is destroyed with a destroy count of 1. |
| BodyTrackingFullBodyMeta.CreateBodyTrackerFullBody | openxr/src/body_tracking_full_body_meta.rs:45-69 | Without the extension: `ERROR_EXTENSION_NOT_PRESENT` and no call. Otherwise one create with `FullBodyJointSet(full_body)`; failure propagated; on success a valid tracker holding the session and the returned, never-issued handle. The live and owner maps gain that one entry and are otherwise unchanged. |

## Left out

- The native runtime, the `sys` and `raw` modules and the foreign calls are not part of this model. `Core.Runtime` stands in for them. Its result codes and outputs are arbitrary except for the promises below, which the OpenXR specification makes and the model assumes of every runtime.
- A successful native create returns a non-null handle that the runtime has never issued before (`Core.Runtime.Create`, `CallLog.Permitted`).
- A successful face-expression query with `is_valid` set has written every weight slot. A successful HTC query with `is_active` set has written every expression slot (`Core.Runtime.GetFaceExpressionWeights2`, `Core.Runtime.GetFacialExpressions`, `CallLog.Honoured`).
- An eye-gaze reply has exactly two gazes, left then right (`Core.Runtime.GetEyeGazes`, `CallLog.Honoured`).
- Every buffer the runtime writes keeps the length the wrapper allocated, and each query writes only the buffers passed to it.
- Structure layout, `next` pointers as memory, and `MaybeUninit` are left out. Type tags are left out too, except the one on the HTC query. A chained record is an `Option` field of the create info. "Read only after the validity check" is modelled with `Option` buffers.
- Floating-point values (weights, confidences, poses, vertical offset) are 32-bit patterns. They are only copied.
- `cvt` is not part of this model. It is taken to be the OpenXR success test: a code is a success when it is not negative.
- Atomic reference counting is modelled as a sequential strong count on the foveation profile's shared record.
- The trackers' strong references to the session are not counted. `Session` and its shared inner record are one object, and object identity stands for pointer identity.
- `Graphics::lower_format` is a function parameter of `CreateSwapchainWithFoveation`.
- The swapchain's own wrapper and its destroy are not part of this model.
- The trackers' `as_raw` getters return their handle field and are not modelled separately. Only the foveation profile's `as_raw` is, because a clone reads it through the shared record.
- FaceTrackingFB.FaceTracker2FB.Fp, BodyTrackingFB.BodyTrackerFB.Fp, EyeTrackingSocial.EyeTrackerSocial.Fp, HtcFacialTracking.FacialTrackerHTC.Fp and BodyTrackingFullBodyMeta.BodyTrackerFullBodyMETA.Fp require a valid tracker. The `expect` panic they can raise on a tracker whose extension is missing is not modelled. Such a tracker can only come from a `from_raw` call that breaks its safety contract.
- The `from_raw` constructors require what their safety comments demand of the caller: a live handle of the right type, associated with the session or instance. They also require that no other wrapper owns that handle.
- HtcFacialTracking.FacialTrackerHTC.GetFacialExpressions does not model the `as u32` narrowing of `expression_count`. Only counts of 2^32 or more would be affected.
- FoveationFB.UpdateFoveation does not require the profile to be live. The borrow in the source guarantees that, and the call only passes the profile's raw handle on.
- What `skeleton_changed_count` means over time is up to the runtime, and the model does not constrain it.
- Runtime errors reported by destroy functions are ignored, as in the source.
- The example program `openxr/examples/vulkan.rs` is not part of this model. It uses the library rather than implementing it.

## Findings

An active HTC result is evidently meant to carry one weight per expression of the tracker's type: the count the tracker keeps from its creation serves no other purpose. The code as written returns an empty vector. `GetFacialExpressionsAsWritten` models the code as written: `ExpressionsResultAsWritten` gives its result, and `WeightsLostWhenActive` and `RequestTagMismatch` exhibit the two differences. `GetFacialExpressions` is the corrected query: it uses `ExpressionsResult` and the record's own tag.

| source | as written | input that shows it | evidently intended | confidence | as-written member | corrected member |
|---|---|---|---|---|---|---|
| openxr/src/htc_facial_tracking.rs:47-68 | The weights vector is created with `with_capacity` and its length is never set after the runtime fills it. The returned vector is always empty. | A successful query of an active lip tracker whose runtime wrote 37 weights | `weights` holds the `expression_count` values the runtime wrote | not executed | HtcFacialTracking.FacialTrackerHTC.GetFacialExpressionsAsWritten | HtcFacialTracking.FacialTrackerHTC.GetFacialExpressions |
| openxr/src/htc_facial_tracking.rs:49-50 | The output record is tagged with the face-tracking-FB weights type. | Any query: the runtime sees a record whose tag is not `XR_TYPE_FACIAL_EXPRESSIONS_HTC` | Tag it with its own type | not executed | HtcFacialTracking.FacialTrackerHTC.GetFacialExpressionsAsWritten | HtcFacialTracking.FacialTrackerHTC.GetFacialExpressions |
