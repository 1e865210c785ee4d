/**
 * The native OpenXR vocabulary that the wrapper layer works with: result
 * codes, opaque handles, extension names, object types, and the plain-data
 * records that cross the native boundary (create infos, query replies). A
 * `Call` records one native call, its arguments and what the runtime wrote
 * back; the runtime keeps a log of them.
 */
module Xr {

  /** Raw bits of an IEEE-754 binary32. Payload floats are only ever copied. */
  type F32 = bv32

  /** XrTime: nanoseconds. */
  type Time = int

  /** Bit-mask flag types (XrFlags64). */
  type Flags = bv64
  const FLAGS_EMPTY: Flags := 0

  /** An opaque native handle; 0 is XR_NULL_HANDLE. */
  type Handle = nat
  const NULL_HANDLE: Handle := 0

  /** XrResult. */
  type ResultCode = int
  const SUCCESS: ResultCode := 0
  const TIMEOUT_EXPIRED: ResultCode := 1
  const SESSION_LOSS_PENDING: ResultCode := 3
  const ERROR_EXTENSION_NOT_PRESENT: ResultCode := -9

  /** XR_SUCCEEDED: every non-negative result code is a success code. */
  predicate Succeeded(code: ResultCode) {
    code >= 0
  }

  datatype Option<T> = None | Some(value: T)

  /** The wrapper's `Result<T>`: a value, or the native code that failed. */
  datatype Result<T> = Ok(value: T) | Err(code: ResultCode)

  /** How a wrapper call ends when it can also panic on a broken contract. */
  datatype Outcome<T> = Return(value: T) | Panic

  function Last<T>(s: seq<T>): T
    requires |s| > 0
  {
    s[|s| - 1]
  }

  /** The extensions the wrappers of this model depend on. */
  datatype Extension =
    | FbFaceTracking2
    | FbFoveation
    | FbSwapchainUpdateState
    | FbBodyTracking
    | FbEyeTrackingSocial
    | HtcFacialTracking
    | MetaBodyTrackingFullBody

  /** XrObjectType of the handles the wrappers create and destroy. */
  datatype ObjectType =
    | ObjectFaceTracker2FB
    | ObjectFoveationProfileFB
    | ObjectSwapchain
    | ObjectBodyTrackerFB
    | ObjectEyeTrackerFB
    | ObjectFacialTrackerHTC
    | ObjectBodyTrackerFullBodyMETA

  /** The extension whose functions create and destroy handles of a type (none for core types). */
  function ExtensionOf(ty: ObjectType): Option<Extension> {
    match ty
    case ObjectFaceTracker2FB => Some(FbFaceTracking2)
    case ObjectFoveationProfileFB => Some(FbFoveation)
    case ObjectSwapchain => None
    case ObjectBodyTrackerFB => Some(FbBodyTracking)
    case ObjectEyeTrackerFB => Some(FbEyeTrackingSocial)
    case ObjectFacialTrackerHTC => Some(HtcFacialTracking)
    case ObjectBodyTrackerFullBodyMETA => Some(MetaBodyTrackingFullBody)
  }

  // ---- payload records, copied verbatim ----

  datatype Quaternionf = Quaternionf(x: F32, y: F32, z: F32, w: F32)
  datatype Vector3f = Vector3f(x: F32, y: F32, z: F32)
  datatype Posef = Posef(orientation: Quaternionf, position: Vector3f)

  // ---- XR_FB_face_tracking2 ----

  type FaceTrackingDataSource2 = int
  const DATA_SOURCE2_VISUAL: FaceTrackingDataSource2 := 0
  const DATA_SOURCE2_AUDIO: FaceTrackingDataSource2 := 1

  const FACE_EXPRESSION_SET2_DEFAULT: int := 0

  /** The fields of XrFaceExpressionWeights2FB that the runtime writes. */
  datatype FaceExpressionWeights2Reply = FaceExpressionWeights2Reply(
    isValid: bool,
    isEyeFollowingBlendshapesValid: bool,
    dataSource: FaceTrackingDataSource2,
    time: Time)

  // ---- XR_FB_foveation / XR_FB_swapchain_update_state ----

  type FoveationLevel = int
  type FoveationDynamic = int

  /** XrFoveationLevelProfileCreateInfoFB. */
  datatype FoveationLevelProfileCreateInfo = FoveationLevelProfileCreateInfo(
    level: FoveationLevel,
    verticalOffset: F32,
    dynamic: FoveationDynamic)

  /** XrSwapchainCreateInfoFoveationFB. */
  datatype SwapchainCreateInfoFoveation = SwapchainCreateInfoFoveation(flags: Flags)

  /** XrSwapchainStateFoveationFB. */
  datatype SwapchainStateFoveation = SwapchainStateFoveation(flags: Flags, profile: Handle)

  // ---- XR_FB_body_tracking / XR_META_body_tracking_full_body ----

  const BODY_JOINT_SET_DEFAULT: int := 0
  const BODY_JOINT_SET_FULL_BODY_META: int := 1000274000

  /** XrBodyJointLocationFB. */
  datatype BodyJointLocation = BodyJointLocation(locationFlags: Flags, pose: Posef)

  /** The fields of XrBodyJointLocationsFB that the runtime writes. */
  datatype BodyJointLocationsReply = BodyJointLocationsReply(
    confidence: F32,
    isActive: bool,
    skeletonChangedCount: nat,
    time: Time)

  // ---- XR_FB_eye_tracking_social ----

  /** XrEyeGazeFB. */
  datatype EyeGazeReply = EyeGazeReply(isValid: bool, gazePose: Posef, gazeConfidence: F32)

  /** XrEyeGazesFB: one entry per eye, left then right. */
  datatype EyeGazesReply = EyeGazesReply(gaze: seq<EyeGazeReply>, time: Time)

  // ---- XR_HTC_facial_tracking ----

  type FacialTrackingType = int
  const FACIAL_TRACKING_TYPE_EYE_DEFAULT: FacialTrackingType := 1
  const FACIAL_TRACKING_TYPE_LIP_DEFAULT: FacialTrackingType := 2

  const FACIAL_EXPRESSION_EYE_COUNT_HTC: nat := 14
  const FACIAL_EXPRESSION_LIP_COUNT_HTC: nat := 37

  /** The values an XrStructureType tag can take on the structs this model tags. */
  datatype StructureType = TypeFacialExpressionsHTC | TypeFaceExpressionWeightsFB

  /** The fields of XrFacialExpressionsHTC that the runtime writes. */
  datatype FacialExpressionsReply = FacialExpressionsReply(isActive: bool, sampleTime: Time)

  // ---- create infos ----

  /** The create-info structure handed to a native create function. */
  datatype CreateInfo =
    | FaceTrackerCreateInfo2(
        faceExpressionSet: int,
        requestedDataSourceCount: nat,
        requestedDataSources: seq<FaceTrackingDataSource2>)
    | FoveationProfileCreateInfo(levelProfile: Option<FoveationLevelProfileCreateInfo>)
    | SwapchainCreateInfoSys(
        foveation: Option<SwapchainCreateInfoFoveation>,
        createFlags: Flags, usageFlags: Flags, format: int, sampleCount: nat,
        width: nat, height: nat, faceCount: nat, arraySize: nat, mipCount: nat)
    | BodyTrackerCreateInfo(bodyJointSet: int)
    | EyeTrackerCreateInfo
    | FacialTrackerCreateInfo(facialTrackingType: FacialTrackingType)
    | BodyTrackerFullBodyCreateInfo(bodyJointSet: int)

  /** The type of the handle a create info asks for. */
  function ObjectTypeOf(info: CreateInfo): ObjectType {
    match info
    case FaceTrackerCreateInfo2(_, _, _) => ObjectFaceTracker2FB
    case FoveationProfileCreateInfo(_) => ObjectFoveationProfileFB
    case SwapchainCreateInfoSys(_, _, _, _, _, _, _, _, _, _) => ObjectSwapchain
    case BodyTrackerCreateInfo(_) => ObjectBodyTrackerFB
    case EyeTrackerCreateInfo => ObjectEyeTrackerFB
    case FacialTrackerCreateInfo(_) => ObjectFacialTrackerHTC
    case BodyTrackerFullBodyCreateInfo(_) => ObjectBodyTrackerFullBodyMETA
  }

  // ---- the call log ----

  /** One native call: its arguments, its result code and what the runtime wrote back. */
  datatype Call =
    | Create(session: Handle, info: CreateInfo, code: ResultCode, out: Handle)
    | Destroy(objectType: ObjectType, target: Handle)
    | GetFaceExpressionWeights2(
        tracker: Handle, time: Time, weightCount: nat, confidenceCount: nat,
        code: ResultCode, faceReply: FaceExpressionWeights2Reply,
        weights: seq<Option<F32>>, confidences: seq<F32>)
    | LocateBodyJoints(
        tracker: Handle, baseSpace: Handle, time: Time, jointCount: nat,
        jointsSent: seq<BodyJointLocation>,
        code: ResultCode, bodyReply: BodyJointLocationsReply, joints: seq<BodyJointLocation>)
    | GetEyeGazes(
        tracker: Handle, baseSpace: Handle, time: Time,
        code: ResultCode, eyeReply: EyeGazesReply)
    | GetFacialExpressions(
        tracker: Handle, ty: StructureType, expressionCount: nat,
        code: ResultCode, facialReply: FacialExpressionsReply, weights: seq<Option<F32>>)
    | UpdateSwapchain(swapchain: Handle, state: SwapchainStateFoveation, code: ResultCode)

  /** Every cell of a buffer the runtime may leave uninitialised has been written. */
  predicate AllWritten(buffer: seq<Option<F32>>) {
    forall i :: 0 <= i < |buffer| ==> buffer[i].Some?
  }

  /** The values of a fully written buffer. */
  function Written(buffer: seq<Option<F32>>): (values: seq<F32>)
    requires AllWritten(buffer)
    ensures |values| == |buffer|
    ensures forall i :: 0 <= i < |buffer| ==> buffer[i] == Some(values[i])
  {
    seq(|buffer|, i requires 0 <= i < |buffer| => buffer[i].value)
  }
}
