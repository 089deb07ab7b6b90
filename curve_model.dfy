/**
 * The per-sampler curve bucket (AnimationCurveData) as far as the exporter
 * sees it. The class itself is not part of this model: its constructor is
 * taken to start with no keyframes, and its four members the exporter calls
 * are supplied as uninterpreted functions in a CurveOps record.
 */
module CurveModel {
  import opened AnimationProperties

  /** AnimationUtility.TangentMode */
  datatype TangentMode = Free | Auto | Linear | Constant | ClampedAuto

  /** One key of a Unity AnimationCurve. */
  datatype Key = Key(time: real, value: real)

  /** One row of a bucket: a time and the vector of element values at that time. */
  datatype Keyframe = Keyframe(time: real, values: seq<real>)

  /** An aggregation bucket: everything the exporter reads or sets of one AnimationCurveData. */
  datatype AnimationCurveData = AnimationCurveData(
    tangentMode: TangentMode,
    property: AnimationProperty,
    samplerIndex: int,
    elementCount: int,
    keyframes: seq<Keyframe>)

  /**
   * The members of AnimationCurveData the exporter calls, each giving the
   * bucket's new keyframe list or a value computed from the bucket:
   *   setKeyframeData(curve, time, value, elementOffset)  -- SetKeyframeData
   *   recountEmptyKeyframe(curve)                         -- RecountEmptyKeyframe
   *   getRightHandCoordinate(curve, keyframe)             -- Keyframe.GetRightHandCoordinate
   *   getInterpolation(curve)                             -- GetInterpolation
   */
  datatype CurveOps = CurveOps(
    setKeyframeData: (AnimationCurveData, real, real, int) -> seq<Keyframe>,
    recountEmptyKeyframe: AnimationCurveData -> seq<Keyframe>,
    getRightHandCoordinate: (AnimationCurveData, Keyframe) -> seq<real>,
    getInterpolation: AnimationCurveData -> string)

  /** The identity of a bucket: every field but its keyframes. */
  predicate SameBucket(a: AnimationCurveData, b: AnimationCurveData) {
    a.(keyframes := b.keyframes) == b
  }

  /** The sampler indices of a list of buckets. */
  function SamplerIndices(curveDatum: seq<AnimationCurveData>): set<int> {
    set j | 0 <= j < |curveDatum| :: curveDatum[j].samplerIndex
  }

  /** No two buckets share a sampler index. */
  predicate DistinctSamplers(curveDatum: seq<AnimationCurveData>) {
    forall i, j :: 0 <= i < j < |curveDatum| ==> curveDatum[i].samplerIndex != curveDatum[j].samplerIndex
  }
}
