/**
 * The first loop of AnimationExporter.Export: every curve binding of a clip
 * is classified, and the keys of each supported one are handed to the
 * bucket (AnimationCurveData) of its sampler, which is created on first use.
 */
module CurveAggregation {
  import opened Outcomes
  import opened AnimationProperties
  import opened CurveModel

  /**
   * What a blend-shape binding reads from the shared mesh of its node's
   * SkinnedMeshRenderer: the mesh's blendShapeCount, and GetBlendShapeIndex
   * of the name after "blendShape." (-1 when the mesh has no such shape).
   */
  datatype BlendShapeMesh = BlendShapeMesh(blendShapeCount: int, blendShapeIndex: int)

  /**
   * One curve binding of the clip, with the answers of the Unity APIs the
   * loop consults for it:
   *   nodeIndex           -- GetNodeIndex(root, nodes, binding.path)
   *   keys                -- the keys of AnimationUtility.GetEditorCurve(clip, binding)
   *   firstKeyTangentMode -- AnimationUtility.GetKeyRightTangentMode(curve, 0)
   *   mesh                -- for a blend-shape binding, what nodes[nodeIndex] yields:
   *                          the BlendShapeMesh, or ArgumentOutOfRangeException when
   *                          the path named no node (nodeIndex -1), or
   *                          NullReferenceException when the node has no
   *                          SkinnedMeshRenderer or it has no shared mesh
   */
  datatype CurveBinding = CurveBinding(
    propertyName: string,
    nodeIndex: int,
    keys: seq<Key>,
    firstKeyTangentMode: TangentMode,
    mesh: Result<BlendShapeMesh>)

  /**
   * The glTF side the loop consults: glTFAnimation.AddChannelAndGetSampler
   * (seen only through the sampler index it returns) and
   * glTFAnimationTarget.GetElementCount.
   */
  datatype Scene = Scene(
    addChannelAndGetSampler: (int, AnimationProperty) -> int,
    getElementCount: AnimationProperty -> int)

  /** Targets the loop exports; the others are logged and skipped. */
  predicate Exported(p: AnimationProperty) {
    p != NotImplemented && p != EulerRotation
  }

  function SamplerOf(b: CurveBinding, scene: Scene): int {
    scene.addChannelAndGetSampler(b.nodeIndex, PropertyToTarget(b.propertyName))
  }

  /**
   * The element count of the binding's target: the mesh's blend-shape count
   * for blend shapes, which throws when the mesh cannot be reached.
   */
  function ElementCountOf(b: CurveBinding, scene: Scene): Result<int> {
    var p := PropertyToTarget(b.propertyName);
    if p == BlendShape then
      match b.mesh
      case Throw(e) => Throw(e)
      case Ok(mesh) => Ok(mesh.blendShapeCount)
    else Ok(scene.getElementCount(p))
  }

  /** The element a binding writes: the blend-shape index, or the axis suffix's offset. */
  function ElementOffsetOf(b: CurveBinding): Result<int> {
    if PropertyToTarget(b.propertyName) == BlendShape then
      match b.mesh
      case Throw(e) => Throw(e)
      case Ok(mesh) => Ok(mesh.blendShapeIndex)
    else GetElementOffset(b.propertyName)
  }

  /** Blend-shape weights are percentages in Unity and fractions in glTF. */
  function ValueFactor(p: AnimationProperty): real {
    if p == BlendShape then 0.01 else 1.0
  }

  /** The keys with every value multiplied by `factor`. */
  function Scaled(keys: seq<Key>, factor: real): (r: seq<Key>) {
    seq(|keys|, i requires 0 <= i < |keys| => Key(keys[i].time, keys[i].value * factor))
  }

  /**
   * The position of the first bucket with the given sampler index
   * (curveDatum.FirstOrDefault(x => x.SamplerIndex == samplerIndex)).
   */
  function FindCurve(curveDatum: seq<AnimationCurveData>, samplerIndex: int): (r: Option<nat>)
    ensures r.Some? ==>
      && r.value < |curveDatum|
      && curveDatum[r.value].samplerIndex == samplerIndex
      && forall j :: 0 <= j < r.value ==> curveDatum[j].samplerIndex != samplerIndex
    ensures r.None? <==> samplerIndex !in SamplerIndices(curveDatum)
  {
    if curveDatum == [] then None
    else if curveDatum[0].samplerIndex == samplerIndex then Some(0)
    else
      match FindCurve(curveDatum[1..], samplerIndex)
      case None =>
        assert forall j :: 1 <= j < |curveDatum| ==> curveDatum[j] == curveDatum[1..][j - 1];
        None
      case Some(j) => Some(j + 1)
  }

  /**
   * The bucket after SetKeyframeData was called with each key in turn,
   * at the given element offset.
   */
  function SetKeys(curve: AnimationCurveData, keys: seq<Key>, elementOffset: int, ops: CurveOps): (r: AnimationCurveData)
    ensures SameBucket(r, curve)
    decreases |keys|
  {
    if keys == [] then curve
    else
      var c := SetKeys(curve, keys[..|keys| - 1], elementOffset, ops);
      var key := keys[|keys| - 1];
      c.(keyframes := ops.setKeyframeData(c, key.time, key.value, elementOffset))
  }

  /** The bucket the loop creates for a binding whose sampler has none yet. */
  function NewCurve(b: CurveBinding, scene: Scene, elementCount: int): AnimationCurveData {
    AnimationCurveData(b.firstKeyTangentMode, PropertyToTarget(b.propertyName), SamplerOf(b, scene), elementCount, [])
  }

  /** Where the binding's bucket is after find-or-create. */
  function BucketPosition(curveDatum: seq<AnimationCurveData>, samplerIndex: int): nat {
    match FindCurve(curveDatum, samplerIndex)
    case Some(j) => j
    case None => |curveDatum|
  }

  /** The bucket list after one iteration of the binding loop. */
  function AddBinding(curveDatum: seq<AnimationCurveData>, b: CurveBinding, scene: Scene, ops: CurveOps): Result<seq<AnimationCurveData>> {
    var property := PropertyToTarget(b.propertyName);
    if !Exported(property) then Ok(curveDatum)
    else
      match ElementCountOf(b, scene)
      case Throw(e) => Throw(e)
      case Ok(elementCount) =>
        var samplerIndex := SamplerOf(b, scene);
        var pos := BucketPosition(curveDatum, samplerIndex);
        var datum := if pos < |curveDatum| then curveDatum else curveDatum + [NewCurve(b, scene, elementCount)];
        match ElementOffsetOf(b)
        case Throw(e) => Throw(e)
        case Ok(elementOffset) =>
          if 0 <= elementOffset < elementCount then
            Ok(datum[pos := SetKeys(datum[pos], Scaled(b.keys, ValueFactor(property)), elementOffset, ops)])
          else
            Ok(datum)
  }

  /** The bucket list after the binding loop has run over `bindings`, or the exception that ended it. */
  function Aggregated(bindings: seq<CurveBinding>, scene: Scene, ops: CurveOps): Result<seq<AnimationCurveData>>
    decreases |bindings|
  {
    if bindings == [] then Ok([])
    else
      match Aggregated(bindings[..|bindings| - 1], scene, ops)
      case Throw(e) => Throw(e)
      case Ok(curveDatum) => AddBinding(curveDatum, bindings[|bindings| - 1], scene, ops)
  }

  /** Once a binding throws, the rest of the clip is not looked at. */
  lemma {:induction false} AggregatedThrowPropagates(bindings: seq<CurveBinding>, i: nat, scene: Scene, ops: CurveOps)
    requires i <= |bindings|
    requires Aggregated(bindings[..i], scene, ops).Throw?
    ensures Aggregated(bindings, scene, ops) == Aggregated(bindings[..i], scene, ops)
    decreases |bindings| - i
  {
    if i < |bindings| {
      assert bindings[..i + 1][..i] == bindings[..i];
      AggregatedThrowPropagates(bindings, i + 1, scene, ops);
    } else {
      assert bindings[..i] == bindings;
    }
  }

  /** The binding loop of Export. */
  method Aggregate(bindings: seq<CurveBinding>, scene: Scene, ops: CurveOps) returns (r: Result<seq<AnimationCurveData>>)
    ensures r == Aggregated(bindings, scene, ops)
  {
    var curveDatum: seq<AnimationCurveData> := [];
    var i := 0;
    while i < |bindings|
      invariant 0 <= i <= |bindings|
      invariant Aggregated(bindings[..i], scene, ops) == Ok(curveDatum)
    {
      assert bindings[..i + 1][..i] == bindings[..i];
      assert Aggregated(bindings[..i + 1], scene, ops) == AddBinding(curveDatum, bindings[i], scene, ops);
      var step := CollectBinding(curveDatum, bindings[i], scene, ops);
      if step.Throw? {
        AggregatedThrowPropagates(bindings, i + 1, scene, ops);
        return step;
      }
      curveDatum := step.value;
      i := i + 1;
    }
    assert bindings[..|bindings|] == bindings;
    return Ok(curveDatum);
  }

  /**
   * One iteration of the binding loop: classify, find or create the
   * sampler's bucket, then hand it every key of the curve.
   */
  method CollectBinding(curveDatum: seq<AnimationCurveData>, binding: CurveBinding, scene: Scene, ops: CurveOps)
    returns (r: Result<seq<AnimationCurveData>>)
    ensures r == AddBinding(curveDatum, binding, scene, ops)
  {
    var property := PropertyToTarget(binding.propertyName);
    if property == NotImplemented || property == EulerRotation {
      // logged and skipped
      return Ok(curveDatum);
    }
    var samplerIndex := scene.addChannelAndGetSampler(binding.nodeIndex, property);
    var elementCount := 0;
    if property == BlendShape {
      // nodes[nodeIndex].GetComponent<SkinnedMeshRenderer>().sharedMesh
      if binding.mesh.Throw? {
        return Throw(binding.mesh.exception);
      }
      elementCount := binding.mesh.value.blendShapeCount;
    } else {
      elementCount := scene.getElementCount(property);
    }
    var datum := curveDatum;
    var pos: nat;
    var found := FindCurve(datum, samplerIndex);
    if found.None? {
      pos := |datum|;
      datum := datum + [AnimationCurveData(binding.firstKeyTangentMode, property, samplerIndex, elementCount, [])];
    } else {
      pos := found.value;
    }
    var elementOffset := 0;
    var valueFactor := 1.0;
    if property == BlendShape {
      elementOffset := binding.mesh.value.blendShapeIndex;
      valueFactor := 0.01;
    } else {
      var offset := GetElementOffset(binding.propertyName);
      if offset.Throw? {
        return Throw(offset.exception);
      }
      elementOffset := offset.value;
    }
    if 0 <= elementOffset && elementOffset < elementCount {
      var curve := SetKeyframes(datum[pos], binding.keys, valueFactor, elementOffset, ops);
      datum := datum[pos := curve];
    }
    return Ok(datum);
  }

  /** The key loop: SetKeyframeData with every key of the curve in order, its value scaled by `valueFactor`. */
  method SetKeyframes(curve: AnimationCurveData, keys: seq<Key>, valueFactor: real, elementOffset: int, ops: CurveOps)
    returns (r: AnimationCurveData)
    ensures r == SetKeys(curve, Scaled(keys, valueFactor), elementOffset, ops)
  {
    ghost var scaled := Scaled(keys, valueFactor);
    r := curve;
    var k := 0;
    while k < |keys|
      invariant 0 <= k <= |keys|
      invariant r == SetKeys(curve, scaled[..k], elementOffset, ops)
    {
      var key := keys[k];
      assert scaled[..k + 1][..k] == scaled[..k];
      assert scaled[k] == Key(key.time, key.value * valueFactor);
      r := r.(keyframes := ops.setKeyframeData(r, key.time, key.value * valueFactor, elementOffset));
      k := k + 1;
    }
    assert scaled[..|keys|] == scaled;
  }

  lemma SamplerIndicesAppend(curveDatum: seq<AnimationCurveData>, c: AnimationCurveData)
    ensures SamplerIndices(curveDatum + [c]) == SamplerIndices(curveDatum) + {c.samplerIndex}
  {
    var s := curveDatum + [c];
    assert s[|curveDatum|] == c;
    forall j | 0 <= j < |curveDatum| ensures s[j] == curveDatum[j] {}
  }

  lemma SamplerIndicesSameBuckets(a: seq<AnimationCurveData>, b: seq<AnimationCurveData>)
    requires |a| == |b| && forall j :: 0 <= j < |a| ==> SameBucket(a[j], b[j])
    ensures SamplerIndices(a) == SamplerIndices(b)
  {
    assert forall j :: 0 <= j < |a| ==> a[j].samplerIndex == b[j].samplerIndex;
  }

  /**
   * When a binding throws: only a supported binding can, and it throws the
   * mesh lookup's exception for a blend shape whose mesh cannot be reached,
   * or GetElementOffset's for a name with no axis suffix.
   */
  lemma AddBindingThrows(curveDatum: seq<AnimationCurveData>, b: CurveBinding, scene: Scene, ops: CurveOps)
    ensures AddBinding(curveDatum, b, scene, ops).Throw? <==>
      Exported(PropertyToTarget(b.propertyName)) && (ElementCountOf(b, scene).Throw? || ElementOffsetOf(b).Throw?)
    ensures PropertyToTarget(b.propertyName) == BlendShape && b.mesh.Throw? ==>
      AddBinding(curveDatum, b, scene, ops) == Throw(b.mesh.exception)
    ensures Exported(PropertyToTarget(b.propertyName)) && PropertyToTarget(b.propertyName) != BlendShape ==>
      (AddBinding(curveDatum, b, scene, ops).Throw? <==> GetElementOffset(b.propertyName).Throw?)
  {
  }

  /**
   * What one binding does to the bucket list: a skipped binding changes
   * nothing; any other keeps every existing bucket's identity and adds a
   * bucket exactly when none has its sampler index, so the sampler indices
   * stay distinct.
   */
  lemma AddBindingBuckets(curveDatum: seq<AnimationCurveData>, b: CurveBinding, scene: Scene, ops: CurveOps)
    requires AddBinding(curveDatum, b, scene, ops).Ok?
    ensures var r := AddBinding(curveDatum, b, scene, ops).value;
      && (!Exported(PropertyToTarget(b.propertyName)) ==> r == curveDatum)
      && |curveDatum| <= |r| <= |curveDatum| + 1
      && (forall j :: 0 <= j < |curveDatum| ==> SameBucket(r[j], curveDatum[j]))
      && (|r| == |curveDatum| + 1 <==>
            Exported(PropertyToTarget(b.propertyName)) && SamplerOf(b, scene) !in SamplerIndices(curveDatum))
      && (|r| == |curveDatum| + 1 ==>
            ElementCountOf(b, scene).Ok? && SameBucket(r[|curveDatum|], NewCurve(b, scene, ElementCountOf(b, scene).value)))
      && SamplerIndices(r) ==
           SamplerIndices(curveDatum) + (if Exported(PropertyToTarget(b.propertyName)) then {SamplerOf(b, scene)} else {})
      && (DistinctSamplers(curveDatum) ==> DistinctSamplers(r))
  {
    var property := PropertyToTarget(b.propertyName);
    if Exported(property) {
      var idx := SamplerOf(b, scene);
      var pos := BucketPosition(curveDatum, idx);
      var created := NewCurve(b, scene, ElementCountOf(b, scene).value);
      var datum := if pos < |curveDatum| then curveDatum else curveDatum + [created];
      var r := AddBinding(curveDatum, b, scene, ops).value;
      assert |r| == |datum| && forall j :: 0 <= j < |datum| ==> SameBucket(r[j], datum[j]);
      if pos == |curveDatum| {
        SamplerIndicesAppend(curveDatum, created);
      } else {
        assert curveDatum[pos].samplerIndex == idx;
      }
      SamplerIndicesSameBuckets(r, datum);
    }
  }

  /** The sampler indices of the supported bindings. */
  function ExportedSamplers(bindings: seq<CurveBinding>, scene: Scene): set<int> {
    set b | b in bindings && Exported(PropertyToTarget(b.propertyName)) :: SamplerOf(b, scene)
  }

  lemma ExportedSamplersAppend(bindings: seq<CurveBinding>, b: CurveBinding, scene: Scene)
    ensures ExportedSamplers(bindings + [b], scene) ==
      ExportedSamplers(bindings, scene) + (if Exported(PropertyToTarget(b.propertyName)) then {SamplerOf(b, scene)} else {})
  {
    var s := bindings + [b];
    assert forall x :: x in s <==> x in bindings || x == b;
  }

  /**
   * After the binding loop there is exactly one bucket per sampler index of
   * a supported binding, and none for any other index.
   */
  lemma {:induction false} AggregatedBuckets(bindings: seq<CurveBinding>, scene: Scene, ops: CurveOps)
    requires Aggregated(bindings, scene, ops).Ok?
    ensures DistinctSamplers(Aggregated(bindings, scene, ops).value)
    ensures SamplerIndices(Aggregated(bindings, scene, ops).value) == ExportedSamplers(bindings, scene)
    decreases |bindings|
  {
    if bindings != [] {
      var prefix := bindings[..|bindings| - 1];
      var last := bindings[|bindings| - 1];
      AggregatedBuckets(prefix, scene, ops);
      var curveDatum := Aggregated(prefix, scene, ops).value;
      AddBindingBuckets(curveDatum, last, scene, ops);
      ExportedSamplersAppend(prefix, last, scene);
      assert bindings == prefix + [last];
    }
  }

  /**
   * The keys a supported binding hands to its bucket: when its element
   * offset lies in [0, elementCount) its bucket receives every key, with
   * blend-shape weights divided by 100 and other values unchanged, and no
   * other bucket changes; otherwise no bucket's keyframes change.
   */
  lemma AddBindingKeyframes(curveDatum: seq<AnimationCurveData>, b: CurveBinding, scene: Scene, ops: CurveOps)
    requires Exported(PropertyToTarget(b.propertyName))
    requires AddBinding(curveDatum, b, scene, ops).Ok?
    ensures ElementCountOf(b, scene).Ok? && ElementOffsetOf(b).Ok?
    ensures var r := AddBinding(curveDatum, b, scene, ops).value;
      var count := ElementCountOf(b, scene).value;
      var pos := BucketPosition(curveDatum, SamplerOf(b, scene));
      var before := if pos < |curveDatum| then curveDatum[pos] else NewCurve(b, scene, count);
      var offset := ElementOffsetOf(b).value;
      && pos < |r|
      && r[pos].samplerIndex == SamplerOf(b, scene)
      && (forall j :: 0 <= j < |curveDatum| && j != pos ==> r[j] == curveDatum[j])
      && (0 <= offset < count && PropertyToTarget(b.propertyName) != BlendShape ==>
            r[pos] == SetKeys(before, b.keys, offset, ops))
      && (0 <= offset < count && PropertyToTarget(b.propertyName) == BlendShape ==>
            r[pos] == SetKeys(before, Percentages(b.keys), offset, ops))
      && (!(0 <= offset < count) ==> r[pos] == before)
  {
    var property := PropertyToTarget(b.propertyName);
    if property == BlendShape {
      assert Scaled(b.keys, ValueFactor(property)) == Percentages(b.keys);
    } else {
      assert Scaled(b.keys, ValueFactor(property)) == b.keys;
    }
  }

  /** The keys with every value read as a percentage. */
  function Percentages(keys: seq<Key>): (r: seq<Key>) {
    seq(|keys|, i requires 0 <= i < |keys| => Key(keys[i].time, keys[i].value / 100.0))
  }

  /** A blend-shape weight of 50 reaches the bucket as 0.5. */
  lemma BlendShapeWeightExample(curveDatum: seq<AnimationCurveData>, b: CurveBinding, scene: Scene, ops: CurveOps)
    requires PropertyToTarget(b.propertyName) == BlendShape
    requires b.keys == [Key(1.0, 50.0)]
    requires b.mesh.Ok? && 0 <= b.mesh.value.blendShapeIndex < b.mesh.value.blendShapeCount
    ensures AddBinding(curveDatum, b, scene, ops).Ok?
    ensures var r := AddBinding(curveDatum, b, scene, ops).value;
      var pos := BucketPosition(curveDatum, SamplerOf(b, scene));
      var before := if pos < |curveDatum| then curveDatum[pos] else NewCurve(b, scene, b.mesh.value.blendShapeCount);
      r[pos].keyframes == ops.setKeyframeData(before, 1.0, 0.5, b.mesh.value.blendShapeIndex)
  {
    AddBindingKeyframes(curveDatum, b, scene, ops);
    assert Percentages(b.keys) == [Key(1.0, 0.5)];
    assert [Key(1.0, 0.5)][..0] == [];
  }
}
