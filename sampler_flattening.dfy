/**
 * The second loop of AnimationExporter.Export: every bucket with keyframes
 * is recounted and flattened into an Input array of times and an Output
 * array of row vectors, stored in the SamplerMap under its sampler index.
 */
module SamplerFlattening {
  import opened Outcomes
  import opened CurveModel
  import opened CurveAggregation

  /** The contents of one SamplerMap entry. */
  datatype SamplerValues = SamplerValues(input: seq<real>, output: seq<real>)

  /** The contents of the SamplerMap and the interpolation given to each sampler. */
  datatype SamplerTables = SamplerTables(values: map<int, SamplerValues>, interpolation: map<int, string>)

  /** The times of the keyframes, in order. */
  function Times(keyframes: seq<Keyframe>): seq<real> {
    seq(|keyframes|, k requires 0 <= k < |keyframes| => keyframes[k].time)
  }

  /** The right-handed vector of every keyframe of the bucket, in order. */
  function Vectors(curve: AnimationCurveData, ops: CurveOps): seq<seq<real>> {
    seq(|curve.keyframes|, k requires 0 <= k < |curve.keyframes| => ops.getRightHandCoordinate(curve, curve.keyframes[k]))
  }

  /** Every vector holds at least `elementNum` floats, so each row's block copy succeeds. */
  predicate RowsFit(vectors: seq<seq<real>>, elementNum: nat) {
    forall k :: 0 <= k < |vectors| ==> elementNum <= |vectors[k]|
  }

  /** The first `elementNum` elements of every vector, concatenated in order. */
  function Rows(vectors: seq<seq<real>>, elementNum: nat): seq<real>
    requires RowsFit(vectors, elementNum)
    decreases |vectors|
  {
    if vectors == [] then []
    else Rows(vectors[..|vectors| - 1], elementNum) + vectors[|vectors| - 1][..elementNum]
  }

  /**
   * Where row k of rows of `elementNum` floats starts: k * elementNum,
   * written as repeated addition so that the layout proofs stay linear.
   */
  function RowStart(k: nat, elementNum: nat): nat {
    if k == 0 then 0 else RowStart(k - 1, elementNum) + elementNum
  }

  lemma {:induction false} RowStartIsProduct(k: nat, elementNum: nat)
    ensures RowStart(k, elementNum) == k * elementNum
  {
    if k > 0 {
      RowStartIsProduct(k - 1, elementNum);
      assert (k - 1) * elementNum + elementNum == k * elementNum;
    }
  }

  lemma {:induction false} RowStartMonotonic(a: nat, b: nat, elementNum: nat)
    requires a <= b
    ensures RowStart(a, elementNum) <= RowStart(b, elementNum)
    decreases b
  {
    if a < b {
      RowStartMonotonic(a, b - 1, elementNum);
    }
  }

  /** The flattened rows hold elementNum floats per vector. */
  lemma {:induction false} RowsLength(vectors: seq<seq<real>>, elementNum: nat)
    requires RowsFit(vectors, elementNum)
    ensures |Rows(vectors, elementNum)| == RowStart(|vectors|, elementNum)
    decreases |vectors|
  {
    if vectors != [] {
      RowsLength(vectors[..|vectors| - 1], elementNum);
    }
  }

  /** Row k of the flattened rows is the first elementNum floats of vector k. */
  lemma {:induction false} RowsRow(vectors: seq<seq<real>>, elementNum: nat, k: nat)
    requires RowsFit(vectors, elementNum)
    requires k < |vectors|
    ensures RowStart(k, elementNum) + elementNum <= |Rows(vectors, elementNum)|
    ensures Rows(vectors, elementNum)[RowStart(k, elementNum) .. RowStart(k, elementNum) + elementNum] == vectors[k][..elementNum]
    decreases |vectors|
  {
    var m := |vectors| - 1;
    var prefix := vectors[..m];
    var head := Rows(prefix, elementNum);
    RowsLength(prefix, elementNum);
    assert Rows(vectors, elementNum) == head + vectors[m][..elementNum];
    var start := RowStart(k, elementNum);
    if k == m {
      assert start == |head|;
    } else {
      RowsRow(prefix, elementNum, k);
      assert prefix[k] == vectors[k];
      assert head[start .. start + elementNum] == vectors[k][..elementNum];
    }
  }

  /** The bucket after RecountEmptyKeyframe. */
  function Recounted(curve: AnimationCurveData, ops: CurveOps): AnimationCurveData {
    curve.(keyframes := ops.recountEmptyKeyframe(curve))
  }

  /**
   * The SamplerMap entry of a recounted bucket: Keyframes.First() throws on
   * an empty list, and Buffer.BlockCopy throws when a row holds fewer
   * floats than the first keyframe has values.
   */
  function SamplerEntry(curve: AnimationCurveData, ops: CurveOps): Result<SamplerValues> {
    if |curve.keyframes| == 0 then Throw(InvalidOperationException)
    else
      var elementNum := |curve.keyframes[0].values|;
      var vectors := Vectors(curve, ops);
      if RowsFit(vectors, elementNum) then Ok(SamplerValues(Times(curve.keyframes), Rows(vectors, elementNum)))
      else Throw(ArgumentException)
  }

  /** Row k of the flattened vectors is the first elementNum floats of keyframe k's right-handed vector. */
  lemma VectorRowsLayout(curve: AnimationCurveData, ops: CurveOps, elementNum: nat)
    requires RowsFit(Vectors(curve, ops), elementNum)
    ensures |Rows(Vectors(curve, ops), elementNum)| == RowStart(|curve.keyframes|, elementNum)
    ensures forall k :: 0 <= k < |curve.keyframes| ==>
      var row := ops.getRightHandCoordinate(curve, curve.keyframes[k]);
      && elementNum <= |row|
      && RowStart(k, elementNum) + elementNum <= |Rows(Vectors(curve, ops), elementNum)|
      && Rows(Vectors(curve, ops), elementNum)[RowStart(k, elementNum) .. RowStart(k, elementNum) + elementNum] == row[..elementNum]
  {
    var vectors := Vectors(curve, ops);
    RowsLength(vectors, elementNum);
    forall k | 0 <= k < |curve.keyframes|
      ensures var row := ops.getRightHandCoordinate(curve, curve.keyframes[k]);
        && elementNum <= |row|
        && RowStart(k, elementNum) + elementNum <= |Rows(vectors, elementNum)|
        && Rows(vectors, elementNum)[RowStart(k, elementNum) .. RowStart(k, elementNum) + elementNum] == row[..elementNum]
    {
      RowsRow(vectors, elementNum, k);
      assert vectors[k] == ops.getRightHandCoordinate(curve, curve.keyframes[k]);
    }
  }

  /**
   * Shape of a flattened bucket: one time per keyframe, in order, and
   * Output holding elementNum floats per keyframe, row k (from offset
   * k * elementNum) being the first elementNum floats of keyframe k's
   * right-handed vector.
   */
  lemma SamplerEntryLayout(curve: AnimationCurveData, ops: CurveOps, v: SamplerValues)
    requires SamplerEntry(curve, ops) == Ok(v)
    ensures |curve.keyframes| > 0
    ensures |v.input| == |curve.keyframes|
    ensures |v.output| == |v.input| * |curve.keyframes[0].values|
    ensures forall k :: 0 <= k < |curve.keyframes| ==> v.input[k] == curve.keyframes[k].time
    ensures forall k :: 0 <= k < |curve.keyframes| ==>
      var elementNum := |curve.keyframes[0].values|;
      var row := ops.getRightHandCoordinate(curve, curve.keyframes[k]);
      && elementNum <= |row|
      && RowStart(k, elementNum) + elementNum <= |v.output|
      && v.output[RowStart(k, elementNum) .. RowStart(k, elementNum) + elementNum] == row[..elementNum]
  {
    var elementNum := |curve.keyframes[0].values|;
    assert v.input == Times(curve.keyframes);
    assert v.output == Rows(Vectors(curve, ops), elementNum);
    VectorRowsLayout(curve, ops, elementNum);
    RowStartIsProduct(|curve.keyframes|, elementNum);
  }

  /**
   * The tables after one iteration of the flatten loop: a bucket without
   * keyframes is passed over, any other is recounted and stored under its
   * sampler index together with its interpolation.
   */
  function AddSampler(tables: SamplerTables, curve: AnimationCurveData, ops: CurveOps): Result<SamplerTables> {
    if |curve.keyframes| == 0 then Ok(tables)
    else
      var recounted := Recounted(curve, ops);
      match SamplerEntry(recounted, ops)
      case Throw(e) => Throw(e)
      case Ok(v) =>
        Ok(SamplerTables(
          tables.values[curve.samplerIndex := v],
          tables.interpolation[curve.samplerIndex := ops.getInterpolation(recounted)]))
  }

  /** The SamplerMap and interpolations after the flatten loop has run over `curveDatum`. */
  function Flattened(curveDatum: seq<AnimationCurveData>, ops: CurveOps): Result<SamplerTables>
    decreases |curveDatum|
  {
    if curveDatum == [] then Ok(SamplerTables(map[], map[]))
    else
      match Flattened(curveDatum[..|curveDatum| - 1], ops)
      case Throw(e) => Throw(e)
      case Ok(tables) => AddSampler(tables, curveDatum[|curveDatum| - 1], ops)
  }

  /** Once a bucket throws, the remaining buckets are not looked at. */
  lemma {:induction false} FlattenedThrowPropagates(curveDatum: seq<AnimationCurveData>, i: nat, ops: CurveOps)
    requires i <= |curveDatum|
    requires Flattened(curveDatum[..i], ops).Throw?
    ensures Flattened(curveDatum, ops) == Flattened(curveDatum[..i], ops)
    decreases |curveDatum| - i
  {
    if i < |curveDatum| {
      assert curveDatum[..i + 1][..i] == curveDatum[..i];
      FlattenedThrowPropagates(curveDatum, i + 1, ops);
    } else {
      assert curveDatum[..i] == curveDatum;
    }
  }

  /** A bucket whose entry is `SamplerEntry` of the recounted bucket, or none when it has no keyframes. */
  ghost predicate EntryOf(tables: SamplerTables, curve: AnimationCurveData, ops: CurveOps) {
    && (curve.samplerIndex in tables.values <==> |curve.keyframes| > 0)
    && (|curve.keyframes| > 0 ==>
          && Ok(tables.values[curve.samplerIndex]) == SamplerEntry(Recounted(curve, ops), ops)
          && curve.samplerIndex in tables.interpolation
          && tables.interpolation[curve.samplerIndex] == ops.getInterpolation(Recounted(curve, ops)))
  }

  /**
   * The tables describe the buckets: each bucket with keyframes has its own
   * entry and interpolation, a bucket without keyframes has none, and
   * nothing else is stored.
   */
  ghost predicate Describes(tables: SamplerTables, curveDatum: seq<AnimationCurveData>, ops: CurveOps) {
    && tables.values.Keys <= SamplerIndices(curveDatum)
    && tables.interpolation.Keys == tables.values.Keys
    && forall j :: 0 <= j < |curveDatum| ==> EntryOf(tables, curveDatum[j], ops)
  }

  /** The flatten loop succeeds exactly when every bucket with keyframes can be flattened. */
  lemma {:induction false} FlattenedOk(curveDatum: seq<AnimationCurveData>, ops: CurveOps)
    ensures Flattened(curveDatum, ops).Ok? <==>
      forall j :: 0 <= j < |curveDatum| && |curveDatum[j].keyframes| > 0 ==> SamplerEntry(Recounted(curveDatum[j], ops), ops).Ok?
    decreases |curveDatum|
  {
    if curveDatum != [] {
      var m := |curveDatum| - 1;
      var prefix := curveDatum[..m];
      FlattenedOk(prefix, ops);
      assert forall j :: 0 <= j < m ==> prefix[j] == curveDatum[j];
    }
  }

  /** One more bucket, with a sampler index not seen before, keeps the tables describing the buckets. */
  lemma AddSamplerDescribes(tables: SamplerTables, prefix: seq<AnimationCurveData>, curve: AnimationCurveData, ops: CurveOps)
    requires Describes(tables, prefix, ops)
    requires curve.samplerIndex !in SamplerIndices(prefix)
    requires AddSampler(tables, curve, ops).Ok?
    ensures Describes(AddSampler(tables, curve, ops).value, prefix + [curve], ops)
  {
    var t := AddSampler(tables, curve, ops).value;
    var curveDatum := prefix + [curve];
    SamplerIndicesAppend(prefix, curve);
    forall j | 0 <= j < |curveDatum| ensures EntryOf(t, curveDatum[j], ops) {
      if j < |prefix| {
        assert curveDatum[j] == prefix[j];
        assert EntryOf(tables, prefix[j], ops);
        assert prefix[j].samplerIndex in SamplerIndices(prefix);
      }
    }
  }

  /**
   * When the flatten loop succeeds over buckets with distinct sampler
   * indices, a bucket without keyframes has no SamplerMap entry, every
   * other bucket has its own, and nothing else is in the map.
   */
  lemma {:induction false} FlattenedEntries(curveDatum: seq<AnimationCurveData>, ops: CurveOps)
    requires DistinctSamplers(curveDatum)
    requires Flattened(curveDatum, ops).Ok?
    ensures Describes(Flattened(curveDatum, ops).value, curveDatum, ops)
    decreases |curveDatum|
  {
    if curveDatum != [] {
      var m := |curveDatum| - 1;
      var prefix := curveDatum[..m];
      assert DistinctSamplers(prefix) by {
        assert forall j :: 0 <= j < m ==> prefix[j] == curveDatum[j];
      }
      FlattenedEntries(prefix, ops);
      NewSamplerIndex(curveDatum, m);
      assert curveDatum == prefix + [curveDatum[m]];
      AddSamplerDescribes(Flattened(prefix, ops).value, prefix, curveDatum[m], ops);
    }
  }

  /** The SamplerMap and interpolations Export produces for a clip, or the exception it throws. */
  function ExportTables(bindings: seq<CurveBinding>, scene: Scene, ops: CurveOps): Result<SamplerTables> {
    match Aggregated(bindings, scene, ops)
    case Throw(e) => Throw(e)
    case Ok(curveDatum) => Flattened(curveDatum, ops)
  }

  /** AnimationExporter.InputOutputValues */
  datatype InputOutputValues = InputOutputValues(Input: array<real>, Output: array<real>)

  /** Every array of the SamplerMap's entries is in `arrays`. */
  ghost predicate ArraysIn(samplerMap: map<int, InputOutputValues>, arrays: set<array<real>>) {
    forall k :: k in samplerMap ==> samplerMap[k].Input in arrays && samplerMap[k].Output in arrays
  }

  /** The contents of a SamplerMap's arrays, with the interpolations. */
  ghost function TablesOf(samplerMap: map<int, InputOutputValues>, interpolation: map<int, string>, arrays: set<array<real>>): SamplerTables
    requires ArraysIn(samplerMap, arrays)
    reads arrays
  {
    SamplerTables(
      map k | k in samplerMap :: SamplerValues(samplerMap[k].Input[..], samplerMap[k].Output[..]),
      interpolation)
  }

  /** Storing a new entry adds its arrays' contents under its key and leaves the other entries as they were. */
  lemma TablesOfInsert(
    samplerMap: map<int, InputOutputValues>, interpolation: map<int, string>, arrays: set<array<real>>,
    key: int, values: InputOutputValues, mode: string)
    requires ArraysIn(samplerMap, arrays)
    ensures ArraysIn(samplerMap[key := values], arrays + {values.Input, values.Output})
    ensures TablesOf(samplerMap[key := values], interpolation[key := mode], arrays + {values.Input, values.Output}) == SamplerTables(
      TablesOf(samplerMap, interpolation, arrays).values[key := SamplerValues(values.Input[..], values.Output[..])],
      interpolation[key := mode])
  {
    var after := TablesOf(samplerMap[key := values], interpolation[key := mode], arrays + {values.Input, values.Output}).values;
    var expected := TablesOf(samplerMap, interpolation, arrays).values[key := SamplerValues(values.Input[..], values.Output[..])];
    assert after.Keys == expected.Keys;
    forall k | k in after ensures after[k] == expected[k] {
    }
  }

  /**
   * AnimationExporter.AnimationWithSampleCurves. Interpolation holds what
   * Export assigns to Animation.samplers[i].interpolation; Repr is the set
   * of arrays the SamplerMap's entries own.
   */
  class AnimationWithSampleCurves {
    var SamplerMap: map<int, InputOutputValues>
    var Interpolation: map<int, string>
    ghost var Repr: set<array<real>>

    ghost predicate Valid()
      reads this
    {
      ArraysIn(SamplerMap, Repr)
    }

    constructor ()
      ensures Valid()
      ensures SamplerMap == map[] && Interpolation == map[] && Repr == {}
    {
      SamplerMap := map[];
      Interpolation := map[];
      Repr := {};
    }

    /** The contents of the SamplerMap's arrays. */
    ghost function Tables(): SamplerTables
      requires Valid()
      reads this, Repr
    {
      TablesOf(SamplerMap, Interpolation, Repr)
    }
  }

  /** Buffer.BlockCopy of `count` floats from the start of `src` into `dst` at `dstOffset`, element by element. */
  method BlockCopy(src: seq<real>, dst: array<real>, dstOffset: nat, count: nat)
    requires count <= |src| && dstOffset + count <= dst.Length
    modifies dst
    ensures dst[..] == old(dst[..dstOffset]) + src[..count] + old(dst[dstOffset + count..])
  {
    ghost var original := dst[..];
    var j := 0;
    while j < count
      invariant 0 <= j <= count
      invariant forall t :: 0 <= t < dst.Length ==>
        dst[t] == if dstOffset <= t < dstOffset + j then src[t - dstOffset] else original[t]
    {
      dst[dstOffset + j] := src[j];
      j := j + 1;
    }
    ghost var expected := original[..dstOffset] + src[..count] + original[dstOffset + count..];
    assert forall t :: 0 <= t < dst.Length ==> dst[t] == expected[t];
  }

  /**
   * The keyframeIndex loop: time k into Input[k], and the right-handed
   * vector of keyframe k into Output[k * elementNum .. (k + 1) * elementNum).
   * It stops (BlockCopy throws) at the first vector shorter than elementNum.
   */
  method FillInputOutput(values: InputOutputValues, curve: AnimationCurveData, elementNum: nat, ops: CurveOps)
    returns (ok: bool)
    requires values.Input != values.Output
    requires values.Input.Length == |curve.keyframes|
    requires values.Output.Length == |curve.keyframes| * elementNum
    modifies values.Input, values.Output
    ensures ok <==> RowsFit(Vectors(curve, ops), elementNum)
    ensures ok ==> values.Input[..] == Times(curve.keyframes)
    ensures ok ==> values.Output[..] == Rows(Vectors(curve, ops), elementNum)
  {
    ghost var vectors := Vectors(curve, ops);
    RowStartIsProduct(|curve.keyframes|, elementNum);
    var keyframeIndex := 0;
    while keyframeIndex < |curve.keyframes|
      invariant 0 <= keyframeIndex <= |curve.keyframes|
      invariant RowsFit(vectors[..keyframeIndex], elementNum)
      invariant values.Input[..keyframeIndex] == Times(curve.keyframes)[..keyframeIndex]
      invariant RowStart(keyframeIndex, elementNum) <= values.Output.Length
      invariant values.Output[..RowStart(keyframeIndex, elementNum)] == Rows(vectors[..keyframeIndex], elementNum)
    {
      var keyframe := curve.keyframes[keyframeIndex];
      values.Input[keyframeIndex] := keyframe.time;
      var row := ops.getRightHandCoordinate(curve, keyframe);
      if |row| < elementNum {
        assert vectors[keyframeIndex] == row;
        return false;
      }
      var offset := keyframeIndex * elementNum;
      RowStartIsProduct(keyframeIndex, elementNum);
      RowStartMonotonic(keyframeIndex + 1, |curve.keyframes|, elementNum);
      ghost var before := values.Output[..];
      BlockCopy(row, values.Output, offset, elementNum);
      assert vectors[..keyframeIndex + 1][..keyframeIndex] == vectors[..keyframeIndex];
      assert vectors[..keyframeIndex + 1][keyframeIndex] == row;
      assert values.Output[..offset + elementNum] == before[..offset] + row[..elementNum];
      keyframeIndex := keyframeIndex + 1;
    }
    assert vectors[..|curve.keyframes|] == vectors;
    assert values.Input[..] == values.Input[..|curve.keyframes|];
    assert values.Output[..] == values.Output[..RowStart(|curve.keyframes|, elementNum)];
    return true;
  }

  /** A fresh InputOutputValues sized for the bucket and filled by the keyframeIndex loop. */
  method NewInputOutputValues(curve: AnimationCurveData, elementNum: nat, ops: CurveOps)
    returns (values: InputOutputValues, ok: bool)
    ensures fresh(values.Input) && fresh(values.Output)
    ensures ok <==> RowsFit(Vectors(curve, ops), elementNum)
    ensures ok ==> values.Input[..] == Times(curve.keyframes)
    ensures ok ==> values.Output[..] == Rows(Vectors(curve, ops), elementNum)
  {
    var input := new real[|curve.keyframes|](_ => 0.0);
    var output := new real[|curve.keyframes| * elementNum](_ => 0.0);
    values := InputOutputValues(input, output);
    ok := FillInputOutput(values, curve, elementNum, ops);
  }

  /**
   * The SamplerMap entry of a recounted bucket: Keyframes.First() throws
   * when the recount left no keyframes, and BlockCopy throws when a row is
   * short; otherwise fresh arrays holding SamplerEntry's contents.
   */
  method NewSamplerValues(recounted: AnimationCurveData, ops: CurveOps) returns (r: Result<InputOutputValues>)
    ensures r.Throw? <==> SamplerEntry(recounted, ops).Throw?
    ensures r.Throw? ==> SamplerEntry(recounted, ops) == Throw(r.exception)
    ensures r.Ok? ==> fresh(r.value.Input) && fresh(r.value.Output)
    ensures r.Ok? ==> SamplerEntry(recounted, ops) == Ok(SamplerValues(r.value.Input[..], r.value.Output[..]))
  {
    if |recounted.keyframes| == 0 {
      // Keyframes.First() on an empty list
      return Throw(InvalidOperationException);
    }
    var elementNum := |recounted.keyframes[0].values|;
    // The source stores the new entry before filling it; the arrays are not
    // shared with anything else and a throw ends Export, so filling first
    // leaves the same SamplerMap.
    var values, ok := NewInputOutputValues(recounted, elementNum, ops);
    if !ok {
      return Throw(ArgumentException);
    }
    return Ok(values);
  }

  /**
   * Stores the SamplerMap entry and the interpolation of a recounted bucket
   * under its sampler index, or fails as SamplerEntry says.
   */
  method StoreSampler(animation: AnimationWithSampleCurves, recounted: AnimationCurveData, ops: CurveOps)
    returns (outcome: Outcome)
    requires animation.Valid()
    requires recounted.samplerIndex !in animation.SamplerMap
    modifies animation
    ensures animation.Valid()
    ensures fresh(animation.Repr - old(animation.Repr))
    ensures animation.SamplerMap.Keys <= old(animation.SamplerMap.Keys) + {recounted.samplerIndex}
    ensures SamplerEntry(recounted, ops).Throw? ==> outcome == Fail(SamplerEntry(recounted, ops).exception)
    ensures SamplerEntry(recounted, ops).Ok? ==>
      && outcome.Pass?
      && animation.Tables() == SamplerTables(
           old(animation.Tables()).values[recounted.samplerIndex := SamplerEntry(recounted, ops).value],
           old(animation.Tables()).interpolation[recounted.samplerIndex := ops.getInterpolation(recounted)])
  {
    ghost var before := animation.Tables();
    var entry := NewSamplerValues(recounted, ops);
    if entry.Throw? {
      return Fail(entry.exception);
    }
    var values := entry.value;
    var mode := ops.getInterpolation(recounted);
    assert TablesOf(animation.SamplerMap, animation.Interpolation, animation.Repr) == before;
    TablesOfInsert(animation.SamplerMap, animation.Interpolation, animation.Repr, recounted.samplerIndex, values, mode);
    animation.SamplerMap := animation.SamplerMap[recounted.samplerIndex := values];
    animation.Interpolation := animation.Interpolation[recounted.samplerIndex := mode];
    animation.Repr := animation.Repr + {values.Input, values.Output};
    return Pass;
  }

  /**
   * One iteration of the flatten loop: a bucket with keyframes is recounted,
   * gets a fresh SamplerMap entry and its interpolation, and is flattened
   * into that entry's arrays.
   */
  method FlattenCurve(animation: AnimationWithSampleCurves, curve: AnimationCurveData, ops: CurveOps)
    returns (outcome: Outcome)
    requires animation.Valid()
    requires curve.samplerIndex !in animation.SamplerMap
    modifies animation
    ensures animation.Valid()
    ensures fresh(animation.Repr - old(animation.Repr))
    ensures animation.SamplerMap.Keys <= old(animation.SamplerMap.Keys) + {curve.samplerIndex}
    ensures match AddSampler(old(animation.Tables()), curve, ops)
      case Throw(e) => outcome == Fail(e)
      case Ok(tables) => outcome.Pass? && animation.Tables() == tables
  {
    if |curve.keyframes| == 0 {
      return Pass;
    }
    var recounted := curve.(keyframes := ops.recountEmptyKeyframe(curve));
    outcome := StoreSampler(animation, recounted, ops);
  }

  /** Unfolding Flattened and SamplerIndices by one bucket of a prefix. */
  lemma FlattenedStep(curveDatum: seq<AnimationCurveData>, i: nat, ops: CurveOps)
    requires i < |curveDatum|
    ensures Flattened(curveDatum[..i + 1], ops) ==
      if Flattened(curveDatum[..i], ops).Throw? then Flattened(curveDatum[..i], ops)
      else AddSampler(Flattened(curveDatum[..i], ops).value, curveDatum[i], ops)
    ensures SamplerIndices(curveDatum[..i + 1]) == SamplerIndices(curveDatum[..i]) + {curveDatum[i].samplerIndex}
  {
    assert curveDatum[..i + 1][..i] == curveDatum[..i];
    assert curveDatum[..i + 1] == curveDatum[..i] + [curveDatum[i]];
    SamplerIndicesAppend(curveDatum[..i], curveDatum[i]);
  }

  /** With distinct sampler indices, no earlier bucket has bucket i's sampler index. */
  lemma NewSamplerIndex(curveDatum: seq<AnimationCurveData>, i: nat)
    requires DistinctSamplers(curveDatum)
    requires i < |curveDatum|
    ensures curveDatum[i].samplerIndex !in SamplerIndices(curveDatum[..i])
  {
    assert forall j :: 0 <= j < i ==> curveDatum[..i][j] == curveDatum[j];
  }

  /**
   * The flatten loop of Export: every bucket in order goes through
   * FlattenCurve, and the first failure ends the loop.
   */
  method FlattenAll(curveDatum: seq<AnimationCurveData>, ops: CurveOps) returns (r: Result<AnimationWithSampleCurves>)
    requires DistinctSamplers(curveDatum)
    ensures r.Ok? <==> Flattened(curveDatum, ops).Ok?
    ensures r.Throw? ==> Flattened(curveDatum, ops) == Throw(r.exception)
    ensures r.Ok? ==> fresh(r.value) && fresh(r.value.Repr) && r.value.Valid()
    ensures r.Ok? ==> r.value.Tables() == Flattened(curveDatum, ops).value
  {
    var animation := new AnimationWithSampleCurves();
    var i := 0;
    while i < |curveDatum|
      invariant 0 <= i <= |curveDatum|
      invariant fresh(animation)
      invariant animation.Valid() && fresh(animation.Repr)
      invariant animation.SamplerMap.Keys <= SamplerIndices(curveDatum[..i])
      invariant Flattened(curveDatum[..i], ops) == Ok(animation.Tables())
    {
      var curve := curveDatum[i];
      FlattenedStep(curveDatum, i, ops);
      // The sampler indices of the buckets are distinct, so TryGetValue never finds an entry.
      NewSamplerIndex(curveDatum, i);
      ghost var before := animation.Tables();
      var outcome := FlattenCurve(animation, curve, ops);
      if outcome.Fail? {
        assert Flattened(curveDatum[..i + 1], ops) == Throw(outcome.exception);
        FlattenedThrowPropagates(curveDatum, i + 1, ops);
        return Throw(outcome.exception);
      }
      assert Flattened(curveDatum[..i + 1], ops) == AddSampler(before, curve, ops) == Ok(animation.Tables());
      i := i + 1;
    }
    assert curveDatum[..|curveDatum|] == curveDatum;
    return Ok(animation);
  }

  /**
   * AnimationExporter.Export: aggregate the bindings into buckets, then
   * flatten every bucket with keyframes into a fresh SamplerMap entry.
   */
  method Export(bindings: seq<CurveBinding>, scene: Scene, ops: CurveOps) returns (r: Result<AnimationWithSampleCurves>)
    ensures r.Ok? <==> ExportTables(bindings, scene, ops).Ok?
    ensures r.Throw? ==> ExportTables(bindings, scene, ops) == Throw(r.exception)
    ensures r.Ok? ==> fresh(r.value) && fresh(r.value.Repr) && r.value.Valid()
    ensures r.Ok? ==> r.value.Tables() == ExportTables(bindings, scene, ops).value
  {
    var aggregated := Aggregate(bindings, scene, ops);
    if aggregated.Throw? {
      return Throw(aggregated.exception);
    }
    AggregatedBuckets(bindings, scene, ops);
    r := FlattenAll(aggregated.value, ops);
  }
}
