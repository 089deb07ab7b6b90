# AnimationExporter (VCI glTF) in Dafny

This project models the part of the VCI glTF exporter that turns a Unity
animation clip into glTF 2.0 animation data
(`Assets/VCI/VCIGLTF/Scripts/IO/AnimationExporter.cs`):

- **Classifying a curve binding.** `PropertyToTarget` maps a Unity property
  name to a glTF animation target by its prefix. `GetElementOffset` maps an
  axis suffix (`.x`, `.y`, `.z`, `.w`) or a `blendShape.` prefix to the
  vector element the curve feeds, and throws otherwise
  (module `AnimationProperties`).
- **Aggregating bindings** (the first loop of `Export`). A binding whose
  target is not implemented, or is an Euler rotation, is skipped. Every
  other binding finds the curve bucket (`AnimationCurveData`) of its
  sampler, or creates one, and hands the bucket each of its keys.
  Blend-shape weights are scaled by 0.01. This happens only when the
  element offset lies inside the target's element count
  (module `CurveAggregation`).
- **Flattening buckets** (the second loop of `Export`). A bucket without
  keyframes is skipped. Every other bucket is recounted, then flattened
  into an `Input` array with one time per keyframe and an `Output` array
  with one row of `elementNum` floats per keyframe. The pair is stored in
  `SamplerMap` under the bucket's sampler index
  (module `SamplerFlattening`, class `AnimationWithSampleCurves`).
- **Writing the animation** (`WriteAnimationWithSampleCurves`). Each
  `SamplerMap` entry gets an input accessor carrying the minimum and
  maximum time, as section 3.6.2 of the glTF 2.0 specification requires of
  animation sampler inputs. It also gets an output accessor whose type and
  count are reshaped from the element count of the channel's target:
  `SCALAR`, `VEC3` or `VEC4`. Any other element count throws. Finally the
  animation is named and added to the document (module `SampleCurveWriter`).

Every loop is a method that works the way the source does: it appends to
a list, inserts into a map, fills arrays, and updates the sampler and
accessor fields. Its `ensures` ties its result or new state to an
independent specification:

- The binding loop, the key loop and the flatten loop are tied to
  specification functions that fold one step over the input prefix
  (`Aggregated`, `SetKeys`, `Flattened`). Lemmas then prove what the
  exporter promises about those folds: one bucket per sampler index, the
  scaling and guard on keys, and the array layout.
- The min/max scan is tied to the predicate `IsInputBounds`, which says
  what a minimum and a maximum are.
- The SamplerMap loop of the writer is tied to the predicate
  `EntriesWritten`, which states the samplers and accessors after a
  sequence of entries was written.
- The key enumeration (`EnumerateKeys`) and the row copy (`BlockCopy`) are
  stated directly: every key exactly once, and the destination's new
  contents.

`AnimationCurveData`'s own members (`SetKeyframeData`,
`RecountEmptyKeyframe`, `Keyframe.GetRightHandCoordinate`,
`GetInterpolation`) are not part of this model. They are uninterpreted
functions held in a `CurveOps` record. Exceptions are values
(`Outcomes.Result`, `Outcomes.Outcome`) and carry the .NET exception type
the source would throw.

## Model

| member | source | states |
|---|---|---|
| AnimationProperties.PropertyToTarget | Assets/VCI/VCIGLTF/Scripts/IO/AnimationExporter.cs:66-92 | Total. Returns Translation, EulerRotation, Rotation, Scale or BlendShape exactly when the name starts with `m_LocalPosition.`, `localEulerAnglesRaw.`, `m_LocalRotation.`, `m_LocalScale.` or `blendShape.` respectively. Returns NotImplemented exactly when it starts with none of them. |
| AnimationProperties.PrefixesExclusive | Assets/VCI/VCIGLTF/Scripts/IO/AnimationExporter.cs:66-92 | No name starts with two of the five recognised prefixes, so the first-match order of the if-chain does not matter. |
| AnimationProperties.GetElementOffset | Assets/VCI/VCIGLTF/Scripts/IO/AnimationExporter.cs:94-116 | Every returned offset lies in 0..3 and is justified by the matching axis suffix or, for 1, by the `blendShape.` prefix. A name ending in the suffix of axis a yields a, except that a `blendShape.` name ending in `.z` or `.w` yields 1. It throws NotImplementedException exactly when the name has no axis suffix and no `blendShape.` prefix. |
| AnimationProperties.AxisSuffixesExclusive | Assets/VCI/VCIGLTF/Scripts/IO/AnimationExporter.cs:96-111 | A name ends with at most one of `.x`, `.y`, `.z`, `.w`. |
| AnimationProperties.BlendShapeElementOffset | Assets/VCI/VCIGLTF/Scripts/IO/AnimationExporter.cs:96-103 | A `blendShape.` name never throws. Its offset is 0 when it ends in `.x` (that test comes first) and 1 otherwise. |
| CurveAggregation.FindCurve | Assets/VCI/VCIGLTF/Scripts/IO/AnimationExporter.cs:158 | Finds the first bucket with the sampler index, and nothing earlier has that index. Returns none exactly when no bucket has the index. |
| CurveAggregation.SetKeyframes | Assets/VCI/VCIGLTF/Scripts/IO/AnimationExporter.cs:182-185 | The key loop hands SetKeyframeData every key in order, with its value multiplied by the value factor, at the element offset. |
| CurveAggregation.CollectBinding | Assets/VCI/VCIGLTF/Scripts/IO/AnimationExporter.cs:130-186 | One iteration of the binding loop leaves exactly the bucket list of the specification step `AddBinding`, or throws its exception. |
| CurveAggregation.Aggregate | Assets/VCI/VCIGLTF/Scripts/IO/AnimationExporter.cs:126-187 | The binding loop yields the fold `Aggregated` of `AddBinding` over the bindings, including the exception of the first binding that throws. |
| CurveAggregation.AggregatedThrowPropagates | Assets/VCI/VCIGLTF/Scripts/IO/AnimationExporter.cs:128-187 | Once a binding throws, later bindings do not change the outcome. |
| CurveAggregation.AddBindingThrows | Assets/VCI/VCIGLTF/Scripts/IO/AnimationExporter.cs:132-178 | A binding throws exactly when it is exported and its element count or element offset throws. A blend-shape binding whose node or mesh cannot be reached (`nodes[nodeIndex]` with index -1, a missing SkinnedMeshRenderer or mesh) throws that lookup's exception. Any other exported binding throws exactly when GetElementOffset does. |
| CurveAggregation.AddBindingBuckets | Assets/VCI/VCIGLTF/Scripts/IO/AnimationExporter.cs:132-163 | A skipped (not implemented or Euler) binding leaves the bucket list unchanged. Any other binding keeps every bucket's identity and adds exactly one bucket, with that binding's tangent mode, property, sampler and element count, exactly when no bucket has its sampler index. Distinct sampler indices are preserved. |
| CurveAggregation.AggregatedBuckets | Assets/VCI/VCIGLTF/Scripts/IO/AnimationExporter.cs:128-187 | After the loop the buckets' sampler indices are distinct and are exactly the sampler indices of the exported bindings. |
| CurveAggregation.AddBindingKeyframes | Assets/VCI/VCIGLTF/Scripts/IO/AnimationExporter.cs:166-186 | When the element offset lies in [0, elementCount), the binding's bucket receives every key: blend-shape values divided by 100, other values unchanged. Otherwise the bucket's keyframes do not change. Every other bucket is unchanged, and an exported binding's element count and offset never throw when the loop goes on. |
| CurveAggregation.BlendShapeWeightExample | Assets/VCI/VCIGLTF/Scripts/IO/AnimationExporter.cs:168-184 | A blend-shape key of weight 50 reaches SetKeyframeData as 0.5. |
| SamplerFlattening.RowStartIsProduct | Assets/VCI/VCIGLTF/Scripts/IO/AnimationExporter.cs:212 | Proof helper for FillInputOutput and SamplerEntryLayout: the model's row start `RowStart(k, n)` equals the source's offset `keyframeIndex * elementNum`. |
| SamplerFlattening.RowStartMonotonic | Assets/VCI/VCIGLTF/Scripts/IO/AnimationExporter.cs:212 | Proof helper for FillInputOutput: `RowStart` grows with k, so every row written stays inside Output. |
| SamplerFlattening.RowsLength | Assets/VCI/VCIGLTF/Scripts/IO/AnimationExporter.cs:203 | The flattened rows of n vectors hold n * elementNum floats. |
| SamplerFlattening.RowsRow | Assets/VCI/VCIGLTF/Scripts/IO/AnimationExporter.cs:212 | Row k of the flattened rows is the first elementNum floats of vector k. |
| SamplerFlattening.VectorRowsLayout | Assets/VCI/VCIGLTF/Scripts/IO/AnimationExporter.cs:209-214 | Row k is the first elementNum floats of keyframe k's right-handed vector. |
| SamplerFlattening.SamplerEntryLayout | Assets/VCI/VCIGLTF/Scripts/IO/AnimationExporter.cs:195-214 | A flattened bucket has keyframes, `Input.Length == Keyframes.Count`, and `Output.Length == Input.Length * elementNum`. `Input[k]` is keyframe k's time, and `Output[k*elementNum .. (k+1)*elementNum)` is keyframe k's right-handed vector, so no slot is left unwritten. |
| SamplerFlattening.FlattenedThrowPropagates | Assets/VCI/VCIGLTF/Scripts/IO/AnimationExporter.cs:190-215 | Once a bucket throws, later buckets do not change the outcome. |
| SamplerFlattening.FlattenedOk | Assets/VCI/VCIGLTF/Scripts/IO/AnimationExporter.cs:190-215 | The flatten loop succeeds exactly when every bucket with keyframes can be flattened after its recount. |
| SamplerFlattening.AddSamplerDescribes | Assets/VCI/VCIGLTF/Scripts/IO/AnimationExporter.cs:192-206 | Flattening one more bucket, whose sampler index is new, keeps the SamplerMap describing the buckets. |
| SamplerFlattening.FlattenedEntries | Assets/VCI/VCIGLTF/Scripts/IO/AnimationExporter.cs:190-215 | Over buckets with distinct sampler indices: a bucket with zero keyframes has no SamplerMap entry. Every other bucket has its own entry and interpolation. Nothing else is stored. |
| SamplerFlattening.TablesOfInsert | Assets/VCI/VCIGLTF/Scripts/IO/AnimationExporter.cs:204-205 | Storing an entry adds its arrays' contents and interpolation under its key and leaves the other entries as they were. |
| SamplerFlattening.AnimationWithSampleCurves.constructor | Assets/VCI/VCIGLTF/Scripts/IO/AnimationExporter.cs:120-123 | A new AnimationWithSampleCurves has an empty SamplerMap. |
| SamplerFlattening.BlockCopy | Assets/VCI/VCIGLTF/Scripts/IO/AnimationExporter.cs:212 | Buffer.BlockCopy writes the first `count` floats of the row at the offset and no other slot of the destination. |
| SamplerFlattening.FillInputOutput | Assets/VCI/VCIGLTF/Scripts/IO/AnimationExporter.cs:208-214 | The keyframeIndex loop succeeds exactly when every right-handed vector holds elementNum floats. Input then holds the keyframe times and Output their rows. |
| SamplerFlattening.NewInputOutputValues | Assets/VCI/VCIGLTF/Scripts/IO/AnimationExporter.cs:201-203 | Fresh arrays of `Keyframes.Count` and `Keyframes.Count * elementNum` floats, filled as FillInputOutput states. |
| SamplerFlattening.NewSamplerValues | Assets/VCI/VCIGLTF/Scripts/IO/AnimationExporter.cs:197-214 | Throws InvalidOperationException when the recount left no keyframes (`First()`). Throws ArgumentException when a row is short. Otherwise the fresh arrays hold the bucket's specified entry. |
| SamplerFlattening.StoreSampler | Assets/VCI/VCIGLTF/Scripts/IO/AnimationExporter.cs:197-214 | On success the SamplerMap's contents gain exactly the bucket's entry and interpolation under its sampler index. On failure it fails with the specified exception. |
| SamplerFlattening.FlattenCurve | Assets/VCI/VCIGLTF/Scripts/IO/AnimationExporter.cs:191-214 | One iteration of the flatten loop moves the SamplerMap's contents exactly as the specification step `AddSampler` does, or fails with its exception. |
| SamplerFlattening.FlattenAll | Assets/VCI/VCIGLTF/Scripts/IO/AnimationExporter.cs:190-215 | The flatten loop succeeds exactly when the fold `Flattened` does, and the SamplerMap then holds its contents. Otherwise it throws the same exception. |
| SamplerFlattening.Export | Assets/VCI/VCIGLTF/Scripts/IO/AnimationExporter.cs:118-219 | Export's SamplerMap is the flattening of the aggregated buckets, or Export throws the exception of the first failing step. |
| SampleCurveWriter.InputBounds | Assets/VCI/VCIGLTF/Scripts/IO/AnimationExporter.cs:227-239 | For non-empty input, min <= Input[i] <= max for every i, and both min and max occur in Input. For empty input they stay +infinity and -infinity. |
| SampleCurveWriter.InputBoundsUnique | Assets/VCI/VCIGLTF/Scripts/IO/AnimationExporter.cs:227-239 | These bounds are unique: they are the minimum and maximum of the times. |
| SampleCurveWriter.ReshapeOutput | Assets/VCI/VCIGLTF/Scripts/IO/AnimationExporter.cs:257-275 | Succeeds exactly for element counts 1, 3 and 4, else throws NotImplementedException. On success: the type is `SCALAR` for 1, `VEC3` for 3 and `VEC4` for 4 (so it has that many components), the count is the old count divided by the element count, and every other accessor field is unchanged. |
| SampleCurveWriter.ReshapedOutputHasOneElementPerKeyframe | Assets/VCI/VCIGLTF/Scripts/IO/AnimationExporter.cs:257-275 | An output of keyframeCount rows of elementCount floats is reshaped to exactly keyframeCount elements of the type for elementCount. |
| SampleCurveWriter.Gltf.ExtendBufferAndGetAccessorIndex | Assets/VCI/VCIGLTF/Scripts/IO/AnimationExporter.cs:241-251 | Appends a single SCALAR accessor whose count is the number of floats, carrying the given bounds, and returns its index. |
| SampleCurveWriter.FirstChannel | Assets/VCI/VCIGLTF/Scripts/IO/AnimationExporter.cs:256 | Returns the first channel whose sampler is the key. Throws InvalidOperationException exactly when no channel uses the sampler. |
| SampleCurveWriter.WrittenSamplerAppend | Assets/VCI/VCIGLTF/Scripts/IO/AnimationExporter.cs:241-251 | Accessors appended for later entries do not disturb those of earlier entries. |
| SampleCurveWriter.WrittenEntryShape | Assets/VCI/VCIGLTF/Scripts/IO/AnimationExporter.cs:241-275 | For a written entry of a flattened bucket whose rows are as wide as the channel target's element count: both accessors have one element per keyframe, the input accessor is `SCALAR`, and the output accessor is `SCALAR`, `VEC3` or `VEC4` as the element count says. |
| SampleCurveWriter.WriteSampler | Assets/VCI/VCIGLTF/Scripts/IO/AnimationExporter.cs:225-275 | One entry throws ArgumentOutOfRangeException when samplers[key] is out of range, InvalidOperationException when no channel uses the sampler, and NotImplementedException for an unsupported element count. On success: two accessors are appended, the sampler's input is the first of them and its output the second, the input accessor carries the bounds of the times, the output accessor is reshaped, and the interpolation and every other sampler are untouched. |
| SampleCurveWriter.EntriesWrittenStep | Assets/VCI/VCIGLTF/Scripts/IO/AnimationExporter.cs:223-276 | Writing one more entry, whose sampler points at the two accessors just appended, extends the written entries by its key. |
| SampleCurveWriter.EntriesWrittenPass | Assets/VCI/VCIGLTF/Scripts/IO/AnimationExporter.cs:223-276 | Every entry written passed its checks. |
| SampleCurveWriter.WriteEntry | Assets/VCI/VCIGLTF/Scripts/IO/AnimationExporter.cs:223-276 | One loop iteration fails exactly as its entry's checks say, and otherwise extends the written entries by its key. |
| SampleCurveWriter.EnumerateKeys | Assets/VCI/VCIGLTF/Scripts/IO/AnimationExporter.cs:223 | Enumerating the SamplerMap visits every key exactly once. |
| SampleCurveWriter.WriteKeys | Assets/VCI/VCIGLTF/Scripts/IO/AnimationExporter.cs:223-276 | The loop over the enumerated keys passes exactly when every key's checks pass, and otherwise fails with the exception of the first failing key in that order, every earlier key having passed. On success the i-th key's sampler points at the accessors appended in the i-th iteration. |
| SampleCurveWriter.WriteEntries | Assets/VCI/VCIGLTF/Scripts/IO/AnimationExporter.cs:223-276 | The SamplerMap loop passes exactly when every entry's checks pass, and otherwise fails with the exception of some entry. On success every key was written once, in an enumeration order, and the i-th key written owns the two accessors appended in the i-th iteration: input first, then output. |
| SampleCurveWriter.WriteAnimationWithSampleCurves | Assets/VCI/VCIGLTF/Scripts/IO/AnimationExporter.cs:221-280 | Passes exactly when every entry's checks pass, and otherwise fails with the exception of some entry. On success: two accessors per SamplerMap entry are appended. The i-th entry written has its sampler's input at the i-th appended pair's first accessor, which carries the bounds of its times, and its output at the pair's second accessor, reshaped to the channel's element count. The animation carries the given name, and it is the one animation added to the document. On failure the document's animation list and the animation's name are unchanged. |

## Left out

- Unity editor and scene APIs are inputs, not code. This covers `GetCurveBindings`, `GetEditorCurve`, `GetKeyRightTangentMode`, `GetNodeIndex`/`GetFromPath`, `SkinnedMeshRenderer.sharedMesh`, `blendShapeCount` and `GetBlendShapeIndex`. Each `CurveBinding` carries their answers. For a blend-shape binding the mesh lookup is a `Result`: ArgumentOutOfRangeException when the path named no node, NullReferenceException when the node has no SkinnedMeshRenderer or mesh. The model reads the mesh once. The source reads it twice (lines 149 and 170), and both reads give the same node.
- Non-blend-shape lookups are assumed not to throw: `GetNodeIndex`, `AddChannelAndGetSampler` (which may receive index -1), and `GetElementCount`.
- `GetAnimationClips` (lines 28-58) is engine plumbing and is not part of this model.
- `glTFAnimation.AddChannelAndGetSampler` and `glTFAnimationTarget.GetElementCount` are not part of this model. They are function parameters: `Scene` in `Export`, and `getElementCount` on the channel path in the writer.
- `AnimationCurveData` is not part of this model. Its constructor is taken to start with no keyframes. `SetKeyframeData`, `RecountEmptyKeyframe`, `Keyframe.GetRightHandCoordinate` and `GetInterpolation` are uninterpreted functions of the bucket (`CurveOps`); no fill or handedness behaviour is assumed.
- `glTF.ExtendBufferAndGetAccessorIndex` is modelled only by the accessor it appends: buffer, count of floats, `SCALAR`, and min/max. The bytes written to the binary buffer and the buffer-view target are left out.
- Floats are reals. The 0.01 multiply is exact, and `float.PositiveInfinity`/`NegativeInfinity` are the `Bound` constructors. IEEE rounding and NaN are left out.
- `Buffer.BlockCopy` copies whole floats, element by element. Its byte offsets (`* sizeof(float)`) are folded into element offsets.
- `StartsWith`/`EndsWith` are modelled as ordinal comparisons. The culture-sensitive default of .NET's `string.StartsWith(string)` is left out.
- `Debug.LogWarning` calls are left out.
- The reuse branch of `SamplerMap.TryGetValue` (line 199) is never taken: `AggregatedBuckets` proves the buckets' sampler indices distinct. `FlattenAll` therefore requires distinct sampler indices, and the branch is not modelled.
- SamplerFlattening.NewSamplerValues: the source stores a new entry in the SamplerMap before filling its arrays. The model fills first and then stores. Nothing else holds the arrays, and a throw ends `Export`, so the resulting SamplerMap contents are the same.
- SamplerFlattening.AnimationWithSampleCurves: the interpolation that `Export` writes into `Animation.samplers[SamplerIndex].interpolation` (line 205) is kept in an `Interpolation` map beside the `SamplerMap`. The `glTFAnimation` built through `AddChannelAndGetSampler` is not modelled, so the out-of-range throw of that indexing is left out.
- SampleCurveWriter.WriteAnimationWithSampleCurves: it takes the `glTFAnimation` and the SamplerMap's contents (`AnimationWithSampleCurves.Tables().values`) as two arguments, because it only reads the arrays.
- SampleCurveWriter.EnumerateKeys: the order in which a `Dictionary` enumerates its keys is left open. The contracts hold for every order, and the failing entry is "some entry" rather than the first in insertion order.
- SampleCurveWriter.WriteSampler: a failure after the two accessors were appended is reported, but the contract does not state the partly written state left behind.
- `int` is unbounded. Overflow of `Keyframes.Count * elementNum` and of accessor counts is left out.
