/**
 * AnimationExporter.WriteAnimationWithSampleCurves: every SamplerMap entry
 * becomes an input accessor carrying the bounds of its times and an output
 * accessor whose type follows the element count of the channel's target,
 * and the animation is added to the glTF document.
 */
module SampleCurveWriter {
  import opened Outcomes
  import opened CurveModel
  import opened SamplerFlattening

  /** A float bound: the scan starts from the infinities and only ever holds finite times after that. */
  datatype Bound = NegativeInfinity | Finite(value: real) | PositiveInfinity

  /** value < bound */
  predicate Below(value: real, bound: Bound) {
    match bound
    case NegativeInfinity => false
    case Finite(b) => value < b
    case PositiveInfinity => true
  }

  /** value > bound */
  predicate Above(value: real, bound: Bound) {
    match bound
    case NegativeInfinity => true
    case Finite(b) => value > b
    case PositiveInfinity => false
  }

  /**
   * min and max are the smallest and the largest time: both occur in the
   * sequence and enclose every element; an empty sequence leaves them at
   * +infinity and -infinity.
   */
  predicate IsInputBounds(input: seq<real>, min: Bound, max: Bound) {
    if |input| == 0 then min == PositiveInfinity && max == NegativeInfinity
    else
      && min.Finite? && max.Finite?
      && min.value in input && max.value in input
      && forall i :: 0 <= i < |input| ==> min.value <= input[i] <= max.value
  }

  /** The bounds are determined by the sequence: they are its minimum and maximum. */
  lemma InputBoundsUnique(input: seq<real>, min1: Bound, max1: Bound, min2: Bound, max2: Bound)
    requires IsInputBounds(input, min1, max1)
    requires IsInputBounds(input, min2, max2)
    ensures min1 == min2 && max1 == max2
  {
    if |input| > 0 {
      var i1 :| 0 <= i1 < |input| && input[i1] == min1.value;
      var i2 :| 0 <= i2 < |input| && input[i2] == min2.value;
      var j1 :| 0 <= j1 < |input| && input[j1] == max1.value;
      var j2 :| 0 <= j2 < |input| && input[j2] == max2.value;
      assert min1.value <= input[i2] && min2.value <= input[i1];
      assert max1.value >= input[j2] && max2.value >= input[j1];
    }
  }

  /** The min/max scan over an entry's times. */
  method InputBounds(input: seq<real>) returns (min: Bound, max: Bound)
    ensures IsInputBounds(input, min, max)
  {
    min := PositiveInfinity;
    max := NegativeInfinity;
    var i := 0;
    while i < |input|
      invariant 0 <= i <= |input|
      invariant IsInputBounds(input[..i], min, max)
    {
      var value := input[i];
      assert input[..i + 1] == input[..i] + [value];
      if Below(value, min) {
        min := Finite(value);
      }
      if Above(value, max) {
        max := Finite(value);
      }
      i := i + 1;
    }
    assert input[..|input|] == input;
  }

  /** A glTF accessor as far as the writer sees it. */
  datatype Accessor = Accessor(bufferIndex: int, count: nat, accessorType: string, min: seq<Bound>, max: seq<Bound>)

  /** Components per element of each accessor type (section 3.6.2 of the glTF 2.0 specification). */
  function ComponentCount(accessorType: string): nat {
    match accessorType
    case "SCALAR" => 1
    case "VEC2" => 2
    case "VEC3" => 3
    case "VEC4" => 4
    case "MAT2" => 4
    case "MAT3" => 9
    case "MAT4" => 16
    case _ => 0
  }

  /** The accessor type the switch gives each element count it handles. */
  function ElementType(elementCount: int): string {
    if elementCount == 1 then "SCALAR" else if elementCount == 3 then "VEC3" else "VEC4"
  }

  /** The element counts the switch handles. */
  predicate SupportedElementCount(elementCount: int) {
    elementCount == 1 || elementCount == 3 || elementCount == 4
  }

  /**
   * The switch on the channel target's element count: the output accessor
   * becomes SCALAR, VEC3 or VEC4 with its count divided by the element
   * count; any other element count throws.
   */
  function ReshapeOutput(accessor: Accessor, elementCount: int): (r: Result<Accessor>)
    ensures r.Ok? <==> SupportedElementCount(elementCount)
    ensures r.Throw? ==> r.exception == NotImplementedException
    ensures r.Ok? ==>
      && r.value.accessorType == ElementType(elementCount)
      && ComponentCount(r.value.accessorType) == elementCount
      && r.value.count * elementCount <= accessor.count < (r.value.count + 1) * elementCount
      && r.value == accessor.(accessorType := r.value.accessorType, count := r.value.count)
  {
    match elementCount
    case 1 => Ok(accessor.(accessorType := "SCALAR"))
    case 3 => Ok(accessor.(accessorType := "VEC3", count := accessor.count / 3))
    case 4 => Ok(accessor.(accessorType := "VEC4", count := accessor.count / 4))
    case _ => Throw(NotImplementedException)
  }

  /**
   * An output written as one row of `elementCount` floats per keyframe is
   * reshaped into one element per keyframe, whose type has `elementCount`
   * components.
   */
  lemma ReshapedOutputHasOneElementPerKeyframe(accessor: Accessor, keyframeCount: nat, elementCount: int)
    requires SupportedElementCount(elementCount)
    requires accessor.count == keyframeCount * elementCount
    ensures ReshapeOutput(accessor, elementCount).Ok?
    ensures ReshapeOutput(accessor, elementCount).value.count == keyframeCount
    ensures ReshapeOutput(accessor, elementCount).value.accessorType == ElementType(elementCount)
    ensures ComponentCount(ReshapeOutput(accessor, elementCount).value.accessorType) == elementCount
  {
  }

  /** glTFAnimationTarget: the node and the property path a channel animates. */
  datatype ChannelTarget = ChannelTarget(node: int, path: string)

  /** glTFAnimationChannel */
  datatype Channel = Channel(sampler: int, target: ChannelTarget)

  /** glTFAnimationSampler */
  datatype Sampler = Sampler(input: int, output: int, interpolation: string)

  /** glTFAnimation */
  class GltfAnimation {
    var name: string
    var channels: seq<Channel>
    var samplers: seq<Sampler>

    constructor (name: string, channels: seq<Channel>, samplers: seq<Sampler>)
      ensures this.name == name && this.channels == channels && this.samplers == samplers
    {
      this.name := name;
      this.channels := channels;
      this.samplers := samplers;
    }
  }

  /** The glTF document: its accessors and its animations. */
  class Gltf {
    var accessors: seq<Accessor>
    var animations: seq<GltfAnimation>

    constructor (accessors: seq<Accessor>, animations: seq<GltfAnimation>)
      ensures this.accessors == accessors && this.animations == animations
    {
      this.accessors := accessors;
      this.animations := animations;
    }

    /**
     * glTF.ExtendBufferAndGetAccessorIndex: the floats go to the buffer and
     * a new SCALAR accessor with one element per float and the given bounds
     * is appended; its index is returned.
     */
    method ExtendBufferAndGetAccessorIndex(bufferIndex: int, values: seq<real>, min: seq<Bound>, max: seq<Bound>)
      returns (index: nat)
      modifies this
      ensures accessors == old(accessors) + [Accessor(bufferIndex, |values|, "SCALAR", min, max)]
      ensures index == |old(accessors)|
      ensures animations == old(animations)
    {
      index := |accessors|;
      accessors := accessors + [Accessor(bufferIndex, |values|, "SCALAR", min, max)];
    }
  }

  /** channels.First(x => x.sampler == sampler): the first channel of the sampler, or InvalidOperationException. */
  function FirstChannel(channels: seq<Channel>, sampler: int): (r: Result<Channel>)
    ensures r.Ok? ==> r.value.sampler == sampler
    ensures r.Ok? ==> exists j :: 0 <= j < |channels| && channels[j] == r.value &&
                                (forall i :: 0 <= i < j ==> channels[i].sampler != sampler)
    ensures r.Throw? <==> forall j :: 0 <= j < |channels| ==> channels[j].sampler != sampler
    ensures r.Throw? ==> r.exception == InvalidOperationException
  {
    if channels == [] then Throw(InvalidOperationException)
    else if channels[0].sampler == sampler then Ok(channels[0])
    else
      var r := FirstChannel(channels[1..], sampler);
      assert forall j :: 1 <= j < |channels| ==> channels[j] == channels[1..][j - 1];
      if r.Ok? then
        var j :| 0 <= j < |channels[1..]| && channels[1..][j] == r.value &&
                 (forall i :: 0 <= i < j ==> channels[1..][i].sampler != sampler);
        assert channels[j + 1] == r.value;
        r
      else r
  }

  /**
   * Whether writing one SamplerMap entry completes, and if not which
   * exception ends it: samplers[key] is out of range, no channel uses the
   * sampler, or the channel target's element count is not 1, 3 or 4.
   */
  function SamplerCheck(channels: seq<Channel>, samplerCount: nat, key: int, getElementCount: string -> int): Outcome {
    if !(0 <= key < samplerCount) then Fail(ArgumentOutOfRangeException)
    else
      match FirstChannel(channels, key)
      case Throw(e) => Fail(e)
      case Ok(channel) =>
        if SupportedElementCount(getElementCount(channel.target.path)) then Pass
        else Fail(NotImplementedException)
  }

  /**
   * After writing an entry, its sampler's input accessor is a SCALAR per
   * time with the bounds of the times, and its output accessor is the
   * reshaped SCALAR-per-float accessor; both were appended at or after
   * index `from`.
   */
  predicate WrittenSampler(
    accessors: seq<Accessor>, from: nat, sampler: Sampler,
    input: seq<real>, outputLength: nat, bufferIndex: int, elementCount: int)
  {
    && from <= sampler.input < |accessors|
    && from <= sampler.output < |accessors|
    && sampler.input != sampler.output
    && var inputAccessor := accessors[sampler.input];
    && inputAccessor.bufferIndex == bufferIndex
    && inputAccessor.count == |input|
    && inputAccessor.accessorType == "SCALAR"
    && |inputAccessor.min| == 1 && |inputAccessor.max| == 1
    && IsInputBounds(input, inputAccessor.min[0], inputAccessor.max[0])
    && ReshapeOutput(Accessor(bufferIndex, outputLength, "SCALAR", [], []), elementCount) == Ok(accessors[sampler.output])
  }

  /** Appending accessors keeps what was written about earlier entries. */
  lemma WrittenSamplerAppend(
    accessors: seq<Accessor>, more: seq<Accessor>, from: nat, sampler: Sampler,
    input: seq<real>, outputLength: nat, bufferIndex: int, elementCount: int)
    requires WrittenSampler(accessors, from, sampler, input, outputLength, bufferIndex, elementCount)
    ensures WrittenSampler(accessors + more, from, sampler, input, outputLength, bufferIndex, elementCount)
  {
    assert (accessors + more)[sampler.input] == accessors[sampler.input];
    assert (accessors + more)[sampler.output] == accessors[sampler.output];
  }

  /**
   * A written entry of a flattened bucket whose rows are as wide as the
   * channel target's element count has one input element and one output
   * element per keyframe, and the output type has that many components.
   */
  lemma WrittenEntryShape(
    curve: AnimationCurveData, ops: CurveOps, v: SamplerValues,
    accessors: seq<Accessor>, from: nat, sampler: Sampler, bufferIndex: int, elementCount: int)
    requires SamplerEntry(curve, ops) == Ok(v)
    requires |curve.keyframes| > 0 && elementCount == |curve.keyframes[0].values|
    requires WrittenSampler(accessors, from, sampler, v.input, |v.output|, bufferIndex, elementCount)
    ensures accessors[sampler.input].count == |curve.keyframes|
    ensures accessors[sampler.output].count == |curve.keyframes|
    ensures accessors[sampler.input].accessorType == "SCALAR"
    ensures accessors[sampler.output].accessorType == ElementType(elementCount)
    ensures ComponentCount(accessors[sampler.output].accessorType) == elementCount
  {
    SamplerEntryLayout(curve, ops, v);
    ReshapedOutputHasOneElementPerKeyframe(Accessor(bufferIndex, |v.output|, "SCALAR", [], []), |v.input|, elementCount);
  }

  /** The element count of the channel that uses sampler `key`, when there is one. */
  function ChannelElementCount(channels: seq<Channel>, key: int, getElementCount: string -> int): int {
    match FirstChannel(channels, key)
    case Throw(_) => 0
    case Ok(channel) => getElementCount(channel.target.path)
  }

  /** One iteration of the SamplerMap loop. */
  method WriteSampler(
    gltf: Gltf, animation: GltfAnimation, key: int, values: SamplerValues,
    bufferIndex: int, getElementCount: string -> int)
    returns (outcome: Outcome)
    modifies gltf, animation
    ensures outcome == SamplerCheck(old(animation.channels), |old(animation.samplers)|, key, getElementCount)
    ensures old(gltf.accessors) <= gltf.accessors
    ensures gltf.animations == old(gltf.animations)
    ensures animation.name == old(animation.name) && animation.channels == old(animation.channels)
    ensures |animation.samplers| == |old(animation.samplers)|
    ensures forall j :: 0 <= j < |animation.samplers| && j != key ==> animation.samplers[j] == old(animation.samplers[j])
    ensures outcome.Pass? ==>
      && |gltf.accessors| == |old(gltf.accessors)| + 2
      && animation.samplers[key].input == |old(gltf.accessors)|
      && animation.samplers[key].output == |old(gltf.accessors)| + 1
      && animation.samplers[key].interpolation == old(animation.samplers[key].interpolation)
      && WrittenSampler(gltf.accessors, |old(gltf.accessors)|, animation.samplers[key],
           values.input, |values.output|, bufferIndex,
           ChannelElementCount(animation.channels, key, getElementCount))
  {
    if !(0 <= key < |animation.samplers|) {
      // samplers[kv.Key] on a list index out of range
      return Fail(ArgumentOutOfRangeException);
    }
    var sampler := animation.samplers[key];

    var min, max := InputBounds(values.input);
    var inputAccessorIndex := gltf.ExtendBufferAndGetAccessorIndex(bufferIndex, values.input, [min], [max]);
    sampler := sampler.(input := inputAccessorIndex);
    animation.samplers := animation.samplers[key := sampler];

    var outputAccessorIndex := gltf.ExtendBufferAndGetAccessorIndex(bufferIndex, values.output, [], []);
    sampler := sampler.(output := outputAccessorIndex);
    animation.samplers := animation.samplers[key := sampler];

    var outputAccessor := gltf.accessors[outputAccessorIndex];
    var channel := FirstChannel(animation.channels, key);
    if channel.Throw? {
      return Fail(channel.exception);
    }
    var reshaped := ReshapeOutput(outputAccessor, getElementCount(channel.value.target.path));
    if reshaped.Throw? {
      return Fail(reshaped.exception);
    }
    gltf.accessors := gltf.accessors[outputAccessorIndex := reshaped.value];
    return Pass;
  }


  /**
   * The state after the SamplerMap entries `done` were written, in that
   * order: each passed its checks, the i-th entry's sampler points at the
   * input and output accessors appended in the i-th iteration, the other
   * samplers are untouched, and two accessors were appended per entry.
   */
  ghost predicate EntriesWritten(
    accessors: seq<Accessor>, from: nat, samplers: seq<Sampler>, original: seq<Sampler>,
    channels: seq<Channel>, done: seq<int>, samplerMap: map<int, SamplerValues>,
    bufferIndex: int, getElementCount: string -> int)
  {
    && |samplers| == |original|
    && |accessors| == from + 2 * |done|
    && (forall j :: 0 <= j < |samplers| && j !in done ==> samplers[j] == original[j])
    && (forall i {:trigger samplers[done[i]]} :: 0 <= i < |done| ==>
          && 0 <= done[i] < |samplers|
          && samplers[done[i]].input == from + 2 * i
          && samplers[done[i]].output == from + 2 * i + 1)
    && forall key :: key in done ==>
         && key in samplerMap && 0 <= key < |samplers|
         && SamplerCheck(channels, |original|, key, getElementCount) == Pass
         && samplers[key].interpolation == original[key].interpolation
         && WrittenSampler(accessors, from, samplers[key], samplerMap[key].input, |samplerMap[key].output|,
              bufferIndex, ChannelElementCount(channels, key, getElementCount))
  }

  /** Writing one more entry extends EntriesWritten by its key. */
  lemma EntriesWrittenStep(
    accessors: seq<Accessor>, accessors': seq<Accessor>, from: nat,
    samplers: seq<Sampler>, samplers': seq<Sampler>, original: seq<Sampler>,
    channels: seq<Channel>, done: seq<int>, key: int, samplerMap: map<int, SamplerValues>,
    bufferIndex: int, getElementCount: string -> int)
    requires EntriesWritten(accessors, from, samplers, original, channels, done, samplerMap, bufferIndex, getElementCount)
    requires key !in done && key in samplerMap
    requires SamplerCheck(channels, |original|, key, getElementCount) == Pass
    requires accessors <= accessors' && |accessors'| == |accessors| + 2
    requires |samplers'| == |samplers| && 0 <= key < |samplers|
    requires forall j :: 0 <= j < |samplers| && j != key ==> samplers'[j] == samplers[j]
    requires samplers'[key].interpolation == samplers[key].interpolation
    requires samplers'[key].input == |accessors| && samplers'[key].output == |accessors| + 1
    requires WrittenSampler(accessors', |accessors|, samplers'[key], samplerMap[key].input, |samplerMap[key].output|,
               bufferIndex, ChannelElementCount(channels, key, getElementCount))
    ensures EntriesWritten(accessors', from, samplers', original, channels, done + [key], samplerMap, bufferIndex, getElementCount)
  {
    forall k | k in done
      ensures WrittenSampler(accessors', from, samplers'[k], samplerMap[k].input, |samplerMap[k].output|,
                bufferIndex, ChannelElementCount(channels, k, getElementCount))
    {
      assert accessors' == accessors + accessors'[|accessors|..];
      WrittenSamplerAppend(accessors, accessors'[|accessors|..], from, samplers[k], samplerMap[k].input,
        |samplerMap[k].output|, bufferIndex, ChannelElementCount(channels, k, getElementCount));
    }
    var done' := done + [key];
    forall i | 0 <= i < |done'|
      ensures 0 <= done'[i] < |samplers'|
      ensures samplers'[done'[i]].input == from + 2 * i && samplers'[done'[i]].output == from + 2 * i + 1
    {
      if i < |done| {
        assert done'[i] == done[i] && done[i] in done;
      }
    }
  }

  /** Every entry written so far passed its checks. */
  lemma EntriesWrittenPass(
    accessors: seq<Accessor>, from: nat, samplers: seq<Sampler>, original: seq<Sampler>,
    channels: seq<Channel>, done: seq<int>, samplerMap: map<int, SamplerValues>,
    bufferIndex: int, getElementCount: string -> int)
    requires EntriesWritten(accessors, from, samplers, original, channels, done, samplerMap, bufferIndex, getElementCount)
    ensures forall i :: 0 <= i < |done| ==> SamplerCheck(channels, |original|, done[i], getElementCount) == Pass
  {
    assert forall i :: 0 <= i < |done| ==> done[i] in done;
  }

  /**
   * One iteration of the SamplerMap loop, stated against the entries
   * written before it.
   */
  method WriteEntry(
    gltf: Gltf, animation: GltfAnimation, samplerMap: map<int, SamplerValues>, keys: seq<int>, i: nat,
    ghost from: nat, ghost original: seq<Sampler>,
    bufferIndex: int, getElementCount: string -> int)
    returns (outcome: Outcome)
    requires i < |keys| && keys[i] !in keys[..i] && keys[i] in samplerMap
    requires EntriesWritten(gltf.accessors, from, animation.samplers, original, animation.channels,
               keys[..i], samplerMap, bufferIndex, getElementCount)
    modifies gltf, animation
    ensures outcome == SamplerCheck(animation.channels, |original|, keys[i], getElementCount)
    ensures old(gltf.accessors) <= gltf.accessors
    ensures gltf.animations == old(gltf.animations)
    ensures animation.name == old(animation.name) && animation.channels == old(animation.channels)
    ensures outcome.Pass? ==>
      EntriesWritten(gltf.accessors, from, animation.samplers, original, animation.channels,
        keys[..i + 1], samplerMap, bufferIndex, getElementCount)
  {
    var key := keys[i];
    ghost var accessorsBefore := gltf.accessors;
    ghost var samplersBefore := animation.samplers;
    outcome := WriteSampler(gltf, animation, key, samplerMap[key], bufferIndex, getElementCount);
    if outcome.Pass? {
      EntriesWrittenStep(accessorsBefore, gltf.accessors, from, samplersBefore, animation.samplers, original,
        animation.channels, keys[..i], key, samplerMap, bufferIndex, getElementCount);
      assert keys[..i + 1] == keys[..i] + [key];
    }
  }


  /** A set that is not empty has a member. */
  lemma NonEmptyHasMember(s: set<int>)
    requires s != {}
    ensures exists k :: k in s
  {
    if forall k :: k !in s {
      assert false;
    }
  }

  /**
   * Enumerating a Dictionary: every key once, in an order the model leaves
   * open.
   */
  method EnumerateKeys(samplerMap: map<int, SamplerValues>) returns (keys: seq<int>)
    ensures forall i :: 0 <= i < |keys| ==> keys[i] !in keys[..i]
    ensures forall key :: key in samplerMap <==> key in keys
    ensures |keys| == |samplerMap|
  {
    keys := [];
    var remaining := samplerMap.Keys;
    while remaining != {}
      invariant remaining <= samplerMap.Keys
      invariant forall key :: key in keys <==> key in samplerMap && key !in remaining
      invariant forall i :: 0 <= i < |keys| ==> keys[i] !in keys[..i]
      invariant |keys| + |remaining| == |samplerMap|
      decreases remaining
    {
      NonEmptyHasMember(remaining);
      var key :| key in remaining;
      assert (keys + [key])[..|keys|] == keys;
      keys := keys + [key];
      remaining := remaining - {key};
    }
  }

  /**
   * The SamplerMap loop over the keys in enumeration order: every entry is
   * written, or the first failing entry's exception ends the loop.
   */
  method WriteKeys(
    gltf: Gltf, animation: GltfAnimation, samplerMap: map<int, SamplerValues>, keys: seq<int>,
    bufferIndex: int, getElementCount: string -> int)
    returns (outcome: Outcome)
    requires forall i :: 0 <= i < |keys| ==> keys[i] in samplerMap && keys[i] !in keys[..i]
    modifies gltf, animation
    ensures outcome.Pass? <==>
      forall i :: 0 <= i < |keys| ==>
        SamplerCheck(old(animation.channels), |old(animation.samplers)|, keys[i], getElementCount) == Pass
    ensures outcome.Fail? ==>
      exists i :: 0 <= i < |keys| &&
        SamplerCheck(old(animation.channels), |old(animation.samplers)|, keys[i], getElementCount) == outcome &&
        forall j :: 0 <= j < i ==>
          SamplerCheck(old(animation.channels), |old(animation.samplers)|, keys[j], getElementCount) == Pass
    ensures old(gltf.accessors) <= gltf.accessors
    ensures gltf.animations == old(gltf.animations)
    ensures animation.name == old(animation.name) && animation.channels == old(animation.channels)
    ensures outcome.Pass? ==>
      EntriesWritten(gltf.accessors, |old(gltf.accessors)|, animation.samplers, old(animation.samplers),
        animation.channels, keys, samplerMap, bufferIndex, getElementCount)
  {
    ghost var from := |gltf.accessors|;
    ghost var original := animation.samplers;
    outcome := Pass;
    for i := 0 to |keys|
      invariant outcome.Pass?
      invariant old(gltf.accessors) <= gltf.accessors
      invariant gltf.animations == old(gltf.animations)
      invariant animation.name == old(animation.name) && animation.channels == old(animation.channels)
      invariant EntriesWritten(gltf.accessors, from, animation.samplers, original, animation.channels,
                  keys[..i], samplerMap, bufferIndex, getElementCount)
    {
      EntriesWrittenPass(gltf.accessors, from, animation.samplers, original, animation.channels,
        keys[..i], samplerMap, bufferIndex, getElementCount);
      outcome := WriteEntry(gltf, animation, samplerMap, keys, i, from, original, bufferIndex, getElementCount);
      if outcome.Fail? {
        assert SamplerCheck(old(animation.channels), |old(animation.samplers)|, keys[i], getElementCount) == outcome;
        return;
      }
    }
    assert keys[..|keys|] == keys;
    EntriesWrittenPass(gltf.accessors, from, animation.samplers, original, animation.channels,
      keys, samplerMap, bufferIndex, getElementCount);
  }

  /**
   * The SamplerMap loop: every entry is written, in the enumeration order
   * `order`, or the first failing entry's exception ends it.
   */
  method WriteEntries(
    gltf: Gltf, animation: GltfAnimation, samplerMap: map<int, SamplerValues>,
    bufferIndex: int, getElementCount: string -> int)
    returns (outcome: Outcome, ghost order: seq<int>)
    modifies gltf, animation
    ensures outcome.Pass? <==>
      forall key :: key in samplerMap ==>
        SamplerCheck(old(animation.channels), |old(animation.samplers)|, key, getElementCount) == Pass
    ensures outcome.Fail? ==>
      exists key :: key in samplerMap &&
        SamplerCheck(old(animation.channels), |old(animation.samplers)|, key, getElementCount) == outcome
    ensures old(gltf.accessors) <= gltf.accessors
    ensures gltf.animations == old(gltf.animations)
    ensures animation.name == old(animation.name) && animation.channels == old(animation.channels)
    ensures outcome.Pass? ==>
      && |order| == |samplerMap|
      && (forall key :: key in samplerMap <==> key in order)
      && EntriesWritten(gltf.accessors, |old(gltf.accessors)|, animation.samplers, old(animation.samplers),
           animation.channels, order, samplerMap, bufferIndex, getElementCount)
  {
    var keys := EnumerateKeys(samplerMap);
    forall i | 0 <= i < |keys| ensures keys[i] in samplerMap {
      var key := keys[i];
      assert key in keys;
      assert key in samplerMap <==> key in keys;
    }
    order := keys;
    outcome := WriteKeys(gltf, animation, samplerMap, keys, bufferIndex, getElementCount);
  }

  /**
   * AnimationExporter.WriteAnimationWithSampleCurves over the two halves of
   * an AnimationWithSampleCurves: the glTFAnimation and the contents of its
   * SamplerMap. On success every entry was written, two accessors per entry
   * were appended, and the named animation was added to the document.
   */
  method WriteAnimationWithSampleCurves(
    gltf: Gltf, animation: GltfAnimation, samplerMap: map<int, SamplerValues>,
    animationName: string, bufferIndex: int, getElementCount: string -> int)
    returns (outcome: Outcome, ghost order: seq<int>)
    modifies gltf, animation
    ensures outcome.Pass? <==>
      forall key :: key in samplerMap ==>
        SamplerCheck(old(animation.channels), |old(animation.samplers)|, key, getElementCount) == Pass
    ensures outcome.Fail? ==>
      exists key :: key in samplerMap &&
        SamplerCheck(old(animation.channels), |old(animation.samplers)|, key, getElementCount) == outcome
    ensures old(gltf.accessors) <= gltf.accessors
    ensures animation.channels == old(animation.channels)
    ensures outcome.Fail? ==> gltf.animations == old(gltf.animations) && animation.name == old(animation.name)
    ensures outcome.Pass? ==>
      && |gltf.accessors| == |old(gltf.accessors)| + 2 * |samplerMap|
      && (forall key :: key in samplerMap <==> key in order)
      && EntriesWritten(gltf.accessors, |old(gltf.accessors)|, animation.samplers, old(animation.samplers),
           animation.channels, order, samplerMap, bufferIndex, getElementCount)
      && animation.name == animationName
      && gltf.animations == old(gltf.animations) + [animation]
  {
    outcome, order := WriteEntries(gltf, animation, samplerMap, bufferIndex, getElementCount);
    if outcome.Fail? {
      return;
    }
    animation.name := animationName;
    gltf.animations := gltf.animations + [animation];
  }
}
