/**
 * Classification of a Unity curve binding's property name into a glTF
 * animation target, and the element of the target's vector that an
 * axis curve feeds (AnimationExporter.PropertyToTarget and
 * AnimationExporter.GetElementOffset).
 */
module AnimationProperties {
  import opened Outcomes

  /** glTFAnimationTarget.AnimationProperties */
  datatype AnimationProperty =
    | Translation
    | EulerRotation
    | Rotation
    | Scale
    | BlendShape
    | NotImplemented

  const PositionPrefix: string := "m_LocalPosition."
  const EulerAnglesPrefix: string := "localEulerAnglesRaw."
  const RotationPrefix: string := "m_LocalRotation."
  const ScalePrefix: string := "m_LocalScale."
  const BlendShapePrefix: string := "blendShape."

  /** Ordinal String.StartsWith. */
  predicate StartsWith(s: string, prefix: string) {
    prefix <= s
  }

  /** Ordinal String.EndsWith. */
  predicate EndsWith(s: string, suffix: string) {
    |suffix| <= |s| && s[|s| - |suffix|..] == suffix
  }

  /** True when the name carries none of the five recognised prefixes. */
  predicate Unrecognised(property: string) {
    && !StartsWith(property, PositionPrefix)
    && !StartsWith(property, EulerAnglesPrefix)
    && !StartsWith(property, RotationPrefix)
    && !StartsWith(property, ScalePrefix)
    && !StartsWith(property, BlendShapePrefix)
  }

  /**
   * At most one of the recognised prefixes can start a name: the first
   * characters already tell "m_", "localEuler..." and "blendShape." apart,
   * and the eighth character tells Position, Rotation and Scale apart.
   */
  lemma PrefixesExclusive(s: string)
    ensures StartsWith(s, PositionPrefix) ==>
      !StartsWith(s, EulerAnglesPrefix) && !StartsWith(s, RotationPrefix)
      && !StartsWith(s, ScalePrefix) && !StartsWith(s, BlendShapePrefix)
    ensures StartsWith(s, EulerAnglesPrefix) ==>
      !StartsWith(s, RotationPrefix) && !StartsWith(s, ScalePrefix) && !StartsWith(s, BlendShapePrefix)
    ensures StartsWith(s, RotationPrefix) ==>
      !StartsWith(s, ScalePrefix) && !StartsWith(s, BlendShapePrefix)
    ensures StartsWith(s, ScalePrefix) ==> !StartsWith(s, BlendShapePrefix)
  {
    if StartsWith(s, PositionPrefix) {
      assert s[0] == PositionPrefix[0] == 'm' && s[7] == PositionPrefix[7] == 'P';
    }
    if StartsWith(s, EulerAnglesPrefix) {
      assert s[0] == EulerAnglesPrefix[0] == 'l';
    }
    if StartsWith(s, RotationPrefix) {
      assert s[0] == RotationPrefix[0] == 'm' && s[7] == RotationPrefix[7] == 'R';
    }
    if StartsWith(s, ScalePrefix) {
      assert s[0] == ScalePrefix[0] == 'm' && s[7] == ScalePrefix[7] == 'S';
    }
    if StartsWith(s, BlendShapePrefix) {
      assert s[0] == BlendShapePrefix[0] == 'b';
    }
  }

  /**
   * The target a property name animates. The source tests the prefixes in
   * a fixed order and takes the first match; because the prefixes exclude
   * each other, the result is characterised by each prefix on its own.
   */
  function PropertyToTarget(property: string): (r: AnimationProperty)
    ensures r == Translation <==> StartsWith(property, PositionPrefix)
    ensures r == EulerRotation <==> StartsWith(property, EulerAnglesPrefix)
    ensures r == Rotation <==> StartsWith(property, RotationPrefix)
    ensures r == Scale <==> StartsWith(property, ScalePrefix)
    ensures r == BlendShape <==> StartsWith(property, BlendShapePrefix)
    ensures r == NotImplemented <==> Unrecognised(property)
  {
    PrefixesExclusive(property);
    if StartsWith(property, PositionPrefix) then Translation
    else if StartsWith(property, EulerAnglesPrefix) then EulerRotation
    else if StartsWith(property, RotationPrefix) then Rotation
    else if StartsWith(property, ScalePrefix) then Scale
    else if StartsWith(property, BlendShapePrefix) then BlendShape
    else NotImplemented
  }

  /** The suffix ".x", ".y", ".z" or ".w" naming vector element `axis`. */
  function AxisSuffix(axis: nat): string
    requires axis < 4
  {
    ['.', "xyzw"[axis]]
  }

  /** A name ends with at most one axis suffix. */
  lemma AxisSuffixesExclusive(s: string, a: nat, b: nat)
    requires a < 4 && b < 4
    requires EndsWith(s, AxisSuffix(a)) && EndsWith(s, AxisSuffix(b))
    ensures a == b
  {
    assert s[|s| - 1] == AxisSuffix(a)[1] == "xyzw"[a];
    assert s[|s| - 1] == AxisSuffix(b)[1] == "xyzw"[b];
  }

  /**
   * The element offset of an axis curve. The tests run in a fixed order,
   * so ".x" wins over the "blendShape." prefix, which in turn wins over
   * ".z" and ".w"; a name matching none of them throws.
   */
  function GetElementOffset(property: string): (r: Result<int>)
    ensures r.Ok? ==> 0 <= r.value < 4
    ensures r.Ok? ==>
      EndsWith(property, AxisSuffix(r.value)) || (r.value == 1 && StartsWith(property, BlendShapePrefix))
    ensures forall axis :: 0 <= axis < 4 && EndsWith(property, AxisSuffix(axis)) ==>
      r == (if 1 < axis && StartsWith(property, BlendShapePrefix) then Ok(1) else Ok(axis))
    ensures r.Throw? <==>
      !StartsWith(property, BlendShapePrefix) && forall axis :: 0 <= axis < 4 ==> !EndsWith(property, AxisSuffix(axis))
    ensures r.Throw? ==> r.exception == NotImplementedException
  {
    assert AxisSuffix(0) == ".x" && AxisSuffix(1) == ".y" && AxisSuffix(2) == ".z" && AxisSuffix(3) == ".w";
    forall a: nat, b: nat | a < 4 && b < 4 && EndsWith(property, AxisSuffix(a)) && EndsWith(property, AxisSuffix(b))
      ensures a == b
    {
      AxisSuffixesExclusive(property, a, b);
    }
    if EndsWith(property, ".x") then Ok(0)
    else if EndsWith(property, ".y") || StartsWith(property, BlendShapePrefix) then Ok(1)
    else if EndsWith(property, ".z") then Ok(2)
    else if EndsWith(property, ".w") then Ok(3)
    else Throw(NotImplementedException)
  }

  /**
   * A "blendShape." name never throws: it yields 0 when it also ends with
   * ".x" and 1 otherwise, whatever other suffix it has.
   */
  lemma BlendShapeElementOffset(property: string)
    requires StartsWith(property, BlendShapePrefix)
    ensures GetElementOffset(property) == if EndsWith(property, ".x") then Ok(0) else Ok(1)
  {
    assert AxisSuffix(0) == ".x";
  }
}
