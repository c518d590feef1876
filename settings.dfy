/**
 * The add-on's settings record (MySettings in LazyAvatarNodes.py): six image
 * paths, an emission strength and colour, and two mode flags, together with
 * the two operations that write it: clear_inputs and the open-image
 * operator's choice of target field.
 */
module AvatarSettings {

  import opened Options

  /** An RGB triple. Its components are only copied, never computed on. */
  datatype Rgb = Rgb(r: real, g: real, b: real)

  /** The six image slots of the settings record, one per path field. */
  datatype ImageSlot =
    | BaseColorSlot
    | NormalSlot
    | MetallicSmoothnessSlot
    | EmissionSlot
    | RoughnessSlot
    | MetallicSlot

  /** A snapshot of the settings record, field for field. */
  datatype SettingsValue = SettingsValue(
    baseColorImage: string,
    normalImage: string,
    metallicSmoothnessImage: string,
    emissionImage: string,
    emissionSameAsBase: bool,
    strength: real,
    usePackedMaps: bool,
    roughnessImage: string,
    metallicImage: string,
    emissionColor: Rgb)

  /** The path field that belongs to a slot. */
  function Path(s: SettingsValue, slot: ImageSlot): string {
    match slot
    case BaseColorSlot => s.baseColorImage
    case NormalSlot => s.normalImage
    case MetallicSmoothnessSlot => s.metallicSmoothnessImage
    case EmissionSlot => s.emissionImage
    case RoughnessSlot => s.roughnessImage
    case MetallicSlot => s.metallicImage
  }

  /** `s` with the path field of `slot` replaced by `path`. */
  function WithPath(s: SettingsValue, slot: ImageSlot, path: string): SettingsValue {
    match slot
    case BaseColorSlot => s.(baseColorImage := path)
    case NormalSlot => s.(normalImage := path)
    case MetallicSmoothnessSlot => s.(metallicSmoothnessImage := path)
    case EmissionSlot => s.(emissionImage := path)
    case RoughnessSlot => s.(roughnessImage := path)
    case MetallicSlot => s.(metallicImage := path)
  }

  /** The fields that are not paths: the flags, the strength and the colour. */
  predicate SameNonPathFields(s: SettingsValue, t: SettingsValue) {
    s.emissionSameAsBase == t.emissionSameAsBase && s.strength == t.strength &&
    s.usePackedMaps == t.usePackedMaps && s.emissionColor == t.emissionColor
  }

  /** The defaults the property declarations give each field. */
  function Declared(): (d: SettingsValue)
    ensures forall slot :: Path(d, slot) == ""
    ensures !d.emissionSameAsBase && !d.usePackedMaps
  {
    SettingsValue("", "", "", "", false, 1.0, false, "", "", Rgb(1.0, 1.0, 1.0))
  }

  /** The record after clear_inputs: every assignment it makes, applied to `s`. */
  function Cleared(s: SettingsValue): (r: SettingsValue)
    ensures forall slot :: Path(r, slot) == ""
    ensures !r.emissionSameAsBase && r.usePackedMaps == s.usePackedMaps
  {
    s.(baseColorImage := "", normalImage := "", metallicSmoothnessImage := "",
       emissionImage := "", emissionSameAsBase := false, strength := 1.0,
       roughnessImage := "", metallicImage := "", emissionColor := Rgb(1.0, 1.0, 1.0))
  }

  /** The slot an open-image tag selects; any other tag selects none. */
  function TargetOf(imageType: string): (r: Option<ImageSlot>)
    ensures r.Some? <==> imageType in {"BASE_COLOR", "METALLIC_SMOOTHNESS", "NORMAL", "EMISSION", "ROUGHNESS", "METALLIC"}
  {
    if imageType == "BASE_COLOR" then Some(BaseColorSlot)
    else if imageType == "METALLIC_SMOOTHNESS" then Some(MetallicSmoothnessSlot)
    else if imageType == "NORMAL" then Some(NormalSlot)
    else if imageType == "EMISSION" then Some(EmissionSlot)
    else if imageType == "ROUGHNESS" then Some(RoughnessSlot)
    else if imageType == "METALLIC" then Some(MetallicSlot)
    else None
  }

  /** The record after the open-image operator stores `filepath` under `imageType`. */
  function Opened(s: SettingsValue, imageType: string, filepath: string): (r: SettingsValue)
    ensures SameNonPathFields(r, s)
    ensures TargetOf(imageType).None? ==> r == s
  {
    match TargetOf(imageType)
    case Some(slot) => WithPath(s, slot, filepath)
    case None => s
  }

  /** clear_inputs puts every field back to its declared default except use_packed_maps. */
  lemma ClearedIsDeclaredExceptPackedMaps(s: SettingsValue)
    ensures Cleared(s) == Declared().(usePackedMaps := s.usePackedMaps)
    ensures forall slot :: Path(Cleared(s), slot) == ""
    ensures Cleared(Cleared(s)) == Cleared(s)
  {
  }

  /** Reading a slot after writing one: the written slot has the new path, the others keep theirs. */
  lemma PathOfWithPath(s: SettingsValue, slot: ImageSlot, path: string, other: ImageSlot)
    ensures Path(WithPath(s, slot, path), other) == if other == slot then path else Path(s, other)
    ensures SameNonPathFields(WithPath(s, slot, path), s)
  {
  }

  /** Writing the value a slot already holds changes nothing. */
  lemma WithPathOfPath(s: SettingsValue, slot: ImageSlot)
    ensures WithPath(s, slot, Path(s, slot)) == s
  {
  }

  /** The six tags select six different slots, so every slot is reachable by exactly one tag. */
  lemma TargetOfIsOneToOne(t: string, u: string)
    requires TargetOf(t).Some? && TargetOf(t) == TargetOf(u)
    ensures t == u
  {
  }

  /**
   * The open-image operator writes `filepath` into exactly the field that the
   * tag selects; every other field keeps its value, and an unrecognised tag
   * changes nothing.
   */
  lemma OpenedWritesOnlyTarget(s: SettingsValue, imageType: string, filepath: string, slot: ImageSlot)
    ensures Path(Opened(s, imageType, filepath), slot) ==
              if TargetOf(imageType) == Some(slot) then filepath else Path(s, slot)
    ensures SameNonPathFields(Opened(s, imageType, filepath), s)
    ensures TargetOf(imageType).None? ==> Opened(s, imageType, filepath) == s
  {
    match TargetOf(imageType)
    case Some(target) => PathOfWithPath(s, target, filepath, slot);
    case None =>
  }

  /** The settings record itself, whose fields the operators assign in place. */
  class Settings {
    var baseColorImage: string
    var normalImage: string
    var metallicSmoothnessImage: string
    var emissionImage: string
    var emissionSameAsBase: bool
    var strength: real
    var usePackedMaps: bool
    var roughnessImage: string
    var metallicImage: string
    var emissionColor: Rgb

    /** The current field values. */
    function Value(): SettingsValue
      reads this
    {
      SettingsValue(baseColorImage, normalImage, metallicSmoothnessImage, emissionImage,
                    emissionSameAsBase, strength, usePackedMaps, roughnessImage, metallicImage,
                    emissionColor)
    }

    /** A record with every field at its declared default. */
    constructor ()
      ensures Value() == Declared()
    {
      baseColorImage, normalImage, metallicSmoothnessImage, emissionImage := "", "", "", "";
      emissionSameAsBase, strength, usePackedMaps := false, 1.0, false;
      roughnessImage, metallicImage := "", "";
      emissionColor := Rgb(1.0, 1.0, 1.0);
    }

    /** clear_inputs: resets every field but use_packed_maps. */
    method ClearInputs()
      modifies this
      ensures Value() == Cleared(old(Value()))
      ensures Value() == Declared().(usePackedMaps := old(usePackedMaps))
    {
      baseColorImage := "";
      normalImage := "";
      metallicSmoothnessImage := "";
      emissionImage := "";
      emissionSameAsBase := false;
      strength := 1.0;
      roughnessImage := "";
      metallicImage := "";
      emissionColor := Rgb(1.0, 1.0, 1.0);
      ClearedIsDeclaredExceptPackedMaps(old(Value()));
    }
  }
}
