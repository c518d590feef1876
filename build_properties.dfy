/**
 * What the create-texture-nodes build guarantees, proved about Build:
 * the graph it makes is well formed; its census of nodes is a sum of
 * per-slot contributions, each set by that slot's path and load, and for
 * emission also by emission-same-as-base and whether a base-colour path is
 * set; it reports
 * exactly the slots whose image failed to load; it assigns exactly the
 * documented defaults; each loaded slot is wired as documented; and it
 * finishes (clearing the settings) unless the emission branch uses the
 * base-colour texture that was never made.
 */
module BuildProperties {

  import opened Options
  import opened AvatarSettings
  import opened ShaderGraph
  import opened Operators

  // ---------------------------------------------------------------------
  // Well-formedness
  // ---------------------------------------------------------------------

  /** None of these principled inputs has a link yet. */
  predicate Free(g: Graph, ins: set<InputSocket>) {
    forall x :: x in ins ==> Unlinked(g, InputRef(PRINCIPLED, x))
  }

  /** The builder's state is well formed and the inputs of the slots still to come are free. */
  predicate Sound(p: Progress, ins: set<InputSocket>) {
    Ready(p) && WellFormed(p.graph) && Free(p.graph, ins)
  }

  /** One links.new step: a well-formed graph stays so, and the principled input it fills is no longer free. */
  lemma LinkStep(g: Graph, from: OutputRef, to: InputRef, ins: set<InputSocket>)
    requires WellFormed(g) && Fits(g.nodes, Link(from, to)) && Free(g, ins) && Unlinked(g, to)
    ensures WellFormed(WithLink(g, from, to))
    ensures Free(WithLink(g, from, to), ins - {to.socket})
    ensures to.node != PRINCIPLED ==> Free(WithLink(g, from, to), ins)
  {
    WithLinkKeeps(g, from, to);
  }

  /** One nodes.new step: the new node's inputs are all free. */
  lemma NodeStep(g: Graph, n: Node, ins: set<InputSocket>)
    requires WellFormed(g) && Free(g, ins)
    ensures WellFormed(WithNode(g, n)) && Free(WithNode(g, n), ins)
    ensures forall x :: Unlinked(WithNode(g, n), InputRef(|g.nodes|, x))
  {
    WithNodeKeeps(g, n);
  }

  /** A new node with one incoming link, as the add-on adds its converter nodes. */
  lemma AttachStep(g: Graph, n: Node, from: OutputRef, socket: InputSocket, ins: set<InputSocket>)
    requires WellFormed(g) && Free(g, ins) && |g.nodes| >= 2
    requires from.node < |g.nodes| && HasOutput(KindOf(g.nodes[from.node]), from.socket) && HasInput(KindOf(n), socket)
    ensures var h := WithLink(WithNode(g, n), from, InputRef(|g.nodes|, socket));
            WellFormed(h) && Free(h, ins) && h.nodes == g.nodes + [n] && h.defaults == g.defaults &&
            forall x :: x != socket ==> Unlinked(h, InputRef(|g.nodes|, x))
  {
    NodeStep(g, n, ins);
    var g1 := WithNode(g, n);
    assert g1.nodes[from.node] == g.nodes[from.node];
    LinkStep(g1, from, InputRef(|g.nodes|, socket), ins);
    WithLinkKeeps(g1, from, InputRef(|g.nodes|, socket));
  }

  lemma TexturedKeeps(g: Graph, slot: ImageSlot, path: string, nonColor: bool, loads: string -> bool)
    requires WellFormed(g)
    ensures var h := Textured(g, slot, path, nonColor, loads);
            WellFormed(h) && h.links == g.links && h.defaults == g.defaults &&
            g.nodes <= h.nodes && |h.nodes| == |g.nodes| + 1 &&
            KindOf(h.nodes[|g.nodes|]) == ImageTexture(slot) &&
            forall x :: Unlinked(h, InputRef(|g.nodes|, x))
  {
    var h := WithNode(g, ImageTextureNode(slot, None));
    WithNodeKeeps(g, ImageTextureNode(slot, None));
    if loads(path) {
      WithImageKeeps(h, |g.nodes|, Image(path, nonColor));
    }
  }

  lemma StartSound()
    ensures Sound(Start(), PRINCIPLED_INPUTS)
  {
    var g1 := WithNode(EMPTY, OutputMaterialNode);
    EmptyIsWellFormed();
    WithNodeKeeps(EMPTY, OutputMaterialNode);
    WithNodeKeeps(g1, PrincipledBsdfNode);
    WithLinkKeeps(WithNode(g1, PrincipledBsdfNode), OutputRef(PRINCIPLED, Bsdf), InputRef(OUTPUT, Surface));
  }

  lemma BaseColorStageSound(p: Progress, s: SettingsValue, loads: string -> bool, ins: set<InputSocket>)
    requires Sound(p, ins) && BaseColor in ins
    ensures Sound(BaseColorStage(p, s, loads), ins - Fed(s, BaseColorSlot, loads))
  {
    var path := s.baseColorImage;
    if path != "" {
      var tex := |p.graph.nodes|;
      TexturedKeeps(p.graph, BaseColorSlot, path, false, loads);
      var g := Textured(p.graph, BaseColorSlot, path, false, loads);
      if loads(path) {
        WithLinkKeeps(g, OutputRef(tex, TextureColor), InputRef(PRINCIPLED, BaseColor));
      }
    }
  }

  lemma PackedStageSound(p: Progress, s: SettingsValue, loads: string -> bool, ins: set<InputSocket>)
    requires Sound(p, ins) && {Metallic, Roughness, SpecularIorLevel} <= ins
    ensures Sound(PackedStage(p, s, loads), ins - Fed(s, MetallicSmoothnessSlot, loads))
  {
    var path := s.metallicSmoothnessImage;
    if path == "" {
      var g := WithDefault(p.graph, InputRef(PRINCIPLED, Roughness), 1.0);
      WithDefaultKeeps(p.graph, InputRef(PRINCIPLED, Roughness), 1.0);
      WithDefaultKeeps(g, InputRef(PRINCIPLED, Metallic), 0.0);
    } else {
      TexturedKeeps(p.graph, MetallicSmoothnessSlot, path, true, loads);
      if loads(path) {
        PackedChannelsSound(Textured(p.graph, MetallicSmoothnessSlot, path, true, loads), |p.graph.nodes|, ins);
      }
    }
  }

  lemma PackedChannelsSound(g: Graph, tex: nat, ins: set<InputSocket>)
    requires WellFormed(g) && Free(g, ins) && {Metallic, Roughness, SpecularIorLevel} <= ins
    requires |g.nodes| >= 2 && g.nodes[PRINCIPLED] == PrincipledBsdfNode
    requires tex < |g.nodes| && KindOf(g.nodes[tex]).ImageTexture?
    ensures WellFormed(PackedChannels(g, tex)) && Free(PackedChannels(g, tex), ins - {Metallic, Roughness, SpecularIorLevel})
  {
    var separate, invert := |g.nodes|, |g.nodes| + 1;
    AttachStep(g, SeparateColorNode, OutputRef(tex, TextureColor), SeparateInput, ins);
    var g1 := WithLink(WithNode(g, SeparateColorNode), OutputRef(tex, TextureColor), InputRef(separate, SeparateInput));
    AttachStep(g1, InvertNode, OutputRef(separate, Green), InvertInput, ins);
    var g2 := WithLink(WithNode(g1, InvertNode), OutputRef(separate, Green), InputRef(invert, InvertInput));
    ChannelLinksSound(g2, tex, separate, invert, ins);
  }

  /** The three links from the packed channels into the principled node. */
  lemma ChannelLinksSound(g2: Graph, tex: nat, separate: nat, invert: nat, ins: set<InputSocket>)
    requires WellFormed(g2) && Free(g2, ins) && {Metallic, Roughness, SpecularIorLevel} <= ins
    requires |g2.nodes| >= 2 && g2.nodes[PRINCIPLED] == PrincipledBsdfNode
    requires tex < |g2.nodes| && KindOf(g2.nodes[tex]).ImageTexture?
    requires separate < |g2.nodes| && KindOf(g2.nodes[separate]) == SeparateColor
    requires invert < |g2.nodes| && KindOf(g2.nodes[invert]) == Invert
    ensures var g3 := WithLink(g2, OutputRef(separate, Red), InputRef(PRINCIPLED, Metallic));
            var g4 := WithLink(g3, OutputRef(invert, InvertedColor), InputRef(PRINCIPLED, Roughness));
            var g5 := WithLink(g4, OutputRef(tex, TextureAlpha), InputRef(PRINCIPLED, SpecularIorLevel));
            WellFormed(g5) && Free(g5, ins - {Metallic, Roughness, SpecularIorLevel})
  {
    LinkStep(g2, OutputRef(separate, Red), InputRef(PRINCIPLED, Metallic), ins);
    var g3 := WithLink(g2, OutputRef(separate, Red), InputRef(PRINCIPLED, Metallic));
    var ins3 := ins - {Metallic};
    LinkStep(g3, OutputRef(invert, InvertedColor), InputRef(PRINCIPLED, Roughness), ins3);
    var g4 := WithLink(g3, OutputRef(invert, InvertedColor), InputRef(PRINCIPLED, Roughness));
    var ins4 := ins3 - {Roughness};
    LinkStep(g4, OutputRef(tex, TextureAlpha), InputRef(PRINCIPLED, SpecularIorLevel), ins4);
    assert ins4 - {SpecularIorLevel} == ins - {Metallic, Roughness, SpecularIorLevel};
  }

  lemma MetallicStageSound(p: Progress, s: SettingsValue, loads: string -> bool, ins: set<InputSocket>)
    requires Sound(p, ins) && Metallic in ins
    ensures Sound(MetallicStage(p, s, loads), ins - Fed(s, MetallicSlot, loads))
  {
    var path := s.metallicImage;
    if path == "" {
      WithDefaultKeeps(p.graph, InputRef(PRINCIPLED, Metallic), 0.0);
    } else {
      TexturedKeeps(p.graph, MetallicSlot, path, true, loads);
      var g := Textured(p.graph, MetallicSlot, path, true, loads);
      if loads(path) {
        LinkStep(g, OutputRef(|p.graph.nodes|, TextureColor), InputRef(PRINCIPLED, Metallic), ins);
      }
    }
  }

  lemma RoughnessStageSound(p: Progress, s: SettingsValue, loads: string -> bool, ins: set<InputSocket>)
    requires Sound(p, ins) && Roughness in ins
    ensures Sound(RoughnessStage(p, s, loads), ins - Fed(s, RoughnessSlot, loads))
  {
    var path := s.roughnessImage;
    if path == "" {
      WithDefaultKeeps(p.graph, InputRef(PRINCIPLED, Roughness), 1.0);
    } else {
      TexturedKeeps(p.graph, RoughnessSlot, path, true, loads);
      var g := Textured(p.graph, RoughnessSlot, path, true, loads);
      if loads(path) {
        LinkStep(g, OutputRef(|p.graph.nodes|, TextureColor), InputRef(PRINCIPLED, Roughness), ins);
      }
    }
  }

  lemma MetalRoughStageSound(p: Progress, s: SettingsValue, loads: string -> bool, ins: set<InputSocket>)
    requires Sound(p, ins) && {Metallic, Roughness, SpecularIorLevel} <= ins
    ensures Sound(MetalRoughStage(p, s, loads), ins - MetalRoughFed(s, loads))
  {
    if s.usePackedMaps {
      PackedStageSound(p, s, loads, ins);
    } else {
      MetallicStageSound(p, s, loads, ins);
      RoughnessStageSound(MetallicStage(p, s, loads), s, loads, ins - Fed(s, MetallicSlot, loads));
      assert ins - Fed(s, MetallicSlot, loads) - Fed(s, RoughnessSlot, loads) == ins - MetalRoughFed(s, loads);
    }
  }

  lemma NormalStageSound(p: Progress, s: SettingsValue, loads: string -> bool, ins: set<InputSocket>)
    requires Sound(p, ins) && Normal in ins
    ensures Sound(NormalStage(p, s, loads), ins - Fed(s, NormalSlot, loads))
  {
    var path := s.normalImage;
    if path != "" {
      var tex := |p.graph.nodes|;
      TexturedKeeps(p.graph, NormalSlot, path, true, loads);
      var g := Textured(p.graph, NormalSlot, path, true, loads);
      if loads(path) {
        NormalMappedSound(g, tex, ins);
      }
    }
  }

  lemma NormalMappedSound(g: Graph, tex: nat, ins: set<InputSocket>)
    requires WellFormed(g) && Free(g, ins) && Normal in ins
    requires |g.nodes| >= 2 && g.nodes[PRINCIPLED] == PrincipledBsdfNode
    requires tex < |g.nodes| && KindOf(g.nodes[tex]).ImageTexture?
    ensures WellFormed(NormalMapped(g, tex)) && Free(NormalMapped(g, tex), ins - {Normal})
  {
    var normalMap := |g.nodes|;
    AttachStep(g, NormalMapNode, OutputRef(tex, TextureColor), NormalMapColor, ins);
    var g1 := WithLink(WithNode(g, NormalMapNode), OutputRef(tex, TextureColor), InputRef(normalMap, NormalMapColor));
    LinkStep(g1, OutputRef(normalMap, NormalOut), InputRef(PRINCIPLED, Normal), ins);
  }

  lemma WithStrengthSound(g: Graph, strength: real, ins: set<InputSocket>)
    requires WellFormed(g) && |g.nodes| >= 2 && g.nodes[PRINCIPLED] == PrincipledBsdfNode && Free(g, ins) && EmissionStrength in ins
    ensures WellFormed(WithStrength(g, strength)) && Free(WithStrength(g, strength), ins - {EmissionStrength})
  {
    WithNodeKeeps(g, ValueNode(strength));
    WithLinkKeeps(WithNode(g, ValueNode(strength)), OutputRef(|g.nodes|, ValueOut), InputRef(PRINCIPLED, EmissionStrength));
  }

  lemma EmissionStageSound(p: Progress, s: SettingsValue, loads: string -> bool, ins: set<InputSocket>)
    requires Sound(p, ins) && {EmissionColor, EmissionStrength} <= ins
    requires p.baseColorNode.Some? <==> s.baseColorImage != ""
    ensures Sound(EmissionStage(p, s, loads).0, ins - Fed(s, EmissionSlot, loads))
  {
    var path := s.emissionImage;
    if path == "" {
      WithDefaultKeeps(p.graph, InputRef(PRINCIPLED, EmissionStrength), 0.0);
    } else {
      var tex := |p.graph.nodes|;
      TexturedKeeps(p.graph, EmissionSlot, path, false, loads);
      var g := Textured(p.graph, EmissionSlot, path, false, loads);
      var q := p.(graph := g);
      assert Sound(q, ins) && Ready(q);
      if loads(path) {
        if s.emissionSameAsBase {
          MultiplyEmissionSound(q, tex, s.strength, ins);
        } else {
          RampEmissionSound(q, tex, s.emissionColor, s.strength, ins);
        }
      }
    }
  }

  lemma MultiplyEmissionSound(p: Progress, tex: nat, strength: real, ins: set<InputSocket>)
    requires Sound(p, ins) && {EmissionColor, EmissionStrength} <= ins
    requires tex < |p.graph.nodes| && KindOf(p.graph.nodes[tex]).ImageTexture?
    ensures Sound(MultiplyEmission(p, tex, strength).0, if p.baseColorNode.None? then ins else ins - {EmissionColor, EmissionStrength})
  {
    var mix := |p.graph.nodes|;
    WithNodeKeeps(p.graph, MixRgbNode(Multiply));
    var g0 := WithNode(p.graph, MixRgbNode(Multiply));
    WithDefaultKeeps(g0, InputRef(mix, Fac), 1.0);
    var g1 := WithDefault(g0, InputRef(mix, Fac), 1.0);
    assert forall x :: Unlinked(g1, InputRef(mix, x));
    match p.baseColorNode
    case None =>
    case Some(base) =>
      MultiplyLinksSound(g1, base, tex, mix, ins);
      WithStrengthSound(MultiplyLinks(g1, base, tex, mix), strength, ins - {EmissionColor});
      assert ins - {EmissionColor} - {EmissionStrength} == ins - {EmissionColor, EmissionStrength};
  }

  lemma MultiplyLinksSound(g: Graph, base: nat, tex: nat, mix: nat, ins: set<InputSocket>)
    requires WellFormed(g) && |g.nodes| >= 2 && g.nodes[PRINCIPLED] == PrincipledBsdfNode && Free(g, ins) && EmissionColor in ins
    requires base < |g.nodes| && KindOf(g.nodes[base]).ImageTexture?
    requires tex < |g.nodes| && KindOf(g.nodes[tex]).ImageTexture?
    requires mix < |g.nodes| && g.nodes[mix] == MixRgbNode(Multiply) && forall x :: Unlinked(g, InputRef(mix, x))
    ensures var h := MultiplyLinks(g, base, tex, mix);
            WellFormed(h) && Free(h, ins - {EmissionColor}) && h.nodes == g.nodes
  {
    var g2 := WithLink(g, OutputRef(base, TextureColor), InputRef(mix, Color2));
    LinkStep(g, OutputRef(base, TextureColor), InputRef(mix, Color2), ins);
    assert Unlinked(g2, InputRef(mix, Color1));
    var g3 := WithLink(g2, OutputRef(tex, TextureColor), InputRef(mix, Color1));
    LinkStep(g2, OutputRef(tex, TextureColor), InputRef(mix, Color1), ins);
    LinkStep(g3, OutputRef(mix, MixedColor), InputRef(PRINCIPLED, EmissionColor), ins);
  }

  lemma RampEmissionSound(p: Progress, tex: nat, c: Rgb, strength: real, ins: set<InputSocket>)
    requires Sound(p, ins) && {EmissionColor, EmissionStrength} <= ins
    requires tex < |p.graph.nodes| && KindOf(p.graph.nodes[tex]).ImageTexture?
    ensures Sound(RampEmission(p, tex, c, strength), ins - {EmissionColor, EmissionStrength})
  {
    RampedSound(p.graph, tex, c, ins);
    WithStrengthSound(Ramped(p.graph, tex, c), strength, ins - {EmissionColor});
    assert ins - {EmissionColor} - {EmissionStrength} == ins - {EmissionColor, EmissionStrength};
  }

  lemma RampedSound(g: Graph, tex: nat, c: Rgb, ins: set<InputSocket>)
    requires WellFormed(g) && Free(g, ins) && EmissionColor in ins
    requires |g.nodes| >= 2 && g.nodes[PRINCIPLED] == PrincipledBsdfNode
    requires tex < |g.nodes| && KindOf(g.nodes[tex]).ImageTexture?
    ensures var h := Ramped(g, tex, c);
            WellFormed(h) && Free(h, ins - {EmissionColor}) && |h.nodes| == |g.nodes| + 1 && h.nodes[PRINCIPLED] == PrincipledBsdfNode
  {
    var ramp := |g.nodes|;
    var node := ColorRampNode(Rgba(c.r, c.g, c.b, 1.0));
    AttachStep(g, node, OutputRef(tex, TextureColor), RampFac, ins);
    var g1 := WithLink(WithNode(g, node), OutputRef(tex, TextureColor), InputRef(ramp, RampFac));
    LinkStep(g1, OutputRef(ramp, RampColor), InputRef(PRINCIPLED, EmissionColor), ins);
  }

  /**
   * Every link of a build joins sockets its nodes have, every default sits on
   * an input its node has, and no input receives two links, so appending
   * links is what links.new does here.
   */
  lemma BuildWellFormed(s: SettingsValue, loads: string -> bool)
    ensures WellFormed(Build(s, loads).graph)
    ensures Free(Build(s, loads).graph, PRINCIPLED_INPUTS - ExpectedFed(s, loads))
  {
    StagesSound(s, loads);
  }

  /** Every stage keeps the graph sound; emission is the last one. */
  lemma StagesSound(s: SettingsValue, loads: string -> bool)
    ensures Sound(Stages(s, loads).0, PRINCIPLED_INPUTS - ExpectedFed(s, loads))
  {
    var ins3 := PRINCIPLED_INPUTS - Fed(s, BaseColorSlot, loads) - MetalRoughFed(s, loads) - Fed(s, NormalSlot, loads);
    FedBounds(s, loads);
    BeforeEmissionSound(s, loads);
    BaseColorNodeBound(s, loads);
    EmissionStageSound(BeforeEmission(s, loads), s, loads, ins3);
    SetMinusChain(PRINCIPLED_INPUTS, Fed(s, BaseColorSlot, loads), MetalRoughFed(s, loads), Fed(s, NormalSlot, loads), Fed(s, EmissionSlot, loads));
  }

  /** The output, principled, base-colour, metallic/roughness and normal stages. */
  lemma BeforeEmissionSound(s: SettingsValue, loads: string -> bool)
    ensures Sound(BeforeEmission(s, loads),
                  PRINCIPLED_INPUTS - Fed(s, BaseColorSlot, loads) - MetalRoughFed(s, loads) - Fed(s, NormalSlot, loads))
  {
    var p2 := MetalRoughStage(BaseColorStage(Start(), s, loads), s, loads);
    FedBounds(s, loads);
    EarlyStagesSound(s, loads);
    NormalStageSound(p2, s, loads, PRINCIPLED_INPUTS - Fed(s, BaseColorSlot, loads) - MetalRoughFed(s, loads));
  }

  /** The output, principled, base-colour and metallic/roughness stages. */
  lemma EarlyStagesSound(s: SettingsValue, loads: string -> bool)
    ensures Sound(MetalRoughStage(BaseColorStage(Start(), s, loads), s, loads),
                  PRINCIPLED_INPUTS - Fed(s, BaseColorSlot, loads) - MetalRoughFed(s, loads))
  {
    FedBounds(s, loads);
    StartSound();
    BaseColorStageSound(Start(), s, loads, PRINCIPLED_INPUTS);
    MetalRoughStageSound(BaseColorStage(Start(), s, loads), s, loads, PRINCIPLED_INPUTS - Fed(s, BaseColorSlot, loads));
  }

  lemma SetMinusChain(a: set<InputSocket>, b: set<InputSocket>, c: set<InputSocket>, d: set<InputSocket>, e: set<InputSocket>)
    ensures a - b - c - d - e == a - (b + c + d + e)
  {
  }

  /** Each stage links only its own principled inputs. */
  lemma FedBounds(s: SettingsValue, loads: string -> bool)
    ensures Fed(s, BaseColorSlot, loads) <= {BaseColor}
    ensures MetalRoughFed(s, loads) <= {Metallic, Roughness, SpecularIorLevel}
    ensures Fed(s, NormalSlot, loads) <= {Normal}
    ensures Fed(s, EmissionSlot, loads) <= {EmissionColor, EmissionStrength}
  {
  }

  /** The principled inputs the add-on links or assigns. */
  const PRINCIPLED_INPUTS: set<InputSocket> := {BaseColor, Metallic, Roughness, SpecularIorLevel, Normal, EmissionColor, EmissionStrength}

  /**
   * The principled inputs a visited slot links: none unless its image
   * loaded, and none from emission when the MULTIPLY branch stops at the
   * unbound base-colour node.
   */
  function Fed(s: SettingsValue, slot: ImageSlot, loads: string -> bool): set<InputSocket> {
    if !Loaded(s, slot, loads) then {}
    else match slot
      case BaseColorSlot => {BaseColor}
      case MetallicSmoothnessSlot => {Metallic, Roughness, SpecularIorLevel}
      case MetallicSlot => {Metallic}
      case RoughnessSlot => {Roughness}
      case NormalSlot => {Normal}
      case EmissionSlot => if Raises(s, loads) then {} else {EmissionColor, EmissionStrength}
  }

  function MetalRoughFed(s: SettingsValue, loads: string -> bool): set<InputSocket> {
    if s.usePackedMaps then Fed(s, MetallicSmoothnessSlot, loads)
    else Fed(s, MetallicSlot, loads) + Fed(s, RoughnessSlot, loads)
  }

  /** The principled inputs a build links, slot by slot. */
  function ExpectedFed(s: SettingsValue, loads: string -> bool): set<InputSocket> {
    Fed(s, BaseColorSlot, loads) + MetalRoughFed(s, loads) + Fed(s, NormalSlot, loads) + Fed(s, EmissionSlot, loads)
  }

  // ---------------------------------------------------------------------
  // The slots, their use and their loads
  // ---------------------------------------------------------------------

  /** A slot is used when its path is set, and loaded when that path also loads. */
  predicate Loaded(s: SettingsValue, slot: ImageSlot, loads: string -> bool) {
    Path(s, slot) != "" && loads(Path(s, slot))
  }

  /** A used slot whose image does not load. */
  predicate Failed(s: SettingsValue, slot: ImageSlot, loads: string -> bool) {
    Path(s, slot) != "" && !loads(Path(s, slot))
  }

  /** The slots a build visits, in order: packed maps select one slot, separate maps two. */
  function VisitedSlots(s: SettingsValue): seq<ImageSlot> {
    [BaseColorSlot] + (if s.usePackedMaps then [MetallicSmoothnessSlot] else [MetallicSlot, RoughnessSlot]) +
    [NormalSlot, EmissionSlot]
  }

  /** The MULTIPLY branch of the emission slot reaches base_color_node while it is unbound. */
  predicate Raises(s: SettingsValue, loads: string -> bool) {
    Loaded(s, EmissionSlot, loads) && s.emissionSameAsBase && s.baseColorImage == ""
  }

  // ---------------------------------------------------------------------
  // Outcome
  // ---------------------------------------------------------------------

  /**
   * base_color_node is bound when emission is reached exactly when the
   * base-colour path is set: it is assigned before its image is loaded, so a
   * failed load leaves it bound.
   */
  lemma BaseColorNodeBound(s: SettingsValue, loads: string -> bool)
    ensures BeforeEmission(s, loads).baseColorNode.Some? <==> s.baseColorImage != ""
  {
  }

  /**
   * A build finishes, and then leaves the settings cleared with
   * use_packed_maps as it was, unless emission-same-as-base meets an unset
   * base-colour path after the emission image loaded; then the exception
   * escapes and the settings are left as they were.
   */
  lemma BuildOutcome(s: SettingsValue, loads: string -> bool)
    ensures var r := Build(s, loads);
            r.outcome == (if Raises(s, loads) then Raised(UnboundBaseColorNode) else Finished) &&
            r.settings == (if Raises(s, loads) then s else Cleared(s)) &&
            r.settings.usePackedMaps == s.usePackedMaps
  {
    BaseColorNodeBound(s, loads);
  }

  // ---------------------------------------------------------------------
  // Census of nodes
  // ---------------------------------------------------------------------

  /** One when the node kinds agree, else nothing. */
  function Is(a: NodeKind, k: NodeKind): nat {
    if a == k then 1 else 0
  }

  /**
   * How many nodes of kind `k` a visited slot contributes: its texture when
   * its path is set, and the nodes behind that texture only when the image
   * loaded (the MULTIPLY branch of emission stops, before its Value node,
   * when there is no base-colour texture).
   */
  function SlotCount(s: SettingsValue, slot: ImageSlot, loads: string -> bool, k: NodeKind): nat {
    if Path(s, slot) == "" then 0
    else
      Is(ImageTexture(slot), k) +
      if !loads(Path(s, slot)) then 0
      else match slot
        case MetallicSmoothnessSlot => Is(SeparateColor, k) + Is(Invert, k)
        case NormalSlot => Is(NormalMap, k)
        case EmissionSlot =>
          if !s.emissionSameAsBase then Is(ColorRamp, k) + Is(Value, k)
          else Is(MixRgb, k) + if s.baseColorImage == "" then 0 else Is(Value, k)
        case _ => 0
  }

  /** The census a build should have: the two fixed nodes and the contribution of each visited slot. */
  function ExpectedCount(s: SettingsValue, loads: string -> bool, k: NodeKind): nat {
    Is(OutputMaterial, k) + Is(PrincipledBsdf, k) +
    SlotCount(s, BaseColorSlot, loads, k) +
    (if s.usePackedMaps then SlotCount(s, MetallicSmoothnessSlot, loads, k)
     else SlotCount(s, MetallicSlot, loads, k) + SlotCount(s, RoughnessSlot, loads, k)) +
    SlotCount(s, NormalSlot, loads, k) +
    SlotCount(s, EmissionSlot, loads, k)
  }

  lemma TexturedCensus(g: Graph, slot: ImageSlot, path: string, nonColor: bool, loads: string -> bool, k: NodeKind)
    ensures Count(Textured(g, slot, path, nonColor, loads).nodes, k) == Count(g.nodes, k) + Is(ImageTexture(slot), k)
  {
    var h := WithNode(g, ImageTextureNode(slot, None));
    CountAppend(g.nodes, ImageTextureNode(slot, None), k);
    if loads(path) {
      CountWithImage(h, |g.nodes|, Image(path, nonColor), k);
    }
  }

  lemma StartCensus(k: NodeKind)
    ensures Count(Start().graph.nodes, k) == Is(OutputMaterial, k) + Is(PrincipledBsdf, k)
  {
    CountAppendTwo([], OutputMaterialNode, PrincipledBsdfNode, k);
    assert Start().graph.nodes == [] + [OutputMaterialNode] + [PrincipledBsdfNode];
  }

  lemma BaseColorStageCensus(p: Progress, s: SettingsValue, loads: string -> bool, k: NodeKind)
    ensures Count(BaseColorStage(p, s, loads).graph.nodes, k) == Count(p.graph.nodes, k) + SlotCount(s, BaseColorSlot, loads, k)
  {
    if s.baseColorImage != "" {
      TexturedCensus(p.graph, BaseColorSlot, s.baseColorImage, false, loads, k);
    }
  }

  /** Two nodes appended one after the other. */
  lemma CountAppendTwo(nodes: seq<Node>, a: Node, b: Node, k: NodeKind)
    ensures Count(nodes + [a] + [b], k) == Count(nodes, k) + Is(KindOf(a), k) + Is(KindOf(b), k)
  {
    CountAppend(nodes, a, k);
    CountAppend(nodes + [a], b, k);
  }

  lemma PackedChannelsCensus(g: Graph, tex: nat, k: NodeKind)
    ensures Count(PackedChannels(g, tex).nodes, k) == Count(g.nodes, k) + Is(SeparateColor, k) + Is(Invert, k)
  {
    assert PackedChannels(g, tex).nodes == g.nodes + [SeparateColorNode] + [InvertNode];
    CountAppendTwo(g.nodes, SeparateColorNode, InvertNode, k);
  }

  lemma PackedStageCensus(p: Progress, s: SettingsValue, loads: string -> bool, k: NodeKind)
    ensures Count(PackedStage(p, s, loads).graph.nodes, k) == Count(p.graph.nodes, k) + SlotCount(s, MetallicSmoothnessSlot, loads, k)
  {
    var path := s.metallicSmoothnessImage;
    if path != "" {
      var g := Textured(p.graph, MetallicSmoothnessSlot, path, true, loads);
      TexturedCensus(p.graph, MetallicSmoothnessSlot, path, true, loads, k);
      if loads(path) {
        PackedChannelsCensus(g, |p.graph.nodes|, k);
      }
    }
  }

  /** One separate-map slot: its texture, and nothing behind it. */
  lemma SeparateStageCensus(p: Progress, r: Progress, s: SettingsValue, slot: ImageSlot, g: Graph, loads: string -> bool, k: NodeKind)
    requires slot == MetallicSlot || slot == RoughnessSlot
    requires g == Textured(p.graph, slot, Path(s, slot), true, loads)
    requires r.graph.nodes == if Path(s, slot) == "" then p.graph.nodes else g.nodes
    ensures Count(r.graph.nodes, k) == Count(p.graph.nodes, k) + SlotCount(s, slot, loads, k)
  {
    if Path(s, slot) != "" {
      TexturedCensus(p.graph, slot, Path(s, slot), true, loads, k);
    }
  }

  lemma MetalRoughStageCensus(p: Progress, s: SettingsValue, loads: string -> bool, k: NodeKind)
    ensures Count(MetalRoughStage(p, s, loads).graph.nodes, k) == Count(p.graph.nodes, k) +
              if s.usePackedMaps then SlotCount(s, MetallicSmoothnessSlot, loads, k)
              else SlotCount(s, MetallicSlot, loads, k) + SlotCount(s, RoughnessSlot, loads, k)
  {
    if s.usePackedMaps {
      PackedStageCensus(p, s, loads, k);
    } else {
      var q := MetallicStage(p, s, loads);
      SeparateStageCensus(p, q, s, MetallicSlot, Textured(p.graph, MetallicSlot, s.metallicImage, true, loads), loads, k);
      var r := RoughnessStage(q, s, loads);
      SeparateStageCensus(q, r, s, RoughnessSlot, Textured(q.graph, RoughnessSlot, s.roughnessImage, true, loads), loads, k);
    }
  }

  lemma NormalMappedCensus(g: Graph, tex: nat, k: NodeKind)
    ensures Count(NormalMapped(g, tex).nodes, k) == Count(g.nodes, k) + Is(NormalMap, k)
  {
    assert NormalMapped(g, tex).nodes == g.nodes + [NormalMapNode];
    CountAppend(g.nodes, NormalMapNode, k);
  }

  lemma NormalStageCensus(p: Progress, s: SettingsValue, loads: string -> bool, k: NodeKind)
    ensures Count(NormalStage(p, s, loads).graph.nodes, k) == Count(p.graph.nodes, k) + SlotCount(s, NormalSlot, loads, k)
  {
    var path := s.normalImage;
    if path != "" {
      var g := Textured(p.graph, NormalSlot, path, true, loads);
      TexturedCensus(p.graph, NormalSlot, path, true, loads, k);
      if loads(path) {
        NormalMappedCensus(g, |p.graph.nodes|, k);
      }
    }
  }

  lemma EmissionStageCensus(p: Progress, s: SettingsValue, loads: string -> bool, k: NodeKind)
    requires p.baseColorNode.Some? <==> s.baseColorImage != ""
    ensures Count(EmissionStage(p, s, loads).0.graph.nodes, k) == Count(p.graph.nodes, k) + SlotCount(s, EmissionSlot, loads, k)
  {
    var path := s.emissionImage;
    var r := EmissionStage(p, s, loads).0;
    if path != "" {
      var g := Textured(p.graph, EmissionSlot, path, false, loads);
      TexturedCensus(p.graph, EmissionSlot, path, false, loads, k);
      if loads(path) {
        if s.emissionSameAsBase {
          MultiplyEmissionCensus(p.(graph := g), |p.graph.nodes|, s.strength, k);
        } else {
          RampEmissionCensus(p.(graph := g), |p.graph.nodes|, s.emissionColor, s.strength, k);
        }
      }
    }
  }

  lemma WithStrengthCensus(g: Graph, strength: real, k: NodeKind)
    ensures Count(WithStrength(g, strength).nodes, k) == Count(g.nodes, k) + Is(Value, k)
  {
    CountAppend(g.nodes, ValueNode(strength), k);
  }

  lemma MultiplyEmissionCensus(p: Progress, tex: nat, strength: real, k: NodeKind)
    ensures Count(MultiplyEmission(p, tex, strength).0.graph.nodes, k) ==
              Count(p.graph.nodes, k) + Is(MixRgb, k) + if p.baseColorNode.None? then 0 else Is(Value, k)
  {
    var mix := |p.graph.nodes|;
    CountAppend(p.graph.nodes, MixRgbNode(Multiply), k);
    var g1 := WithDefault(WithNode(p.graph, MixRgbNode(Multiply)), InputRef(mix, Fac), 1.0);
    match p.baseColorNode
    case None =>
    case Some(base) =>
      assert MultiplyLinks(g1, base, tex, mix).nodes == g1.nodes;
      WithStrengthCensus(MultiplyLinks(g1, base, tex, mix), strength, k);
  }

  lemma RampEmissionCensus(p: Progress, tex: nat, c: Rgb, strength: real, k: NodeKind)
    ensures Count(RampEmission(p, tex, c, strength).graph.nodes, k) == Count(p.graph.nodes, k) + Is(ColorRamp, k) + Is(Value, k)
  {
    RampedCensus(p.graph, tex, c, k);
    WithStrengthCensus(Ramped(p.graph, tex, c), strength, k);
  }

  lemma RampedCensus(g: Graph, tex: nat, c: Rgb, k: NodeKind)
    ensures Count(Ramped(g, tex, c).nodes, k) == Count(g.nodes, k) + Is(ColorRamp, k)
  {
    var node := ColorRampNode(Rgba(c.r, c.g, c.b, 1.0));
    assert Ramped(g, tex, c).nodes == g.nodes + [node];
    CountAppend(g.nodes, node, k);
  }

  /**
   * The census of a build is the sum of per-slot contributions: each slot's
   * nodes are set by its own path and load, and for emission also by
   * emission-same-as-base and whether a base-colour path is set. A slot that
   * fails adds its bare texture and nothing behind it, and the later slots
   * are built all the same.
   */
  lemma BuildCensus(s: SettingsValue, loads: string -> bool)
    ensures HasCensus(Build(s, loads).graph.nodes, s, loads)
  {
    forall k {
      BuildCensusOf(s, loads, k);
    }
  }

  /** The census of `nodes` is the one a build with these settings and loads should have. */
  ghost predicate HasCensus(nodes: seq<Node>, s: SettingsValue, loads: string -> bool) {
    forall k :: Count(nodes, k) == ExpectedCount(s, loads, k)
  }

  lemma BuildCensusOf(s: SettingsValue, loads: string -> bool, k: NodeKind)
    ensures Count(Build(s, loads).graph.nodes, k) == ExpectedCount(s, loads, k)
  {
    BeforeEmissionCensus(s, loads, k);
    BaseColorNodeBound(s, loads);
    EmissionStageCensus(BeforeEmission(s, loads), s, loads, k);
  }

  lemma BeforeEmissionCensus(s: SettingsValue, loads: string -> bool, k: NodeKind)
    ensures Count(BeforeEmission(s, loads).graph.nodes, k) + SlotCount(s, EmissionSlot, loads, k) == ExpectedCount(s, loads, k)
  {
    var p0 := Start();
    StartCensus(k);
    BaseColorStageCensus(p0, s, loads, k);
    var p1 := BaseColorStage(p0, s, loads);
    MetalRoughStageCensus(p1, s, loads, k);
    var p2 := MetalRoughStage(p1, s, loads);
    NormalStageCensus(p2, s, loads, k);
  }

  /** Every build has exactly one output node and one principled node. */
  lemma OneOutputOnePrincipled(s: SettingsValue, loads: string -> bool)
    ensures var nodes := Build(s, loads).graph.nodes;
            Count(nodes, OutputMaterial) == 1 && Count(nodes, PrincipledBsdf) == 1
  {
    BuildCensus(s, loads);
    ExpectedFixedNodes(s, loads);
  }

  lemma ExpectedFixedNodes(s: SettingsValue, loads: string -> bool)
    ensures ExpectedCount(s, loads, OutputMaterial) == 1 && ExpectedCount(s, loads, PrincipledBsdf) == 1
  {
  }

  /**
   * Packed and separate maps exclude each other: packed mode makes no
   * separate metallic or roughness texture, separate mode no packed texture,
   * Separate Color or Invert node.
   */
  lemma PackedModesExclusive(s: SettingsValue, loads: string -> bool)
    ensures var nodes := Build(s, loads).graph.nodes;
            if s.usePackedMaps then Count(nodes, ImageTexture(MetallicSlot)) == 0 && Count(nodes, ImageTexture(RoughnessSlot)) == 0
            else Count(nodes, ImageTexture(MetallicSmoothnessSlot)) == 0 && Count(nodes, SeparateColor) == 0 && Count(nodes, Invert) == 0
  {
    BuildCensus(s, loads);
    ExpectedPackedModes(s, loads);
  }

  lemma ExpectedPackedModes(s: SettingsValue, loads: string -> bool)
    ensures if s.usePackedMaps then ExpectedCount(s, loads, ImageTexture(MetallicSlot)) == 0 && ExpectedCount(s, loads, ImageTexture(RoughnessSlot)) == 0
            else ExpectedCount(s, loads, ImageTexture(MetallicSmoothnessSlot)) == 0 &&
                 ExpectedCount(s, loads, SeparateColor) == 0 && ExpectedCount(s, loads, Invert) == 0
  {
    if s.usePackedMaps {
      ExpectedTextures(s, loads, MetallicSlot);
      ExpectedTextures(s, loads, RoughnessSlot);
    } else {
      ExpectedTextures(s, loads, MetallicSmoothnessSlot);
      ExpectedConverters(s, loads);
    }
  }

  /** Separate Color and Invert nodes come from a packed image only. */
  lemma ExpectedConverters(s: SettingsValue, loads: string -> bool)
    ensures !s.usePackedMaps ==> ExpectedCount(s, loads, SeparateColor) == 0 && ExpectedCount(s, loads, Invert) == 0
  {
  }

  /** A slot gets a texture exactly when it is visited and its path is set, and never two. */
  lemma TexturePerUsedSlot(s: SettingsValue, loads: string -> bool, slot: ImageSlot)
    ensures Count(Build(s, loads).graph.nodes, ImageTexture(slot)) ==
              if slot in VisitedSlots(s) && Path(s, slot) != "" then 1 else 0
  {
    BuildCensus(s, loads);
    var nodes := Build(s, loads).graph.nodes;
    CensusTextures(nodes, Count(nodes, ImageTexture(slot)), s, loads, slot);
  }

  lemma CensusTextures(nodes: seq<Node>, n: nat, s: SettingsValue, loads: string -> bool, slot: ImageSlot)
    requires n == ExpectedCount(s, loads, ImageTexture(slot))
    ensures n == if slot in VisitedSlots(s) && Path(s, slot) != "" then 1 else 0
  {
    ExpectedTextures(s, loads, slot);
  }

  /** The expected number of textures of a slot. */
  lemma ExpectedTextures(s: SettingsValue, loads: string -> bool, slot: ImageSlot)
    ensures ExpectedCount(s, loads, ImageTexture(slot)) == if slot in VisitedSlots(s) && Path(s, slot) != "" then 1 else 0
  {
    SlotCountTexture(s, BaseColorSlot, loads, slot);
    SlotCountTexture(s, MetallicSmoothnessSlot, loads, slot);
    SlotCountTexture(s, MetallicSlot, loads, slot);
    SlotCountTexture(s, RoughnessSlot, loads, slot);
    SlotCountTexture(s, NormalSlot, loads, slot);
    SlotCountTexture(s, EmissionSlot, loads, slot);
  }

  /** Of the textures, a slot contributes its own only. */
  lemma SlotCountTexture(s: SettingsValue, other: ImageSlot, loads: string -> bool, slot: ImageSlot)
    ensures SlotCount(s, other, loads, ImageTexture(slot)) == if other == slot && Path(s, other) != "" then 1 else 0
  {
  }
}
