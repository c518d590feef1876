/**
 * How a build wires each slot. Every visited slot with a path has its image
 * texture node, holding the image exactly when it loads (in Non-Color for
 * data maps); every loaded slot is connected to the principled node through
 * the nodes the add-on documents; and the principled inputs that end up
 * linked are exactly those the loaded slots feed, each by the output socket
 * its slot uses.
 */
module WiringProperties {

  import opened Options
  import opened AvatarSettings
  import opened ShaderGraph
  import opened Operators
  import opened BuildProperties

  /** There is node `n` at position `i`. */
  predicate At(g: Graph, i: nat, n: Node) {
    i < |g.nodes| && g.nodes[i] == n
  }

  /** Link `l` is in the graph. */
  predicate Has(g: Graph, l: Link) {
    l in g.links
  }

  /** `h` keeps every node of `g` at its position and every link of `g`. */
  predicate Grows(g: Graph, h: Graph) {
    g.nodes <= h.nodes && g.links <= h.links
  }

  lemma GrowsKeeps(g: Graph, h: Graph)
    requires Grows(g, h)
    ensures forall i: nat, n :: At(g, i, n) ==> At(h, i, n)
    ensures forall l :: Has(g, l) ==> Has(h, l)
  {
    forall l | Has(g, l) ensures Has(h, l) {
      var i :| 0 <= i < |g.links| && g.links[i] == l;
      assert h.links[i] == l;
    }
  }

  /** Image data that is not colour: every slot but base colour and emission is switched to Non-Color. */
  function NonColor(slot: ImageSlot): bool {
    slot != BaseColorSlot && slot != EmissionSlot
  }

  /** The texture node a slot with a path gets: it holds the image only if the image loads. */
  function TextureOf(s: SettingsValue, slot: ImageSlot, loads: string -> bool): Node {
    ImageTextureNode(slot, if loads(Path(s, slot)) then Some(Image(Path(s, slot), NonColor(slot))) else None)
  }

  ghost predicate SlotPresent(g: Graph, s: SettingsValue, slot: ImageSlot, loads: string -> bool) {
    exists t: nat :: At(g, t, TextureOf(s, slot, loads))
  }

  /** A texture's Color into principled input `x`. */
  predicate Direct(g: Graph, t: nat, x: InputSocket) {
    Has(g, Link(OutputRef(t, TextureColor), InputRef(PRINCIPLED, x)))
  }

  /** Red to Metallic, Green through Invert to Roughness, Alpha to Specular IOR Level. */
  predicate Packed(g: Graph, t: nat, sep: nat, inv: nat) {
    At(g, sep, SeparateColorNode) && At(g, inv, InvertNode) &&
    Has(g, Link(OutputRef(t, TextureColor), InputRef(sep, SeparateInput))) &&
    Has(g, Link(OutputRef(sep, Red), InputRef(PRINCIPLED, Metallic))) &&
    Has(g, Link(OutputRef(sep, Green), InputRef(inv, InvertInput))) &&
    Has(g, Link(OutputRef(inv, InvertedColor), InputRef(PRINCIPLED, Roughness))) &&
    Has(g, Link(OutputRef(t, TextureAlpha), InputRef(PRINCIPLED, SpecularIorLevel)))
  }

  /** Color through a Normal Map node into Normal. */
  predicate Mapped(g: Graph, t: nat, m: nat) {
    At(g, m, NormalMapNode) &&
    Has(g, Link(OutputRef(t, TextureColor), InputRef(m, NormalMapColor))) &&
    Has(g, Link(OutputRef(m, NormalOut), InputRef(PRINCIPLED, Normal)))
  }

  /** A Value node holding `strength` into Emission Strength. */
  predicate Strength(g: Graph, v: nat, strength: real) {
    At(g, v, ValueNode(strength)) && Has(g, Link(OutputRef(v, ValueOut), InputRef(PRINCIPLED, EmissionStrength)))
  }

  /** Color as the factor of a ramp ending in `c`, opaque, whose colour drives Emission Color. */
  predicate Ramp(g: Graph, t: nat, ramp: nat, c: Rgb) {
    At(g, ramp, ColorRampNode(Rgba(c.r, c.g, c.b, 1.0))) &&
    Has(g, Link(OutputRef(t, TextureColor), InputRef(ramp, RampFac))) &&
    Has(g, Link(OutputRef(ramp, RampColor), InputRef(PRINCIPLED, EmissionColor)))
  }

  /** Emission into Color1 and the base-colour texture `b` into Color2 of a multiply node driving Emission Color. */
  predicate Multiplied(g: Graph, t: nat, b: nat, mix: nat) {
    b < |g.nodes| && KindOf(g.nodes[b]) == ImageTexture(BaseColorSlot) &&
    At(g, mix, MixRgbNode(Multiply)) &&
    Has(g, Link(OutputRef(b, TextureColor), InputRef(mix, Color2))) &&
    Has(g, Link(OutputRef(t, TextureColor), InputRef(mix, Color1))) &&
    Has(g, Link(OutputRef(mix, MixedColor), InputRef(PRINCIPLED, EmissionColor)))
  }

  /** Texture node `n` with its Color into principled input `x`. */
  ghost predicate DirectChain(g: Graph, n: Node, x: InputSocket) {
    exists t: nat :: At(g, t, n) && Direct(g, t, x)
  }

  ghost predicate PackedChain(g: Graph, n: Node) {
    exists t: nat, sep: nat, inv: nat :: At(g, t, n) && Packed(g, t, sep, inv)
  }

  ghost predicate NormalChain(g: Graph, n: Node) {
    exists t: nat, m: nat :: At(g, t, n) && Mapped(g, t, m)
  }

  ghost predicate MultiplyChain(g: Graph, n: Node, strength: real) {
    exists t: nat, b: nat, mix: nat, v: nat :: At(g, t, n) && Multiplied(g, t, b, mix) && Strength(g, v, strength)
  }

  ghost predicate RampChain(g: Graph, n: Node, c: Rgb, strength: real) {
    exists t: nat, ramp: nat, v: nat :: At(g, t, n) && Ramp(g, t, ramp, c) && Strength(g, v, strength)
  }

  /** The documented wiring of a loaded slot, from its texture node to the principled node. */
  ghost predicate SlotWired(g: Graph, s: SettingsValue, slot: ImageSlot, loads: string -> bool) {
    var n := TextureOf(s, slot, loads);
    match slot
    case BaseColorSlot => DirectChain(g, n, BaseColor)
    case MetallicSlot => DirectChain(g, n, Metallic)
    case RoughnessSlot => DirectChain(g, n, Roughness)
    case MetallicSmoothnessSlot => PackedChain(g, n)
    case NormalSlot => NormalChain(g, n)
    case EmissionSlot =>
      if s.emissionSameAsBase then MultiplyChain(g, n, s.strength) else RampChain(g, n, s.emissionColor, s.strength)
  }

  /**
   * A visited slot is done: its texture is there if its path is set, and it
   * is wired if its image loaded, unless it is the emission slot whose
   * MULTIPLY branch raised.
   */
  ghost predicate SlotDone(g: Graph, s: SettingsValue, slot: ImageSlot, loads: string -> bool) {
    (Path(s, slot) != "" ==> SlotPresent(g, s, slot, loads)) &&
    (Loaded(s, slot, loads) && !(slot == EmissionSlot && Raises(s, loads)) ==> SlotWired(g, s, slot, loads))
  }

  /** A slot that is done stays done through later stages. */
  lemma SlotKeeps(g: Graph, h: Graph, s: SettingsValue, slot: ImageSlot, loads: string -> bool)
    requires Grows(g, h) && SlotDone(g, s, slot, loads)
    ensures SlotDone(h, s, slot, loads)
  {
    GrowsKeeps(g, h);
    if Loaded(s, slot, loads) && !(slot == EmissionSlot && Raises(s, loads)) {
      SlotWiredKeeps(g, h, s, slot, loads);
    }
  }

  lemma SlotWiredKeeps(g: Graph, h: Graph, s: SettingsValue, slot: ImageSlot, loads: string -> bool)
    requires Grows(g, h) && SlotWired(g, s, slot, loads)
    ensures SlotWired(h, s, slot, loads)
  {
    GrowsKeeps(g, h);
    var tex := TextureOf(s, slot, loads);
    match slot
    case BaseColorSlot =>
    case MetallicSlot =>
    case RoughnessSlot =>
    case MetallicSmoothnessSlot =>
      var t: nat, sep: nat, inv: nat :| At(g, t, tex) && Packed(g, t, sep, inv);
      assert At(h, t, tex) && Packed(h, t, sep, inv);
    case NormalSlot =>
      var t: nat, m: nat :| At(g, t, tex) && Mapped(g, t, m);
      assert At(h, t, tex) && Mapped(h, t, m);
    case EmissionSlot =>
      if s.emissionSameAsBase {
        var t: nat, b: nat, mix: nat, v: nat :| At(g, t, tex) && Multiplied(g, t, b, mix) && Strength(g, v, s.strength);
        assert h.nodes[b] == g.nodes[b];
        assert At(h, t, tex) && Multiplied(h, t, b, mix) && Strength(h, v, s.strength);
      } else {
        var t: nat, ramp: nat, v: nat :| At(g, t, tex) && Ramp(g, t, ramp, s.emissionColor) && Strength(g, v, s.strength);
        assert At(h, t, tex) && Ramp(h, t, ramp, s.emissionColor) && Strength(h, v, s.strength);
      }
  }

  /** A stage's new texture node sits just after the nodes it started from. */
  lemma TexturedAt(g: Graph, s: SettingsValue, slot: ImageSlot, loads: string -> bool)
    ensures var h := Textured(g, slot, Path(s, slot), NonColor(slot), loads);
            At(h, |g.nodes|, TextureOf(s, slot, loads)) && Grows(g, h) && h.links == g.links
  {
  }

  lemma BaseColorStageWired(p: Progress, s: SettingsValue, loads: string -> bool)
    ensures SlotDone(BaseColorStage(p, s, loads).graph, s, BaseColorSlot, loads)
  {
    var path, tex := s.baseColorImage, |p.graph.nodes|;
    var g := BaseColorStage(p, s, loads).graph;
    if path != "" {
      TexturedAt(p.graph, s, BaseColorSlot, loads);
      assert At(g, tex, TextureOf(s, BaseColorSlot, loads));
      if loads(path) {
        assert Direct(g, tex, BaseColor);
      }
    }
  }

  lemma PackedStageWired(p: Progress, s: SettingsValue, loads: string -> bool)
    ensures SlotDone(PackedStage(p, s, loads).graph, s, MetallicSmoothnessSlot, loads)
  {
    var path, tex := s.metallicSmoothnessImage, |p.graph.nodes|;
    var r := PackedStage(p, s, loads).graph;
    if path != "" {
      var g := Textured(p.graph, MetallicSmoothnessSlot, path, true, loads);
      TexturedAt(p.graph, s, MetallicSmoothnessSlot, loads);
      if loads(path) {
        assert Packed(r, tex, tex + 1, tex + 2);
        assert At(r, tex, TextureOf(s, MetallicSmoothnessSlot, loads));
      }
    }
  }

  lemma MetallicStageWired(p: Progress, s: SettingsValue, loads: string -> bool)
    ensures SlotDone(MetallicStage(p, s, loads).graph, s, MetallicSlot, loads)
  {
    var path, tex := s.metallicImage, |p.graph.nodes|;
    var g := MetallicStage(p, s, loads).graph;
    if path != "" {
      TexturedAt(p.graph, s, MetallicSlot, loads);
      assert At(g, tex, TextureOf(s, MetallicSlot, loads));
      if loads(path) {
        assert Direct(g, tex, Metallic);
      }
    }
  }

  lemma RoughnessStageWired(p: Progress, s: SettingsValue, loads: string -> bool)
    ensures SlotDone(RoughnessStage(p, s, loads).graph, s, RoughnessSlot, loads)
  {
    var path, tex := s.roughnessImage, |p.graph.nodes|;
    var g := RoughnessStage(p, s, loads).graph;
    if path != "" {
      TexturedAt(p.graph, s, RoughnessSlot, loads);
      assert At(g, tex, TextureOf(s, RoughnessSlot, loads));
      if loads(path) {
        assert Direct(g, tex, Roughness);
      }
    }
  }

  lemma NormalStageWired(p: Progress, s: SettingsValue, loads: string -> bool)
    ensures SlotDone(NormalStage(p, s, loads).graph, s, NormalSlot, loads)
  {
    var path, tex := s.normalImage, |p.graph.nodes|;
    var r := NormalStage(p, s, loads).graph;
    if path != "" {
      TexturedAt(p.graph, s, NormalSlot, loads);
      assert At(r, tex, TextureOf(s, NormalSlot, loads));
      if loads(path) {
        assert Mapped(r, tex, tex + 1);
      }
    }
  }

  lemma EmissionStageWired(p: Progress, s: SettingsValue, loads: string -> bool)
    requires Ready(p) && (p.baseColorNode.Some? <==> s.baseColorImage != "")
    ensures SlotDone(EmissionStage(p, s, loads).0.graph, s, EmissionSlot, loads)
  {
    var path, tex := s.emissionImage, |p.graph.nodes|;
    if path != "" {
      var g := Textured(p.graph, EmissionSlot, path, false, loads);
      TexturedAt(p.graph, s, EmissionSlot, loads);
      if !loads(path) {
        assert At(EmissionStage(p, s, loads).0.graph, tex, TextureOf(s, EmissionSlot, loads));
      } else if s.emissionSameAsBase {
        MultiplyEmissionWired(p, s, loads);
      } else {
        RampWired(g, tex, s.emissionColor, s.strength);
        GrowsKeeps(g, EmissionStage(p, s, loads).0.graph);
      }
    }
  }

  lemma MultiplyEmissionWired(p: Progress, s: SettingsValue, loads: string -> bool)
    requires Ready(p) && (p.baseColorNode.Some? <==> s.baseColorImage != "")
    requires Loaded(s, EmissionSlot, loads) && s.emissionSameAsBase
    ensures SlotDone(EmissionStage(p, s, loads).0.graph, s, EmissionSlot, loads)
  {
    var tex := |p.graph.nodes|;
    var g := Textured(p.graph, EmissionSlot, s.emissionImage, false, loads);
    var r := MultiplyEmission(p.(graph := g), tex, s.strength).0.graph;
    TexturedAt(p.graph, s, EmissionSlot, loads);
    if s.baseColorImage != "" {
      MultiplyWired(g, p.baseColorNode.value, tex, s.strength);
      GrowsKeeps(g, r);
    } else {
      assert g.nodes <= r.nodes;
      assert At(r, tex, TextureOf(s, EmissionSlot, loads));
    }
  }

  /** The colour-ramp chain behind emission texture `tex`. */
  lemma RampWired(g: Graph, tex: nat, c: Rgb, strength: real)
    ensures var r := WithStrength(Ramped(g, tex, c), strength);
            Grows(g, r) && Ramp(r, tex, |g.nodes|, c) && Strength(r, |g.nodes| + 1, strength)
  {
  }

  /** The multiply chain behind emission texture `tex`, with base-colour texture `base`. */
  lemma MultiplyWired(g: Graph, base: nat, tex: nat, strength: real)
    requires base < |g.nodes| && KindOf(g.nodes[base]) == ImageTexture(BaseColorSlot)
    ensures var mix := |g.nodes|;
            var g1 := WithDefault(WithNode(g, MixRgbNode(Multiply)), InputRef(mix, Fac), 1.0);
            var r := WithStrength(MultiplyLinks(g1, base, tex, mix), strength);
            Grows(g, r) && Multiplied(r, tex, base, mix) && Strength(r, mix + 1, strength)
  {
    var mix := |g.nodes|;
    var g1 := WithDefault(WithNode(g, MixRgbNode(Multiply)), InputRef(mix, Fac), 1.0);
    var r := WithStrength(MultiplyLinks(g1, base, tex, mix), strength);
    assert r.nodes[base] == g.nodes[base];
  }

  lemma GrowsTrans(a: Graph, b: Graph, c: Graph)
    requires Grows(a, b) && Grows(b, c)
    ensures Grows(a, c)
  {
    assert c.nodes[..|a.nodes|] == b.nodes[..|b.nodes|][..|a.nodes|];
    assert c.links[..|a.links|] == b.links[..|b.links|][..|a.links|];
  }

  lemma MetalRoughStageWired(p: Progress, s: SettingsValue, loads: string -> bool)
    ensures var r := MetalRoughStage(p, s, loads).graph;
            if s.usePackedMaps then SlotDone(r, s, MetallicSmoothnessSlot, loads)
            else SlotDone(r, s, MetallicSlot, loads) && SlotDone(r, s, RoughnessSlot, loads)
  {
    if s.usePackedMaps {
      PackedStageWired(p, s, loads);
    } else {
      var p1 := MetallicStage(p, s, loads);
      MetallicStageWired(p, s, loads);
      RoughnessStageWired(p1, s, loads);
      SlotKeeps(p1.graph, RoughnessStage(p1, s, loads).graph, s, MetallicSlot, loads);
    }
  }

  /** Every visited slot but emission is done once the normal slot is. */
  lemma BeforeEmissionWired(s: SettingsValue, loads: string -> bool)
    ensures forall slot :: slot in VisitedSlots(s) && slot != EmissionSlot ==> SlotDone(BeforeEmission(s, loads).graph, s, slot, loads)
  {
    var p1 := BaseColorStage(Start(), s, loads);
    var p2 := MetalRoughStage(p1, s, loads);
    var p3 := NormalStage(p2, s, loads);
    BaseColorStageWired(Start(), s, loads);
    MetalRoughStageWired(p1, s, loads);
    NormalStageWired(p2, s, loads);
    forall slot | slot in VisitedSlots(s) && slot != EmissionSlot
      ensures SlotDone(p3.graph, s, slot, loads)
    {
      if slot == BaseColorSlot {
        GrowsTrans(p1.graph, p2.graph, p3.graph);
        SlotKeeps(p1.graph, p3.graph, s, slot, loads);
      } else if slot != NormalSlot {
        SlotKeeps(p2.graph, p3.graph, s, slot, loads);
      }
    }
  }

  /**
   * After a build, every visited slot with a path has its texture node,
   * holding its image exactly when the image loads, and every loaded slot is
   * wired as documented, except emission when its MULTIPLY branch raised.
   */
  lemma BuildWired(s: SettingsValue, loads: string -> bool)
    ensures forall slot :: slot in VisitedSlots(s) ==> SlotDone(Build(s, loads).graph, s, slot, loads)
  {
    StagesWired(s, loads);
  }

  lemma StagesWired(s: SettingsValue, loads: string -> bool)
    ensures forall slot :: slot in VisitedSlots(s) ==> SlotDone(Stages(s, loads).0.graph, s, slot, loads)
  {
    var p3 := BeforeEmission(s, loads);
    var g := Stages(s, loads).0.graph;
    BeforeEmissionWired(s, loads);
    BaseColorNodeBound(s, loads);
    EmissionStageWired(p3, s, loads);
    forall slot | slot in VisitedSlots(s) && slot != EmissionSlot
      ensures SlotDone(g, s, slot, loads)
    {
      SlotKeeps(p3.graph, g, s, slot, loads);
    }
  }

  /** The output socket that feeds principled input `x` when its slot is wired. */
  function Feeder(s: SettingsValue, x: InputSocket): OutputSocket {
    match x
    case Metallic => if s.usePackedMaps then Red else TextureColor
    case Roughness => if s.usePackedMaps then InvertedColor else TextureColor
    case SpecularIorLevel => TextureAlpha
    case Normal => NormalOut
    case EmissionColor => if s.emissionSameAsBase then MixedColor else RampColor
    case EmissionStrength => ValueOut
    case _ => TextureColor
  }

  /** A principled input that a loaded slot feeds has a link from that slot's chain. */
  lemma LinkedInto(g: Graph, s: SettingsValue, loads: string -> bool, x: InputSocket)
    requires forall slot :: slot in VisitedSlots(s) ==> SlotDone(g, s, slot, loads)
    requires x in ExpectedFed(s, loads)
    ensures exists l :: Has(g, l) && l.to == InputRef(PRINCIPLED, x) && l.from.socket == Feeder(s, x)
  {
    var slots := VisitedSlots(s);
    if x in Fed(s, BaseColorSlot, loads) {
      assert slots[0] == BaseColorSlot;
      DirectFeeds(g, s, BaseColorSlot, loads, x);
    } else if x in Fed(s, NormalSlot, loads) {
      assert slots[|slots| - 2] == NormalSlot;
      NormalFeeds(g, s, loads, x);
    } else if x in Fed(s, EmissionSlot, loads) {
      assert slots[|slots| - 1] == EmissionSlot;
      EmissionFeeds(g, s, loads, x);
    } else if s.usePackedMaps {
      assert slots[1] == MetallicSmoothnessSlot;
      PackedFeeds(g, s, loads, x);
    } else if x in Fed(s, MetallicSlot, loads) {
      assert slots[1] == MetallicSlot;
      DirectFeeds(g, s, MetallicSlot, loads, x);
    } else {
      assert slots[2] == RoughnessSlot;
      DirectFeeds(g, s, RoughnessSlot, loads, x);
    }
  }

  lemma DirectFeeds(g: Graph, s: SettingsValue, slot: ImageSlot, loads: string -> bool, x: InputSocket)
    requires slot == BaseColorSlot || (!s.usePackedMaps && (slot == MetallicSlot || slot == RoughnessSlot))
    requires SlotDone(g, s, slot, loads) && x in Fed(s, slot, loads)
    ensures exists l :: Has(g, l) && l.to == InputRef(PRINCIPLED, x) && l.from.socket == Feeder(s, x)
  {
    var t: nat :| At(g, t, TextureOf(s, slot, loads)) && Direct(g, t, x);
    Witness(g, s, x, Link(OutputRef(t, TextureColor), InputRef(PRINCIPLED, x)));
  }

  lemma PackedFeeds(g: Graph, s: SettingsValue, loads: string -> bool, x: InputSocket)
    requires s.usePackedMaps
    requires SlotDone(g, s, MetallicSmoothnessSlot, loads) && x in Fed(s, MetallicSmoothnessSlot, loads)
    ensures exists l :: Has(g, l) && l.to == InputRef(PRINCIPLED, x) && l.from.socket == Feeder(s, x)
  {
    var t: nat, sep: nat, inv: nat :| At(g, t, TextureOf(s, MetallicSmoothnessSlot, loads)) && Packed(g, t, sep, inv);
    if x == Metallic {
      Witness(g, s, x, Link(OutputRef(sep, Red), InputRef(PRINCIPLED, x)));
    } else if x == Roughness {
      Witness(g, s, x, Link(OutputRef(inv, InvertedColor), InputRef(PRINCIPLED, x)));
    } else {
      Witness(g, s, x, Link(OutputRef(t, TextureAlpha), InputRef(PRINCIPLED, x)));
    }
  }

  lemma NormalFeeds(g: Graph, s: SettingsValue, loads: string -> bool, x: InputSocket)
    requires SlotDone(g, s, NormalSlot, loads) && x in Fed(s, NormalSlot, loads)
    ensures exists l :: Has(g, l) && l.to == InputRef(PRINCIPLED, x) && l.from.socket == Feeder(s, x)
  {
    var t: nat, m: nat :| At(g, t, TextureOf(s, NormalSlot, loads)) && Mapped(g, t, m);
    Witness(g, s, x, Link(OutputRef(m, NormalOut), InputRef(PRINCIPLED, x)));
  }

  lemma EmissionFeeds(g: Graph, s: SettingsValue, loads: string -> bool, x: InputSocket)
    requires SlotDone(g, s, EmissionSlot, loads) && x in Fed(s, EmissionSlot, loads)
    ensures exists l :: Has(g, l) && l.to == InputRef(PRINCIPLED, x) && l.from.socket == Feeder(s, x)
  {
    assert SlotWired(g, s, EmissionSlot, loads);
    if s.emissionSameAsBase {
      MultiplyFeeds(g, s, loads, x);
    } else {
      RampFeeds(g, s, loads, x);
    }
  }

  lemma MultiplyFeeds(g: Graph, s: SettingsValue, loads: string -> bool, x: InputSocket)
    requires s.emissionSameAsBase && SlotWired(g, s, EmissionSlot, loads) && x in {EmissionColor, EmissionStrength}
    ensures exists l :: Has(g, l) && l.to == InputRef(PRINCIPLED, x) && l.from.socket == Feeder(s, x)
  {
    var t: nat, b: nat, mix: nat, v: nat :| At(g, t, TextureOf(s, EmissionSlot, loads)) && Multiplied(g, t, b, mix) && Strength(g, v, s.strength);
    if x == EmissionColor {
      Witness(g, s, x, Link(OutputRef(mix, MixedColor), InputRef(PRINCIPLED, x)));
    } else {
      Witness(g, s, x, Link(OutputRef(v, ValueOut), InputRef(PRINCIPLED, x)));
    }
  }

  lemma RampFeeds(g: Graph, s: SettingsValue, loads: string -> bool, x: InputSocket)
    requires !s.emissionSameAsBase && SlotWired(g, s, EmissionSlot, loads) && x in {EmissionColor, EmissionStrength}
    ensures exists l :: Has(g, l) && l.to == InputRef(PRINCIPLED, x) && l.from.socket == Feeder(s, x)
  {
    var t: nat, ramp: nat, v: nat :| At(g, t, TextureOf(s, EmissionSlot, loads)) && Ramp(g, t, ramp, s.emissionColor) && Strength(g, v, s.strength);
    if x == EmissionColor {
      Witness(g, s, x, Link(OutputRef(ramp, RampColor), InputRef(PRINCIPLED, x)));
    } else {
      Witness(g, s, x, Link(OutputRef(v, ValueOut), InputRef(PRINCIPLED, x)));
    }
  }

  /**
   * A principled input is linked after a build exactly when a loaded slot
   * feeds it, and every link into the principled node comes from the output
   * socket its slot documents.
   */
  lemma BuildFeeds(s: SettingsValue, loads: string -> bool)
    ensures var g := Build(s, loads).graph;
            forall x :: x in PRINCIPLED_INPUTS ==> (Unlinked(g, InputRef(PRINCIPLED, x)) <==> x !in ExpectedFed(s, loads))
    ensures var g := Build(s, loads).graph;
            forall i :: 0 <= i < |g.links| && g.links[i].to.node == PRINCIPLED ==>
              g.links[i].to.socket in ExpectedFed(s, loads) && g.links[i].from.socket == Feeder(s, g.links[i].to.socket)
  {
    BuildWellFormed(s, loads);
    BuildWired(s, loads);
    FedLinks(Build(s, loads).graph, s, loads);
  }

  lemma FedLinks(g: Graph, s: SettingsValue, loads: string -> bool)
    requires WellFormed(g) && Free(g, PRINCIPLED_INPUTS - ExpectedFed(s, loads))
    requires |g.nodes| >= 2 && g.nodes[PRINCIPLED] == PrincipledBsdfNode
    requires forall slot :: slot in VisitedSlots(s) ==> SlotDone(g, s, slot, loads)
    ensures forall x :: x in PRINCIPLED_INPUTS ==> (Unlinked(g, InputRef(PRINCIPLED, x)) <==> x !in ExpectedFed(s, loads))
    ensures forall i :: 0 <= i < |g.links| && g.links[i].to.node == PRINCIPLED ==>
              g.links[i].to.socket in ExpectedFed(s, loads) && g.links[i].from.socket == Feeder(s, g.links[i].to.socket)
  {
    forall x | x in ExpectedFed(s, loads)
      ensures exists j :: 0 <= j < |g.links| && g.links[j].to == InputRef(PRINCIPLED, x) && g.links[j].from.socket == Feeder(s, x)
    {
      LinkedInto(g, s, loads, x);
    }
    forall i | 0 <= i < |g.links| && g.links[i].to.node == PRINCIPLED
      ensures g.links[i].to.socket in ExpectedFed(s, loads) && g.links[i].from.socket == Feeder(s, g.links[i].to.socket)
    {
      var x := g.links[i].to.socket;
      assert Fits(g.nodes, g.links[i]);
      PrincipledInput(x);
      assert g.links[i].to == InputRef(PRINCIPLED, x);
      var j :| 0 <= j < |g.links| && g.links[j].to == InputRef(PRINCIPLED, x) && g.links[j].from.socket == Feeder(s, x);
      assert i == j;
    }
  }

  /** The principled node's inputs, among the sockets the add-on uses. */
  lemma PrincipledInput(x: InputSocket)
    requires HasInput(PrincipledBsdf, x)
    ensures x in PRINCIPLED_INPUTS
  {
  }

  /** `l` is the link into principled input `x` that Feeder promises. */
  lemma Witness(g: Graph, s: SettingsValue, x: InputSocket, l: Link)
    requires Has(g, l) && l.to == InputRef(PRINCIPLED, x) && l.from.socket == Feeder(s, x)
    ensures exists l :: Has(g, l) && l.to == InputRef(PRINCIPLED, x) && l.from.socket == Feeder(s, x)
  {
  }
}
