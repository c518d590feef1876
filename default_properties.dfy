/**
 * The default values a build assigns. On the principled node: Metallic 0.0
 * and Roughness 1.0 when the slot that would feed it has no path (the packed
 * slot for both when packed maps are used), and Emission Strength 0.0 when
 * the emission slot has no path; nothing else. Elsewhere: Fac 1.0 on every
 * (multiply) MixRGB node, and nothing on any other node.
 */
module DefaultProperties {

  import opened Options
  import opened AvatarSettings
  import opened ShaderGraph
  import opened Operators

  /** The default a build from `s` leaves on principled input `x`, if any. */
  function DefaultFor(s: SettingsValue, x: InputSocket): Option<real> {
    match x
    case Metallic =>
      if Path(s, if s.usePackedMaps then MetallicSmoothnessSlot else MetallicSlot) == "" then Some(0.0) else None
    case Roughness =>
      if Path(s, if s.usePackedMaps then MetallicSmoothnessSlot else RoughnessSlot) == "" then Some(1.0) else None
    case EmissionStrength =>
      if s.emissionImage == "" then Some(0.0) else None
    case _ => None
  }

  /** The principled inputs in `done` carry exactly the defaults DefaultFor gives; the others carry none. */
  predicate PrincipledDefaults(g: Graph, s: SettingsValue, done: set<InputSocket>) {
    forall x ::
      (InputRef(PRINCIPLED, x) in g.defaults <==> x in done && DefaultFor(s, x).Some?) &&
      (InputRef(PRINCIPLED, x) in g.defaults ==> g.defaults[InputRef(PRINCIPLED, x)] == DefaultFor(s, x).value)
  }

  /** Off the principled node, the defaults are Fac 1.0 on multiply nodes, and every mix node has one. */
  predicate MixFactors(g: Graph) {
    (forall at :: at in g.defaults && at.node != PRINCIPLED ==>
       at.socket == Fac && g.defaults[at] == 1.0 && at.node < |g.nodes| && g.nodes[at.node] == MixRgbNode(Multiply)) &&
    (forall i :: 0 <= i < |g.nodes| && g.nodes[i].MixRgbNode? ==> InputRef(i, Fac) in g.defaults)
  }

  predicate DefaultsSoFar(p: Progress, s: SettingsValue, done: set<InputSocket>) {
    Ready(p) && PrincipledDefaults(p.graph, s, done) && MixFactors(p.graph)
  }

  /** Appending nodes that are not mix nodes, defaults untouched, keeps MixFactors. */
  lemma AppendKeeps(g: Graph, h: Graph)
    requires MixFactors(g) && h.defaults == g.defaults && g.nodes <= h.nodes
    requires forall i :: |g.nodes| <= i < |h.nodes| ==> !h.nodes[i].MixRgbNode?
    ensures MixFactors(h)
  {
    forall at | at in h.defaults && at.node != PRINCIPLED
      ensures at.node < |h.nodes| && h.nodes[at.node] == MixRgbNode(Multiply)
    {
      assert h.nodes[at.node] == g.nodes[at.node];
    }
  }

  lemma TexturedDefaults(g: Graph, slot: ImageSlot, path: string, nonColor: bool, loads: string -> bool)
    requires MixFactors(g)
    ensures var h := Textured(g, slot, path, nonColor, loads);
            MixFactors(h) && h.defaults == g.defaults && g.nodes <= h.nodes && |h.nodes| == |g.nodes| + 1
  {
    AppendKeeps(g, Textured(g, slot, path, nonColor, loads));
  }

  lemma StartDefaults(s: SettingsValue)
    ensures DefaultsSoFar(Start(), s, {})
  {
  }

  lemma BaseColorStageDefaults(p: Progress, s: SettingsValue, loads: string -> bool, done: set<InputSocket>)
    requires DefaultsSoFar(p, s, done)
    ensures DefaultsSoFar(BaseColorStage(p, s, loads), s, done)
  {
    if s.baseColorImage != "" {
      TexturedDefaults(p.graph, BaseColorSlot, s.baseColorImage, false, loads);
    }
  }

  /** Without a packed image: Roughness 1.0, then Metallic 0.0. */
  lemma PackedStageDefaults(p: Progress, s: SettingsValue, loads: string -> bool, done: set<InputSocket>)
    requires s.usePackedMaps && DefaultsSoFar(p, s, done)
    ensures DefaultsSoFar(PackedStage(p, s, loads), s, done + {Metallic, Roughness})
  {
    var path := s.metallicSmoothnessImage;
    if path != "" {
      var g := Textured(p.graph, MetallicSmoothnessSlot, path, true, loads);
      TexturedDefaults(p.graph, MetallicSmoothnessSlot, path, true, loads);
      if loads(path) {
        AppendKeeps(g, PackedChannels(g, |p.graph.nodes|));
      }
    }
  }

  lemma MetallicStageDefaults(p: Progress, s: SettingsValue, loads: string -> bool, done: set<InputSocket>)
    requires !s.usePackedMaps && DefaultsSoFar(p, s, done)
    ensures DefaultsSoFar(MetallicStage(p, s, loads), s, done + {Metallic})
  {
    if s.metallicImage != "" {
      TexturedDefaults(p.graph, MetallicSlot, s.metallicImage, true, loads);
    }
  }

  lemma RoughnessStageDefaults(p: Progress, s: SettingsValue, loads: string -> bool, done: set<InputSocket>)
    requires !s.usePackedMaps && DefaultsSoFar(p, s, done)
    ensures DefaultsSoFar(RoughnessStage(p, s, loads), s, done + {Roughness})
  {
    if s.roughnessImage != "" {
      TexturedDefaults(p.graph, RoughnessSlot, s.roughnessImage, true, loads);
    }
  }

  lemma MetalRoughStageDefaults(p: Progress, s: SettingsValue, loads: string -> bool, done: set<InputSocket>)
    requires DefaultsSoFar(p, s, done)
    ensures DefaultsSoFar(MetalRoughStage(p, s, loads), s, done + {Metallic, Roughness})
  {
    if s.usePackedMaps {
      PackedStageDefaults(p, s, loads, done);
    } else {
      MetallicStageDefaults(p, s, loads, done);
      RoughnessStageDefaults(MetallicStage(p, s, loads), s, loads, done + {Metallic});
      assert done + {Metallic} + {Roughness} == done + {Metallic, Roughness};
    }
  }

  lemma NormalStageDefaults(p: Progress, s: SettingsValue, loads: string -> bool, done: set<InputSocket>)
    requires DefaultsSoFar(p, s, done)
    ensures DefaultsSoFar(NormalStage(p, s, loads), s, done)
  {
    var path := s.normalImage;
    if path != "" {
      var g := Textured(p.graph, NormalSlot, path, true, loads);
      TexturedDefaults(p.graph, NormalSlot, path, true, loads);
      if loads(path) {
        AppendKeeps(g, NormalMapped(g, |p.graph.nodes|));
      }
    }
  }

  /** Without an emission image: Emission Strength 0.0; with one, only a multiply node's Fac. */
  lemma EmissionStageDefaults(p: Progress, s: SettingsValue, loads: string -> bool, done: set<InputSocket>)
    requires DefaultsSoFar(p, s, done)
    ensures DefaultsSoFar(EmissionStage(p, s, loads).0, s, done + {EmissionStrength})
  {
    var path := s.emissionImage;
    if path != "" {
      var tex := |p.graph.nodes|;
      var g := Textured(p.graph, EmissionSlot, path, false, loads);
      TexturedDefaults(p.graph, EmissionSlot, path, false, loads);
      if loads(path) {
        if s.emissionSameAsBase {
          MultiplyEmissionDefaults(p.(graph := g), tex, s, done);
        } else {
          var g1 := Ramped(g, tex, s.emissionColor);
          AppendKeeps(g, g1);
          AppendKeeps(g1, WithStrength(g1, s.strength));
        }
      }
    }
  }

  lemma MultiplyEmissionDefaults(p: Progress, tex: nat, s: SettingsValue, done: set<InputSocket>)
    requires DefaultsSoFar(p, s, done) && s.emissionImage != ""
    ensures DefaultsSoFar(MultiplyEmission(p, tex, s.strength).0, s, done + {EmissionStrength})
  {
    var mix := |p.graph.nodes|;
    var g1 := WithDefault(WithNode(p.graph, MixRgbNode(Multiply)), InputRef(mix, Fac), 1.0);
    MixNodeFactors(p.graph);
    MixNodePrincipled(p.graph, s, done);
    if p.baseColorNode.Some? {
      var g2 := MultiplyLinks(g1, p.baseColorNode.value, tex, mix);
      AppendKeeps(g2, WithStrength(g2, s.strength));
    }
  }

  /** A new multiply node with Fac 1.0 keeps MixFactors. */
  lemma MixNodeFactors(g: Graph)
    requires MixFactors(g)
    ensures MixFactors(WithDefault(WithNode(g, MixRgbNode(Multiply)), InputRef(|g.nodes|, Fac), 1.0))
  {
    var mix := |g.nodes|;
    var g1 := WithDefault(WithNode(g, MixRgbNode(Multiply)), InputRef(mix, Fac), 1.0);
    forall at | at in g1.defaults && at.node != PRINCIPLED
      ensures at.socket == Fac && g1.defaults[at] == 1.0 && at.node < |g1.nodes| && g1.nodes[at.node] == MixRgbNode(Multiply)
    {
      if at != InputRef(mix, Fac) {
        assert g1.nodes[at.node] == g.nodes[at.node];
      }
    }
  }

  /** A default off the principled node leaves the principled defaults as they were. */
  lemma MixNodePrincipled(g: Graph, s: SettingsValue, done: set<InputSocket>)
    requires PrincipledDefaults(g, s, done) && s.emissionImage != "" && |g.nodes| >= 2
    ensures PrincipledDefaults(WithDefault(WithNode(g, MixRgbNode(Multiply)), InputRef(|g.nodes|, Fac), 1.0), s, done + {EmissionStrength})
  {
    var g1 := WithDefault(WithNode(g, MixRgbNode(Multiply)), InputRef(|g.nodes|, Fac), 1.0);
    forall x ensures InputRef(PRINCIPLED, x) in g1.defaults <==> InputRef(PRINCIPLED, x) in g.defaults {
    }
  }

  /** The output, principled, base-colour, metallic/roughness and normal stages. */
  lemma BeforeEmissionDefaults(s: SettingsValue, loads: string -> bool)
    ensures DefaultsSoFar(BeforeEmission(s, loads), s, {Metallic, Roughness})
  {
    var p1 := BaseColorStage(Start(), s, loads);
    StartDefaults(s);
    BaseColorStageDefaults(Start(), s, loads, {});
    MetalRoughStageDefaults(p1, s, loads, {});
    NormalStageDefaults(MetalRoughStage(p1, s, loads), s, loads, {Metallic, Roughness});
  }

  /**
   * A build leaves exactly the defaults DefaultFor gives on the principled
   * node, and elsewhere only Fac 1.0 on multiply nodes, which every mix node has.
   */
  lemma BuildDefaults(s: SettingsValue, loads: string -> bool)
    ensures var d := Build(s, loads).graph.defaults;
            forall x ::
              (InputRef(PRINCIPLED, x) in d <==> DefaultFor(s, x).Some?) &&
              (DefaultFor(s, x).Some? ==> d[InputRef(PRINCIPLED, x)] == DefaultFor(s, x).value)
    ensures MixFactors(Build(s, loads).graph)
  {
    StagesDefaults(s, loads);
    AllDone(Stages(s, loads).0.graph, s);
  }

  /** Once every slot with a default is visited, the principled defaults are exactly DefaultFor. */
  lemma AllDone(g: Graph, s: SettingsValue)
    requires PrincipledDefaults(g, s, {Metallic, Roughness, EmissionStrength})
    ensures forall x ::
              (InputRef(PRINCIPLED, x) in g.defaults <==> DefaultFor(s, x).Some?) &&
              (DefaultFor(s, x).Some? ==> g.defaults[InputRef(PRINCIPLED, x)] == DefaultFor(s, x).value)
  {
  }

  lemma StagesDefaults(s: SettingsValue, loads: string -> bool)
    ensures DefaultsSoFar(Stages(s, loads).0, s, {Metallic, Roughness, EmissionStrength})
  {
    BeforeEmissionDefaults(s, loads);
    EmissionStageDefaults(BeforeEmission(s, loads), s, loads, {Metallic, Roughness});
    assert {Metallic, Roughness} + {EmissionStrength} == {Metallic, Roughness, EmissionStrength};
  }
}
