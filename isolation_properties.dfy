/**
 * A texture whose image failed to load stays a dead end: nothing is linked
 * from it, except that the MULTIPLY branch of emission links the base-colour
 * texture into a mix node's Color2 whether or not its image loaded.
 */
module IsolationProperties {

  import opened Options
  import opened AvatarSettings
  import opened ShaderGraph
  import opened Operators

  /** Node `n` is an image texture holding no image. */
  predicate Dangling(g: Graph, n: nat) {
    n < |g.nodes| && g.nodes[n].ImageTextureNode? && g.nodes[n].image.None?
  }

  /**
   * Every link starts at an existing node, and a link from a texture without
   * an image can only be the base-colour texture into Color2.
   */
  predicate Isolated(g: Graph) {
    (forall i :: 0 <= i < |g.links| ==> g.links[i].from.node < |g.nodes|) &&
    (forall i :: 0 <= i < |g.links| && Dangling(g, g.links[i].from.node) ==>
       g.links[i].to.socket == Color2 && g.nodes[g.links[i].from.node].slot == BaseColorSlot)
  }

  lemma NodeIsolated(g: Graph, n: Node)
    requires Isolated(g)
    ensures Isolated(WithNode(g, n))
  {
    var h := WithNode(g, n);
    forall i | 0 <= i < |h.links|
      ensures h.nodes[h.links[i].from.node] == g.nodes[g.links[i].from.node]
    {
    }
  }

  lemma LinkIsolated(g: Graph, from: OutputRef, to: InputRef)
    requires Isolated(g) && from.node < |g.nodes|
    requires Dangling(g, from.node) ==> to.socket == Color2 && g.nodes[from.node].slot == BaseColorSlot
    ensures Isolated(WithLink(g, from, to))
  {
  }

  lemma TexturedIsolated(g: Graph, slot: ImageSlot, path: string, nonColor: bool, loads: string -> bool)
    requires Isolated(g)
    ensures var h := Textured(g, slot, path, nonColor, loads);
            Isolated(h) && h.links == g.links && g.nodes <= h.nodes && |h.nodes| == |g.nodes| + 1 &&
            (loads(path) ==> !Dangling(h, |g.nodes|))
  {
    var h := WithNode(g, ImageTextureNode(slot, None));
    NodeIsolated(g, ImageTextureNode(slot, None));
    if loads(path) {
      var k := WithImage(h, |g.nodes|, Image(path, nonColor));
      forall i | 0 <= i < |k.links| && Dangling(k, k.links[i].from.node)
        ensures k.links[i].to.socket == Color2 && k.nodes[k.links[i].from.node].slot == BaseColorSlot
      {
        assert k.nodes[k.links[i].from.node] == h.nodes[h.links[i].from.node];
      }
    }
  }

  lemma StartIsolated()
    ensures Isolated(Start().graph)
  {
  }

  lemma BaseColorStageIsolated(p: Progress, s: SettingsValue, loads: string -> bool)
    requires Isolated(p.graph)
    ensures Isolated(BaseColorStage(p, s, loads).graph)
  {
    var path := s.baseColorImage;
    if path != "" {
      TexturedIsolated(p.graph, BaseColorSlot, path, false, loads);
    }
  }

  lemma PackedChannelsIsolated(g: Graph, tex: nat)
    requires Isolated(g) && tex < |g.nodes| && !Dangling(g, tex)
    ensures Isolated(PackedChannels(g, tex))
  {
    var separate, invert := |g.nodes|, |g.nodes| + 1;
    var g0 := WithNode(g, SeparateColorNode);
    NodeIsolated(g, SeparateColorNode);
    assert g0.nodes[tex] == g.nodes[tex];
    LinkIsolated(g0, OutputRef(tex, TextureColor), InputRef(separate, SeparateInput));
    var g1 := WithLink(g0, OutputRef(tex, TextureColor), InputRef(separate, SeparateInput));
    var g1a := WithNode(g1, InvertNode);
    NodeIsolated(g1, InvertNode);
    assert g1a.nodes[tex] == g.nodes[tex] && g1a.nodes[separate] == SeparateColorNode;
    LinkIsolated(g1a, OutputRef(separate, Green), InputRef(invert, InvertInput));
    var g2 := WithLink(g1a, OutputRef(separate, Green), InputRef(invert, InvertInput));
    LinkIsolated(g2, OutputRef(separate, Red), InputRef(PRINCIPLED, Metallic));
    var g3 := WithLink(g2, OutputRef(separate, Red), InputRef(PRINCIPLED, Metallic));
    LinkIsolated(g3, OutputRef(invert, InvertedColor), InputRef(PRINCIPLED, Roughness));
    var g4 := WithLink(g3, OutputRef(invert, InvertedColor), InputRef(PRINCIPLED, Roughness));
    LinkIsolated(g4, OutputRef(tex, TextureAlpha), InputRef(PRINCIPLED, SpecularIorLevel));
  }

  lemma PackedStageIsolated(p: Progress, s: SettingsValue, loads: string -> bool)
    requires Isolated(p.graph)
    ensures Isolated(PackedStage(p, s, loads).graph)
  {
    var path := s.metallicSmoothnessImage;
    if path != "" {
      TexturedIsolated(p.graph, MetallicSmoothnessSlot, path, true, loads);
      if loads(path) {
        PackedChannelsIsolated(Textured(p.graph, MetallicSmoothnessSlot, path, true, loads), |p.graph.nodes|);
      }
    }
  }

  lemma MetallicStageIsolated(p: Progress, s: SettingsValue, loads: string -> bool)
    requires Isolated(p.graph)
    ensures Isolated(MetallicStage(p, s, loads).graph)
  {
    if s.metallicImage != "" {
      TexturedIsolated(p.graph, MetallicSlot, s.metallicImage, true, loads);
    }
  }

  lemma RoughnessStageIsolated(p: Progress, s: SettingsValue, loads: string -> bool)
    requires Isolated(p.graph)
    ensures Isolated(RoughnessStage(p, s, loads).graph)
  {
    if s.roughnessImage != "" {
      TexturedIsolated(p.graph, RoughnessSlot, s.roughnessImage, true, loads);
    }
  }

  lemma MetalRoughStageIsolated(p: Progress, s: SettingsValue, loads: string -> bool)
    requires Isolated(p.graph)
    ensures Isolated(MetalRoughStage(p, s, loads).graph)
  {
    if s.usePackedMaps {
      PackedStageIsolated(p, s, loads);
    } else {
      MetallicStageIsolated(p, s, loads);
      RoughnessStageIsolated(MetallicStage(p, s, loads), s, loads);
    }
  }

  lemma NormalMappedIsolated(g: Graph, tex: nat)
    requires Isolated(g) && tex < |g.nodes| && !Dangling(g, tex)
    ensures Isolated(NormalMapped(g, tex))
  {
    var g0 := WithNode(g, NormalMapNode);
    NodeIsolated(g, NormalMapNode);
    assert g0.nodes[tex] == g.nodes[tex];
    LinkIsolated(g0, OutputRef(tex, TextureColor), InputRef(|g.nodes|, NormalMapColor));
    LinkIsolated(WithLink(g0, OutputRef(tex, TextureColor), InputRef(|g.nodes|, NormalMapColor)),
                 OutputRef(|g.nodes|, NormalOut), InputRef(PRINCIPLED, Normal));
  }

  lemma NormalStageIsolated(p: Progress, s: SettingsValue, loads: string -> bool)
    requires Isolated(p.graph)
    ensures Isolated(NormalStage(p, s, loads).graph)
  {
    var path := s.normalImage;
    if path != "" {
      TexturedIsolated(p.graph, NormalSlot, path, true, loads);
      if loads(path) {
        NormalMappedIsolated(Textured(p.graph, NormalSlot, path, true, loads), |p.graph.nodes|);
      }
    }
  }

  lemma WithStrengthIsolated(g: Graph, strength: real)
    requires Isolated(g)
    ensures Isolated(WithStrength(g, strength))
  {
    NodeIsolated(g, ValueNode(strength));
    LinkIsolated(WithNode(g, ValueNode(strength)), OutputRef(|g.nodes|, ValueOut), InputRef(PRINCIPLED, EmissionStrength));
  }

  lemma RampedIsolated(g: Graph, tex: nat, c: Rgb)
    requires Isolated(g) && tex < |g.nodes| && !Dangling(g, tex)
    ensures Isolated(Ramped(g, tex, c))
  {
    var n := ColorRampNode(Rgba(c.r, c.g, c.b, 1.0));
    var g0 := WithNode(g, n);
    NodeIsolated(g, n);
    assert g0.nodes[tex] == g.nodes[tex];
    LinkIsolated(g0, OutputRef(tex, TextureColor), InputRef(|g.nodes|, RampFac));
    LinkIsolated(WithLink(g0, OutputRef(tex, TextureColor), InputRef(|g.nodes|, RampFac)),
                 OutputRef(|g.nodes|, RampColor), InputRef(PRINCIPLED, EmissionColor));
  }

  /** The one link that may leave a texture without an image: the base colour into Color2. */
  lemma MultiplyLinksIsolated(g: Graph, base: nat, tex: nat, mix: nat)
    requires Isolated(g) && tex < |g.nodes| && !Dangling(g, tex)
    requires base < |g.nodes| && KindOf(g.nodes[base]) == ImageTexture(BaseColorSlot)
    requires mix < |g.nodes| && g.nodes[mix].MixRgbNode?
    ensures Isolated(MultiplyLinks(g, base, tex, mix))
  {
    LinkIsolated(g, OutputRef(base, TextureColor), InputRef(mix, Color2));
    var g2 := WithLink(g, OutputRef(base, TextureColor), InputRef(mix, Color2));
    LinkIsolated(g2, OutputRef(tex, TextureColor), InputRef(mix, Color1));
    LinkIsolated(WithLink(g2, OutputRef(tex, TextureColor), InputRef(mix, Color1)),
                 OutputRef(mix, MixedColor), InputRef(PRINCIPLED, EmissionColor));
  }

  lemma EmissionStageIsolated(p: Progress, s: SettingsValue, loads: string -> bool)
    requires Isolated(p.graph) && Ready(p)
    ensures Isolated(EmissionStage(p, s, loads).0.graph)
  {
    var path, tex := s.emissionImage, |p.graph.nodes|;
    if path != "" {
      var g := Textured(p.graph, EmissionSlot, path, false, loads);
      TexturedIsolated(p.graph, EmissionSlot, path, false, loads);
      if loads(path) {
        if s.emissionSameAsBase {
          MultiplyEmissionIsolated(p.(graph := g), tex, s.strength);
        } else {
          RampedIsolated(g, tex, s.emissionColor);
          WithStrengthIsolated(Ramped(g, tex, s.emissionColor), s.strength);
        }
      }
    }
  }

  lemma MultiplyEmissionIsolated(p: Progress, tex: nat, strength: real)
    requires Isolated(p.graph) && Ready(p) && tex < |p.graph.nodes| && !Dangling(p.graph, tex)
    ensures Isolated(MultiplyEmission(p, tex, strength).0.graph)
  {
    var mix := |p.graph.nodes|;
    var g0 := WithNode(p.graph, MixRgbNode(Multiply));
    NodeIsolated(p.graph, MixRgbNode(Multiply));
    var g1 := WithDefault(g0, InputRef(mix, Fac), 1.0);
    if p.baseColorNode.Some? {
      var base := p.baseColorNode.value;
      assert g1.nodes[base] == p.graph.nodes[base] && g1.nodes[tex] == p.graph.nodes[tex];
      MultiplyLinksIsolated(g1, base, tex, mix);
      WithStrengthIsolated(MultiplyLinks(g1, base, tex, mix), strength);
    }
  }

  /**
   * After a build, no link leaves an image texture that holds no image,
   * except the base-colour texture's Color into a mix node's Color2.
   */
  lemma BuildIsolated(s: SettingsValue, loads: string -> bool)
    ensures var g := Build(s, loads).graph;
            forall i :: 0 <= i < |g.links| && Dangling(g, g.links[i].from.node) ==>
              g.links[i].to.socket == Color2 && g.nodes[g.links[i].from.node].slot == BaseColorSlot
  {
    StagesIsolated(s, loads);
  }

  lemma StagesIsolated(s: SettingsValue, loads: string -> bool)
    ensures Isolated(Stages(s, loads).0.graph)
  {
    var p1 := BaseColorStage(Start(), s, loads);
    var p2 := MetalRoughStage(p1, s, loads);
    StartIsolated();
    BaseColorStageIsolated(Start(), s, loads);
    MetalRoughStageIsolated(p1, s, loads);
    NormalStageIsolated(p2, s, loads);
    EmissionStageIsolated(BeforeEmission(s, loads), s, loads);
  }
}
