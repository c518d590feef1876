/**
 * The add-on's two operators. The open-image operator stores a chosen path
 * in the settings field its tag selects. The create-texture-nodes operator
 * rebuilds the active mesh's material as a Principled BSDF setup fed by the
 * image paths in the settings, then clears the settings.
 *
 * Build and its stage functions state what the builder produces, as a value;
 * CreateTextureNodesOperator.Execute does it in place on the material's node
 * tree, step by step, and is proved to reach exactly that value.
 */
module Operators {

  import opened Options
  import opened AvatarSettings
  import opened ShaderGraph

  /** The exception that the unguarded use of base_color_node raises: it is not a RuntimeError. */
  datatype PythonError = UnboundBaseColorNode

  /** How an operator's execute ends: its return set, or an exception escaping it. */
  datatype Outcome = Finished | Cancelled | Raised(error: PythonError)

  /** The error reports the builder makes (every one at ERROR level). */
  datatype Report = NoMeshSelected | CouldNotLoad(path: string)

  /** The text of a report; the user can tell the reports apart by it. */
  function Message(r: Report): (m: string)
    ensures m == "No mesh object selected" <==> r == NoMeshSelected
  {
    match r
    case NoMeshSelected => "No mesh object selected"
    case CouldNotLoad(path) =>
      assert ("Could not load image " + path)[0] != "No mesh object selected"[0];
      "Could not load image " + path
  }

  /** Positions of the two nodes every build creates first. */
  const OUTPUT: nat := 0
  const PRINCIPLED: nat := 1

  /**
   * The builder's state between slots: the graph so far, the reports so far,
   * and the local variable base_color_node (None while it is unbound).
   */
  datatype Progress = Progress(graph: Graph, reports: seq<Report>, baseColorNode: Option<nat>)

  /** The output and principled nodes are in place, and base_color_node, when bound, is the base-colour texture. */
  predicate Ready(p: Progress) {
    |p.graph.nodes| >= 2 &&
    p.graph.nodes[OUTPUT] == OutputMaterialNode && p.graph.nodes[PRINCIPLED] == PrincipledBsdfNode &&
    (p.baseColorNode.Some? ==>
       p.baseColorNode.value < |p.graph.nodes| &&
       KindOf(p.graph.nodes[p.baseColorNode.value]) == ImageTexture(BaseColorSlot))
  }

  /** A later stage only appends nodes, links and reports. */
  predicate Extends(p: Progress, r: Progress) {
    p.graph.nodes <= r.graph.nodes && p.graph.links <= r.graph.links && p.reports <= r.reports
  }

  /** nodes.clear(), then the output node, the principled node, and BSDF linked to Surface. */
  function Start(): (p: Progress)
    ensures Ready(p) && p.reports == [] && p.baseColorNode == None
  {
    var g := WithNode(WithNode(EMPTY, OutputMaterialNode), PrincipledBsdfNode);
    Progress(WithLink(g, OutputRef(PRINCIPLED, Bsdf), InputRef(OUTPUT, Surface)), [], None)
  }

  /** `r` is `g` with the nodes `added` and `k` new links appended, its defaults untouched. */
  predicate Appends(g: Graph, r: Graph, added: seq<Node>, k: nat) {
    r.nodes == g.nodes + added && r.defaults == g.defaults &&
    g.links <= r.links && |r.links| == |g.links| + k
  }

  /** The links `r` adds to `g` that end at the principled node end at inputs in `ins`. */
  predicate FeedsOnly(g: Graph, r: Graph, ins: set<InputSocket>) {
    forall i :: |g.links| <= i < |r.links| && r.links[i].to.node == PRINCIPLED ==> r.links[i].to.socket in ins
  }

  /** A new texture node for `slot`, holding the image at `path` if it loads. */
  function Textured(g: Graph, slot: ImageSlot, path: string, nonColor: bool, loads: string -> bool): (r: Graph)
    ensures Appends(g, r, [ImageTextureNode(slot, if loads(path) then Some(Image(path, nonColor)) else None)], 0)
  {
    var h := WithNode(g, ImageTextureNode(slot, None));
    if loads(path) then WithImage(h, |g.nodes|, Image(path, nonColor)) else h
  }

  /** The base-colour slot: Color to Base Color. */
  function BaseColorStage(p: Progress, s: SettingsValue, loads: string -> bool): (r: Progress)
    ensures Extends(p, r) && (Ready(p) ==> Ready(r))
    ensures r.baseColorNode == if s.baseColorImage == "" then p.baseColorNode else Some(|p.graph.nodes|)
  {
    var path := s.baseColorImage;
    if path == "" then p
    else
      var tex := |p.graph.nodes|;
      var g := Textured(p.graph, BaseColorSlot, path, false, loads);
      if loads(path) then
        Progress(WithLink(g, OutputRef(tex, TextureColor), InputRef(PRINCIPLED, BaseColor)), p.reports, Some(tex))
      else
        Progress(g, p.reports + [CouldNotLoad(path)], Some(tex))
  }

  /** The packed slot: Red to Metallic, Green through Invert to Roughness, Alpha to Specular IOR Level. */
  function PackedStage(p: Progress, s: SettingsValue, loads: string -> bool): (r: Progress)
    ensures Extends(p, r) && (Ready(p) ==> Ready(r))
    ensures r.baseColorNode == p.baseColorNode
  {
    var path := s.metallicSmoothnessImage;
    if path == "" then
      var g := WithDefault(p.graph, InputRef(PRINCIPLED, Roughness), 1.0);
      p.(graph := WithDefault(g, InputRef(PRINCIPLED, Metallic), 0.0))
    else
      var tex := |p.graph.nodes|;
      var g := Textured(p.graph, MetallicSmoothnessSlot, path, true, loads);
      if !loads(path) then
        p.(graph := g, reports := p.reports + [CouldNotLoad(path)])
      else
        p.(graph := PackedChannels(g, tex))
  }

  /** Splits the packed texture `tex` into channels: Red is metallic, inverted Green is roughness, Alpha is specular. */
  function PackedChannels(g: Graph, tex: nat): (r: Graph)
    ensures Appends(g, r, [SeparateColorNode, InvertNode], 5)
    ensures PRINCIPLED < |g.nodes| ==> FeedsOnly(g, r, {Metallic, Roughness, SpecularIorLevel})
  {
    var separate, invert := |g.nodes|, |g.nodes| + 1;
    var g1 := WithLink(WithNode(g, SeparateColorNode), OutputRef(tex, TextureColor), InputRef(separate, SeparateInput));
    var g2 := WithLink(WithNode(g1, InvertNode), OutputRef(separate, Green), InputRef(invert, InvertInput));
    var g3 := WithLink(g2, OutputRef(separate, Red), InputRef(PRINCIPLED, Metallic));
    var g4 := WithLink(g3, OutputRef(invert, InvertedColor), InputRef(PRINCIPLED, Roughness));
    WithLink(g4, OutputRef(tex, TextureAlpha), InputRef(PRINCIPLED, SpecularIorLevel))
  }

  /** The separate metallic slot: Color to Metallic. */
  function MetallicStage(p: Progress, s: SettingsValue, loads: string -> bool): (r: Progress)
    ensures Extends(p, r) && (Ready(p) ==> Ready(r))
    ensures r.baseColorNode == p.baseColorNode
  {
    var path := s.metallicImage;
    if path == "" then
      p.(graph := WithDefault(p.graph, InputRef(PRINCIPLED, Metallic), 0.0))
    else
      var tex := |p.graph.nodes|;
      var g := Textured(p.graph, MetallicSlot, path, true, loads);
      if loads(path) then
        p.(graph := WithLink(g, OutputRef(tex, TextureColor), InputRef(PRINCIPLED, Metallic)))
      else
        p.(graph := g, reports := p.reports + [CouldNotLoad(path)])
  }

  /** The separate roughness slot: Color to Roughness. */
  function RoughnessStage(p: Progress, s: SettingsValue, loads: string -> bool): (r: Progress)
    ensures Extends(p, r) && (Ready(p) ==> Ready(r))
    ensures r.baseColorNode == p.baseColorNode
  {
    var path := s.roughnessImage;
    if path == "" then
      p.(graph := WithDefault(p.graph, InputRef(PRINCIPLED, Roughness), 1.0))
    else
      var tex := |p.graph.nodes|;
      var g := Textured(p.graph, RoughnessSlot, path, true, loads);
      if loads(path) then
        p.(graph := WithLink(g, OutputRef(tex, TextureColor), InputRef(PRINCIPLED, Roughness)))
      else
        p.(graph := g, reports := p.reports + [CouldNotLoad(path)])
  }

  /** The metallic and roughness inputs, from one packed image or from two separate ones. */
  function MetalRoughStage(p: Progress, s: SettingsValue, loads: string -> bool): (r: Progress)
    ensures Extends(p, r) && (Ready(p) ==> Ready(r))
    ensures r.baseColorNode == p.baseColorNode
  {
    if s.usePackedMaps then PackedStage(p, s, loads)
    else RoughnessStage(MetallicStage(p, s, loads), s, loads)
  }

  /** The normal slot: Color through a Normal Map node to Normal. */
  function NormalStage(p: Progress, s: SettingsValue, loads: string -> bool): (r: Progress)
    ensures Extends(p, r) && (Ready(p) ==> Ready(r))
    ensures r.baseColorNode == p.baseColorNode
  {
    var path := s.normalImage;
    if path == "" then p
    else
      var tex := |p.graph.nodes|;
      var g := Textured(p.graph, NormalSlot, path, true, loads);
      if loads(path) then p.(graph := NormalMapped(g, tex))
      else
        p.(graph := g, reports := p.reports + [CouldNotLoad(path)])
  }

  /** The normal texture `tex` through a new Normal Map node into Normal. */
  function NormalMapped(g: Graph, tex: nat): (r: Graph)
    ensures Appends(g, r, [NormalMapNode], 2)
    ensures PRINCIPLED < |g.nodes| ==> FeedsOnly(g, r, {Normal})
  {
    var map_ := |g.nodes|;
    var g1 := WithLink(WithNode(g, NormalMapNode), OutputRef(tex, TextureColor), InputRef(map_, NormalMapColor));
    WithLink(g1, OutputRef(map_, NormalOut), InputRef(PRINCIPLED, Normal))
  }

  /** A Value node holding `strength`, feeding Emission Strength. */
  function WithStrength(g: Graph, strength: real): (r: Graph)
    ensures Appends(g, r, [ValueNode(strength)], 1) && FeedsOnly(g, r, {EmissionStrength})
    ensures r.links == g.links + [Link(OutputRef(|g.nodes|, ValueOut), InputRef(PRINCIPLED, EmissionStrength))]
  {
    var value := |g.nodes|;
    WithLink(WithNode(g, ValueNode(strength)), OutputRef(value, ValueOut), InputRef(PRINCIPLED, EmissionStrength))
  }

  /**
   * The emission slot. The second component is true when the MULTIPLY branch
   * uses base_color_node while it is unbound: the exception escapes with the
   * graph as far as it was built.
   */
  function EmissionStage(p: Progress, s: SettingsValue, loads: string -> bool): (r: (Progress, bool))
    ensures Extends(p, r.0) && (Ready(p) ==> Ready(r.0))
  {
    var path := s.emissionImage;
    if path == "" then
      (p.(graph := WithDefault(p.graph, InputRef(PRINCIPLED, EmissionStrength), 0.0)), false)
    else
      var tex := |p.graph.nodes|;
      var g := Textured(p.graph, EmissionSlot, path, false, loads);
      if !loads(path) then
        (p.(graph := g, reports := p.reports + [CouldNotLoad(path)]), false)
      else if s.emissionSameAsBase then
        MultiplyEmission(p.(graph := g), tex, s.strength)
      else
        (RampEmission(p.(graph := g), tex, s.emissionColor, s.strength), false)
  }

  /** Emission same as base: emission Color1 times base colour Color2 into Emission Color. */
  function MultiplyEmission(p: Progress, tex: nat, strength: real): (r: (Progress, bool))
    ensures Extends(p, r.0) && (Ready(p) ==> Ready(r.0))
  {
    var mix := |p.graph.nodes|;
    var g1 := WithDefault(WithNode(p.graph, MixRgbNode(Multiply)), InputRef(mix, Fac), 1.0);
    match p.baseColorNode
    case None => (p.(graph := g1), true)
    case Some(base) => (p.(graph := WithStrength(MultiplyLinks(g1, base, tex, mix), strength)), false)
  }

  /** Base colour into Color2 and emission into Color1 of the mix node, whose result drives Emission Color. */
  function MultiplyLinks(g: Graph, base: nat, tex: nat, mix: nat): (r: Graph)
    ensures Appends(g, r, [], 3)
    ensures mix != PRINCIPLED ==> FeedsOnly(g, r, {EmissionColor})
  {
    var g2 := WithLink(g, OutputRef(base, TextureColor), InputRef(mix, Color2));
    var g3 := WithLink(g2, OutputRef(tex, TextureColor), InputRef(mix, Color1));
    WithLink(g3, OutputRef(mix, MixedColor), InputRef(PRINCIPLED, EmissionColor))
  }

  /** Emission through a colour ramp whose end colour is the emission colour, opaque. */
  function RampEmission(p: Progress, tex: nat, c: Rgb, strength: real): (r: Progress)
    ensures Extends(p, r) && (Ready(p) ==> Ready(r))
  {
    p.(graph := WithStrength(Ramped(p.graph, tex, c), strength))
  }

  /** The emission texture `tex` as the factor of a new colour ramp, black to `c`, whose colour drives Emission Color. */
  function Ramped(g: Graph, tex: nat, c: Rgb): (r: Graph)
    ensures Appends(g, r, [ColorRampNode(Rgba(c.r, c.g, c.b, 1.0))], 2)
    ensures PRINCIPLED < |g.nodes| ==> FeedsOnly(g, r, {EmissionColor})
  {
    var ramp := |g.nodes|;
    var g1 := WithLink(WithNode(g, ColorRampNode(Rgba(c.r, c.g, c.b, 1.0))), OutputRef(tex, TextureColor), InputRef(ramp, RampFac));
    WithLink(g1, OutputRef(ramp, RampColor), InputRef(PRINCIPLED, EmissionColor))
  }

  /** What one build leaves behind: its outcome, the node tree, the reports and the settings. */
  datatype BuildResult = BuildResult(outcome: Outcome, graph: Graph, reports: seq<Report>, settings: SettingsValue)

  /**
   * The build on an active mesh, from settings `s`, where `loads(path)` says
   * whether bpy.data.images.load(path) succeeds.
   */
  function Build(s: SettingsValue, loads: string -> bool): (r: BuildResult)
    ensures r.outcome != Cancelled
    ensures |r.graph.nodes| >= 2
    ensures r.graph.nodes[OUTPUT] == OutputMaterialNode && r.graph.nodes[PRINCIPLED] == PrincipledBsdfNode
    ensures Link(OutputRef(PRINCIPLED, Bsdf), InputRef(OUTPUT, Surface)) in r.graph.links
    ensures r.outcome == Finished ==> r.settings == Cleared(s) && r.settings.usePackedMaps == s.usePackedMaps
    ensures r.outcome.Raised? ==> r.settings == s
  {
    var (p4, raised) := Stages(s, loads);
    assert Start().graph.links[0] == Link(OutputRef(PRINCIPLED, Bsdf), InputRef(OUTPUT, Surface));
    if raised then BuildResult(Raised(UnboundBaseColorNode), p4.graph, p4.reports, s)
    else BuildResult(Finished, p4.graph, p4.reports, Cleared(s))
  }

  /** The slots in the order execute visits them; the flag says the exception escaped. */
  function Stages(s: SettingsValue, loads: string -> bool): (r: (Progress, bool))
    ensures Ready(r.0) && Extends(Start(), r.0)
  {
    EmissionStage(BeforeEmission(s, loads), s, loads)
  }

  /** The output and principled nodes, then the base-colour, metallic/roughness and normal slots. */
  function BeforeEmission(s: SettingsValue, loads: string -> bool): (r: Progress)
    ensures Ready(r) && Extends(Start(), r)
  {
    NormalStage(MetalRoughStage(BaseColorStage(Start(), s, loads), s, loads), s, loads)
  }

  /** A material; setting useNodes gives it a node tree, which the add-on rebuilds. */
  class Material {
    const name: string
    var useNodes: bool
    const tree: NodeTree

    /** bpy.data.materials.new. */
    constructor (name: string)
      ensures this.name == name && !useNodes && fresh(tree) && tree.Value() == EMPTY
    {
      this.name := name;
      useNodes := false;
      tree := new NodeTree();
    }
  }

  /** A scene object: its type and its active material. */
  class SceneObject {
    const objectType: string
    var activeMaterial: Material?

    constructor (objectType: string, activeMaterial: Material?)
      ensures this.objectType == objectType && this.activeMaterial == activeMaterial
    {
      this.objectType := objectType;
      this.activeMaterial := activeMaterial;
    }
  }

  /** Whether the active object is a mesh. */
  predicate IsMesh(o: SceneObject?)
    ensures IsMesh(o) ==> o != null
  {
    o != null && o.objectType == "MESH"
  }

  /** The active material and its node tree, when there are both. */
  function MaterialFrame(o: SceneObject?): set<object>
    reads o
  {
    if o != null && o.activeMaterial != null then {o.activeMaterial, o.activeMaterial.tree} else {}
  }

  /** OpenImageOperator: the file dialog has already set filepath; execute stores it. */
  class OpenImageOperator {
    var imageType: string
    var filepath: string

    constructor (imageType: string, filepath: string)
      ensures this.imageType == imageType && this.filepath == filepath
    {
      this.imageType := imageType;
      this.filepath := filepath;
    }

    method Execute(settings: Settings) returns (result: Outcome)
      modifies settings
      ensures result == Finished
      ensures settings.Value() == Opened(old(settings.Value()), imageType, filepath)
    {
      if imageType == "BASE_COLOR" {
        settings.baseColorImage := filepath;
      } else if imageType == "METALLIC_SMOOTHNESS" {
        settings.metallicSmoothnessImage := filepath;
      } else if imageType == "NORMAL" {
        settings.normalImage := filepath;
      } else if imageType == "EMISSION" {
        settings.emissionImage := filepath;
      } else if imageType == "ROUGHNESS" {
        settings.roughnessImage := filepath;
      } else if imageType == "METALLIC" {
        settings.metallicImage := filepath;
      }
      result := Finished;
    }
  }

  /** CreateTextureNodesOperator; `reports` collects what self.report sends. */
  class CreateTextureNodesOperator {
    var reports: seq<Report>

    constructor ()
      ensures reports == []
    {
      reports := [];
    }

    /**
     * execute: with no active mesh, one report and nothing else changes;
     * otherwise the active material (created if missing) gets exactly the
     * node tree Build describes, the reports Build lists, and the settings
     * Build leaves.
     */
    method Execute(settings: Settings, activeObject: SceneObject?, loads: string -> bool) returns (result: Outcome)
      modifies this, settings, activeObject, MaterialFrame(activeObject)
      ensures !IsMesh(activeObject) ==>
                result == Cancelled && reports == old(reports) + [NoMeshSelected] &&
                unchanged(settings) && unchanged(old(MaterialFrame(activeObject))) &&
                (activeObject != null ==> unchanged(activeObject))
      ensures IsMesh(activeObject) ==>
                var r := Build(old(settings.Value()), loads);
                var mat := activeObject.activeMaterial;
                mat != null && mat.useNodes &&
                (old(activeObject.activeMaterial) != null ==> mat == old(activeObject.activeMaterial)) &&
                (old(activeObject.activeMaterial) == null ==> fresh(mat) && mat.name == "Material") &&
                mat.tree.Value() == r.graph && reports == old(reports) + r.reports &&
                settings.Value() == r.settings && result == r.outcome
    {
      if activeObject == null || activeObject.objectType != "MESH" {
        reports := reports + [NoMeshSelected];
        return Cancelled;
      }
      var mat := activeObject.activeMaterial;
      if mat == null {
        mat := new Material("Material");
        activeObject.activeMaterial := mat;
      }
      mat.useNodes := true;
      var raised := Rebuild(mat.tree, settings.Value(), loads);
      if raised {
        return Raised(UnboundBaseColorNode);
      }
      settings.ClearInputs();
      return Finished;
    }

    /** The node-building part of execute, from nodes.clear() to the emission slot. */
    method Rebuild(tree: NodeTree, s: SettingsValue, loads: string -> bool) returns (raised: bool)
      modifies this, tree
      ensures var r := Build(s, loads);
              tree.Value() == r.graph && reports == old(reports) + r.reports && raised == r.outcome.Raised?
    {
      ghost var before := reports;
      var baseColorNode := AddBeforeEmission(tree, s, loads);
      raised := AddEmission(tree, s, loads, BeforeEmission(s, loads), before, baseColorNode);
    }

    /** The output and principled nodes, then the base-colour, metallic/roughness and normal slots. */
    method AddBeforeEmission(tree: NodeTree, s: SettingsValue, loads: string -> bool) returns (baseColorNode: Option<nat>)
      modifies this, tree
      ensures tree.Value() == BeforeEmission(s, loads).graph
      ensures reports == old(reports) + BeforeEmission(s, loads).reports
      ensures baseColorNode == BeforeEmission(s, loads).baseColorNode
    {
      ghost var before := reports;
      AddStart(tree);
      ghost var p0 := Start();
      baseColorNode := AddBaseColor(tree, s, loads, p0, before);
      ghost var p1 := BaseColorStage(p0, s, loads);
      AddMetalRough(tree, s, loads, p1, before);
      ghost var p2 := MetalRoughStage(p1, s, loads);
      AddNormal(tree, s, loads, p2, before);
    }

    /** nodes.clear(), then the output and principled nodes, joined BSDF to Surface. */
    method AddStart(tree: NodeTree)
      modifies tree
      ensures tree.Value() == Start().graph
    {
      tree.Clear();
      var output := tree.NewNode(OutputMaterialNode);
      var principled := tree.NewNode(PrincipledBsdfNode);
      tree.NewLink(OutputRef(principled, Bsdf), InputRef(output, Surface));
    }

    method AddMetalRough(tree: NodeTree, s: SettingsValue, loads: string -> bool, ghost p: Progress, ghost before: seq<Report>)
      requires Ready(p) && tree.Value() == p.graph && reports == before + p.reports
      modifies this, tree
      ensures var r := MetalRoughStage(p, s, loads);
              tree.Value() == r.graph && reports == before + r.reports
    {
      if s.usePackedMaps {
        AddPacked(tree, s, loads, p, before);
      } else {
        AddMetallic(tree, s, loads, p, before);
        AddRoughness(tree, s, loads, MetallicStage(p, s, loads), before);
      }
    }

    /** nodes.new for a texture, then the load, which on success sets the image and its colour space. */
    method LoadTexture(tree: NodeTree, slot: ImageSlot, path: string, nonColor: bool, loads: string -> bool)
      returns (tex: nat, loaded: bool)
      modifies tree
      ensures tex == |old(tree.nodes)| && loaded == loads(path)
      ensures tree.Value() == Textured(old(tree.Value()), slot, path, nonColor, loads)
    {
      tex := tree.NewNode(ImageTextureNode(slot, None));
      loaded := loads(path);
      if loaded {
        tree.SetImage(tex, Image(path, nonColor));
      }
    }

    method AddBaseColor(tree: NodeTree, s: SettingsValue, loads: string -> bool, ghost p: Progress, ghost before: seq<Report>)
      returns (baseColorNode: Option<nat>)
      requires Ready(p) && p.baseColorNode == None && tree.Value() == p.graph && reports == before + p.reports
      modifies this, tree
      ensures var r := BaseColorStage(p, s, loads);
              tree.Value() == r.graph && reports == before + r.reports && baseColorNode == r.baseColorNode
    {
      baseColorNode := None;
      if s.baseColorImage != "" {
        var tex, loaded := LoadTexture(tree, BaseColorSlot, s.baseColorImage, false, loads);
        baseColorNode := Some(tex);
        if loaded {
          tree.NewLink(OutputRef(tex, TextureColor), InputRef(PRINCIPLED, BaseColor));
        } else {
          reports := reports + [CouldNotLoad(s.baseColorImage)];
        }
      }
    }

    method AddPacked(tree: NodeTree, s: SettingsValue, loads: string -> bool, ghost p: Progress, ghost before: seq<Report>)
      requires Ready(p) && tree.Value() == p.graph && reports == before + p.reports
      modifies this, tree
      ensures var r := PackedStage(p, s, loads);
              tree.Value() == r.graph && reports == before + r.reports
    {
      if s.metallicSmoothnessImage != "" {
        var tex, loaded := LoadTexture(tree, MetallicSmoothnessSlot, s.metallicSmoothnessImage, true, loads);
        if loaded {
          AddChannels(tree, tex);
        } else {
          reports := reports + [CouldNotLoad(s.metallicSmoothnessImage)];
        }
      } else {
        tree.SetDefault(InputRef(PRINCIPLED, Roughness), 1.0);
        tree.SetDefault(InputRef(PRINCIPLED, Metallic), 0.0);
      }
    }

    method AddChannels(tree: NodeTree, tex: nat)
      requires |tree.nodes| >= 2 && tree.nodes[PRINCIPLED] == PrincipledBsdfNode
      requires tex < |tree.nodes| && KindOf(tree.nodes[tex]).ImageTexture?
      modifies tree
      ensures tree.Value() == PackedChannels(old(tree.Value()), tex)
    {
      var separate := tree.NewNode(SeparateColorNode);
      tree.NewLink(OutputRef(tex, TextureColor), InputRef(separate, SeparateInput));
      var invert := tree.NewNode(InvertNode);
      tree.NewLink(OutputRef(separate, Green), InputRef(invert, InvertInput));
      tree.NewLink(OutputRef(separate, Red), InputRef(PRINCIPLED, Metallic));
      tree.NewLink(OutputRef(invert, InvertedColor), InputRef(PRINCIPLED, Roughness));
      tree.NewLink(OutputRef(tex, TextureAlpha), InputRef(PRINCIPLED, SpecularIorLevel));
    }

    method AddNormalMap(tree: NodeTree, tex: nat)
      requires |tree.nodes| >= 2 && tree.nodes[PRINCIPLED] == PrincipledBsdfNode
      requires tex < |tree.nodes| && KindOf(tree.nodes[tex]).ImageTexture?
      modifies tree
      ensures tree.Value() == NormalMapped(old(tree.Value()), tex)
    {
      var normalMap := tree.NewNode(NormalMapNode);
      tree.NewLink(OutputRef(tex, TextureColor), InputRef(normalMap, NormalMapColor));
      tree.NewLink(OutputRef(normalMap, NormalOut), InputRef(PRINCIPLED, Normal));
    }

    method AddMetallic(tree: NodeTree, s: SettingsValue, loads: string -> bool, ghost p: Progress, ghost before: seq<Report>)
      requires Ready(p) && tree.Value() == p.graph && reports == before + p.reports
      modifies this, tree
      ensures var r := MetallicStage(p, s, loads);
              tree.Value() == r.graph && reports == before + r.reports
    {
      if s.metallicImage != "" {
        var tex, loaded := LoadTexture(tree, MetallicSlot, s.metallicImage, true, loads);
        if loaded {
          tree.NewLink(OutputRef(tex, TextureColor), InputRef(PRINCIPLED, Metallic));
        } else {
          reports := reports + [CouldNotLoad(s.metallicImage)];
        }
      } else {
        tree.SetDefault(InputRef(PRINCIPLED, Metallic), 0.0);
      }
    }

    method AddRoughness(tree: NodeTree, s: SettingsValue, loads: string -> bool, ghost p: Progress, ghost before: seq<Report>)
      requires Ready(p) && tree.Value() == p.graph && reports == before + p.reports
      modifies this, tree
      ensures var r := RoughnessStage(p, s, loads);
              tree.Value() == r.graph && reports == before + r.reports
    {
      if s.roughnessImage != "" {
        var tex, loaded := LoadTexture(tree, RoughnessSlot, s.roughnessImage, true, loads);
        if loaded {
          tree.NewLink(OutputRef(tex, TextureColor), InputRef(PRINCIPLED, Roughness));
        } else {
          reports := reports + [CouldNotLoad(s.roughnessImage)];
        }
      } else {
        tree.SetDefault(InputRef(PRINCIPLED, Roughness), 1.0);
      }
    }

    method AddNormal(tree: NodeTree, s: SettingsValue, loads: string -> bool, ghost p: Progress, ghost before: seq<Report>)
      requires Ready(p) && tree.Value() == p.graph && reports == before + p.reports
      modifies this, tree
      ensures var r := NormalStage(p, s, loads);
              tree.Value() == r.graph && reports == before + r.reports
    {
      if s.normalImage != "" {
        var tex, loaded := LoadTexture(tree, NormalSlot, s.normalImage, true, loads);
        if loaded {
          AddNormalMap(tree, tex);
        } else {
          reports := reports + [CouldNotLoad(s.normalImage)];
        }
      }
    }

    /** Returns true when the unbound base_color_node is used: the exception that escapes execute. */
    method AddEmission(tree: NodeTree, s: SettingsValue, loads: string -> bool, ghost p: Progress, ghost before: seq<Report>,
                       baseColorNode: Option<nat>)
      returns (raised: bool)
      requires Ready(p) && tree.Value() == p.graph && reports == before + p.reports && baseColorNode == p.baseColorNode
      modifies this, tree
      ensures var r := EmissionStage(p, s, loads);
              tree.Value() == r.0.graph && reports == before + r.0.reports && raised == r.1
    {
      raised := false;
      if s.emissionImage != "" {
        var tex, loaded := LoadTexture(tree, EmissionSlot, s.emissionImage, false, loads);
        ghost var q := p.(graph := tree.Value());
        if loaded {
          if s.emissionSameAsBase {
            raised := AddMultiply(tree, tex, s.strength, q, baseColorNode);
          } else {
            AddRamp(tree, tex, s.emissionColor, s.strength, q);
          }
        } else {
          reports := reports + [CouldNotLoad(s.emissionImage)];
        }
      } else {
        tree.SetDefault(InputRef(PRINCIPLED, EmissionStrength), 0.0);
      }
    }

    method AddMultiply(tree: NodeTree, tex: nat, strength: real, ghost p: Progress, baseColorNode: Option<nat>)
      returns (raised: bool)
      requires Ready(p) && tree.Value() == p.graph && baseColorNode == p.baseColorNode
      requires tex < |p.graph.nodes| && KindOf(p.graph.nodes[tex]).ImageTexture?
      modifies tree
      ensures var r := MultiplyEmission(p, tex, strength);
              tree.Value() == r.0.graph && raised == r.1
    {
      var mix := tree.NewNode(MixRgbNode(Multiply));
      tree.SetDefault(InputRef(mix, Fac), 1.0);
      if baseColorNode.None? {
        return true;
      }
      tree.NewLink(OutputRef(baseColorNode.value, TextureColor), InputRef(mix, Color2));
      tree.NewLink(OutputRef(tex, TextureColor), InputRef(mix, Color1));
      tree.NewLink(OutputRef(mix, MixedColor), InputRef(PRINCIPLED, EmissionColor));
      AddStrength(tree, strength);
      raised := false;
    }

    method AddRamp(tree: NodeTree, tex: nat, c: Rgb, strength: real, ghost p: Progress)
      requires Ready(p) && tree.Value() == p.graph
      requires tex < |p.graph.nodes| && KindOf(p.graph.nodes[tex]).ImageTexture?
      modifies tree
      ensures tree.Value() == RampEmission(p, tex, c, strength).graph
    {
      var ramp := tree.NewNode(ColorRampNode(Rgba(c.r, c.g, c.b, 1.0)));
      tree.NewLink(OutputRef(tex, TextureColor), InputRef(ramp, RampFac));
      tree.NewLink(OutputRef(ramp, RampColor), InputRef(PRINCIPLED, EmissionColor));
      AddStrength(tree, strength);
    }

    method AddStrength(tree: NodeTree, strength: real)
      requires |tree.nodes| >= 2 && tree.nodes[PRINCIPLED] == PrincipledBsdfNode
      modifies tree
      ensures tree.Value() == WithStrength(old(tree.Value()), strength)
    {
      var value := tree.NewNode(ValueNode(strength));
      tree.NewLink(OutputRef(value, ValueOut), InputRef(PRINCIPLED, EmissionStrength));
    }
  }
}
