# Lazy Avatar Nodes, modelled in Dafny

Lazy Avatar Nodes is a Blender add-on that sets up the material of the
selected mesh for a VRChat avatar. It keeps a group of scene settings: six
image paths, the emission colour and strength, and two switches. The first
switch picks packed or separate metallic/roughness maps. The second makes the
base colour the emission colour. The add-on has two operators:

- **Open Image** stores a chosen file path in the settings field that its
  image-type tag selects. Any other tag changes nothing.
- **Create Texture Nodes** needs an active mesh. It gives the mesh a material
  if it has none, then clears the material's node tree. It builds an output
  node and a Principled BSDF node, joined BSDF to Surface. It then adds, slot
  by slot, an image texture for every path that is set on a slot the current
  mode uses (packed maps use the metallic-smoothness slot, separate maps the
  metallic and roughness slots):
  - base colour goes straight into Base Color;
  - the packed metallic-smoothness map goes through Separate Color: Red into
    Metallic, Green through Invert into Roughness, Alpha into Specular IOR
    Level;
  - separate metallic and roughness maps go straight into their inputs;
  - the normal map goes through a Normal Map node;
  - emission goes through a colour ramp ending in the emission colour, or
    through a multiply node with the base colour; a Value node holds the
    strength.

  Paths that are unset leave documented defaults on the principled node. An
  image that fails to load is reported, and its texture is left without an
  image. At the end the operator clears every setting except the packed-maps
  switch.

The model has three layers:

- **Settings.** `AvatarSettings.Settings` is a class whose fields are the
  property group. `ClearInputs` and `OpenImageOperator.Execute` assign those
  fields in place.
- **Node tree.** `ShaderGraph.NodeTree` is a class holding a material's
  nodes, links and input defaults. Its methods are `nodes.clear`,
  `nodes.new`, `links.new`, default assignment and image assignment.
- **The build.** `Operators.Build` describes the whole create-texture-nodes
  run as a value: the graph, the reports, the outcome and the new settings.
  `CreateTextureNodesOperator.Execute` performs the same run in place, one
  `Add…` method per source block. Each method is proved to reach exactly the
  value its stage function gives. The properties of the build are proved
  about `Build`, in the `*Properties` modules.

Whether `bpy.data.images.load(path)` succeeds is the parameter
`loads: string -> bool`.

The source has one defect, at `LazyAvatarNodes.py:180`. Suppose
emission-same-as-base is on, the emission image loads, and no base-colour
path is set. Then `base_color_node` is used although it was never assigned.
The error this raises is not a `RuntimeError`, so it escapes `execute`, with
the graph built up to the multiply node's Fac default and the settings not
cleared. The model gives this run the outcome
`Raised(UnboundBaseColorNode)`. `BuildProperties.BuildOutcome` states
exactly when this happens.

A second behaviour follows from the code as written. `base_color_node` is
assigned before its image is loaded. So when the base-colour image fails to
load, the multiply branch still links that imageless texture into Color2.
`IsolationProperties.BuildIsolated` shows this is the only link that leaves
an imageless texture.

## Model

| member | source | states |
|---|---|---|
| AvatarSettings.Settings.constructor | LazyAvatarNodes.py:10-20 | every field starts at its declared default: empty paths, emission-same-as-base and packed maps off, strength 1.0, emission colour white |
| AvatarSettings.Settings.ClearInputs | LazyAvatarNodes.py:22-31 | the new record is the old one with its nine listed fields reset; this equals the declared defaults with use_packed_maps kept as it was |
| AvatarSettings.Declared | LazyAvatarNodes.py:11-20 | the declared defaults leave every image path empty and both switches off |
| AvatarSettings.Cleared | LazyAvatarNodes.py:22-31 | after clear_inputs every image path is empty and emission-same-as-base is off, while use_packed_maps keeps its value |
| AvatarSettings.ClearedIsDeclaredExceptPackedMaps | LazyAvatarNodes.py:10-31 | clearing gives the declared defaults except use_packed_maps, leaves every image path empty, and clearing twice changes nothing more |
| AvatarSettings.PathOfWithPath | LazyAvatarNodes.py:44-55 | writing one slot's path changes that path and no other path or field |
| AvatarSettings.WithPathOfPath | LazyAvatarNodes.py:44-55 | writing back the path a slot already holds leaves the record unchanged |
| AvatarSettings.TargetOf | LazyAvatarNodes.py:44-55 | a tag selects a slot exactly when it is one of the six tags BASE_COLOR, METALLIC_SMOOTHNESS, NORMAL, EMISSION, ROUGHNESS, METALLIC |
| AvatarSettings.TargetOfIsOneToOne | LazyAvatarNodes.py:44-55 | two tags that select the same slot are the same tag, so each of the six tags picks its own field |
| AvatarSettings.Opened | LazyAvatarNodes.py:41-57 | open-image changes no field other than a path, and an unknown tag changes nothing |
| AvatarSettings.OpenedWritesOnlyTarget | LazyAvatarNodes.py:41-57 | after open-image, the selected slot holds filepath and every other path and field keeps its value; an unknown tag changes nothing |
| Operators.OpenImageOperator.constructor | LazyAvatarNodes.py:38-39 | the operator holds the given image-type tag and file path |
| Operators.OpenImageOperator.Execute | LazyAvatarNodes.py:41-57 | returns FINISHED; the settings become the old settings with filepath stored in the slot the tag selects, or unchanged for an unknown tag |
| ShaderGraph.NodeTree.Clear | LazyAvatarNodes.py:84 | the tree is left with no nodes, no links and no defaults |
| ShaderGraph.NodeTree.NewNode | LazyAvatarNodes.py:86-89 | appends the node; its id is the old node count, and nothing else changes |
| ShaderGraph.NodeTree.NewLink | LazyAvatarNodes.py:92 | appends the link between two sockets that exist on their nodes, and nothing else changes |
| ShaderGraph.NodeTree.SetDefault | LazyAvatarNodes.py:126-127 | sets the default of an input the node has, and nothing else changes |
| ShaderGraph.NodeTree.SetImage | LazyAvatarNodes.py:98 | gives an image texture node its image, and nothing else changes |
| Operators.Material.constructor | LazyAvatarNodes.py:77 | a new material has the given name, nodes off, and an empty node tree of its own |
| Operators.IsMesh | LazyAvatarNodes.py:71 | an active object that counts as a mesh exists, so the build may use its material |
| Operators.Message | LazyAvatarNodes.py:72 | the text is "No mesh object selected" exactly for the missing-mesh report, so it never reads like a load failure |
| Operators.CreateTextureNodesOperator.Execute | LazyAvatarNodes.py:67-201 | without an active mesh: CANCELLED, one "No mesh object selected" report, nothing else changed. With one: the material is kept, or a fresh "Material" is created; use_nodes is on; the tree, reports, settings and outcome are exactly those Build gives for the old settings |
| Operators.CreateTextureNodesOperator.Rebuild | LazyAvatarNodes.py:84-197 | the tree becomes Build's graph, Build's reports are appended, and the raised flag is set exactly when Build's outcome is Raised |
| Operators.CreateTextureNodesOperator.AddBeforeEmission | LazyAvatarNodes.py:84-166 | the tree, the reports and base_color_node become those of BeforeEmission |
| Operators.CreateTextureNodesOperator.AddStart | LazyAvatarNodes.py:84-92 | the cleared tree ends up holding the output node, the principled node, and the BSDF-to-Surface link |
| Operators.CreateTextureNodesOperator.LoadTexture | LazyAvatarNodes.py:95-98 | adds one texture node for the slot; on a successful load it holds the image in the chosen colour space; reports whether the load succeeded |
| Operators.CreateTextureNodesOperator.AddBaseColor | LazyAvatarNodes.py:94-101 | the tree, reports and base_color_node become those of BaseColorStage |
| Operators.CreateTextureNodesOperator.AddMetalRough | LazyAvatarNodes.py:103-151 | the tree and reports become those of the packed stage or the separate stages, as use_packed_maps selects |
| Operators.CreateTextureNodesOperator.AddPacked | LazyAvatarNodes.py:104-127 | the tree and reports become those of PackedStage |
| Operators.CreateTextureNodesOperator.AddChannels | LazyAvatarNodes.py:111-122 | adds the Separate Color and Invert nodes and their five links, exactly as PackedChannels describes |
| Operators.CreateTextureNodesOperator.AddMetallic | LazyAvatarNodes.py:129-139 | the tree and reports become those of MetallicStage |
| Operators.CreateTextureNodesOperator.AddRoughness | LazyAvatarNodes.py:141-151 | the tree and reports become those of RoughnessStage |
| Operators.CreateTextureNodesOperator.AddNormal | LazyAvatarNodes.py:153-166 | the tree and reports become those of NormalStage |
| Operators.CreateTextureNodesOperator.AddNormalMap | LazyAvatarNodes.py:160-164 | adds the Normal Map node, texture into it and it into Normal, as NormalMapped describes |
| Operators.CreateTextureNodesOperator.AddEmission | LazyAvatarNodes.py:168-197 | the tree and reports become those of EmissionStage; returns true exactly when that stage raises |
| Operators.CreateTextureNodesOperator.AddMultiply | LazyAvatarNodes.py:174-182 | the tree becomes that of MultiplyEmission; returns true exactly when base_color_node is unbound |
| Operators.CreateTextureNodesOperator.AddRamp | LazyAvatarNodes.py:183-193 | the tree becomes that of RampEmission |
| Operators.CreateTextureNodesOperator.AddStrength | LazyAvatarNodes.py:190-193 | adds a Value node holding the strength, linked into Emission Strength |
| Operators.Start | LazyAvatarNodes.py:84-92 | the output node sits at position 0 and the principled node at 1; there are no reports yet and base_color_node is unbound |
| Operators.Textured | LazyAvatarNodes.py:95-98 | appends one texture node for the slot, which holds the image (in the chosen colour space) exactly when it loads; no link and no default changes |
| Operators.PackedChannels | LazyAvatarNodes.py:111-122 | appends the Separate Color and Invert nodes and five links; defaults are untouched, and of the principled inputs only Metallic, Roughness and Specular IOR Level are linked |
| Operators.NormalMapped | LazyAvatarNodes.py:160-164 | appends one Normal Map node and two links; of the principled inputs only Normal is linked |
| Operators.WithStrength | LazyAvatarNodes.py:190-193 | appends one Value node holding the strength and exactly one link, from that node's value into the principled Emission Strength |
| Operators.MultiplyLinks | LazyAvatarNodes.py:180-182 | appends no node and three links; of the principled inputs only Emission Color is linked |
| Operators.Ramped | LazyAvatarNodes.py:184-188 | appends one colour ramp ending in the emission colour at full alpha, and two links; of the principled inputs only Emission Color is linked |
| Operators.BaseColorStage | LazyAvatarNodes.py:94-101 | only appends nodes, links and reports; keeps the two fixed nodes; a set base-colour path binds base_color_node to the new texture, loaded or not, and an unset one leaves it as it was |
| Operators.PackedStage | LazyAvatarNodes.py:104-127 | only appends; keeps the fixed nodes and base_color_node |
| Operators.MetallicStage | LazyAvatarNodes.py:129-139 | only appends; keeps the fixed nodes and base_color_node |
| Operators.RoughnessStage | LazyAvatarNodes.py:141-151 | only appends; keeps the fixed nodes and base_color_node |
| Operators.MetalRoughStage | LazyAvatarNodes.py:103-151 | only appends; keeps the fixed nodes and base_color_node |
| Operators.NormalStage | LazyAvatarNodes.py:153-166 | only appends; keeps the fixed nodes and base_color_node |
| Operators.EmissionStage | LazyAvatarNodes.py:168-197 | only appends, and keeps the fixed nodes |
| Operators.MultiplyEmission | LazyAvatarNodes.py:174-182 | only appends, and keeps the fixed nodes |
| Operators.RampEmission | LazyAvatarNodes.py:183-193 | only appends, and keeps the fixed nodes |
| Operators.BeforeEmission | LazyAvatarNodes.py:84-166 | the stages before emission keep the fixed nodes and extend the starting graph |
| Operators.Stages | LazyAvatarNodes.py:84-197 | all stages keep the fixed nodes and extend the starting graph |
| Operators.Build | LazyAvatarNodes.py:84-201 | never CANCELLED; output and principled nodes at 0 and 1, BSDF linked to Surface; when finished, the settings are cleared with use_packed_maps kept; when raised, they are untouched |
| BuildProperties.BuildOutcome | LazyAvatarNodes.py:168-201 | the build raises exactly when emission-same-as-base is on, the emission image loads and no base-colour path is set; otherwise it finishes and clears the settings |
| BuildProperties.BaseColorNodeBound | LazyAvatarNodes.py:94-101 | base_color_node is bound when emission is reached exactly when the base-colour path is set, whether or not its image loaded |
| BuildProperties.BuildWellFormed | LazyAvatarNodes.py:84-197 | every link joins sockets its nodes have, every default is on an input its node has, no input gets two links, and the principled inputs no loaded slot feeds are unlinked |
| BuildProperties.BuildCensus | LazyAvatarNodes.py:86-195 | for every node kind, the count in the tree is the two fixed nodes plus each visited slot's contribution, set by its path and its load, and for emission also by emission-same-as-base and whether a base-colour path is set |
| BuildProperties.BuildCensusOf | LazyAvatarNodes.py:86-195 | the census equation for one node kind |
| BuildProperties.OneOutputOnePrincipled | LazyAvatarNodes.py:86-90 | every build has exactly one output node and one principled node |
| BuildProperties.PackedModesExclusive | LazyAvatarNodes.py:103-151 | packed mode makes no separate metallic or roughness texture; separate mode makes no packed texture, Separate Color or Invert node |
| BuildProperties.TexturePerUsedSlot | LazyAvatarNodes.py:94-172 | a slot has exactly one texture node if it is visited and its path is set, and none otherwise |
| ReportProperties.SlotReportsAreFailures | LazyAvatarNodes.py:100-101 | a report is present iff it names a failed slot of the run, under that slot's path; there are no more reports than slots |
| ReportProperties.BuildReports | LazyAvatarNodes.py:94-195 | a build reports, in the order it visits the slots, one "Could not load image" per slot whose image failed to load |
| ReportProperties.BuildReportsFailures | LazyAvatarNodes.py:94-195 | a report is in the list iff it names a visited slot whose load failed; "No mesh object selected" never appears; there are no more reports than visited slots |
| ReportProperties.MessageNamesPath | LazyAvatarNodes.py:101 | two load-failure messages are equal only when they name the same path |
| ReportProperties.BuildMessages | LazyAvatarNodes.py:101 | every message a build shows is "Could not load image " followed by the path of a visited slot whose image failed to load |
| DefaultProperties.BuildDefaults | LazyAvatarNodes.py:125-197 | the principled node gets exactly these defaults: Metallic 0.0 and Roughness 1.0 when their feeding slot has no path, Emission Strength 0.0 when emission has none. Elsewhere the only defaults are Fac 1.0 on multiply nodes, and every mix node has one |
| WiringProperties.BuildWired | LazyAvatarNodes.py:94-193 | every visited slot with a path has its texture node, holding the image (Non-Color for data maps) exactly when it loads. Every loaded slot is wired through its documented chain to the principled node, except emission when the multiply branch raised |
| WiringProperties.BuildFeeds | LazyAvatarNodes.py:99-193 | a principled input is linked iff a loaded slot feeds it. Every link into the principled node goes to an expected input, from the output socket that input's slot documents (Red, inverted Color, Alpha, Normal, mixed or ramp colour, Value) |
| IsolationProperties.BuildIsolated | LazyAvatarNodes.py:95-182 | no link leaves a texture whose image failed to load, except the base-colour texture into a multiply node's Color2 |

## Left out

- The panel (`LazyAvatarNodes.py:203-249`) draws the settings and buttons and changes no state, so it is not modelled.
- `OpenImageOperator.invoke` and the file dialog (`LazyAvatarNodes.py:59-61`) are not modelled. The chosen path reaches the model as the operator's `filepath` field, and `filter_glob` only filters what the dialog lists.
- Registration, unregistration and `bl_info` (`LazyAvatarNodes.py:1-6`, `251-268`) are Blender plumbing and are not modelled.
- Image decoding is not modelled. Whether `bpy.data.images.load` succeeds is the parameter `loads`, with the same answer for the same path. The Non-Color colour space is a flag on the image.
- A Blender image texture node carries no slot. The model tags each texture node `ImageTexture(slot)` with the settings slot whose block created it (the local variable `base_color_node`, `metallic_node`, and so on); `BuildProperties.PackedModesExclusive` and `BuildProperties.TexturePerUsedSlot` count nodes by this tag.
- Node locations are layout and are not modelled. `LazyAvatarNodes.py:113` sets the Separate Color mode to 'RGB', which a new node already has, so the model's Red and Green outputs are the RGB channels. The mix node is created with blend `Multiply`, the value `LazyAvatarNodes.py:176` sets.
- Operators.Material.constructor: in Blender a new material has no node tree until `use_nodes` is set (`LazyAvatarNodes.py:80`), and setting it creates a default Principled BSDF and Material Output. The model gives the material an empty tree from the start. No outcome differs, because `LazyAvatarNodes.py:84` clears the tree first.
- ShaderGraph.NodeTree.NewLink: the model assumes a Blender 4.x host, whose Principled BSDF has the inputs "Specular IOR Level" and "Emission Color" (`LazyAvatarNodes.py:122`, `182`, `188`). On an older Blender the socket lookup raises a KeyError, which escapes `execute`; that run is not modelled.
- What the shader renders is not modelled, only the node graph that describes it.
- Strength and colour values are `real`. The property bounds (`min`/`max` on strength and emission colour) are enforced by Blender's property system, not by this code, and are not modelled.
- Operators.Build: `links.new` replaces an input's existing link. The model appends instead. `BuildProperties.BuildWellFormed` shows no input ever receives two links, so for these builds appending and replacing agree.
- Operators.CreateTextureNodesOperator.Execute: the context is passed as explicit parameters: the settings, the active object, and `loads`. The material is named "Material" only when it is created. Blender's own name de-duplication is not modelled.
- Operators.CreateTextureNodesOperator.Execute: the escaping Python exception is the outcome `Raised(UnboundBaseColorNode)`. Blender's handling of an operator that raises is not modelled.
- Report levels are not modelled. Every report is at ERROR level, and `Operators.Message` gives its text.
