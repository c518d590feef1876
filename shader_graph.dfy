/**
 * The host's shader node tree, reduced to what the add-on touches: the node
 * types it creates, the sockets it looks up by name (one enumeration of
 * outputs and one of inputs, each socket owned by one node type), links
 * between sockets and default values on inputs.
 */
module ShaderGraph {

  import opened Options
  import opened AvatarSettings

  /** An RGBA colour, as a colour-ramp element holds it. */
  datatype Rgba = Rgba(r: real, g: real, b: real, a: real)

  /** Blend modes of a MixRGB node: a new node mixes, the add-on switches it to multiply. */
  datatype Blend = Mix | Multiply

  /** An image loaded from `path`; `nonColor` is its colour space set to Non-Color. */
  datatype Image = Image(path: string, nonColor: bool)

  /**
   * The node types the add-on creates. An image texture is labelled with the
   * settings slot it was created for; the add-on keeps each in a local
   * variable of its own.
   */
  datatype NodeKind =
    | OutputMaterial
    | PrincipledBsdf
    | ImageTexture(slot: ImageSlot)
    | SeparateColor
    | Invert
    | NormalMap
    | MixRgb
    | ColorRamp
    | Value

  /** A node together with the attributes the add-on sets on it. */
  datatype Node =
    | OutputMaterialNode
    | PrincipledBsdfNode
    | ImageTextureNode(slot: ImageSlot, image: Option<Image>)
    | SeparateColorNode
    | InvertNode
    | NormalMapNode
    | MixRgbNode(blend: Blend)
    | ColorRampNode(endColor: Rgba)
    | ValueNode(value: real)

  function KindOf(n: Node): NodeKind {
    match n
    case OutputMaterialNode => OutputMaterial
    case PrincipledBsdfNode => PrincipledBsdf
    case ImageTextureNode(slot, _) => ImageTexture(slot)
    case SeparateColorNode => SeparateColor
    case InvertNode => Invert
    case NormalMapNode => NormalMap
    case MixRgbNode(_) => MixRgb
    case ColorRampNode(_) => ColorRamp
    case ValueNode(_) => Value
  }

  /** The output sockets the add-on uses. */
  datatype OutputSocket =
    | Bsdf           // Principled BSDF "BSDF"
    | TextureColor   // Image Texture "Color"
    | TextureAlpha   // Image Texture "Alpha"
    | Red            // Separate Color "Red"
    | Green          // Separate Color "Green"
    | InvertedColor  // Invert "Color"
    | NormalOut      // Normal Map "Normal"
    | MixedColor     // MixRGB "Color"
    | RampColor      // Color Ramp "Color"
    | ValueOut       // Value, its only output

  /** The input sockets the add-on uses. */
  datatype InputSocket =
    | Surface           // Material Output "Surface"
    | BaseColor         // Principled BSDF "Base Color"
    | Metallic          // Principled BSDF "Metallic"
    | Roughness         // Principled BSDF "Roughness"
    | SpecularIorLevel  // Principled BSDF "Specular IOR Level"
    | Normal            // Principled BSDF "Normal"
    | EmissionColor     // Principled BSDF "Emission Color"
    | EmissionStrength  // Principled BSDF "Emission Strength"
    | SeparateInput     // Separate Color "Color"
    | InvertInput       // Invert "Color"
    | NormalMapColor    // Normal Map "Color"
    | Fac               // MixRGB "Fac"
    | Color1            // MixRGB "Color1"
    | Color2            // MixRGB "Color2"
    | RampFac           // Color Ramp "Fac"

  /** Whether a node of kind `k` has output socket `o`. */
  predicate HasOutput(k: NodeKind, o: OutputSocket) {
    match o
    case Bsdf => k == PrincipledBsdf
    case TextureColor => k.ImageTexture?
    case TextureAlpha => k.ImageTexture?
    case Red => k == SeparateColor
    case Green => k == SeparateColor
    case InvertedColor => k == Invert
    case NormalOut => k == NormalMap
    case MixedColor => k == MixRgb
    case RampColor => k == ColorRamp
    case ValueOut => k == Value
  }

  /** Whether a node of kind `k` has input socket `i`. */
  predicate HasInput(k: NodeKind, i: InputSocket) {
    match i
    case Surface => k == OutputMaterial
    case SeparateInput => k == SeparateColor
    case InvertInput => k == Invert
    case NormalMapColor => k == NormalMap
    case Fac => k == MixRgb
    case Color1 => k == MixRgb
    case Color2 => k == MixRgb
    case RampFac => k == ColorRamp
    case _ => k == PrincipledBsdf
  }

  /** A node is named by its position in the node collection, in creation order. */
  datatype OutputRef = OutputRef(node: nat, socket: OutputSocket)
  datatype InputRef = InputRef(node: nat, socket: InputSocket)
  datatype Link = Link(from: OutputRef, to: InputRef)

  /** A node tree: its nodes, its links, and the default values assigned to inputs. */
  datatype Graph = Graph(nodes: seq<Node>, links: seq<Link>, defaults: map<InputRef, real>)

  const EMPTY: Graph := Graph([], [], map[])

  /** nodes.new: the new node gets the next position. */
  function WithNode(g: Graph, n: Node): Graph {
    g.(nodes := g.nodes + [n])
  }

  /** links.new from `from` to `to`. */
  function WithLink(g: Graph, from: OutputRef, to: InputRef): Graph {
    g.(links := g.links + [Link(from, to)])
  }

  /** inputs[...].default_value := v. */
  function WithDefault(g: Graph, at: InputRef, v: real): Graph {
    g.(defaults := g.defaults[at := v])
  }

  /** node.image := image, on an image texture node. */
  function WithImage(g: Graph, id: nat, image: Image): Graph
    requires id < |g.nodes| && g.nodes[id].ImageTextureNode?
  {
    g.(nodes := g.nodes[id := g.nodes[id].(image := Some(image))])
  }

  /** The census of a node collection: how many of its nodes are of kind `k`. */
  function Count(nodes: seq<Node>, k: NodeKind): (n: nat)
    ensures n <= |nodes|
  {
    if nodes == [] then 0
    else Count(nodes[..|nodes| - 1], k) + (if KindOf(nodes[|nodes| - 1]) == k then 1 else 0)
  }

  lemma CountAppend(nodes: seq<Node>, n: Node, k: NodeKind)
    ensures Count(nodes + [n], k) == Count(nodes, k) + (if KindOf(n) == k then 1 else 0)
  {
    assert (nodes + [n])[..|nodes|] == nodes;
  }

  /** A link joins an existing output socket to an existing input socket. */
  predicate Fits(nodes: seq<Node>, l: Link) {
    l.from.node < |nodes| && HasOutput(KindOf(nodes[l.from.node]), l.from.socket) &&
    l.to.node < |nodes| && HasInput(KindOf(nodes[l.to.node]), l.to.socket)
  }

  /** No link ends at input `at`. */
  predicate Unlinked(g: Graph, at: InputRef) {
    forall i :: 0 <= i < |g.links| ==> g.links[i].to != at
  }

  /**
   * Every link and every default refers to a socket its node has, and no
   * input is the end of two links. links.new replaces an input's existing
   * link; a graph in which that never happens is one where appending a link
   * is exactly what links.new does.
   */
  predicate WellFormed(g: Graph) {
    (forall i :: 0 <= i < |g.links| ==> Fits(g.nodes, g.links[i])) &&
    (forall i, j :: 0 <= i < j < |g.links| ==> g.links[i].to != g.links[j].to) &&
    (forall at :: at in g.defaults ==> at.node < |g.nodes| && HasInput(KindOf(g.nodes[at.node]), at.socket))
  }

  lemma EmptyIsWellFormed()
    ensures WellFormed(EMPTY) && forall k :: Count(EMPTY.nodes, k) == 0
  {
  }

  /** Adding a node keeps a graph well formed, and the new node's inputs are unlinked. */
  lemma WithNodeKeeps(g: Graph, n: Node)
    requires WellFormed(g)
    ensures WellFormed(WithNode(g, n))
    ensures forall x :: Unlinked(WithNode(g, n), InputRef(|g.nodes|, x))
  {
    var h := WithNode(g, n);
    forall i | 0 <= i < |h.links|
      ensures Fits(h.nodes, h.links[i])
    {
      assert Fits(g.nodes, g.links[i]);
    }
  }

  /** A link that fits and ends at an unlinked input keeps the graph well formed. */
  lemma WithLinkKeeps(g: Graph, from: OutputRef, to: InputRef)
    requires WellFormed(g) && Fits(g.nodes, Link(from, to)) && Unlinked(g, to)
    ensures WellFormed(WithLink(g, from, to))
    ensures forall at :: Unlinked(g, at) && at != to ==> Unlinked(WithLink(g, from, to), at)
  {
  }

  /** A default on an existing input keeps the graph well formed. */
  lemma WithDefaultKeeps(g: Graph, at: InputRef, v: real)
    requires WellFormed(g) && at.node < |g.nodes| && HasInput(KindOf(g.nodes[at.node]), at.socket)
    ensures WellFormed(WithDefault(g, at, v))
  {
  }

  /** Loading an image into a texture node changes neither its kind nor the census. */
  lemma WithImageKeeps(g: Graph, id: nat, image: Image)
    requires WellFormed(g) && id < |g.nodes| && g.nodes[id].ImageTextureNode?
    ensures WellFormed(WithImage(g, id, image))
  {
    var h := WithImage(g, id, image);
    forall i | 0 <= i < |h.links|
      ensures Fits(h.nodes, h.links[i])
    {
      assert Fits(g.nodes, g.links[i]);
    }
  }

  /** Loading an image into a texture node leaves the census as it was. */
  lemma CountWithImage(g: Graph, id: nat, image: Image, k: NodeKind)
    requires id < |g.nodes| && g.nodes[id].ImageTextureNode?
    ensures Count(WithImage(g, id, image).nodes, k) == Count(g.nodes, k)
  {
    CountSameKinds(g.nodes, WithImage(g, id, image).nodes, k);
  }

  lemma {:induction false} CountSameKinds(a: seq<Node>, b: seq<Node>, k: NodeKind)
    requires |a| == |b| && forall i :: 0 <= i < |a| ==> KindOf(a[i]) == KindOf(b[i])
    ensures Count(a, k) == Count(b, k)
  {
    if a != [] {
      CountSameKinds(a[..|a| - 1], b[..|b| - 1], k);
    }
  }

  /**
   * The node collection of a material (node_tree.nodes and node_tree.links),
   * changed in place by the operator.
   */
  class NodeTree {
    var nodes: seq<Node>
    var links: seq<Link>
    var defaults: map<InputRef, real>

    function Value(): Graph
      reads this
    {
      Graph(nodes, links, defaults)
    }

    constructor ()
      ensures Value() == EMPTY
    {
      nodes, links, defaults := [], [], map[];
    }

    /** nodes.clear(): removes every node, and with them their links and defaults. */
    method Clear()
      modifies this
      ensures Value() == EMPTY
    {
      nodes, links, defaults := [], [], map[];
    }

    /** nodes.new: returns the new node's position. */
    method NewNode(n: Node) returns (id: nat)
      modifies this
      ensures id == |old(nodes)|
      ensures Value() == WithNode(old(Value()), n)
    {
      id := |nodes|;
      nodes := nodes + [n];
    }

    /** links.new: both sockets are looked up on their own nodes, so they exist. */
    method NewLink(from: OutputRef, to: InputRef)
      requires Fits(nodes, Link(from, to))
      modifies this
      ensures Value() == WithLink(old(Value()), from, to)
    {
      links := links + [Link(from, to)];
    }

    /** Assigns the default value of an input the node has. */
    method SetDefault(at: InputRef, v: real)
      requires at.node < |nodes| && HasInput(KindOf(nodes[at.node]), at.socket)
      modifies this
      ensures Value() == WithDefault(old(Value()), at, v)
    {
      defaults := defaults[at := v];
    }

    /** Assigns the image of an image texture node. */
    method SetImage(id: nat, image: Image)
      requires id < |nodes| && nodes[id].ImageTextureNode?
      modifies this
      ensures Value() == WithImage(old(Value()), id, image)
    {
      nodes := nodes[id := nodes[id].(image := Some(image))];
    }
  }
}
