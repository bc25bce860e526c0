/** Images, shader nodes and node trees as the add-on sees them: a node tree
    is a sequence of nodes plus a sequence of links, each link joining an
    output socket of one node to a named input socket of another. */
module Shading {
  import opened Common

  /** An image datablock: its name and its pixel size. */
  datatype Image = Image(name: string, width: nat, height: nat)

  /** `max(img.size)`. */
  function LargerSide(img: Image): (r: nat)
    ensures r >= img.width && r >= img.height
    ensures r == img.width || r == img.height
  {
    if img.width < img.height then img.height else img.width
  }

  /** The node types the add-on inspects or creates; a group node names the
      node group it instances. */
  datatype NodeKind =
    | TexImage
    | BsdfPrincipled
    | NormalMap
    | SeparateRGB
    | Emission
    | UVMap
    | OutputMaterial
    | Group(groupName: string)
    | Other

  /** Socket names: the ones the add-on reads or links, each a constructor
      (`ImageIn` is the socket named "Image", `Bsdf` the one named "BSDF"),
      and `Named` for any other name. A name with its own constructor is
      always written with it, never as `Named`: `CanonicalSocket` states
      this convention. */
  datatype Socket =
    | BaseColor | Metallic | Roughness | Normal
    | Color | Strength | Vector | ImageIn
    | R | G | B | Bsdf
    | Surface | Volume | Displacement | Occlusion
    | Named(name: string)

  /** The socket names that have their own constructor. */
  const EnumeratedSocketNames: seq<string> := [
    "Base Color", "Metallic", "Roughness", "Normal",
    "Color", "Strength", "Vector", "Image",
    "R", "G", "B", "BSDF",
    "Surface", "Volume", "Displacement", "Occlusion"]

  /** `s` is written in the canonical form: `Named` only for a name that
      has no constructor of its own. */
  predicate CanonicalSocket(s: Socket) {
    s.Named? ==> s.name !in EnumeratedSocketNames
  }

  /** A node: its type, the image it holds (image texture nodes only) and
      the names of its input sockets. */
  datatype Node = Node(kind: NodeKind, image: Option<Image>, inputs: seq<Socket>)

  /** `fromNode.outputs[fromSocket] -> toNode.inputs[toSocket]`, by node index. */
  datatype Link = Link(fromNode: nat, fromSocket: Socket, toNode: nat, toSocket: Socket)

  datatype NodeTree = NodeTree(nodes: seq<Node>, links: seq<Link>)

  /** Every link joins two nodes of its own tree. */
  predicate LinksInRange(t: NodeTree) {
    forall l :: l in t.links ==> l.fromNode < |t.nodes| && l.toNode < |t.nodes|
  }

  type Graph = t: NodeTree | LinksInRange(t) witness NodeTree([], [])

  datatype Material = Material(name: string, useNodes: bool, tree: Graph)

  /** The node a link into input `socket` of node `to` comes from: the first
      such link (`links[0].from_node`), or None when the socket is unlinked. */
  function LinkInto(links: seq<Link>, to: nat, socket: Socket): (r: Option<nat>)
    ensures r.None? <==> forall l :: l in links ==> !(l.toNode == to && l.toSocket == socket)
    ensures r.Some? ==> exists l :: l in links && l.toNode == to && l.toSocket == socket && l.fromNode == r.value
  {
    if |links| == 0 then None
    else if links[0].toNode == to && links[0].toSocket == socket then Some(links[0].fromNode)
    else
      var rest := LinkInto(links[1..], to, socket);
      assert forall l :: l in links[1..] ==> l in links;
      assert forall l :: l in links ==> l == links[0] || l in links[1..];
      rest
  }

  /** `n.inputs.get(socket) and n.inputs[socket].is_linked`, followed by
      `links[0].from_node`: the node feeding that input of node `i`. */
  function InputSource(t: Graph, i: nat, socket: Socket): (r: Option<nat>)
    requires i < |t.nodes|
    ensures r.Some? ==> r.value < |t.nodes|
    ensures r.Some? <==>
      (socket in t.nodes[i].inputs && exists l :: l in t.links && l.toNode == i && l.toSocket == socket)
  {
    if socket in t.nodes[i].inputs then LinkInto(t.links, i, socket) else None
  }

  /** `n.type == 'TEX_IMAGE' and n.image`: the image of an image texture
      node that holds one. */
  function TexImageOf(t: Graph, j: nat): (r: Option<Image>)
    requires j < |t.nodes|
    ensures r.Some? <==> t.nodes[j].kind == TexImage && t.nodes[j].image.Some?
    ensures r.Some? ==> r == t.nodes[j].image
  {
    if t.nodes[j].kind == TexImage then t.nodes[j].image else None
  }

  /** The input sockets of the node types the add-on creates. */
  const PrincipledInputs: seq<Socket> := [BaseColor, Metallic, Roughness, Normal]
  const TexImageInputs: seq<Socket> := [Vector]
  const NormalMapInputs: seq<Socket> := [Strength, Color]
  const SeparateInputs: seq<Socket> := [ImageIn]
  const EmissionInputs: seq<Socket> := [Color, Strength]
  const OutputInputs: seq<Socket> := [Surface, Volume, Displacement]
}
