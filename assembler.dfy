/** The simplified glTF-style material the Rebake step assigns: image
    textures for the baked base color, packed ORM and normal images, one
    principled BSDF, and either the "glTF Material Output" group or a plain
    material output. The packed image is split: G drives roughness, B
    metalness, and R reaches the group's Occlusion input when it has one
    (the occlusion / roughness / metalness channel order of the glTF 2.0
    metallic-roughness material, sections 3.9.2 and 3.9.3). */
module Assembler {
  import opened Common
  import opened Shading
  import opened Roles

  /** A node group datablock: its name and its interface inputs, each
      written in canonical form (`Shading.CanonicalSocket`). */
  datatype NodeGroup = NodeGroup(name: string, inputs: seq<Socket>)

  const GltfOutputName: string := "glTF Material Output"

  /** The first node group with the given name. */
  function GroupNamed(groups: seq<NodeGroup>, name: string): (r: Option<NodeGroup>)
    ensures r.None? <==> forall i :: 0 <= i < |groups| ==> groups[i].name != name
    ensures r.Some? ==> exists i :: (0 <= i < |groups| && groups[i] == r.value && r.value.name == name
      && forall j :: 0 <= j < i ==> groups[j].name != name)
  {
    if groups == [] then None
    else if groups[0].name == name then Some(groups[0])
    else
      var r := GroupNamed(groups[1..], name);
      assert forall i :: 1 <= i < |groups| ==> groups[1..][i - 1] == groups[i];
      if r.Some? then
        assert exists i :: (0 <= i < |groups| && groups[i] == r.value && r.value.name == name
          && forall j :: 0 <= j < i ==> groups[j].name != name) by {
          var i :| 0 <= i < |groups[1..]| && groups[1..][i] == r.value
            && forall j :: 0 <= j < i ==> groups[1..][j].name != name;
          assert groups[i + 1] == r.value;
          assert forall j :: 1 <= j < i + 1 ==> groups[j].name != name;
        }
        r
      else r
  }

  /** The loop over `bpy.data.node_groups` that looks for the glTF output
      group. */
  method FindGltfOutputGroup(groups: seq<NodeGroup>) returns (g: Option<NodeGroup>)
    ensures g == GroupNamed(groups, GltfOutputName)
  {
    var i := 0;
    while i < |groups|
      invariant 0 <= i <= |groups|
      invariant GroupNamed(groups, GltfOutputName) == GroupNamed(groups[i..], GltfOutputName)
    {
      if groups[i].name == GltfOutputName {
        return Some(groups[i]);
      }
      assert groups[i..][1..] == groups[i + 1..];
      i := i + 1;
    }
    return None;
  }

  // ---------------------------------------------------------------------
  // The nodes and where they sit
  // ---------------------------------------------------------------------

  function TexNode(img: Image): Node { Node(TexImage, Some(img), TexImageInputs) }
  const BsdfNode: Node := Node(BsdfPrincipled, None, PrincipledInputs)
  const SepNode: Node := Node(SeparateRGB, None, SeparateInputs)
  const NrmNode: Node := Node(NormalMap, None, NormalMapInputs)

  /** The output node: an instance of the glTF group, or a material output. */
  function OutNode(gltf: Option<NodeGroup>): Node {
    if gltf.Some? then Node(Group(gltf.value.name), None, gltf.value.inputs)
    else Node(OutputMaterial, None, OutputInputs)
  }

  function Count(b: bool): nat { if b then 1 else 0 }

  /** The node indices, in creation order: the three image nodes that are
      present, the BSDF, the output, then the separate node and the normal
      map node when present. */
  datatype Layout = Layout(base: nat, orm: nat, norm: nat, bsdf: nat, out: nat, sep: nat, nrm: nat)

  function LayoutOf(hasBase: bool, hasOrm: bool, hasNorm: bool): Layout {
    var bsdf := Count(hasBase) + Count(hasOrm) + Count(hasNorm);
    Layout(0, Count(hasBase), Count(hasBase) + Count(hasOrm), bsdf, bsdf + 1, bsdf + 2, bsdf + 2 + Count(hasOrm))
  }

  function OptNode(img: Option<Image>): seq<Node> {
    if img.Some? then [TexNode(img.value)] else []
  }

  /** The image texture nodes, one per baked image. */
  function ImageNodes(base: Option<Image>, orm: Option<Image>, norm: Option<Image>): seq<Node> {
    OptNode(base) + OptNode(orm) + OptNode(norm)
  }

  function SimplifiedNodes(base: Option<Image>, orm: Option<Image>, norm: Option<Image>, gltf: Option<NodeGroup>): seq<Node> {
    ImageNodes(base, orm, norm) + [BsdfNode, OutNode(gltf)]
      + (if orm.Some? then [SepNode] else []) + (if norm.Some? then [NrmNode] else [])
  }

  predicate HasInput(gltf: Option<NodeGroup>, socket: Socket) {
    gltf.Some? && socket in gltf.value.inputs
  }

  function BaseLinks(L: Layout, base: Option<Image>): seq<Link> {
    if base.Some? then [Link(L.base, Color, L.bsdf, BaseColor)] else []
  }

  function OrmLinks(L: Layout, orm: Option<Image>, gltf: Option<NodeGroup>): seq<Link> {
    if orm.Some? then
      [Link(L.orm, Color, L.sep, ImageIn), Link(L.sep, G, L.bsdf, Roughness), Link(L.sep, B, L.bsdf, Metallic)]
      + (if HasInput(gltf, Occlusion) then [Link(L.sep, R, L.out, Occlusion)] else [])
    else []
  }

  function NormalLinks(L: Layout, norm: Option<Image>): seq<Link> {
    if norm.Some? then [Link(L.norm, Color, L.nrm, Color), Link(L.nrm, Normal, L.bsdf, Normal)] else []
  }

  function SurfaceLinks(L: Layout, gltf: Option<NodeGroup>): seq<Link> {
    if gltf.None? || HasInput(gltf, Surface) then [Link(L.bsdf, Bsdf, L.out, Surface)] else []
  }

  function SimplifiedLinks(base: Option<Image>, orm: Option<Image>, norm: Option<Image>, gltf: Option<NodeGroup>): seq<Link> {
    var L := LayoutOf(base.Some?, orm.Some?, norm.Some?);
    BaseLinks(L, base) + OrmLinks(L, orm, gltf) + NormalLinks(L, norm) + SurfaceLinks(L, gltf)
  }

  lemma SimplifiedLinksInRange(base: Option<Image>, orm: Option<Image>, norm: Option<Image>, gltf: Option<NodeGroup>)
    ensures LinksInRange(NodeTree(SimplifiedNodes(base, orm, norm, gltf), SimplifiedLinks(base, orm, norm, gltf)))
  {
    var L := LayoutOf(base.Some?, orm.Some?, norm.Some?);
    var nodes := SimplifiedNodes(base, orm, norm, gltf);
    assert |nodes| == L.nrm + Count(norm.Some?);
    SimplifiedWiring(base, orm, norm, gltf);
    ShapedLinksInRange(SimplifiedLinks(base, orm, norm, gltf), |nodes|, L, base, orm, norm, gltf);
  }

  /** Links laid out as `L` join nodes of a tree of that layout's size. */
  lemma ShapedLinksInRange(links: seq<Link>, n: nat, L: Layout, base: Option<Image>, orm: Option<Image>,
                           norm: Option<Image>, gltf: Option<NodeGroup>)
    requires L == LayoutOf(base.Some?, orm.Some?, norm.Some?) && n == L.nrm + Count(norm.Some?)
    requires LinksShaped(links, L, base, orm, norm, gltf)
    ensures forall l :: l in links ==> l.fromNode < n && l.toNode < n
  {
    forall l | l in links
      ensures l.fromNode < n && l.toNode < n
    {
      assert Wired(l.toSocket, base, orm, norm, gltf) && l == WiredLink(L, l.toSocket);
    }
  }

  function SimplifiedTree(base: Option<Image>, orm: Option<Image>, norm: Option<Image>, gltf: Option<NodeGroup>): Graph {
    SimplifiedLinksInRange(base, orm, norm, gltf);
    NodeTree(SimplifiedNodes(base, orm, norm, gltf), SimplifiedLinks(base, orm, norm, gltf))
  }

  /** The material `build_simplified_material` returns. */
  function SimplifiedMaterial(objName: string, base: Option<Image>, orm: Option<Image>, norm: Option<Image>,
                              gltf: Option<NodeGroup>): Material {
    Material("Rebaked_" + objName, true, SimplifiedTree(base, orm, norm, gltf))
  }

  /** The image texture nodes, created first: one per baked image. */
  method AddImageNodes(base: Option<Image>, orm: Option<Image>, norm: Option<Image>)
    returns (nodes: seq<Node>)
    ensures nodes == ImageNodes(base, orm, norm)
    ensures |nodes| == LayoutOf(base.Some?, orm.Some?, norm.Some?).bsdf
  {
    nodes := [];
    if base.Some? {
      nodes := nodes + [TexNode(base.value)];
    }
    if orm.Some? {
      nodes := nodes + [TexNode(orm.value)];
    }
    if norm.Some? {
      nodes := nodes + [TexNode(norm.value)];
    }
  }

  /** The separate-color node and the links of the packed image. */
  method WireOrm(nodes: seq<Node>, links: seq<Link>, L: Layout, orm: Option<Image>, gltf: Option<NodeGroup>)
    returns (nodes': seq<Node>, links': seq<Link>)
    requires |nodes| == L.sep
    ensures nodes' == nodes + (if orm.Some? then [SepNode] else [])
    ensures links' == links + OrmLinks(L, orm, gltf)
  {
    nodes', links' := nodes, links;
    if orm.Some? {
      var sep := |nodes'|;
      nodes' := nodes' + [SepNode];
      links' := links' + [Link(L.orm, Color, sep, ImageIn)];
      links' := links' + [Link(sep, G, L.bsdf, Roughness)];
      links' := links' + [Link(sep, B, L.bsdf, Metallic)];
      if gltf.Some? {
        if Occlusion in gltf.value.inputs {
          links' := links' + [Link(sep, R, L.out, Occlusion)];
        }
      }
    }
  }

  /** The normal map node and the links of the normal image. */
  method WireNormal(nodes: seq<Node>, links: seq<Link>, L: Layout, norm: Option<Image>)
    returns (nodes': seq<Node>, links': seq<Link>)
    requires |nodes| == L.nrm
    ensures nodes' == nodes + (if norm.Some? then [NrmNode] else [])
    ensures links' == links + NormalLinks(L, norm)
  {
    nodes', links' := nodes, links;
    if norm.Some? {
      var nrm := |nodes'|;
      nodes' := nodes' + [NrmNode];
      links' := links' + [Link(L.norm, Color, nrm, Color)];
      links' := links' + [Link(nrm, Normal, L.bsdf, Normal)];
    }
  }

  /** The BSDF's link into the output's Surface input. */
  method WireSurface(links: seq<Link>, L: Layout, gltf: Option<NodeGroup>) returns (links': seq<Link>)
    ensures links' == links + SurfaceLinks(L, gltf)
  {
    links' := links;
    if gltf.Some? {
      if Surface in gltf.value.inputs {
        links' := links' + [Link(L.bsdf, Bsdf, L.out, Surface)];
      }
    } else {
      links' := links' + [Link(L.bsdf, Bsdf, L.out, Surface)];
    }
  }

  /** `build_simplified_material`: the group lookup, then the tree, then
      the material holding it. */
  method BuildSimplifiedMaterial(objName: string, base: Option<Image>, orm: Option<Image>, norm: Option<Image>,
                                 groups: seq<NodeGroup>) returns (mat: Material)
    ensures mat == SimplifiedMaterial(objName, base, orm, norm, GroupNamed(groups, GltfOutputName))
  {
    var gltf := FindGltfOutputGroup(groups);
    var nodes, links := BuildSimplifiedTree(base, orm, norm, gltf);
    SimplifiedLinksInRange(base, orm, norm, gltf);
    mat := Material("Rebaked_" + objName, true, NodeTree(nodes, links));
  }

  /** The nodes and links of `build_simplified_material`, added one by one
      in the order the add-on creates them. */
  method BuildSimplifiedTree(base: Option<Image>, orm: Option<Image>, norm: Option<Image>, gltf: Option<NodeGroup>)
    returns (nodes: seq<Node>, links: seq<Link>)
    ensures nodes == SimplifiedNodes(base, orm, norm, gltf)
    ensures links == SimplifiedLinks(base, orm, norm, gltf)
  {
    var L := LayoutOf(base.Some?, orm.Some?, norm.Some?);
    nodes := AddImageNodes(base, orm, norm);
    nodes := nodes + [BsdfNode];
    nodes := nodes + [OutNode(gltf)];
    assert nodes == ImageNodes(base, orm, norm) + [BsdfNode, OutNode(gltf)] && |nodes| == L.sep;
    links := [];
    if base.Some? {
      links := links + [Link(0, Color, L.bsdf, BaseColor)];
    }
    assert links == BaseLinks(L, base);
    nodes, links := WireOrm(nodes, links, L, orm, gltf);
    assert |nodes| == L.nrm;
    nodes, links := WireNormal(nodes, links, L, norm);
    links := WireSurface(links, L, gltf);
  }

  // ---------------------------------------------------------------------
  // What the built material wires up
  // ---------------------------------------------------------------------

  /** The baked images in the order their texture nodes are created. */
  function ImageList(base: Option<Image>, orm: Option<Image>, norm: Option<Image>): seq<Image> {
    OptSeq(base) + OptSeq(orm) + OptSeq(norm)
  }

  /** The node a tree laid out as `L` holds at index `j`: an image node for
      each of the images `imgs`, the BSDF, the output, then the separate
      node when there is a packed image and the normal map node. */
  function NodeAt(j: nat, L: Layout, imgs: seq<Image>, hasOrm: bool, gltf: Option<NodeGroup>): Node
    requires j < L.bsdf ==> j < |imgs|
  {
    if j < L.bsdf then TexNode(imgs[j])
    else if j == L.bsdf then BsdfNode
    else if j == L.out then OutNode(gltf)
    else if hasOrm && j == L.sep then SepNode
    else NrmNode
  }

  /** The nodes of a tree laid out as `L`. */
  ghost predicate NodesShaped(nodes: seq<Node>, L: Layout, base: Option<Image>, orm: Option<Image>, norm: Option<Image>,
                              gltf: Option<NodeGroup>) {
    && L == LayoutOf(base.Some?, orm.Some?, norm.Some?)
    && |nodes| == L.nrm + Count(norm.Some?)
    && |ImageList(base, orm, norm)| == L.bsdf
    && forall j :: 0 <= j < |nodes| ==> nodes[j] == NodeAt(j, L, ImageList(base, orm, norm), orm.Some?, gltf)
  }

  /** The nodes the wiring connects, at their places in layout `L`. */
  ghost predicate KeyNodes(nodes: seq<Node>, L: Layout, base: Option<Image>, orm: Option<Image>, norm: Option<Image>,
                           gltf: Option<NodeGroup>) {
    && L.bsdf < |nodes| && nodes[L.bsdf] == BsdfNode
    && L.out < |nodes| && nodes[L.out] == OutNode(gltf)
    && (base.Some? ==> L.base < |nodes| && nodes[L.base] == TexNode(base.value))
    && (orm.Some? ==> L.orm < |nodes| && nodes[L.orm] == TexNode(orm.value) && L.sep < |nodes| && nodes[L.sep] == SepNode)
    && (norm.Some? ==> L.norm < |nodes| && nodes[L.norm] == TexNode(norm.value) && L.nrm < |nodes| && nodes[L.nrm] == NrmNode)
  }

  lemma ShapedKeyNodes(nodes: seq<Node>, L: Layout, base: Option<Image>, orm: Option<Image>, norm: Option<Image>,
                       gltf: Option<NodeGroup>)
    requires NodesShaped(nodes, L, base, orm, norm, gltf)
    ensures KeyNodes(nodes, L, base, orm, norm, gltf)
  {
    assert nodes[L.bsdf] == BsdfNode;
    assert nodes[L.out] == OutNode(gltf);
    if base.Some? {
      assert nodes[L.base] == TexNode(base.value);
    }
    if orm.Some? {
      assert nodes[L.orm] == TexNode(orm.value);
      assert nodes[L.sep] == SepNode;
    }
    if norm.Some? {
      assert nodes[L.norm] == TexNode(norm.value);
      assert nodes[L.nrm] == NrmNode;
    }
  }

  /** The image nodes hold the baked images in creation order. */
  lemma ImageNodesAt(base: Option<Image>, orm: Option<Image>, norm: Option<Image>)
    ensures var imgs := ImageList(base, orm, norm);
      && |imgs| == |ImageNodes(base, orm, norm)| == LayoutOf(base.Some?, orm.Some?, norm.Some?).bsdf
      && forall j :: 0 <= j < |imgs| ==> ImageNodes(base, orm, norm)[j] == TexNode(imgs[j])
  {
    var imgs := ImageList(base, orm, norm);
    assert ImageNodes(base, orm, norm) == seq(|imgs|, j requires 0 <= j < |imgs| => TexNode(imgs[j]));
  }

  /** Where each node of the simplified tree sits. */
  lemma SimplifiedNodesAt(base: Option<Image>, orm: Option<Image>, norm: Option<Image>, gltf: Option<NodeGroup>)
    ensures NodesShaped(SimplifiedNodes(base, orm, norm, gltf), LayoutOf(base.Some?, orm.Some?, norm.Some?),
                        base, orm, norm, gltf)
  {
    ImageNodesAt(base, orm, norm);
    PlacedAfter(ImageNodes(base, orm, norm), base, orm, norm, gltf);
  }

  /** The nodes created after the image nodes sit behind them. */
  lemma PlacedAfter(lead: seq<Node>, base: Option<Image>, orm: Option<Image>, norm: Option<Image>, gltf: Option<NodeGroup>)
    requires |lead| == |ImageList(base, orm, norm)|
    requires forall j :: 0 <= j < |lead| ==> lead[j] == TexNode(ImageList(base, orm, norm)[j])
    ensures NodesShaped(lead + [BsdfNode, OutNode(gltf)] + (if orm.Some? then [SepNode] else [])
                          + (if norm.Some? then [NrmNode] else []), LayoutOf(base.Some?, orm.Some?, norm.Some?),
                        base, orm, norm, gltf)
  {
    PlacedAt(lead, ImageList(base, orm, norm), LayoutOf(base.Some?, orm.Some?, norm.Some?), orm.Some?, norm.Some?, gltf);
  }

  /** `PlacedAfter` for any layout whose trailing indices follow `lead`. */
  lemma PlacedAt(lead: seq<Node>, imgs: seq<Image>, L: Layout, hasOrm: bool, hasNorm: bool, gltf: Option<NodeGroup>)
    requires |lead| == |imgs| == L.bsdf && L.out == L.bsdf + 1 && L.sep == L.bsdf + 2 && L.nrm == L.sep + Count(hasOrm)
    requires forall j :: 0 <= j < |lead| ==> lead[j] == TexNode(imgs[j])
    ensures var nodes := lead + [BsdfNode, OutNode(gltf)] + (if hasOrm then [SepNode] else [])
                           + (if hasNorm then [NrmNode] else []);
            && |nodes| == L.nrm + Count(hasNorm)
            && forall j :: 0 <= j < |nodes| ==> nodes[j] == NodeAt(j, L, imgs, hasOrm, gltf)
  {
    var front := lead + [BsdfNode, OutNode(gltf)];
    var mid := front + (if hasOrm then [SepNode] else []);
    var nodes := mid + (if hasNorm then [NrmNode] else []);
    forall j | 0 <= j < |nodes|
      ensures nodes[j] == NodeAt(j, L, imgs, hasOrm, gltf)
    {
      if j < |mid| {
        assert nodes[j] == mid[j];
        if j < |front| {
          assert mid[j] == front[j];
        }
      }
    }
  }

  /** Every input of a node receives at most one link. */
  predicate OneLinkPerInput(links: seq<Link>) {
    forall a, b :: a in links && b in links && a.toNode == b.toNode && a.toSocket == b.toSocket ==> a == b
  }

  /** The one link the simplified tree may have into each input name. */
  function WiredLink(L: Layout, socket: Socket): Link {
    match socket
    case BaseColor => Link(L.base, Color, L.bsdf, BaseColor)
    case ImageIn => Link(L.orm, Color, L.sep, ImageIn)
    case Roughness => Link(L.sep, G, L.bsdf, Roughness)
    case Metallic => Link(L.sep, B, L.bsdf, Metallic)
    case Occlusion => Link(L.sep, R, L.out, Occlusion)
    case Color => Link(L.norm, Color, L.nrm, Color)
    case Normal => Link(L.nrm, Normal, L.bsdf, Normal)
    case _ => Link(L.bsdf, Bsdf, L.out, Surface)
  }

  /** The inputs the simplified tree links: each exactly when its image
      exists, the group inputs only when the group has them. */
  predicate Wired(socket: Socket, base: Option<Image>, orm: Option<Image>, norm: Option<Image>, gltf: Option<NodeGroup>) {
    match socket
    case BaseColor => base.Some?
    case ImageIn => orm.Some?
    case Roughness => orm.Some?
    case Metallic => orm.Some?
    case Occlusion => orm.Some? && HasInput(gltf, Occlusion)
    case Color => norm.Some?
    case Normal => norm.Some?
    case Surface => gltf.None? || HasInput(gltf, Surface)
    case _ => false
  }

  /** The links of a tree laid out as `L`: exactly the wired links of the
      wired inputs. */
  ghost predicate LinksShaped(links: seq<Link>, L: Layout, base: Option<Image>, orm: Option<Image>, norm: Option<Image>,
                              gltf: Option<NodeGroup>) {
    forall l :: l in links <==> Wired(l.toSocket, base, orm, norm, gltf) && l == WiredLink(L, l.toSocket)
  }

  /** An input the packed image's wiring links. */
  predicate OrmSocket(s: Socket) {
    s == ImageIn || s == Roughness || s == Metallic || s == Occlusion
  }

  /** Each piece of wiring holds exactly the wired links into its own
      inputs. */
  lemma BasePiece(L: Layout, base: Option<Image>, orm: Option<Image>, norm: Option<Image>, gltf: Option<NodeGroup>)
    ensures forall l :: l in BaseLinks(L, base) <==>
      l.toSocket == BaseColor && Wired(l.toSocket, base, orm, norm, gltf) && l == WiredLink(L, l.toSocket)
  {
  }

  lemma OrmPiece(L: Layout, base: Option<Image>, orm: Option<Image>, norm: Option<Image>, gltf: Option<NodeGroup>)
    ensures forall l :: l in OrmLinks(L, orm, gltf) <==>
      OrmSocket(l.toSocket) && Wired(l.toSocket, base, orm, norm, gltf) && l == WiredLink(L, l.toSocket)
  {
  }

  lemma NormalPiece(L: Layout, base: Option<Image>, orm: Option<Image>, norm: Option<Image>, gltf: Option<NodeGroup>)
    ensures forall l :: l in NormalLinks(L, norm) <==>
      (l.toSocket == Color || l.toSocket == Normal) && Wired(l.toSocket, base, orm, norm, gltf) && l == WiredLink(L, l.toSocket)
  {
  }

  lemma SurfacePiece(L: Layout, base: Option<Image>, orm: Option<Image>, norm: Option<Image>, gltf: Option<NodeGroup>)
    ensures forall l :: l in SurfaceLinks(L, gltf) <==>
      l.toSocket == Surface && Wired(l.toSocket, base, orm, norm, gltf) && l == WiredLink(L, l.toSocket)
  {
  }

  /** Which of the possible links the simplified tree has. */
  lemma SimplifiedWiring(base: Option<Image>, orm: Option<Image>, norm: Option<Image>, gltf: Option<NodeGroup>)
    ensures LinksShaped(SimplifiedLinks(base, orm, norm, gltf), LayoutOf(base.Some?, orm.Some?, norm.Some?),
                        base, orm, norm, gltf)
  {
    var L := LayoutOf(base.Some?, orm.Some?, norm.Some?);
    BasePiece(L, base, orm, norm, gltf);
    OrmPiece(L, base, orm, norm, gltf);
    NormalPiece(L, base, orm, norm, gltf);
    SurfacePiece(L, base, orm, norm, gltf);
    JoinPieces(L, BaseLinks(L, base), OrmLinks(L, orm, gltf), NormalLinks(L, norm), SurfaceLinks(L, gltf),
               base, orm, norm, gltf);
  }

  /** Four pieces holding the wired links into their own inputs join into
      the links of a tree laid out as `L`. */
  lemma JoinPieces(L: Layout, a: seq<Link>, b: seq<Link>, c: seq<Link>, d: seq<Link>,
                   base: Option<Image>, orm: Option<Image>, norm: Option<Image>, gltf: Option<NodeGroup>)
    requires forall l :: l in a <==>
      l.toSocket == BaseColor && Wired(l.toSocket, base, orm, norm, gltf) && l == WiredLink(L, l.toSocket)
    requires forall l :: l in b <==>
      OrmSocket(l.toSocket) && Wired(l.toSocket, base, orm, norm, gltf) && l == WiredLink(L, l.toSocket)
    requires forall l :: l in c <==>
      (l.toSocket == Color || l.toSocket == Normal) && Wired(l.toSocket, base, orm, norm, gltf) && l == WiredLink(L, l.toSocket)
    requires forall l :: l in d <==>
      l.toSocket == Surface && Wired(l.toSocket, base, orm, norm, gltf) && l == WiredLink(L, l.toSocket)
    ensures LinksShaped(a + b + c + d, L, base, orm, norm, gltf)
  {
    forall l
      ensures l in a + b + c + d <==> Wired(l.toSocket, base, orm, norm, gltf) && l == WiredLink(L, l.toSocket)
    {
      assert l in a + b + c + d <==> l in a || l in b || l in c || l in d;
    }
  }

  /** The input sockets the simplified tree links are all different names,
      so no input receives two links. */
  lemma SimplifiedOneLinkPerInput(base: Option<Image>, orm: Option<Image>, norm: Option<Image>, gltf: Option<NodeGroup>)
    ensures OneLinkPerInput(SimplifiedLinks(base, orm, norm, gltf))
  {
    SimplifiedWiring(base, orm, norm, gltf);
  }

  /** In a tree whose links are the wired links of the wired inputs, the
      node feeding a wired input is the one its link names, and an input
      that is not wired is unlinked. */
  lemma WiredSource(t: Graph, L: Layout, base: Option<Image>, orm: Option<Image>, norm: Option<Image>,
                    gltf: Option<NodeGroup>, socket: Socket)
    requires LinksShaped(t.links, L, base, orm, norm, gltf)
    requires WiredLink(L, socket).toSocket == socket
    requires WiredLink(L, socket).toNode < |t.nodes| && socket in t.nodes[WiredLink(L, socket).toNode].inputs
    ensures InputSource(t, WiredLink(L, socket).toNode, socket)
      == if Wired(socket, base, orm, norm, gltf) then Some(WiredLink(L, socket).fromNode) else None
  {
    assert WiredLink(L, socket) in t.links <==> Wired(socket, base, orm, norm, gltf);
  }

  lemma SimplifiedShaped(base: Option<Image>, orm: Option<Image>, norm: Option<Image>, gltf: Option<NodeGroup>)
    ensures var t := SimplifiedTree(base, orm, norm, gltf); var L := LayoutOf(base.Some?, orm.Some?, norm.Some?);
      NodesShaped(t.nodes, L, base, orm, norm, gltf) && LinksShaped(t.links, L, base, orm, norm, gltf)
  {
    SimplifiedNodesAt(base, orm, norm, gltf);
    SimplifiedWiring(base, orm, norm, gltf);
  }

  /** Output `channel` of a separate-color node fed by image `img` drives
      input `socket` of node `to`. */
  predicate ChannelFeeds(t: Graph, img: Image, channel: Socket, to: nat, socket: Socket)
    requires to < |t.nodes|
  {
    match InputSource(t, to, socket)
    case None => false
    case Some(s) =>
      && Link(s, channel, to, socket) in t.links
      && t.nodes[s].kind == SeparateRGB
      && match InputSource(t, s, ImageIn)
         case None => false
         case Some(j) => TexImageOf(t, j) == Some(img)
  }

  lemma BaseAndNormalRouting(t: Graph, L: Layout, base: Option<Image>, orm: Option<Image>, norm: Option<Image>,
                             gltf: Option<NodeGroup>)
    requires KeyNodes(t.nodes, L, base, orm, norm, gltf) && LinksShaped(t.links, L, base, orm, norm, gltf)
    ensures BaseHit(t, L.bsdf) == base && NormalHit(t, L.bsdf) == norm
  {
    BaseRouting(t, L, base, orm, norm, gltf);
    NormalRouting(t, L, base, orm, norm, gltf);
  }

  lemma BaseRouting(t: Graph, L: Layout, base: Option<Image>, orm: Option<Image>, norm: Option<Image>,
                    gltf: Option<NodeGroup>)
    requires KeyNodes(t.nodes, L, base, orm, norm, gltf) && LinksShaped(t.links, L, base, orm, norm, gltf)
    ensures BaseHit(t, L.bsdf) == base
  {
    assert t.nodes[L.bsdf] == BsdfNode;
    WiredSource(t, L, base, orm, norm, gltf, BaseColor);
    if base.Some? {
      assert t.nodes[L.base] == TexNode(base.value);
    }
  }

  lemma NormalRouting(t: Graph, L: Layout, base: Option<Image>, orm: Option<Image>, norm: Option<Image>,
                      gltf: Option<NodeGroup>)
    requires KeyNodes(t.nodes, L, base, orm, norm, gltf) && LinksShaped(t.links, L, base, orm, norm, gltf)
    ensures NormalHit(t, L.bsdf) == norm
  {
    NormalInputRouting(t, L, base, orm, norm, gltf);
    if norm.Some? {
      NormalMapRouting(t, L, base, orm, norm, gltf);
      NormalThroughMap(t, L.bsdf, L.nrm, L.norm, norm.value);
    }
  }

  /** The normal input of the BSDF is linked, from the normal map node,
      exactly when there is a normal image. */
  lemma NormalInputRouting(t: Graph, L: Layout, base: Option<Image>, orm: Option<Image>, norm: Option<Image>,
                           gltf: Option<NodeGroup>)
    requires KeyNodes(t.nodes, L, base, orm, norm, gltf) && LinksShaped(t.links, L, base, orm, norm, gltf)
    ensures L.bsdf < |t.nodes|
    ensures InputSource(t, L.bsdf, Normal) == if norm.Some? then Some(L.nrm) else None
  {
    assert t.nodes[L.bsdf] == BsdfNode;
    WiredSource(t, L, base, orm, norm, gltf, Normal);
  }

  /** An image node feeding the color input of a normal map node that feeds
      the normal input of node `i` is what the normal scan finds. */
  lemma NormalThroughMap(t: Graph, i: nat, m: nat, k: nat, img: Image)
    requires i < |t.nodes| && m < |t.nodes| && k < |t.nodes|
    requires InputSource(t, i, Normal) == Some(m) && t.nodes[m].kind == NormalMap
    requires InputSource(t, m, Color) == Some(k) && TexImageOf(t, k) == Some(img)
    ensures NormalHit(t, i) == Some(img)
  {
  }

  /** With a normal image, the normal map node is fed by the normal image's
      node. */
  lemma NormalMapRouting(t: Graph, L: Layout, base: Option<Image>, orm: Option<Image>, norm: Option<Image>,
                         gltf: Option<NodeGroup>)
    requires KeyNodes(t.nodes, L, base, orm, norm, gltf) && LinksShaped(t.links, L, base, orm, norm, gltf)
    requires norm.Some?
    ensures L.nrm < |t.nodes| && t.nodes[L.nrm].kind == NormalMap
    ensures InputSource(t, L.nrm, Color) == Some(L.norm)
    ensures L.norm < |t.nodes| && TexImageOf(t, L.norm) == Some(norm.value)
  {
    assert t.nodes[L.nrm] == NrmNode;
    WiredSource(t, L, base, orm, norm, gltf, Color);
    assert t.nodes[L.norm] == TexNode(norm.value);
  }

  /** With a packed image, the separate node is fed by the packed image's
      node. */
  lemma SepRouting(t: Graph, L: Layout, base: Option<Image>, orm: Option<Image>, norm: Option<Image>,
                   gltf: Option<NodeGroup>)
    requires KeyNodes(t.nodes, L, base, orm, norm, gltf) && LinksShaped(t.links, L, base, orm, norm, gltf)
    requires orm.Some?
    ensures L.sep < |t.nodes| && t.nodes[L.sep].kind == SeparateRGB
    ensures InputSource(t, L.sep, ImageIn) == Some(L.orm)
    ensures L.orm < |t.nodes| && TexImageOf(t, L.orm) == Some(orm.value)
  {
    assert t.nodes[L.sep] == SepNode;
    WiredSource(t, L, base, orm, norm, gltf, ImageIn);
    assert t.nodes[L.orm] == TexNode(orm.value);
  }

  /** A link from output `channel` of separate node `s`, fed by image node
      `j` holding `img`, into input `socket` of node `to`. */
  lemma FeedsThrough(t: Graph, img: Image, channel: Socket, to: nat, socket: Socket, s: nat, j: nat)
    requires to < |t.nodes| && s < |t.nodes| && j < |t.nodes|
    requires InputSource(t, to, socket) == Some(s) && Link(s, channel, to, socket) in t.links
    requires t.nodes[s].kind == SeparateRGB && InputSource(t, s, ImageIn) == Some(j) && TexImageOf(t, j) == Some(img)
    ensures ChannelFeeds(t, img, channel, to, socket)
  {
  }

  /** An input linked from output `channel` of the separate node is fed
      that channel of the packed image. */
  lemma SepFeeds(t: Graph, L: Layout, base: Option<Image>, orm: Option<Image>, norm: Option<Image>,
                 gltf: Option<NodeGroup>, channel: Socket, to: nat, socket: Socket)
    requires KeyNodes(t.nodes, L, base, orm, norm, gltf) && LinksShaped(t.links, L, base, orm, norm, gltf)
    requires orm.Some? && to < |t.nodes|
    requires InputSource(t, to, socket) == Some(L.sep) && Link(L.sep, channel, to, socket) in t.links
    ensures ChannelFeeds(t, orm.value, channel, to, socket)
  {
    SepRouting(t, L, base, orm, norm, gltf);
    FeedsThrough(t, orm.value, channel, to, socket, L.sep, L.orm);
  }

  /** The wired input `socket` of node `to` is fed through its wired link
      exactly when it is wired. */
  lemma WiredInput(t: Graph, L: Layout, base: Option<Image>, orm: Option<Image>, norm: Option<Image>,
                   gltf: Option<NodeGroup>, socket: Socket)
    requires KeyNodes(t.nodes, L, base, orm, norm, gltf) && LinksShaped(t.links, L, base, orm, norm, gltf)
    requires socket == Roughness || socket == Metallic || socket == Occlusion
    ensures WiredLink(L, socket).toNode < |t.nodes|
    ensures InputSource(t, WiredLink(L, socket).toNode, socket)
      == if Wired(socket, base, orm, norm, gltf) then Some(L.sep) else None
    ensures Wired(socket, base, orm, norm, gltf) ==> WiredLink(L, socket) in t.links
  {
    if socket == Occlusion {
      WiredOcclusion(t, L, base, orm, norm, gltf);
    } else {
      assert t.nodes[L.bsdf] == BsdfNode;
      WiredSource(t, L, base, orm, norm, gltf, socket);
    }
  }

  /** The occlusion input of the output node, when the group has one, is
      wired exactly when there is a packed image. */
  lemma WiredOcclusion(t: Graph, L: Layout, base: Option<Image>, orm: Option<Image>, norm: Option<Image>,
                       gltf: Option<NodeGroup>)
    requires KeyNodes(t.nodes, L, base, orm, norm, gltf) && LinksShaped(t.links, L, base, orm, norm, gltf)
    ensures L.out < |t.nodes|
    ensures InputSource(t, L.out, Occlusion)
      == if Wired(Occlusion, base, orm, norm, gltf) then Some(L.sep) else None
    ensures Wired(Occlusion, base, orm, norm, gltf) ==> WiredLink(L, Occlusion) in t.links
  {
    assert t.nodes[L.out] == OutNode(gltf);
    if HasInput(gltf, Occlusion) {
      WiredSource(t, L, base, orm, norm, gltf, Occlusion);
    } else {
      assert Occlusion !in t.nodes[L.out].inputs;
    }
  }

  lemma OrmRouting(t: Graph, L: Layout, base: Option<Image>, orm: Option<Image>, norm: Option<Image>,
                   gltf: Option<NodeGroup>)
    requires KeyNodes(t.nodes, L, base, orm, norm, gltf) && LinksShaped(t.links, L, base, orm, norm, gltf)
    ensures L.bsdf < |t.nodes|
    ensures InputSource(t, L.bsdf, Roughness).Some? <==> orm.Some?
    ensures InputSource(t, L.bsdf, Metallic).Some? <==> orm.Some?
    ensures orm.Some? ==> ChannelFeeds(t, orm.value, G, L.bsdf, Roughness) && ChannelFeeds(t, orm.value, B, L.bsdf, Metallic)
  {
    WiredInput(t, L, base, orm, norm, gltf, Roughness);
    WiredInput(t, L, base, orm, norm, gltf, Metallic);
    if orm.Some? {
      SepFeeds(t, L, base, orm, norm, gltf, G, L.bsdf, Roughness);
      SepFeeds(t, L, base, orm, norm, gltf, B, L.bsdf, Metallic);
    }
  }

  lemma OcclusionRouting(t: Graph, L: Layout, base: Option<Image>, orm: Option<Image>, norm: Option<Image>,
                         gltf: Option<NodeGroup>)
    requires KeyNodes(t.nodes, L, base, orm, norm, gltf) && LinksShaped(t.links, L, base, orm, norm, gltf)
    ensures L.out < |t.nodes|
    ensures InputSource(t, L.out, Occlusion).Some? <==> orm.Some? && HasInput(gltf, Occlusion)
    ensures orm.Some? && HasInput(gltf, Occlusion) ==> ChannelFeeds(t, orm.value, R, L.out, Occlusion)
  {
    WiredInput(t, L, base, orm, norm, gltf, Occlusion);
    if orm.Some? && HasInput(gltf, Occlusion) {
      OcclusionFeeds(t, L, base, orm, norm, gltf);
    }
  }

  /** With a packed image and an occlusion input, the red channel feeds it. */
  lemma OcclusionFeeds(t: Graph, L: Layout, base: Option<Image>, orm: Option<Image>, norm: Option<Image>,
                       gltf: Option<NodeGroup>)
    requires KeyNodes(t.nodes, L, base, orm, norm, gltf) && LinksShaped(t.links, L, base, orm, norm, gltf)
    requires orm.Some? && HasInput(gltf, Occlusion)
    ensures L.out < |t.nodes| && ChannelFeeds(t, orm.value, R, L.out, Occlusion)
  {
    WiredInput(t, L, base, orm, norm, gltf, Occlusion);
    SepFeeds(t, L, base, orm, norm, gltf, R, L.out, Occlusion);
  }

  lemma SurfaceRouting(t: Graph, L: Layout, base: Option<Image>, orm: Option<Image>, norm: Option<Image>,
                       gltf: Option<NodeGroup>)
    requires KeyNodes(t.nodes, L, base, orm, norm, gltf) && LinksShaped(t.links, L, base, orm, norm, gltf)
    ensures InputSource(t, L.out, Surface) == (if gltf.None? || HasInput(gltf, Surface) then Some(L.bsdf) else None)
    ensures t.nodes[L.out].kind == (if gltf.Some? then Group(gltf.value.name) else OutputMaterial)
  {
    assert t.nodes[L.out] == OutNode(gltf);
    assert WiredLink(L, Surface) == Link(L.bsdf, Bsdf, L.out, Surface);
    if gltf.None? {
      assert OutputInputs[0] == Surface;
      WiredSource(t, L, base, orm, norm, gltf, Surface);
    } else if HasInput(gltf, Surface) {
      WiredSource(t, L, base, orm, norm, gltf, Surface);
    } else {
      assert Surface !in t.nodes[L.out].inputs;
    }
  }

  lemma OnePrincipledIn(nodes: seq<Node>, L: Layout, base: Option<Image>, orm: Option<Image>, norm: Option<Image>,
                        gltf: Option<NodeGroup>)
    requires NodesShaped(nodes, L, base, orm, norm, gltf)
    ensures forall j :: 0 <= j < |nodes| ==> (nodes[j].kind == BsdfPrincipled <==> j == L.bsdf)
  {
  }

  /** The base-color input of the BSDF shows the baked base-color image, and
      its normal input, through the normal map node, the baked normal image;
      each is unlinked when that image is missing. */
  lemma BaseAndNormalRouted(base: Option<Image>, orm: Option<Image>, norm: Option<Image>, gltf: Option<NodeGroup>)
    ensures LayoutOf(base.Some?, orm.Some?, norm.Some?).bsdf < |SimplifiedTree(base, orm, norm, gltf).nodes|
    ensures var t := SimplifiedTree(base, orm, norm, gltf);
      BaseHit(t, LayoutOf(base.Some?, orm.Some?, norm.Some?).bsdf) == base
    ensures var t := SimplifiedTree(base, orm, norm, gltf);
      NormalHit(t, LayoutOf(base.Some?, orm.Some?, norm.Some?).bsdf) == norm
  {
    SimplifiedShaped(base, orm, norm, gltf);
    ShapedKeyNodes(SimplifiedTree(base, orm, norm, gltf).nodes, LayoutOf(base.Some?, orm.Some?, norm.Some?),
                   base, orm, norm, gltf);
    BaseAndNormalRouting(SimplifiedTree(base, orm, norm, gltf), LayoutOf(base.Some?, orm.Some?, norm.Some?),
                         base, orm, norm, gltf);
  }

  /** Roughness and metalness are linked exactly when there is a packed
      image, from its G and B channels. */
  lemma OrmRouted(base: Option<Image>, orm: Option<Image>, norm: Option<Image>, gltf: Option<NodeGroup>)
    ensures LayoutOf(base.Some?, orm.Some?, norm.Some?).bsdf < |SimplifiedTree(base, orm, norm, gltf).nodes|
    ensures var t := SimplifiedTree(base, orm, norm, gltf); var L := LayoutOf(base.Some?, orm.Some?, norm.Some?);
      && (InputSource(t, L.bsdf, Roughness).Some? <==> orm.Some?)
      && (InputSource(t, L.bsdf, Metallic).Some? <==> orm.Some?)
    ensures var t := SimplifiedTree(base, orm, norm, gltf); var L := LayoutOf(base.Some?, orm.Some?, norm.Some?);
      orm.Some? ==> ChannelFeeds(t, orm.value, G, L.bsdf, Roughness) && ChannelFeeds(t, orm.value, B, L.bsdf, Metallic)
  {
    SimplifiedShaped(base, orm, norm, gltf);
    ShapedKeyNodes(SimplifiedTree(base, orm, norm, gltf).nodes, LayoutOf(base.Some?, orm.Some?, norm.Some?),
                   base, orm, norm, gltf);
    OrmRouting(SimplifiedTree(base, orm, norm, gltf), LayoutOf(base.Some?, orm.Some?, norm.Some?),
               base, orm, norm, gltf);
  }

  /** The occlusion input of the output group is linked, from the R channel
      of the packed image, exactly when there is a packed image and the
      group has that input. */
  lemma OcclusionRouted(base: Option<Image>, orm: Option<Image>, norm: Option<Image>, gltf: Option<NodeGroup>)
    ensures LayoutOf(base.Some?, orm.Some?, norm.Some?).out < |SimplifiedTree(base, orm, norm, gltf).nodes|
    ensures var t := SimplifiedTree(base, orm, norm, gltf); var L := LayoutOf(base.Some?, orm.Some?, norm.Some?);
      InputSource(t, L.out, Occlusion).Some? <==> orm.Some? && HasInput(gltf, Occlusion)
    ensures var t := SimplifiedTree(base, orm, norm, gltf); var L := LayoutOf(base.Some?, orm.Some?, norm.Some?);
      orm.Some? && HasInput(gltf, Occlusion) ==> ChannelFeeds(t, orm.value, R, L.out, Occlusion)
  {
    SimplifiedShaped(base, orm, norm, gltf);
    ShapedKeyNodes(SimplifiedTree(base, orm, norm, gltf).nodes, LayoutOf(base.Some?, orm.Some?, norm.Some?),
                   base, orm, norm, gltf);
    OcclusionRouting(SimplifiedTree(base, orm, norm, gltf), LayoutOf(base.Some?, orm.Some?, norm.Some?),
                     base, orm, norm, gltf);
  }

  /** The BSDF drives the surface of the output, except for a glTF group
      without a Surface input; the output is that group's instance when the
      group exists. */
  lemma SurfaceRouted(base: Option<Image>, orm: Option<Image>, norm: Option<Image>, gltf: Option<NodeGroup>)
    ensures LayoutOf(base.Some?, orm.Some?, norm.Some?).out < |SimplifiedTree(base, orm, norm, gltf).nodes|
    ensures var t := SimplifiedTree(base, orm, norm, gltf); var L := LayoutOf(base.Some?, orm.Some?, norm.Some?);
      InputSource(t, L.out, Surface) == (if gltf.None? || HasInput(gltf, Surface) then Some(L.bsdf) else None)
    ensures var t := SimplifiedTree(base, orm, norm, gltf); var L := LayoutOf(base.Some?, orm.Some?, norm.Some?);
      t.nodes[L.out].kind == (if gltf.Some? then Group(gltf.value.name) else OutputMaterial)
  {
    SimplifiedShaped(base, orm, norm, gltf);
    ShapedKeyNodes(SimplifiedTree(base, orm, norm, gltf).nodes, LayoutOf(base.Some?, orm.Some?, norm.Some?),
                   base, orm, norm, gltf);
    SurfaceRouting(SimplifiedTree(base, orm, norm, gltf), LayoutOf(base.Some?, orm.Some?, norm.Some?),
                   base, orm, norm, gltf);
  }

  /** The BSDF is the tree's only principled node. */
  lemma OnePrincipled(base: Option<Image>, orm: Option<Image>, norm: Option<Image>, gltf: Option<NodeGroup>)
    ensures var t := SimplifiedTree(base, orm, norm, gltf); var L := LayoutOf(base.Some?, orm.Some?, norm.Some?);
      forall j :: 0 <= j < |t.nodes| ==> (t.nodes[j].kind == BsdfPrincipled <==> j == L.bsdf)
  {
    SimplifiedShaped(base, orm, norm, gltf);
    OnePrincipledIn(SimplifiedTree(base, orm, norm, gltf).nodes, LayoutOf(base.Some?, orm.Some?, norm.Some?),
                    base, orm, norm, gltf);
  }

  // ---------------------------------------------------------------------
  // Classifying the rebuilt material again
  // ---------------------------------------------------------------------

  /** With a single principled node `p`, the principled pass takes exactly
      that node's step. */
  lemma {:induction false} BsdfPassSingle(acc: Found, t: Graph, p: nat, n: nat)
    requires p < |t.nodes| && n <= |t.nodes|
    requires forall j :: 0 <= j < |t.nodes| ==> (t.nodes[j].kind == BsdfPrincipled <==> j == p)
    ensures BsdfPass(acc, t, n) == if n <= p then acc else BsdfStep(acc, t, p)
  {
    if n > 0 {
      BsdfPassSingle(acc, t, p, n - 1);
    }
  }

  /** In a tree whose first nodes hold the images `imgs` and whose other
      nodes hold none, the texture pass over the first `n` nodes collects
      the images among them, in node order. */
  lemma {:induction false} TexPassOfLeadingImages(t: Graph, imgs: seq<Image>, n: nat)
    requires n <= |t.nodes| && |imgs| <= |t.nodes|
    requires forall j :: 0 <= j < |imgs| ==> TexImageOf(t, j) == Some(imgs[j])
    requires forall j :: |imgs| <= j < |t.nodes| ==> TexImageOf(t, j) == None
    ensures TexPass(NothingFound, t, n) == NothingFound.(tex := if n <= |imgs| then imgs[..n] else imgs)
  {
    if n > 0 {
      TexPassOfLeadingImages(t, imgs, n - 1);
      if n <= |imgs| {
        assert imgs[..n] == imgs[..n - 1] + [imgs[n - 1]];
      }
    }
  }

  /** In a tree laid out as `L` the texture nodes come first and hold the
      baked images in creation order. */
  lemma LeadingImagesIn(t: Graph, L: Layout, base: Option<Image>, orm: Option<Image>, norm: Option<Image>,
                        gltf: Option<NodeGroup>)
    requires NodesShaped(t.nodes, L, base, orm, norm, gltf)
    ensures var imgs := ImageList(base, orm, norm);
      && |imgs| <= |t.nodes|
      && (forall j :: 0 <= j < |imgs| ==> TexImageOf(t, j) == Some(imgs[j]))
      && (forall j :: |imgs| <= j < |t.nodes| ==> TexImageOf(t, j) == None)
  {
    var imgs := ImageList(base, orm, norm);
    forall j | 0 <= j < |t.nodes|
      ensures TexImageOf(t, j) == if j < |imgs| then Some(imgs[j]) else None
    {
      assert t.nodes[j] == NodeAt(j, L, imgs, orm.Some?, gltf);
    }
  }

  /** A lone material whose texture nodes lead and hold `imgs`, with one
      principled node `p`: the scan collects `imgs` and takes the step of
      `p` alone. */
  lemma {:induction false} LoneMaterialPass(m: Material, imgs: seq<Image>, p: nat)
    requires m.useNodes && p < |m.tree.nodes| && |imgs| <= |m.tree.nodes|
    requires forall j :: 0 <= j < |imgs| ==> TexImageOf(m.tree, j) == Some(imgs[j])
    requires forall j :: |imgs| <= j < |m.tree.nodes| ==> TexImageOf(m.tree, j) == None
    requires forall j :: 0 <= j < |m.tree.nodes| ==> (m.tree.nodes[j].kind == BsdfPrincipled <==> j == p)
    ensures SlotsPass([Some(m)], 1) == BsdfStep(NothingFound.(tex := imgs), m.tree, p)
  {
    var t := m.tree;
    TexPassOfLeadingImages(t, imgs, |t.nodes|);
    assert imgs[..|imgs|] == imgs;
    assert TexPass(NothingFound, t, |t.nodes|) == NothingFound.(tex := imgs);
    BsdfPassSingle(NothingFound.(tex := imgs), t, p, |t.nodes|);
    assert SlotsPass([Some(m)], 1) == MaterialPass(NothingFound, m);
  }

  /** The step of the BSDF of a tree laid out as `L` adds the base-color
      and normal images and, with a packed image, sets both link flags. */
  lemma ShapedStep(acc: Found, t: Graph, L: Layout, base: Option<Image>, orm: Option<Image>, norm: Option<Image>,
                   gltf: Option<NodeGroup>)
    requires NodesShaped(t.nodes, L, base, orm, norm, gltf) && LinksShaped(t.links, L, base, orm, norm, gltf)
    ensures BsdfStep(acc, t, L.bsdf) == acc.(base := acc.base + OptSeq(base), normal := acc.normal + OptSeq(norm),
                                             rough := acc.rough || orm.Some?, metal := acc.metal || orm.Some?)
  {
    ShapedKeyNodes(t.nodes, L, base, orm, norm, gltf);
    BaseAndNormalRouting(t, L, base, orm, norm, gltf);
    OrmRouting(t, L, base, orm, norm, gltf);
  }

  /** The scan of a lone material laid out as `L` collects its images and
      then takes the step of its BSDF alone. */
  lemma ShapedLonePass(m: Material, L: Layout, base: Option<Image>, orm: Option<Image>, norm: Option<Image>,
                       gltf: Option<NodeGroup>)
    requires m.useNodes && NodesShaped(m.tree.nodes, L, base, orm, norm, gltf)
    ensures L.bsdf < |m.tree.nodes|
    ensures SlotsPass([Some(m)], 1) == BsdfStep(NothingFound.(tex := ImageList(base, orm, norm)), m.tree, L.bsdf)
  {
    LeadingImagesIn(m.tree, L, base, orm, norm, gltf);
    OnePrincipledIn(m.tree.nodes, L, base, orm, norm, gltf);
    LoneMaterialPass(m, ImageList(base, orm, norm), L.bsdf);
  }

  /** The scan of the rebuilt material alone collects its images, then
      takes the step of its BSDF alone. */
  lemma RebakedLonePass(objName: string, base: Option<Image>, orm: Option<Image>, norm: Option<Image>,
                        gltf: Option<NodeGroup>)
    ensures var m := SimplifiedMaterial(objName, base, orm, norm, gltf); var L := LayoutOf(base.Some?, orm.Some?, norm.Some?);
      && L.bsdf < |m.tree.nodes|
      && SlotsPass([Some(m)], 1) == BsdfStep(NothingFound.(tex := ImageList(base, orm, norm)), m.tree, L.bsdf)
  {
    SimplifiedShaped(base, orm, norm, gltf);
    ShapedLonePass(SimplifiedMaterial(objName, base, orm, norm, gltf), LayoutOf(base.Some?, orm.Some?, norm.Some?),
                   base, orm, norm, gltf);
  }

  /** The step of the rebuilt material's BSDF. */
  lemma RebakedStep(acc: Found, base: Option<Image>, orm: Option<Image>, norm: Option<Image>, gltf: Option<NodeGroup>)
    ensures var t := SimplifiedTree(base, orm, norm, gltf); var L := LayoutOf(base.Some?, orm.Some?, norm.Some?);
      && L.bsdf < |t.nodes|
      && BsdfStep(acc, t, L.bsdf) == acc.(base := acc.base + OptSeq(base), normal := acc.normal + OptSeq(norm),
                                          rough := acc.rough || orm.Some?, metal := acc.metal || orm.Some?)
  {
    SimplifiedShaped(base, orm, norm, gltf);
    ShapedStep(acc, SimplifiedTree(base, orm, norm, gltf), LayoutOf(base.Some?, orm.Some?, norm.Some?),
               base, orm, norm, gltf);
  }

  /** What the node scan finds in the rebuilt material alone. */
  lemma RebakedFound(objName: string, base: Option<Image>, orm: Option<Image>, norm: Option<Image>,
                     gltf: Option<NodeGroup>)
    ensures var f := SlotsPass([Some(SimplifiedMaterial(objName, base, orm, norm, gltf))], 1);
      && f.tex == ImageList(base, orm, norm) && f.base == OptSeq(base) && f.normal == OptSeq(norm)
      && f.rough == orm.Some? && f.metal == orm.Some?
  {
    RebakedLonePass(objName, base, orm, norm, gltf);
    RebakedStep(NothingFound.(tex := ImageList(base, orm, norm)), base, orm, norm, gltf);
    assert [] + OptSeq(base) == OptSeq(base) && [] + OptSeq(norm) == OptSeq(norm);
  }

  /** Among the baked images only the packed one can be eligible for the
      orm role: the other two are the base-color and normal images. */
  lemma OnlyPackedEligible(base: Option<Image>, orm: Option<Image>, norm: Option<Image>)
    ensures var imgs := ImageList(base, orm, norm);
      forall i :: 0 <= i < |imgs| && Eligible(imgs[i], base, norm) ==> orm.Some? && imgs[i] == orm.value
    ensures orm.Some? ==> orm.value in ImageList(base, orm, norm)
  {
  }

  /** Gathering roles from the rebuilt material gives back the baked
      images: the base-color and normal roles are the baked base-color and
      normal images, the collected textures are the baked images in order,
      the orm role is the baked packed image when its name has a keyword
      (the other two images are excluded by role), and a packed image turns
      the roughness and metalness flags on through its links. */
  lemma RebakedMaterialReclassifies(objName: string, base: Option<Image>, orm: Option<Image>, norm: Option<Image>,
                                    gltf: Option<NodeGroup>)
    ensures var r := RolesOf([Some(SimplifiedMaterial(objName, base, orm, norm, gltf))]);
      r.basecolor == base && r.normal == norm && r.allTex == ImageList(base, orm, norm)
    ensures var r := RolesOf([Some(SimplifiedMaterial(objName, base, orm, norm, gltf))]);
      r.orm == (if orm.Some? && Eligible(orm.value, base, norm) then orm else None)
    ensures var r := RolesOf([Some(SimplifiedMaterial(objName, base, orm, norm, gltf))]);
      orm.Some? ==> r.hasRoughness && r.hasMetallic
  {
    RebakedFound(objName, base, orm, norm, gltf);
    FoundReclassifies([Some(SimplifiedMaterial(objName, base, orm, norm, gltf))], base, orm, norm);
  }

  /** Role gathering over one slot whose pass found the baked images. */
  lemma FoundReclassifies(slots: seq<Option<Material>>, base: Option<Image>, orm: Option<Image>, norm: Option<Image>)
    requires |slots| == 1
    requires var f := SlotsPass(slots, 1);
      && f.tex == ImageList(base, orm, norm) && f.base == OptSeq(base) && f.normal == OptSeq(norm)
      && f.rough == orm.Some? && f.metal == orm.Some?
    ensures var r := RolesOf(slots);
      r.basecolor == base && r.normal == norm && r.allTex == ImageList(base, orm, norm)
    ensures var r := RolesOf(slots);
      r.orm == (if orm.Some? && Eligible(orm.value, base, norm) then orm else None)
    ensures var r := RolesOf(slots);
      orm.Some? ==> r.hasRoughness && r.hasMetallic
  {
    FoundOrm(slots, base, orm, norm);
    FoundFlags(slots, base, orm, norm);
  }

  /** The orm role of such a slot is the packed image when it is eligible. */
  lemma FoundOrm(slots: seq<Option<Material>>, base: Option<Image>, orm: Option<Image>, norm: Option<Image>)
    requires |slots| == 1
    requires var f := SlotsPass(slots, 1);
      f.tex == ImageList(base, orm, norm) && f.base == OptSeq(base) && f.normal == OptSeq(norm)
    ensures var r := RolesOf(slots);
      r.orm == (if orm.Some? && Eligible(orm.value, base, norm) then orm else None)
  {
    OrmIsFirstEligible(slots);
    OnlyPackedEligible(base, orm, norm);
  }

  /** The roughness and metalness flags of the node scan survive the
      keyword scan. */
  lemma FoundFlags(slots: seq<Option<Material>>, base: Option<Image>, orm: Option<Image>, norm: Option<Image>)
    requires |slots| == 1
    requires var f := SlotsPass(slots, 1);
      f.base == OptSeq(base) && f.normal == OptSeq(norm) && f.rough == orm.Some? && f.metal == orm.Some?
    ensures var r := RolesOf(slots);
      orm.Some? ==> r.hasRoughness && r.hasMetallic
  {
    var f := SlotsPass(slots, 1);
    var init := Scan([], f.rough, f.metal, false);
    ScanRough(f.tex, base, norm, init);
    ScanMetal(f.tex, base, norm, init);
  }
}
