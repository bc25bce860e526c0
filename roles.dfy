/** Role classification of an object's materials: which image is the base
    color, which is the normal map, which is the packed occlusion /
    roughness / metalness image, and which of those three channels the
    materials carry at all. */
module Roles {
  import opened Common
  import opened Text
  import opened Shading

  function OptSeq<T>(o: Option<T>): (r: seq<T>)
    ensures |r| <= 1 && (r == [] <==> o.None?)
    ensures o.Some? ==> r == [o.value]
  {
    if o.Some? then [o.value] else []
  }

  function FirstOf<T>(s: seq<T>): (r: Option<T>)
    ensures r.None? <==> s == []
    ensures r.Some? ==> r.value == s[0]
  {
    if |s| > 0 then Some(s[0]) else None
  }

  /** An image held by some image texture node of the tree. */
  ghost predicate TreeHolds(t: Graph, x: Image) {
    exists j :: 0 <= j < |t.nodes| && TexImageOf(t, j) == Some(x)
  }

  // ---------------------------------------------------------------------
  // Graph traversal from one principled node
  // ---------------------------------------------------------------------

  /** The image texture feeding input BaseColor of node `i`. */
  function BaseHit(t: Graph, i: nat): (r: Option<Image>)
    requires i < |t.nodes|
    ensures r.Some? ==> TreeHolds(t, r.value)
    ensures r.Some? ==> InputSource(t, i, BaseColor).Some?
  {
    match InputSource(t, i, BaseColor)
    case None => None
    case Some(j) => TexImageOf(t, j)
  }

  /** The image texture feeding input Normal of node `i`, either through
      the Color input of a Normal Map node or directly. */
  function NormalHit(t: Graph, i: nat): (r: Option<Image>)
    requires i < |t.nodes|
    ensures r.Some? ==> TreeHolds(t, r.value)
    ensures r.Some? ==> InputSource(t, i, Normal).Some?
  {
    match InputSource(t, i, Normal)
    case None => None
    case Some(j) =>
      if t.nodes[j].kind == NormalMap then
        match InputSource(t, j, Color)
        case None => None
        case Some(k) => TexImageOf(t, k)
      else TexImageOf(t, j)
  }

  // ---------------------------------------------------------------------
  // The scan over material slots and nodes
  // ---------------------------------------------------------------------

  /** What the node scan has found so far: every image texture, the
      base-color hits and normal hits in order, and the two link flags. */
  datatype Found = Found(tex: seq<Image>, base: seq<Image>, normal: seq<Image>, rough: bool, metal: bool)

  const NothingFound := Found([], [], [], false, false)

  /** First node loop, one node. */
  function TexStep(acc: Found, t: Graph, j: nat): Found
    requires j < |t.nodes|
  {
    acc.(tex := acc.tex + OptSeq(TexImageOf(t, j)))
  }

  /** Second node loop, one node. */
  function BsdfStep(acc: Found, t: Graph, i: nat): Found
    requires i < |t.nodes|
  {
    if t.nodes[i].kind != BsdfPrincipled then acc
    else
      acc.(base := acc.base + OptSeq(BaseHit(t, i)),
           normal := acc.normal + OptSeq(NormalHit(t, i)),
           rough := acc.rough || InputSource(t, i, Roughness).Some?,
           metal := acc.metal || InputSource(t, i, Metallic).Some?)
  }

  function TexPass(acc: Found, t: Graph, n: nat): Found
    requires n <= |t.nodes|
  {
    if n == 0 then acc else TexStep(TexPass(acc, t, n - 1), t, n - 1)
  }

  function BsdfPass(acc: Found, t: Graph, n: nat): Found
    requires n <= |t.nodes|
  {
    if n == 0 then acc else BsdfStep(BsdfPass(acc, t, n - 1), t, n - 1)
  }

  /** `not mat or not mat.use_nodes` skips a slot. */
  predicate Usable(slot: Option<Material>) {
    slot.Some? && slot.value.useNodes
  }

  function MaterialPass(acc: Found, m: Material): Found {
    var t := m.tree;
    BsdfPass(TexPass(acc, t, |t.nodes|), t, |t.nodes|)
  }

  /** The scan over the first `k` slots. */
  function SlotsPass(slots: seq<Option<Material>>, k: nat): Found
    requires k <= |slots|
  {
    if k == 0 then NothingFound
    else
      var acc := SlotsPass(slots, k - 1);
      if Usable(slots[k - 1]) then MaterialPass(acc, slots[k - 1].value) else acc
  }

  // ---------------------------------------------------------------------
  // The keyword heuristic
  // ---------------------------------------------------------------------

  const Keywords: seq<string> :=
    ["orm", "arm", "oem", "occ", "occlusion", "rough", "roughness", "met", "metal", "metallic", "ao"]

  /** The candidate test over a lower-cased image name. */
  predicate HasKeyword(lname: string) {
    exists k :: k in Keywords && Contains(lname, k)
  }

  /** Which channels a candidate name announces, by the first matching
      branch of the ordered test. */
  datatype Channels = Packed | OcclusionOnly | RoughnessOnly | MetalnessOnly | NoChannel

  function ChannelsOf(lname: string): Channels {
    if Contains(lname, "orm") || Contains(lname, "arm") || Contains(lname, "oem") then Packed
    else if Contains(lname, "ao") || Contains(lname, "occ") then OcclusionOnly
    else if Contains(lname, "rough") then RoughnessOnly
    else if Contains(lname, "met") then MetalnessOnly
    else NoChannel
  }

  /** Every name that passes the candidate test announces some channel and
      conversely: the longer keywords all start with a shorter one the
      ordered test looks for. */
  lemma KeywordsAnnounceChannels(lname: string)
    ensures HasKeyword(lname) <==> ChannelsOf(lname) != NoChannel
  {
    if HasKeyword(lname) {
      var k :| k in Keywords && Contains(lname, k);
      if k == "occlusion" {
        ContainsPrefixOf(lname, "occ", "occlusion");
      } else if k == "roughness" {
        ContainsPrefixOf(lname, "rough", "roughness");
      } else if k == "metal" {
        ContainsPrefixOf(lname, "met", "metal");
      } else if k == "metallic" {
        ContainsPrefixOf(lname, "met", "metallic");
      }
    }
    if ChannelsOf(lname) != NoChannel {
      assert Keywords[0] == "orm" && Keywords[1] == "arm" && Keywords[2] == "oem";
      assert Keywords[3] == "occ" && Keywords[5] == "rough" && Keywords[7] == "met";
      assert Keywords[10] == "ao";
    }
  }

  predicate MarksAo(c: Channels) { c == Packed || c == OcclusionOnly }
  predicate MarksRough(c: Channels) { c == Packed || c == RoughnessOnly }
  predicate MarksMetal(c: Channels) { c == Packed || c == MetalnessOnly }

  /** An image the keyword scan considers: neither the base-color nor the
      normal image, and a keyword in its lower-cased name. */
  predicate Eligible(img: Image, base: Option<Image>, normal: Option<Image>) {
    base != Some(img) && normal != Some(img) && HasKeyword(Lower(img.name))
  }

  datatype Scan = Scan(cands: seq<Image>, rough: bool, metal: bool, ao: bool)

  function ScanStep(acc: Scan, img: Image, base: Option<Image>, normal: Option<Image>): Scan {
    if base == Some(img) || normal == Some(img) then acc
    else
      var lname := Lower(img.name);
      if !HasKeyword(lname) then acc
      else
        var c := ChannelsOf(lname);
        Scan(acc.cands + [img], acc.rough || MarksRough(c), acc.metal || MarksMetal(c), acc.ao || MarksAo(c))
  }

  /** The candidate loop over `imgs`, from the flags `init`. */
  function KeywordScan(imgs: seq<Image>, base: Option<Image>, normal: Option<Image>, init: Scan): Scan {
    if imgs == [] then init
    else ScanStep(KeywordScan(imgs[..|imgs| - 1], base, normal, init), imgs[|imgs| - 1], base, normal)
  }

  /** The result of the whole classification. */
  datatype RoleSet = RoleSet(
    basecolor: Option<Image>,
    normal: Option<Image>,
    orm: Option<Image>,
    hasRoughness: bool,
    hasMetallic: bool,
    hasAo: bool,
    allTex: seq<Image>)

  function RolesOf(slots: seq<Option<Material>>): RoleSet {
    var f := SlotsPass(slots, |slots|);
    var base := FirstOf(f.base);
    var normal := FirstOf(f.normal);
    var s := KeywordScan(f.tex, base, normal, Scan([], f.rough, f.metal, false));
    RoleSet(base, normal, FirstOf(s.cands), s.rough, s.metal, s.ao, f.tex)
  }

  /** First node loop: every image texture node that holds an image. */
  method CollectTextures(acc: Found, t: Graph) returns (out: Found)
    ensures out == TexPass(acc, t, |t.nodes|)
  {
    var tex := acc.tex;
    var i := 0;
    while i < |t.nodes|
      invariant 0 <= i <= |t.nodes|
      invariant acc.(tex := tex) == TexPass(acc, t, i)
    {
      var img := TexImageOf(t, i);
      if img.Some? {
        tex := tex + [img.value];
      }
      i := i + 1;
    }
    out := acc.(tex := tex);
  }

  /** Second node loop: the Base Color and Normal sources and the
      Roughness and Metallic links of every principled node. */
  method InspectPrincipled(acc: Found, t: Graph) returns (out: Found)
    ensures out == BsdfPass(acc, t, |t.nodes|)
  {
    out := acc;
    var i := 0;
    while i < |t.nodes|
      invariant 0 <= i <= |t.nodes|
      invariant out == BsdfPass(acc, t, i)
    {
      out := PrincipledStep(out, t, i);
      i := i + 1;
    }
  }

  /** The body of the second node loop for node `i`. */
  method PrincipledStep(acc: Found, t: Graph, i: nat) returns (out: Found)
    requires i < |t.nodes|
    ensures out == BsdfStep(acc, t, i)
  {
    out := acc;
    if t.nodes[i].kind == BsdfPrincipled {
      var base, normal, rough, metal := acc.base, acc.normal, acc.rough, acc.metal;
      var b := BaseHit(t, i);
      if b.Some? {
        base := base + [b.value];
      }
      assert base == acc.base + OptSeq(b);
      var nh := NormalHit(t, i);
      if nh.Some? {
        normal := normal + [nh.value];
      }
      assert normal == acc.normal + OptSeq(nh);
      var r := InputSource(t, i, Roughness);
      if r.Some? {
        rough := true;
      }
      var m := InputSource(t, i, Metallic);
      if m.Some? {
        metal := true;
      }
      out := Found(acc.tex, base, normal, rough, metal);
    }
  }

  /** Both node loops over one usable material's tree. */
  method ScanMaterial(acc: Found, m: Material) returns (out: Found)
    ensures out == MaterialPass(acc, m)
  {
    var mid := CollectTextures(acc, m.tree);
    out := InspectPrincipled(mid, m.tree);
  }

  /** The candidate loop: images equal to the base-color or normal image are
      passed over; the others with a keyword are appended and set the flags
      their name announces. */
  method ScanKeywords(tex: seq<Image>, base: Option<Image>, normal: Option<Image>, init: Scan)
    returns (out: Scan)
    ensures out == KeywordScan(tex, base, normal, init)
  {
    var cands, rough, metal, ao := init.cands, init.rough, init.metal, init.ao;
    var i := 0;
    while i < |tex|
      invariant 0 <= i <= |tex|
      invariant Scan(cands, rough, metal, ao) == KeywordScan(tex[..i], base, normal, init)
    {
      assert tex[..i + 1][..i] == tex[..i];
      var img := tex[i];
      if base != Some(img) && normal != Some(img) {
        var lname := Lower(img.name);
        if HasKeyword(lname) {
          cands := cands + [img];
          var c := ChannelsOf(lname);
          if c == Packed {
            rough, metal, ao := true, true, true;
          } else if c == OcclusionOnly {
            ao := true;
          } else if c == RoughnessOnly {
            rough := true;
          } else if c == MetalnessOnly {
            metal := true;
          }
        }
      }
      i := i + 1;
    }
    assert tex[..i] == tex;
    out := Scan(cands, rough, metal, ao);
  }

  /** The classifier: the node scan over every usable slot, the first hits
      as base-color and normal images, then the candidate loop. */
  method GatherRoles(slots: seq<Option<Material>>) returns (roles: RoleSet)
    ensures roles == RolesOf(slots)
  {
    var found := NothingFound;
    var s := 0;
    while s < |slots|
      invariant 0 <= s <= |slots|
      invariant found == SlotsPass(slots, s)
    {
      var slot := slots[s];
      if slot.Some? && slot.value.useNodes {
        found := ScanMaterial(found, slot.value);
      }
      s := s + 1;
    }
    var base := FirstOf(found.base);
    var normal := FirstOf(found.normal);
    var scan := ScanKeywords(found.tex, base, normal, Scan([], found.rough, found.metal, false));
    roles := RoleSet(base, normal, FirstOf(scan.cands), scan.rough, scan.metal, scan.ao, found.tex);
  }

  // ---------------------------------------------------------------------
  // What the node scan finds
  // ---------------------------------------------------------------------

  /** A principled node of the tree whose input `socket` is linked. */
  ghost predicate TreeLinks(t: Graph, socket: Socket) {
    exists i :: 0 <= i < |t.nodes| && PrincipledLinked(t, i, socket)
  }

  /** Some usable slot among the first `k` holds image `x` in a texture node. */
  ghost predicate SlotHolds(slots: seq<Option<Material>>, k: nat, x: Image)
    requires k <= |slots|
  {
    exists s :: 0 <= s < k && Usable(slots[s]) && TreeHolds(slots[s].value.tree, x)
  }

  /** Some usable slot among the first `k` links `socket` of a principled node. */
  ghost predicate SlotLinks(slots: seq<Option<Material>>, k: nat, socket: Socket)
    requires k <= |slots|
  {
    exists s :: 0 <= s < k && Usable(slots[s]) && TreeLinks(slots[s].value.tree, socket)
  }

  /** The texture loop leaves the hits and the flags alone. */
  lemma {:induction false} TexPassFlags(acc: Found, t: Graph, n: nat)
    requires n <= |t.nodes|
    ensures var f := TexPass(acc, t, n);
      f.base == acc.base && f.normal == acc.normal && f.rough == acc.rough && f.metal == acc.metal
  {
    if n > 0 {
      TexPassFlags(acc, t, n - 1);
    }
  }

  lemma {:induction false} TexPassFacts(acc: Found, t: Graph, n: nat)
    requires n <= |t.nodes|
    ensures var f := TexPass(acc, t, n);
      f.base == acc.base && f.normal == acc.normal && f.rough == acc.rough && f.metal == acc.metal
    ensures forall x :: x in TexPass(acc, t, n).tex <==>
      x in acc.tex || exists j :: 0 <= j < n && TexImageOf(t, j) == Some(x)
  {
    TexPassFlags(acc, t, n);
    if n > 0 {
      TexPassFacts(acc, t, n - 1);
      var p := TexPass(acc, t, n - 1);
      var f := TexPass(acc, t, n);
      assert f.tex == p.tex + OptSeq(TexImageOf(t, n - 1));
      forall x
        ensures x in f.tex <==> x in acc.tex || exists j :: 0 <= j < n && TexImageOf(t, j) == Some(x)
      {
        if exists j :: 0 <= j < n && TexImageOf(t, j) == Some(x) {
          var j :| 0 <= j < n && TexImageOf(t, j) == Some(x);
          if j < n - 1 {
            assert x in p.tex;
          }
        }
      }
    }
  }

  lemma {:induction false} BsdfPassHits(acc: Found, t: Graph, n: nat)
    requires n <= |t.nodes|
    ensures BsdfPass(acc, t, n).tex == acc.tex
    ensures forall x :: x in BsdfPass(acc, t, n).base ==> x in acc.base || TreeHolds(t, x)
    ensures forall x :: x in BsdfPass(acc, t, n).normal ==> x in acc.normal || TreeHolds(t, x)
  {
    if n > 0 {
      BsdfPassHits(acc, t, n - 1);
      var p := BsdfPass(acc, t, n - 1);
      var f := BsdfPass(acc, t, n);
      if t.nodes[n - 1].kind == BsdfPrincipled {
        assert f.base == p.base + OptSeq(BaseHit(t, n - 1));
        assert f.normal == p.normal + OptSeq(NormalHit(t, n - 1));
      }
    }
  }

  /** Input `socket` of principled node `i` is linked. */
  predicate PrincipledLinked(t: Graph, i: nat, socket: Socket)
    requires i < |t.nodes|
  {
    t.nodes[i].kind == BsdfPrincipled && InputSource(t, i, socket).Some?
  }

  lemma {:induction false} BsdfPassRough(acc: Found, t: Graph, n: nat)
    requires n <= |t.nodes|
    ensures BsdfPass(acc, t, n).rough <==>
      (acc.rough || exists i :: 0 <= i < n && PrincipledLinked(t, i, Roughness))
  {
    if n > 0 {
      BsdfPassRough(acc, t, n - 1);
      if BsdfPass(acc, t, n).rough && !BsdfPass(acc, t, n - 1).rough {
        assert PrincipledLinked(t, n - 1, Roughness);
      }
    }
  }

  lemma {:induction false} BsdfPassMetal(acc: Found, t: Graph, n: nat)
    requires n <= |t.nodes|
    ensures BsdfPass(acc, t, n).metal <==>
      (acc.metal || exists i :: 0 <= i < n && PrincipledLinked(t, i, Metallic))
  {
    if n > 0 {
      BsdfPassMetal(acc, t, n - 1);
      if BsdfPass(acc, t, n).metal && !BsdfPass(acc, t, n - 1).metal {
        assert PrincipledLinked(t, n - 1, Metallic);
      }
    }
  }

  /** The node scan collects exactly the images of the texture nodes of the
      usable slots; every base-color and normal hit is one of them; the
      roughness and metallic flags are set exactly when some principled node
      of some usable slot (not only the first) has that input linked. */
  lemma {:induction false} SlotsPassFacts(slots: seq<Option<Material>>, k: nat)
    requires k <= |slots|
    ensures forall x :: x in SlotsPass(slots, k).tex <==> SlotHolds(slots, k, x)
    ensures forall x :: x in SlotsPass(slots, k).base ==> x in SlotsPass(slots, k).tex
    ensures forall x :: x in SlotsPass(slots, k).normal ==> x in SlotsPass(slots, k).tex
    ensures SlotsPass(slots, k).rough <==> SlotLinks(slots, k, Roughness)
    ensures SlotsPass(slots, k).metal <==> SlotLinks(slots, k, Metallic)
  {
    if k > 0 {
      SlotsPassFacts(slots, k - 1);
      SlotStepTex(slots, k);
      SlotStepRough(slots, k);
      SlotStepMetal(slots, k);
    }
  }

  /** After `k` slots: the textures are those the usable slots hold, and the
      hits are among them. */
  ghost predicate TexFacts(slots: seq<Option<Material>>, k: nat)
    requires k <= |slots|
  {
    && (forall x :: x in SlotsPass(slots, k).tex <==> SlotHolds(slots, k, x))
    && (forall x :: x in SlotsPass(slots, k).base ==> x in SlotsPass(slots, k).tex)
    && (forall x :: x in SlotsPass(slots, k).normal ==> x in SlotsPass(slots, k).tex)
  }

  /** One slot more: the collected textures and the hits among them. */
  lemma SlotStepTex(slots: seq<Option<Material>>, k: nat)
    requires 0 < k <= |slots|
    requires TexFacts(slots, k - 1)
    ensures TexFacts(slots, k)
  {
    var acc := SlotsPass(slots, k - 1);
    var f := SlotsPass(slots, k);
    if Usable(slots[k - 1]) {
      var t := slots[k - 1].value.tree;
      var mid := TexPass(acc, t, |t.nodes|);
      TexPassFacts(acc, t, |t.nodes|);
      BsdfPassHits(mid, t, |t.nodes|);
      assert f == BsdfPass(mid, t, |t.nodes|);
      forall x | TreeHolds(t, x)
        ensures x in f.tex
      {
        var j :| 0 <= j < |t.nodes| && TexImageOf(t, j) == Some(x);
      }
      forall x
        ensures x in f.tex <==> SlotHolds(slots, k, x)
      {
        if SlotHolds(slots, k, x) {
          var s :| 0 <= s < k && Usable(slots[s]) && TreeHolds(slots[s].value.tree, x);
          if s < k - 1 {
            assert SlotHolds(slots, k - 1, x);
          }
        }
        if x in f.tex && !(x in acc.tex) {
          assert TreeHolds(t, x);
          assert Usable(slots[k - 1]) && TreeHolds(slots[k - 1].value.tree, x);
        }
      }
    } else {
      assert f == acc;
      forall x
        ensures SlotHolds(slots, k, x) <==> SlotHolds(slots, k - 1, x)
      {
        if SlotHolds(slots, k, x) {
          var s :| 0 <= s < k && Usable(slots[s]) && TreeHolds(slots[s].value.tree, x);
          assert s < k - 1;
        }
      }
    }
  }

  /** A socket is linked in the first `k` usable slots exactly when it is in
      the first `k - 1` or in slot `k - 1` itself. */
  lemma SlotLinksStep(slots: seq<Option<Material>>, k: nat, socket: Socket)
    requires 0 < k <= |slots|
    ensures SlotLinks(slots, k, socket) <==>
      SlotLinks(slots, k - 1, socket) || (Usable(slots[k - 1]) && TreeLinks(slots[k - 1].value.tree, socket))
  {
    if SlotLinks(slots, k, socket) {
      var s :| 0 <= s < k && Usable(slots[s]) && TreeLinks(slots[s].value.tree, socket);
      if s < k - 1 {
        assert SlotLinks(slots, k - 1, socket);
      }
    }
  }

  /** One slot more: the roughness flag. */
  lemma SlotStepRough(slots: seq<Option<Material>>, k: nat)
    requires 0 < k <= |slots|
    requires SlotsPass(slots, k - 1).rough <==> SlotLinks(slots, k - 1, Roughness)
    ensures SlotsPass(slots, k).rough <==> SlotLinks(slots, k, Roughness)
  {
    SlotLinksStep(slots, k, Roughness);
    if Usable(slots[k - 1]) {
      var acc := SlotsPass(slots, k - 1);
      var t := slots[k - 1].value.tree;
      var mid := TexPass(acc, t, |t.nodes|);
      TexPassFlags(acc, t, |t.nodes|);
      BsdfPassRough(mid, t, |t.nodes|);
      assert SlotsPass(slots, k) == BsdfPass(mid, t, |t.nodes|);
    }
  }

  /** One slot more: the metalness flag. */
  lemma SlotStepMetal(slots: seq<Option<Material>>, k: nat)
    requires 0 < k <= |slots|
    requires SlotsPass(slots, k - 1).metal <==> SlotLinks(slots, k - 1, Metallic)
    ensures SlotsPass(slots, k).metal <==> SlotLinks(slots, k, Metallic)
  {
    SlotLinksStep(slots, k, Metallic);
    if Usable(slots[k - 1]) {
      var acc := SlotsPass(slots, k - 1);
      var t := slots[k - 1].value.tree;
      var mid := TexPass(acc, t, |t.nodes|);
      TexPassFlags(acc, t, |t.nodes|);
      BsdfPassMetal(mid, t, |t.nodes|);
      assert SlotsPass(slots, k) == BsdfPass(mid, t, |t.nodes|);
    }
  }

  // ---------------------------------------------------------------------
  // What the keyword scan finds
  // ---------------------------------------------------------------------

  /** The candidates are the eligible images, in collection order, after
      those already in `init`. */
  lemma {:induction false} ScanCandidates(imgs: seq<Image>, base: Option<Image>, normal: Option<Image>, init: Scan)
    ensures var c := KeywordScan(imgs, base, normal, init).cands;
      |init.cands| <= |c| && c[..|init.cands|] == init.cands
    ensures forall x :: x in KeywordScan(imgs, base, normal, init).cands <==>
      (x in init.cands || (x in imgs && Eligible(x, base, normal)))
  {
    if imgs != [] {
      var p := imgs[..|imgs| - 1];
      var last := imgs[|imgs| - 1];
      ScanCandidates(p, base, normal, init);
      assert imgs == p + [last];
      var c := KeywordScan(imgs, base, normal, init).cands;
      var cp := KeywordScan(p, base, normal, init).cands;
      assert c == cp || c == cp + [last];
      assert c[..|init.cands|] == cp[..|init.cands|];
    }
  }

  /** With no earlier candidates the first candidate is the first eligible
      image, and there is none exactly when no image is eligible. */
  lemma {:induction false} ScanFirstCandidate(imgs: seq<Image>, base: Option<Image>, normal: Option<Image>, init: Scan)
    requires init.cands == []
    ensures var c := KeywordScan(imgs, base, normal, init).cands;
      c == [] <==> forall i :: 0 <= i < |imgs| ==> !Eligible(imgs[i], base, normal)
    ensures var c := KeywordScan(imgs, base, normal, init).cands;
      c != [] ==> exists i :: (0 <= i < |imgs| && imgs[i] == c[0] && Eligible(imgs[i], base, normal)
        && forall j :: 0 <= j < i ==> !Eligible(imgs[j], base, normal))
  {
    if imgs != [] {
      var p := imgs[..|imgs| - 1];
      var n := |imgs| - 1;
      ScanFirstCandidate(p, base, normal, init);
      var c := KeywordScan(imgs, base, normal, init).cands;
      var cp := KeywordScan(p, base, normal, init).cands;
      assert forall i :: 0 <= i < n ==> imgs[i] == p[i];
      if cp != [] {
        assert c[..|cp|] == cp by {
          assert c == cp || c == cp + [imgs[n]];
        }
        assert c[0] == cp[0];
      } else if Eligible(imgs[n], base, normal) {
        assert c == [imgs[n]];
      }
    }
  }

  /** An image whose name, in the keyword scan, sets the occlusion /
      roughness / metalness flag. */
  predicate SetsAo(img: Image, base: Option<Image>, normal: Option<Image>) {
    Eligible(img, base, normal) && MarksAo(ChannelsOf(Lower(img.name)))
  }
  predicate SetsRough(img: Image, base: Option<Image>, normal: Option<Image>) {
    Eligible(img, base, normal) && MarksRough(ChannelsOf(Lower(img.name)))
  }
  predicate SetsMetal(img: Image, base: Option<Image>, normal: Option<Image>) {
    Eligible(img, base, normal) && MarksMetal(ChannelsOf(Lower(img.name)))
  }

  /** A flag ends up set exactly when it was set before the scan or some
      image's name sets it. */
  lemma {:induction false} ScanAo(imgs: seq<Image>, base: Option<Image>, normal: Option<Image>, init: Scan)
    ensures KeywordScan(imgs, base, normal, init).ao <==>
      (init.ao || exists i :: 0 <= i < |imgs| && SetsAo(imgs[i], base, normal))
  {
    if imgs != [] {
      var p := imgs[..|imgs| - 1];
      ScanAo(p, base, normal, init);
      assert forall i :: 0 <= i < |p| ==> imgs[i] == p[i];
    }
  }

  lemma {:induction false} ScanRough(imgs: seq<Image>, base: Option<Image>, normal: Option<Image>, init: Scan)
    ensures KeywordScan(imgs, base, normal, init).rough <==>
      (init.rough || exists i :: 0 <= i < |imgs| && SetsRough(imgs[i], base, normal))
  {
    if imgs != [] {
      var p := imgs[..|imgs| - 1];
      ScanRough(p, base, normal, init);
      assert forall i :: 0 <= i < |p| ==> imgs[i] == p[i];
    }
  }

  lemma {:induction false} ScanMetal(imgs: seq<Image>, base: Option<Image>, normal: Option<Image>, init: Scan)
    ensures KeywordScan(imgs, base, normal, init).metal <==>
      (init.metal || exists i :: 0 <= i < |imgs| && SetsMetal(imgs[i], base, normal))
  {
    if imgs != [] {
      var p := imgs[..|imgs| - 1];
      ScanMetal(p, base, normal, init);
      assert forall i :: 0 <= i < |p| ==> imgs[i] == p[i];
    }
  }

  /** The orm role: the first image of the collection that is neither the
      base-color nor the normal image and has a keyword in its name; none
      exactly when there is no such image. */
  lemma OrmIsFirstEligible(slots: seq<Option<Material>>)
    ensures var r := RolesOf(slots);
      r.orm.None? <==> forall i :: 0 <= i < |r.allTex| ==> !Eligible(r.allTex[i], r.basecolor, r.normal)
    ensures var r := RolesOf(slots);
      r.orm.Some? ==> exists i :: (0 <= i < |r.allTex| && r.allTex[i] == r.orm.value
        && Eligible(r.allTex[i], r.basecolor, r.normal)
        && forall j :: 0 <= j < i ==> !Eligible(r.allTex[j], r.basecolor, r.normal))
  {
    var f := SlotsPass(slots, |slots|);
    ScanFirstCandidate(f.tex, FirstOf(f.base), FirstOf(f.normal), Scan([], f.rough, f.metal, false));
  }

  /** The three channel flags: occlusion only from image names; roughness
      and metalness from a linked input of any principled node or from an
      image name. */
  lemma ChannelFlags(slots: seq<Option<Material>>)
    ensures var r := RolesOf(slots);
      r.hasAo <==> (exists i :: 0 <= i < |r.allTex| && SetsAo(r.allTex[i], r.basecolor, r.normal))
    ensures var r := RolesOf(slots);
      r.hasRoughness <==> (SlotLinks(slots, |slots|, Roughness)
        || exists i :: 0 <= i < |r.allTex| && SetsRough(r.allTex[i], r.basecolor, r.normal))
    ensures var r := RolesOf(slots);
      r.hasMetallic <==> (SlotLinks(slots, |slots|, Metallic)
        || exists i :: 0 <= i < |r.allTex| && SetsMetal(r.allTex[i], r.basecolor, r.normal))
  {
    var f := SlotsPass(slots, |slots|);
    var init := Scan([], f.rough, f.metal, false);
    SlotsPassFacts(slots, |slots|);
    ScanAo(f.tex, FirstOf(f.base), FirstOf(f.normal), init);
    ScanRough(f.tex, FirstOf(f.base), FirstOf(f.normal), init);
    ScanMetal(f.tex, FirstOf(f.base), FirstOf(f.normal), init);
  }

  /** Every role image is one of the collected texture images, each of
      which sits in a texture node of a usable slot; the base-color and
      normal images are the first hits in slot and node order. */
  lemma RolesAreCollectedTextures(slots: seq<Option<Material>>)
    ensures var r := RolesOf(slots);
      (r.basecolor.Some? ==> r.basecolor.value in r.allTex)
      && (r.normal.Some? ==> r.normal.value in r.allTex)
      && (r.orm.Some? ==> r.orm.value in r.allTex)
    ensures forall x :: x in RolesOf(slots).allTex <==> SlotHolds(slots, |slots|, x)
    ensures RolesOf(slots).basecolor == FirstOf(SlotsPass(slots, |slots|).base)
    ensures RolesOf(slots).normal == FirstOf(SlotsPass(slots, |slots|).normal)
  {
    var f := SlotsPass(slots, |slots|);
    SlotsPassFacts(slots, |slots|);
    ScanCandidates(f.tex, FirstOf(f.base), FirstOf(f.normal), Scan([], f.rough, f.metal, false));
  }

  // ---------------------------------------------------------------------
  // Two names worked through
  // ---------------------------------------------------------------------

  /** A packed "Rock_ORM_2k" image is the orm candidate and sets all three
      channel flags. */
  lemma PackedNameSetsAllChannels()
    ensures var img := Image("Rock_ORM_2k", 2048, 2048);
      KeywordScan([img], None, None, Scan([], false, false, false)) == Scan([img], true, true, true)
  {
    var img := Image("Rock_ORM_2k", 2048, 2048);
    var l := Lower(img.name);
    assert l == "rock_orm_2k";
    ContainsAt(l, "orm", 5);
    assert Keywords[0] == "orm";
    assert [img][..0] == [];
  }

  /** An occlusion-only "Rock_AO" image sets only the occlusion flag, and is
      still taken as the orm image when no packed image comes first. */
  lemma OcclusionNameSetsOnlyAo()
    ensures var img := Image("Rock_AO", 1024, 1024);
      KeywordScan([img], None, None, Scan([], false, false, false)) == Scan([img], false, false, true)
  {
    var img := Image("Rock_AO", 1024, 1024);
    AoNameChannels();
    ScanSingle(img, Scan([], false, false, false));
  }

  /** "Rock_AO" lower-cased carries the keyword "ao" and none of the packed
      keywords. */
  lemma AoNameChannels()
    ensures HasKeyword(Lower("Rock_AO")) && ChannelsOf(Lower("Rock_AO")) == OcclusionOnly
  {
    var l := Lower("Rock_AO");
    assert l == "rock_ao";
    ContainsAt(l, "ao", 5);
    assert Keywords[10] == "ao";
    MissingLetter(l, "orm", 'm');
    MissingLetter(l, "arm", 'm');
    MissingLetter(l, "oem", 'm');
  }

  /** The scan of a single image is one step from the initial flags. */
  lemma ScanSingle(img: Image, init: Scan)
    ensures KeywordScan([img], None, None, init) == ScanStep(init, img, None, None)
  {
    assert [img][..0] == [];
  }

  /** A keyword with a letter the name lacks does not occur in it. */
  lemma MissingLetter(s: string, k: string, c: char)
    requires c in k && c !in s
    ensures !Contains(s, k)
  {
    if Contains(s, k) {
      var i := ContainsPosition(s, k);
    }
  }
}
