/** The Rebake step for one object: check the reserved layer and the source
    layer, classify the materials, choose the output resolution from the
    used UV area, allocate the baked images the object has data for, pick
    the image each bake reads, then replace the materials by the simplified
    material and make the reserved layer active. */
module Rebake {
  import opened Common
  import opened Text
  import opened UvGeometry
  import opened Shading
  import opened Roles
  import opened Resolution
  import opened MeshData
  import opened Assembler

  // ---------------------------------------------------------------------
  // Image names and files
  // ---------------------------------------------------------------------

  /** `f"Rebaked_{obj}_{role}_{res}"`. */
  function BakedName(objName: string, role: string, res: int): string {
    "Rebaked_" + objName + "_" + role + "_" + IntToString(res)
  }

  /** The character after `Rebaked_<obj>_` is the first of the role. */
  lemma BakedNameRoleAt(objName: string, role: string, res: int)
    requires |role| >= 1
    ensures var n := BakedName(objName, role, res); var p := |objName| + 9;
      p + |role| <= |n| && n[p..p + |role|] == role
  {
    var n := BakedName(objName, role, res);
    var p := |objName| + 9;
    assert n == ("Rebaked_" + objName + "_") + role + ("_" + IntToString(res));
    assert |"Rebaked_" + objName + "_"| == p;
  }

  /** The three baked images of one object at one resolution have three
      different names. */
  lemma BakedNamesDistinct(objName: string, res: int)
    ensures BakedName(objName, "BaseColor", res) != BakedName(objName, "ORM", res)
    ensures BakedName(objName, "BaseColor", res) != BakedName(objName, "Normal", res)
    ensures BakedName(objName, "ORM", res) != BakedName(objName, "Normal", res)
  {
    var p := |objName| + 9;
    BakedNameRoleAt(objName, "BaseColor", res);
    BakedNameRoleAt(objName, "ORM", res);
    BakedNameRoleAt(objName, "Normal", res);
    assert BakedName(objName, "BaseColor", res)[p] == 'B';
    assert BakedName(objName, "ORM", res)[p] == 'O';
    assert BakedName(objName, "Normal", res)[p] == 'N';
  }

  /** The packed image's name passes the keyword test of the classifier. */
  lemma BakedOrmNameHasKeyword(objName: string, res: int)
    ensures HasKeyword(Lower(BakedName(objName, "ORM", res)))
  {
    var n := BakedName(objName, "ORM", res);
    var l := Lower(n);
    var p := |objName| + 9;
    BakedNameRoleAt(objName, "ORM", res);
    assert n[p] == 'O' && n[p + 1] == 'R' && n[p + 2] == 'M';
    assert l[p..p + 3] == "orm";
    ContainsAt(l, "orm", p);
    assert Keywords[0] == "orm";
  }

  /** The characters a file name keeps: letters and digits as the host
      defines them, and `-`, `_` and `.`. */
  predicate FileChar(c: char, isAlnum: char -> bool) {
    isAlnum(c) || c == '-' || c == '_' || c == '.'
  }

  predicate FileSafe(s: string, isAlnum: char -> bool) {
    forall i :: 0 <= i < |s| ==> FileChar(s[i], isAlnum)
  }

  /** The file stem of an image: every other character becomes `_`. */
  function SafeName(name: string, isAlnum: char -> bool): (r: string)
    ensures |r| == |name| && FileSafe(r, isAlnum)
    ensures forall i :: 0 <= i < |name| ==> (r[i] == name[i] <==> FileChar(name[i], isAlnum))
  {
    seq(|name|, i requires 0 <= i < |name| => if FileChar(name[i], isAlnum) then name[i] else '_')
  }

  /** A safe name is its own stem, so the stem is idempotent. */
  lemma SafeNameKeepsSafe(name: string, isAlnum: char -> bool)
    ensures FileSafe(name, isAlnum) ==> SafeName(name, isAlnum) == name
    ensures SafeName(SafeName(name, isAlnum), isAlnum) == SafeName(name, isAlnum)
  {
  }

  /** An allocated image with the settings it was created with. */
  datatype ImageFile = ImageFile(image: Image, fileName: string, colorSpace: string, alpha: bool)

  /** `create_image` with the PNG format: a square image of side `res`
      whose file is the safe stem of its name plus `.png`. */
  function CreateImage(name: string, res: nat, colorSpace: string, alpha: bool, isAlnum: char -> bool): (r: ImageFile)
    ensures r.image.name == name && r.image.width == res && r.image.height == res
    ensures r.fileName == SafeName(name, isAlnum) + ".png"
    ensures r.colorSpace == colorSpace && r.alpha == alpha
  {
    ImageFile(Image(name, res, res), SafeName(name, isAlnum) + ".png", colorSpace, alpha)
  }

  // ---------------------------------------------------------------------
  // Which images are baked, from what
  // ---------------------------------------------------------------------

  /** The three bake switches of the scene. */
  datatype Settings = Settings(doBaseColor: bool, doOrm: bool, doNormal: bool)

  /** Whether the materials carry anything for the packed image: an orm
      image or any of the three channel flags. */
  predicate HasOrmData(roles: RoleSet) {
    roles.orm.Some? || roles.hasRoughness || roles.hasMetallic || roles.hasAo
  }

  datatype Allocation = Allocation(base: Option<ImageFile>, orm: Option<ImageFile>, norm: Option<ImageFile>)

  /** The images allocated before baking. */
  function Allocate(s: Settings, roles: RoleSet, objName: string, res: nat, isAlnum: char -> bool): (a: Allocation)
    ensures a.base.Some? <==> s.doBaseColor && roles.basecolor.Some?
    ensures a.orm.Some? <==> s.doOrm && HasOrmData(roles)
    ensures a.norm.Some? <==> s.doNormal && roles.normal.Some?
    ensures a.base.Some? ==> a.base.value.image == Image(BakedName(objName, "BaseColor", res), res, res)
    ensures a.orm.Some? ==> a.orm.value.image == Image(BakedName(objName, "ORM", res), res, res)
    ensures a.norm.Some? ==> a.norm.value.image == Image(BakedName(objName, "Normal", res), res, res)
    ensures a.base.Some? ==> a.base.value.colorSpace == "sRGB" && a.base.value.alpha
    ensures a.orm.Some? ==> a.orm.value.colorSpace == "Non-Color" && !a.orm.value.alpha
    ensures a.norm.Some? ==> a.norm.value.colorSpace == "Non-Color" && !a.norm.value.alpha
  {
    Allocation(
      if s.doBaseColor && roles.basecolor.Some? then
        Some(CreateImage(BakedName(objName, "BaseColor", res), res, "sRGB", true, isAlnum))
      else None,
      if s.doOrm && HasOrmData(roles) then
        Some(CreateImage(BakedName(objName, "ORM", res), res, "Non-Color", false, isAlnum))
      else None,
      if s.doNormal && roles.normal.Some? then
        Some(CreateImage(BakedName(objName, "Normal", res), res, "Non-Color", false, isAlnum))
      else None)
  }

  function ImageOf(f: Option<ImageFile>): Option<Image> {
    if f.Some? then Some(f.value.image) else None
  }

  /** The first image whose lower-cased name has a keyword. */
  function FirstKeywordImage(tex: seq<Image>): (r: Option<Image>)
    ensures r.None? <==> forall i :: 0 <= i < |tex| ==> !HasKeyword(Lower(tex[i].name))
    ensures r.Some? ==> exists i :: (0 <= i < |tex| && tex[i] == r.value && HasKeyword(Lower(r.value.name))
      && forall j :: 0 <= j < i ==> !HasKeyword(Lower(tex[j].name)))
  {
    if tex == [] then None
    else if HasKeyword(Lower(tex[0].name)) then Some(tex[0])
    else
      var r := FirstKeywordImage(tex[1..]);
      assert forall i :: 1 <= i < |tex| ==> tex[1..][i - 1] == tex[i];
      if r.Some? then
        assert exists i :: (0 <= i < |tex| && tex[i] == r.value && HasKeyword(Lower(r.value.name))
          && forall j :: 0 <= j < i ==> !HasKeyword(Lower(tex[j].name))) by {
          var i :| 0 <= i < |tex[1..]| && tex[1..][i] == r.value
            && forall j :: 0 <= j < i ==> !HasKeyword(Lower(tex[1..][j].name));
          assert tex[i + 1] == r.value;
        }
        r
      else r
  }

  /** The fallback loop of the packed bake over every collected texture. */
  method FindFallbackOrm(tex: seq<Image>) returns (img: Option<Image>)
    ensures img == FirstKeywordImage(tex)
  {
    var i := 0;
    while i < |tex|
      invariant 0 <= i <= |tex|
      invariant FirstKeywordImage(tex) == FirstKeywordImage(tex[i..])
    {
      if HasKeyword(Lower(tex[i].name)) {
        return Some(tex[i]);
      }
      assert tex[i..][1..] == tex[i + 1..];
      i := i + 1;
    }
    return None;
  }

  /** The image the base-color bake reads: the base-color role, else the
      first collected texture. */
  function BaseSource(roles: RoleSet): Option<Image> {
    if roles.basecolor.Some? then roles.basecolor
    else if |roles.allTex| > 0 then Some(roles.allTex[0])
    else None
  }

  /** The image the packed bake reads: the orm role, else the fallback. */
  function OrmSource(roles: RoleSet): Option<Image> {
    if roles.orm.Some? then roles.orm else FirstKeywordImage(roles.allTex)
  }

  /** A base-color image is only allocated with a base-color role, so the
      bake always reads that role's image and never the first texture. */
  lemma BaseBakeReadsBaseColor(s: Settings, roles: RoleSet, objName: string, res: nat, isAlnum: char -> bool)
    ensures Allocate(s, roles, objName, res, isAlnum).base.Some? ==>
      BaseSource(roles) == roles.basecolor && roles.basecolor.Some?
  {
  }

  /** When the classifier found no orm image, the fallback can only find
      the base-color or the normal image: every other keyword image would
      have been the orm role. */
  lemma OrmFallbackFindsExcludedImage(slots: seq<Option<Material>>)
    ensures var roles := RolesOf(slots);
      roles.orm.None? && OrmSource(roles).Some? ==>
        OrmSource(roles) == roles.basecolor || OrmSource(roles) == roles.normal
  {
    var roles := RolesOf(slots);
    OrmIsFirstEligible(slots);
    if roles.orm.None? && OrmSource(roles).Some? {
      var x := OrmSource(roles).value;
      var i :| 0 <= i < |roles.allTex| && roles.allTex[i] == x && HasKeyword(Lower(x.name));
      assert !Eligible(roles.allTex[i], roles.basecolor, roles.normal);
    }
  }

  // ---------------------------------------------------------------------
  // The whole step
  // ---------------------------------------------------------------------

  datatype SkipReason = MissingOutputLayer | NoSourceLayer | NothingToBake

  /** What the step does: skip with a reason, or bake at resolution `res`
      into the allocated images, reading the source images given, and
      assign the final material. */
  datatype Outcome =
    | Skipped(reason: SkipReason)
    | Baked(res: int, images: Allocation, baseFrom: Option<Image>, ormFrom: Option<Image>,
            normFrom: Option<Image>, final: Material)

  /** `compute_uv_area_fraction_object` as a value. */
  function AreaFractionOf(layers: seq<UVLayer>, uvName: string): real {
    match LayerNamed(layers, uvName)
    case None => 0.0
    case Some(l) => ClampFraction(AreaSum(l.uvs))
  }

  /** The atlas resolution `AtlasRes` computes. */
  function AtlasResOf(roles: RoleSet): int {
    if roles.basecolor.Some? then LargerSide(roles.basecolor.value) else MaxSide(1024, roles.allTex)
  }

  /** The outcome of the step on an object with these layers and slots. */
  function RebakePlan(objName: string, layers: seq<UVLayer>, slots: seq<Option<Material>>, s: Settings,
                      sizeChoices: seq<int>, reserved: string, gltf: Option<NodeGroup>,
                      sqrt: real -> real, isAlnum: char -> bool): Outcome
    requires |sizeChoices| >= 1 && forall c :: c in sizeChoices ==> c > 0
  {
    if LayerNamed(layers, reserved).None? then Skipped(MissingOutputLayer)
    else
      var src := SourceLayer(layers, reserved);
      if src.None? || src.value.name == "" then Skipped(NoSourceLayer)
      else
        var roles := RolesOf(slots);
        var target := TargetLinear(AreaFractionOf(layers, src.value.name), AtlasResOf(roles), sqrt);
        var res := NearestSize(target, sizeChoices);
        var a := Allocate(s, roles, objName, res, isAlnum);
        if a.base.None? && a.orm.None? && a.norm.None? then Skipped(NothingToBake)
        else
          Baked(res, a,
                if a.base.Some? then BaseSource(roles) else None,
                if a.orm.Some? then OrmSource(roles) else None,
                if a.norm.Some? then roles.normal else None,
                SimplifiedMaterial(objName, ImageOf(a.base), ImageOf(a.orm), ImageOf(a.norm), gltf))
  }

  /** Why the step skips an object, and that it bakes otherwise. */
  lemma RebakeSkips(objName: string, layers: seq<UVLayer>, slots: seq<Option<Material>>, s: Settings,
                    sizeChoices: seq<int>, reserved: string, gltf: Option<NodeGroup>,
                    sqrt: real -> real, isAlnum: char -> bool)
    requires |sizeChoices| >= 1 && forall c :: c in sizeChoices ==> c > 0
    ensures var o := RebakePlan(objName, layers, slots, s, sizeChoices, reserved, gltf, sqrt, isAlnum);
      o == Skipped(MissingOutputLayer) <==> forall i :: 0 <= i < |layers| ==> layers[i].name != reserved
    ensures var o := RebakePlan(objName, layers, slots, s, sizeChoices, reserved, gltf, sqrt, isAlnum);
      o == Skipped(NoSourceLayer) <==>
        ((exists i :: 0 <= i < |layers| && layers[i].name == reserved)
         && (SourceLayer(layers, reserved).None? || SourceLayer(layers, reserved).value.name == ""))
    ensures var o := RebakePlan(objName, layers, slots, s, sizeChoices, reserved, gltf, sqrt, isAlnum);
      var roles := RolesOf(slots);
      o.Baked? ==> ((s.doBaseColor && roles.basecolor.Some?) || (s.doOrm && HasOrmData(roles))
        || (s.doNormal && roles.normal.Some?))
    ensures var o := RebakePlan(objName, layers, slots, s, sizeChoices, reserved, gltf, sqrt, isAlnum);
      var roles := RolesOf(slots);
      o == Skipped(NothingToBake) <==>
        (LayerNamed(layers, reserved).Some? && SourceLayer(layers, reserved).Some?
         && SourceLayer(layers, reserved).value.name != ""
         && !((s.doBaseColor && roles.basecolor.Some?) || (s.doOrm && HasOrmData(roles))
              || (s.doNormal && roles.normal.Some?)))
  {
  }

  /** A bake works at the size choice nearest the area target, and every
      image it allocates is square at that size, named after the object,
      its role and that size. */
  lemma RebakeResolution(objName: string, layers: seq<UVLayer>, slots: seq<Option<Material>>, s: Settings,
                         sizeChoices: seq<int>, reserved: string, gltf: Option<NodeGroup>,
                         sqrt: real -> real, isAlnum: char -> bool)
    requires |sizeChoices| >= 1 && forall c :: c in sizeChoices ==> c > 0
    ensures var o := RebakePlan(objName, layers, slots, s, sizeChoices, reserved, gltf, sqrt, isAlnum);
      o.Baked? ==> (o.res in sizeChoices
        && var src := SourceLayer(layers, reserved).value;
           var target := TargetLinear(AreaFractionOf(layers, src.name), AtlasResOf(RolesOf(slots)), sqrt);
           forall c :: c in sizeChoices ==> Distance(o.res, target) <= Distance(c, target))
    ensures var o := RebakePlan(objName, layers, slots, s, sizeChoices, reserved, gltf, sqrt, isAlnum);
      o.Baked? ==>
        && (o.images.base.Some? ==> o.images.base.value.image == Image(BakedName(objName, "BaseColor", o.res), o.res, o.res))
        && (o.images.orm.Some? ==> o.images.orm.value.image == Image(BakedName(objName, "ORM", o.res), o.res, o.res))
        && (o.images.norm.Some? ==> o.images.norm.value.image == Image(BakedName(objName, "Normal", o.res), o.res, o.res))
  {
  }

  /** Rebaking is stable under the classifier: gathering roles from the
      final material finds the baked base-color image as base color, the
      baked normal image as normal map and the baked packed image as the
      orm image, whose links turn roughness and metalness on. */
  lemma RebakeRoundTrip(objName: string, layers: seq<UVLayer>, slots: seq<Option<Material>>, s: Settings,
                        sizeChoices: seq<int>, reserved: string, gltf: Option<NodeGroup>,
                        sqrt: real -> real, isAlnum: char -> bool)
    requires |sizeChoices| >= 1 && forall c :: c in sizeChoices ==> c > 0
    ensures var o := RebakePlan(objName, layers, slots, s, sizeChoices, reserved, gltf, sqrt, isAlnum);
      o.Baked? ==>
        var r := RolesOf([Some(o.final)]);
        && r.basecolor == ImageOf(o.images.base)
        && r.normal == ImageOf(o.images.norm)
        && r.orm == ImageOf(o.images.orm)
        && (o.images.orm.Some? ==> r.hasRoughness && r.hasMetallic)
  {
    var o := RebakePlan(objName, layers, slots, s, sizeChoices, reserved, gltf, sqrt, isAlnum);
    if o.Baked? {
      var a := o.images;
      var base, orm, norm := ImageOf(a.base), ImageOf(a.orm), ImageOf(a.norm);
      RebakedMaterialReclassifies(objName, base, orm, norm, gltf);
      if orm.Some? {
        BakedNamesDistinct(objName, o.res);
        BakedOrmNameHasKeyword(objName, o.res);
        assert Eligible(orm.value, base, norm);
      }
    }
  }

  /** The images the three bakes read, for the images allocated. */
  method BakeSources(roles: RoleSet, a: Allocation) returns (baseFrom: Option<Image>, ormFrom: Option<Image>, normFrom: Option<Image>)
    ensures baseFrom == if a.base.Some? then BaseSource(roles) else None
    ensures ormFrom == if a.orm.Some? then OrmSource(roles) else None
    ensures normFrom == if a.norm.Some? then roles.normal else None
  {
    baseFrom, ormFrom, normFrom := None, None, None;
    if a.base.Some? {
      baseFrom := BaseSource(roles);
    }
    if a.orm.Some? {
      ormFrom := roles.orm;
      if ormFrom.None? && |roles.allTex| > 0 {
        ormFrom := FindFallbackOrm(roles.allTex);
      }
    }
    if a.norm.Some? {
      normFrom := roles.normal;
    }
  }

  /** `rebake_single_object` on mesh object `m`: a skipped object keeps its
      materials and active layer; a baked one gets the final material as its
      only slot and the reserved layer as active layer. The layers are
      never changed. */
  method RebakeSingleObject(m: MeshObject, s: Settings, sizeChoices: seq<int>, reserved: string,
                            groups: seq<NodeGroup>, sqrt: real -> real, isAlnum: char -> bool)
    returns (outcome: Outcome)
    requires m.Valid() && |sizeChoices| >= 1 && forall c :: c in sizeChoices ==> c > 0
    modifies m
    ensures m.Valid()
    ensures outcome == RebakePlan(m.name, old(m.layers), old(m.materials), s, sizeChoices, reserved,
                                  GroupNamed(groups, GltfOutputName), sqrt, isAlnum)
    ensures m.layers == old(m.layers)
    ensures outcome.Skipped? ==> m.materials == old(m.materials) && m.active == old(m.active)
    ensures outcome.Baked? ==> m.materials == [Some(outcome.final)]
    ensures outcome.Baked? ==>
      m.active < |m.layers| && m.layers[m.active].name == reserved
      && forall j :: 0 <= j < m.active ==> m.layers[j].name != reserved
  {
    outcome := PlanObject(m, s, sizeChoices, reserved, groups, sqrt, isAlnum);
    if outcome.Baked? {
      m.materials := [Some(outcome.final)];
      m.ActivateLayer(reserved);
    }
  }

  /** Everything `rebake_single_object` decides before it touches the
      object: the skip reason, or the size, the images, their sources and
      the final material. */
  method PlanObject(m: MeshObject, s: Settings, sizeChoices: seq<int>, reserved: string,
                    groups: seq<NodeGroup>, sqrt: real -> real, isAlnum: char -> bool)
    returns (outcome: Outcome)
    requires |sizeChoices| >= 1 && forall c :: c in sizeChoices ==> c > 0
    ensures outcome == RebakePlan(m.name, m.layers, m.materials, s, sizeChoices, reserved,
                                  GroupNamed(groups, GltfOutputName), sqrt, isAlnum)
    ensures outcome.Baked? ==> LayerNamed(m.layers, reserved).Some?
  {
    if LayerNamed(m.layers, reserved).None? {
      return Skipped(MissingOutputLayer);
    }
    var src := m.FindSourceLayer(reserved);
    if src.None? || src.value.name == "" {
      return Skipped(NoSourceLayer);
    }
    var roles := GatherRoles(m.materials);
    var atlasRes := AtlasRes(roles);
    var areaFrac := m.AreaFraction(src.value.name);
    assert areaFrac == AreaFractionOf(m.layers, src.value.name);
    var res := NearestSize(TargetLinear(areaFrac, atlasRes, sqrt), sizeChoices);
    var a := Allocate(s, roles, m.name, res, isAlnum);
    if a.base.None? && a.orm.None? && a.norm.None? {
      return Skipped(NothingToBake);
    }
    var baseFrom, ormFrom, normFrom := BakeSources(roles, a);
    var final := BuildSimplifiedMaterial(m.name, ImageOf(a.base), ImageOf(a.orm), ImageOf(a.norm), groups);
    outcome := Baked(res, a, baseFrom, ormFrom, normFrom, final);
  }
}
