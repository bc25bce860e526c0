/** A mesh object with its UV layers, its active layer and its material
    slots, and the layer bookkeeping of the Repack step: pick the source
    layer, replace the reserved layer with a fresh one, fill it (rescaled or
    copied) and pack. */
module MeshData {
  import opened Common
  import opened UvGeometry
  import opened Rescale
  import opened Shading
  import opened PackRetry

  /** The reserved name of the layer the add-on creates. */
  const ReservedName: string := "RepackRebake_UV"

  /** A UV layer: its name and one UV per face corner, face by face. */
  datatype UVLayer = UVLayer(name: string, uvs: seq<seq<UV>>)

  datatype PackMethod = Pack | RescaleToTile

  /** `uvs` has one UV per corner of every face. */
  predicate Conforms(uvs: seq<seq<UV>>, faceSizes: seq<nat>) {
    |uvs| == |faceSizes| && forall f :: 0 <= f < |uvs| ==> |uvs[f]| == faceSizes[f]
  }

  predicate DistinctNames(layers: seq<UVLayer>) {
    forall i, j :: 0 <= i < j < |layers| ==> layers[i].name != layers[j].name
  }

  /** `bm.loops.layers.uv.get(name)`: the layer with that name. */
  function LayerNamed(layers: seq<UVLayer>, name: string): (r: Option<UVLayer>)
    ensures r.Some? ==> r.value in layers && r.value.name == name
    ensures r.None? <==> forall i :: 0 <= i < |layers| ==> layers[i].name != name
  {
    if layers == [] then None
    else if layers[0].name == name then Some(layers[0])
    else
      var r := LayerNamed(layers[1..], name);
      assert forall i :: 1 <= i < |layers| ==> layers[1..][i - 1] == layers[i];
      r
  }

  /** The source layer: the first layer whose name is not `reserved`. */
  function SourceLayer(layers: seq<UVLayer>, reserved: string): (r: Option<UVLayer>)
    ensures r.None? <==> forall i :: 0 <= i < |layers| ==> layers[i].name == reserved
    ensures r.Some? ==> exists i :: (0 <= i < |layers| && layers[i] == r.value && r.value.name != reserved
      && forall j :: 0 <= j < i ==> layers[j].name == reserved)
  {
    if layers == [] then None
    else if layers[0].name != reserved then Some(layers[0])
    else
      var r := SourceLayer(layers[1..], reserved);
      assert forall i :: 1 <= i < |layers| ==> layers[1..][i - 1] == layers[i];
      if r.Some? then
        assert exists i :: (0 <= i < |layers| && layers[i] == r.value && r.value.name != reserved
          && forall j :: 0 <= j < i ==> layers[j].name == reserved) by {
          var i :| 0 <= i < |layers[1..]| && layers[1..][i] == r.value
            && forall j :: 0 <= j < i ==> layers[1..][j].name == reserved;
          assert layers[i + 1] == r.value;
          assert forall j :: 1 <= j < i + 1 ==> layers[j].name == reserved;
        }
        r
      else r
  }

  /** The layers without the one named `name`, in their order. */
  function WithoutName(layers: seq<UVLayer>, name: string): (r: seq<UVLayer>)
    ensures |r| <= |layers|
    ensures forall x :: x in r <==> x in layers && x.name != name
  {
    if layers == [] then []
    else
      var n := |layers| - 1;
      var p := WithoutName(layers[..n], name);
      assert layers == layers[..n] + [layers[n]];
      if layers[n].name == name then p else p + [layers[n]]
  }

  /** The layer list after removing the reserved layer and appending a fresh
      one with the given contents. */
  function ReplaceReserved(layers: seq<UVLayer>, reserved: string, uvs: seq<seq<UV>>): seq<UVLayer> {
    WithoutName(layers, reserved) + [UVLayer(reserved, uvs)]
  }

  /** What the new layer holds once `make_new_uv` has filled it, before any
      packing: the rescaled source under RESCALE with a source, the copied
      source otherwise, and the host's initial contents with no source. */
  function NewLayerContents(src: Option<UVLayer>, how: PackMethod, margin: real, init: seq<seq<UV>>): seq<seq<UV>> {
    if how == RescaleToTile && src.Some? then Rescaled(src.value.uvs, margin)
    else if src.Some? then src.value.uvs
    else init
  }

  class MeshObject {
    const name: string
    /** The number of corners of each face. */
    const faceSizes: seq<nat>
    var layers: seq<UVLayer>
    /** `uv_layers.active_index`. */
    var active: nat
    var materials: seq<Option<Material>>

    ghost predicate Valid()
      reads this
    {
      && (forall i :: 0 <= i < |layers| ==> Conforms(layers[i].uvs, faceSizes))
      && DistinctNames(layers)
      && (|layers| > 0 ==> active < |layers|)
    }

    constructor (name: string, faceSizes: seq<nat>, layers: seq<UVLayer>, active: nat, materials: seq<Option<Material>>)
      requires forall i :: 0 <= i < |layers| ==> Conforms(layers[i].uvs, faceSizes)
      requires DistinctNames(layers)
      requires |layers| > 0 ==> active < |layers|
      ensures Valid()
      ensures this.name == name && this.faceSizes == faceSizes && this.layers == layers
      ensures this.active == active && this.materials == materials
    {
      this.name := name;
      this.faceSizes := faceSizes;
      this.layers := layers;
      this.active := active;
      this.materials := materials;
    }

    /** The loop over `me.uv_layers` that picks the source layer. */
    method FindSourceLayer(reserved: string) returns (src: Option<UVLayer>)
      ensures src == SourceLayer(layers, reserved)
    {
      var i := 0;
      while i < |layers|
        invariant 0 <= i <= |layers|
        invariant forall j :: 0 <= j < i ==> layers[j].name == reserved
        invariant SourceLayer(layers, reserved) == SourceLayer(layers[i..], reserved)
      {
        if layers[i].name != reserved {
          return Some(layers[i]);
        }
        assert layers[i..][1..] == layers[i + 1..];
        i := i + 1;
      }
      return None;
    }

    /** `compute_uv_area_fraction_object`: the clamped total area of the
        named layer's wrapped triangles, 0.0 when there is no such layer. */
    method AreaFraction(uvName: string) returns (frac: real)
      ensures 0.0 <= frac <= 1.0
      ensures LayerNamed(layers, uvName).None? ==> frac == 0.0
      ensures LayerNamed(layers, uvName).Some? ==> frac == ClampFraction(AreaSum(LayerNamed(layers, uvName).value.uvs))
    {
      var layer := LayerNamed(layers, uvName);
      if layer.None? {
        return 0.0;
      }
      var used := AccumulateArea(layer.value.uvs);
      frac := ClampFraction(used);
    }

    /** Remove the reserved layer if present, append a fresh one holding
        `init` and make it active; returns the source layer picked before. */
    method AddReservedLayer(reserved: string, init: seq<seq<UV>>) returns (src: Option<UVLayer>)
      requires Valid() && Conforms(init, faceSizes)
      modifies this
      ensures Valid()
      ensures src == SourceLayer(old(layers), reserved)
      ensures layers == ReplaceReserved(old(layers), reserved, init)
      ensures active == |layers| - 1
      ensures materials == old(materials)
    {
      src := FindSourceLayer(reserved);
      ReplaceKeepsDistinct(layers, reserved, init);
      layers := ReplaceReserved(layers, reserved, init);
      active := |layers| - 1;
    }

    /** Overwrite the UVs of the reserved layer, the last one. */
    method WriteReserved(reserved: string, uvs: seq<seq<UV>>)
      requires Valid() && Conforms(uvs, faceSizes)
      requires |layers| > 0 && layers[|layers| - 1].name == reserved
      modifies this
      ensures Valid()
      ensures layers == old(layers[..|layers| - 1]) + [UVLayer(reserved, uvs)]
      ensures active == old(active) && materials == old(materials)
    {
      var n := |layers| - 1;
      layers := layers[..n] + [UVLayer(reserved, uvs)];
    }

    /** `make_new_uv`. Returns the reserved name, the keyword sets passed to
        the packer (none under RESCALE with a source) and whether a pack call
        returned. The other layers, their order, the active index and the
        slots are what packing cannot change; the reserved layer's UVs are
        fixed only under RESCALE with a source, where no host operator runs
        after the rescale. On the PACK path the host's island averaging and
        packing rewrite them, so they are left open here. */
    method MakeNewUv(reserved: string, how: PackMethod, margin: real, init: seq<seq<UV>>, op: PackArgs -> PackOutcome)
      returns (uvName: string, tried: seq<PackArgs>, called: bool)
      requires Valid() && Conforms(init, faceSizes)
      modifies this
      ensures Valid()
      ensures uvName == reserved
      ensures |layers| > 0 && layers == ReplaceReserved(old(layers), reserved, layers[|layers| - 1].uvs)
      ensures how == RescaleToTile && SourceLayer(old(layers), reserved).Some? ==>
        layers[|layers| - 1].uvs == Rescaled(SourceLayer(old(layers), reserved).value.uvs, margin)
      ensures active == |layers| - 1
      ensures materials == old(materials)
      ensures how == RescaleToTile && SourceLayer(old(layers), reserved).Some? ==> tried == [] && !called
      ensures !(how == RescaleToTile && SourceLayer(old(layers), reserved).Some?) ==>
        1 <= |tried| <= 4 && tried == ArgSets(margin)[..|tried|]
        && (called <==> op(tried[|tried| - 1]) == Packed)
    {
      var src := FillReservedLayer(reserved, how, margin, init);
      ReservedOnceAndLast(old(layers), reserved, NewLayerContents(src, how, margin, init));
      tried, called := [], false;
      if !(how == RescaleToTile && src.Some?) {
        called, tried := PackIslandsWithRetry(margin, op);
      }
      uvName := reserved;
    }

    /** The part of `make_new_uv` before packing: the reserved layer
        replaced, made active and filled; returns the source layer. */
    method FillReservedLayer(reserved: string, how: PackMethod, margin: real, init: seq<seq<UV>>)
      returns (src: Option<UVLayer>)
      requires Valid() && Conforms(init, faceSizes)
      modifies this
      ensures Valid()
      ensures src == SourceLayer(old(layers), reserved)
      ensures layers == ReplaceReserved(old(layers), reserved, NewLayerContents(src, how, margin, init))
      ensures active == |layers| - 1
      ensures materials == old(materials)
    {
      ghost var before := layers;
      src := AddReservedLayer(reserved, init);
      SourceConforms(before, reserved, faceSizes);
      RewriteReserved(before, reserved, init, NewLayerContents(src, how, margin, init));
      if how == RescaleToTile && src.Some? {
        var dst := RescaleLayer(src.value.uvs, margin);
        WriteReserved(reserved, dst);
      } else if src.Some? {
        WriteReserved(reserved, src.value.uvs);
      }
    }

    /** One object's step of the shared-atlas variant: the reserved layer
        replaced, and the source copied into it only under PACK. */
    method PrepareSharedLayer(reserved: string, how: PackMethod, init: seq<seq<UV>>)
      requires Valid() && Conforms(init, faceSizes)
      modifies this
      ensures SharedPrepared(this, old(layers), old(materials), reserved, how, init)
    {
      ghost var before := layers;
      var src := AddReservedLayer(reserved, init);
      if how == Pack && src.Some? {
        SourceConforms(before, reserved, faceSizes);
        WriteReserved(reserved, src.value.uvs);
      }
    }

    /** Make the first layer named `uvName` active, if there is one. */
    method ActivateLayer(uvName: string)
      modifies this
      ensures layers == old(layers) && materials == old(materials)
      ensures LayerNamed(layers, uvName).None? ==> active == old(active)
      ensures LayerNamed(layers, uvName).Some? ==>
        active < |layers| && layers[active].name == uvName
        && forall j :: 0 <= j < active ==> layers[j].name != uvName
    {
      var i := 0;
      while i < |layers|
        invariant 0 <= i <= |layers|
        invariant forall j :: 0 <= j < i ==> layers[j].name != uvName
        invariant active == old(active)
      {
        if layers[i].name == uvName {
          active := i;
          return;
        }
        i := i + 1;
      }
    }
  }

  /** The source layer conforms when every layer does. */
  lemma SourceConforms(layers: seq<UVLayer>, reserved: string, faceSizes: seq<nat>)
    requires forall i :: 0 <= i < |layers| ==> Conforms(layers[i].uvs, faceSizes)
    ensures SourceLayer(layers, reserved).Some? ==> Conforms(SourceLayer(layers, reserved).value.uvs, faceSizes)
  {
  }

  /** Overwriting the last layer of a replaced list replaces with the new
      contents instead. */
  lemma RewriteReserved(layers: seq<UVLayer>, reserved: string, a: seq<seq<UV>>, b: seq<seq<UV>>)
    ensures var r := ReplaceReserved(layers, reserved, a);
      |r| > 0 && r[|r| - 1].name == reserved && r[..|r| - 1] + [UVLayer(reserved, b)] == ReplaceReserved(layers, reserved, b)
  {
    var w := WithoutName(layers, reserved);
    assert (w + [UVLayer(reserved, a)])[..|w|] == w;
  }

  /** The replaced list still has one layer per name, and every layer in it
      conforms when the old ones and the new contents do. */
  lemma ReplaceKeepsDistinct(layers: seq<UVLayer>, reserved: string, uvs: seq<seq<UV>>)
    requires DistinctNames(layers)
    ensures DistinctNames(ReplaceReserved(layers, reserved, uvs))
  {
    WithoutNameKeepsDistinct(layers, reserved);
  }

  lemma {:induction false} WithoutNameKeepsDistinct(layers: seq<UVLayer>, name: string)
    requires DistinctNames(layers)
    ensures DistinctNames(WithoutName(layers, name))
    ensures forall i :: 0 <= i < |WithoutName(layers, name)| ==> WithoutName(layers, name)[i].name != name
  {
    if layers != [] {
      var n := |layers| - 1;
      assert DistinctNames(layers[..n]);
      WithoutNameKeepsDistinct(layers[..n], name);
      var p := WithoutName(layers[..n], name);
      if layers[n].name != name {
        forall i | 0 <= i < |p|
          ensures p[i].name != layers[n].name
        {
          assert p[i] in p;
          var k :| 0 <= k < n && layers[..n][k] == p[i];
        }
      }
    }
  }

  // ---------------------------------------------------------------------
  // The layer list after a Repack
  // ---------------------------------------------------------------------

  lemma {:induction false} WithoutNameNoop(layers: seq<UVLayer>, name: string)
    requires forall i :: 0 <= i < |layers| ==> layers[i].name != name
    ensures WithoutName(layers, name) == layers
  {
    if layers != [] {
      var n := |layers| - 1;
      WithoutNameNoop(layers[..n], name);
      assert layers == layers[..n] + [layers[n]];
    }
  }

  /** The first layer left after removing `name` is the first layer of the
      list not named `name`. */
  lemma {:induction false} WithoutNameHead(layers: seq<UVLayer>, name: string)
    ensures WithoutName(layers, name) != [] ==> exists i :: (0 <= i < |layers| && layers[i] == WithoutName(layers, name)[0]
      && forall j :: 0 <= j < i ==> layers[j].name == name)
  {
    if layers != [] {
      var n := |layers| - 1;
      WithoutNameHead(layers[..n], name);
      var p := WithoutName(layers[..n], name);
      var w := WithoutName(layers, name);
      assert forall j :: 0 <= j < n ==> layers[..n][j] == layers[j];
      if p != [] {
        assert w[0] == p[0];
        var i :| 0 <= i < n && layers[..n][i] == p[0] && forall j :: 0 <= j < i ==> layers[..n][j].name == name;
        assert layers[i] == w[0];
      } else if w != [] {
        assert w == [layers[n]];
        forall j | 0 <= j < n
          ensures layers[j].name == name
        {
          assert layers[..n][j] in layers[..n];
        }
      }
    }
  }

  /** After the replacement exactly one layer carries the reserved name and
      it is the last one, holding the new contents. */
  lemma ReservedOnceAndLast(layers: seq<UVLayer>, reserved: string, uvs: seq<seq<UV>>)
    ensures var r := ReplaceReserved(layers, reserved, uvs);
      |r| >= 1 && r[|r| - 1] == UVLayer(reserved, uvs)
      && forall i :: 0 <= i < |r| - 1 ==> r[i].name != reserved
  {
    var w := WithoutName(layers, reserved);
    forall i | 0 <= i < |w|
      ensures w[i].name != reserved
    {
      assert w[i] in w;
    }
  }

  /** The other layers keep their names, contents and relative order. */
  lemma OthersKeepOrder(layers: seq<UVLayer>, reserved: string, uvs: seq<seq<UV>>)
    ensures WithoutName(ReplaceReserved(layers, reserved, uvs), reserved) == WithoutName(layers, reserved)
  {
    var w := WithoutName(layers, reserved);
    var r := ReplaceReserved(layers, reserved, uvs);
    ReservedOnceAndLast(layers, reserved, uvs);
    assert r[..|w|] == w;
    WithoutNameNoop(w, reserved);
  }

  /** Running the replacement twice is the same as running it once with the
      second contents. */
  lemma ReplaceIdempotent(layers: seq<UVLayer>, reserved: string, a: seq<seq<UV>>, b: seq<seq<UV>>)
    ensures ReplaceReserved(ReplaceReserved(layers, reserved, a), reserved, b) == ReplaceReserved(layers, reserved, b)
  {
    OthersKeepOrder(layers, reserved, a);
  }

  /** The replacement never changes which layer is the source, so a second
      Repack reads the same source as the first. */
  lemma SourceSurvivesReplace(layers: seq<UVLayer>, reserved: string, uvs: seq<seq<UV>>)
    ensures SourceLayer(ReplaceReserved(layers, reserved, uvs), reserved) == SourceLayer(layers, reserved)
  {
    var w := WithoutName(layers, reserved);
    var r := ReplaceReserved(layers, reserved, uvs);
    ReservedOnceAndLast(layers, reserved, uvs);
    if w == [] {
      forall i | 0 <= i < |layers|
        ensures layers[i].name == reserved
      {
        assert layers[i] in layers;
      }
      assert r == [UVLayer(reserved, uvs)];
    } else {
      WithoutNameHead(layers, reserved);
      var i :| 0 <= i < |layers| && layers[i] == w[0] && forall j :: 0 <= j < i ==> layers[j].name == reserved;
      assert w[0] in w;
      assert r[0] == w[0];
      var src := SourceLayer(layers, reserved);
      assert src.Some?;
      var k :| 0 <= k < |layers| && layers[k] == src.value && src.value.name != reserved
        && forall j :: 0 <= j < k ==> layers[j].name == reserved;
      assert k == i;
    }
  }

  // ---------------------------------------------------------------------
  // make_new_uv_multi_object
  // ---------------------------------------------------------------------

  /** What the new layer of one object holds in the shared-atlas variant
      before packing: the copied source only under PACK; under RESCALE
      nothing is rescaled and the host's initial contents stay. */
  function SharedLayerContents(src: Option<UVLayer>, how: PackMethod, init: seq<seq<UV>>): seq<seq<UV>> {
    if how == Pack && src.Some? then src.value.uvs else init
  }

  /** Object `o` went through its shared-atlas step from `before`. */
  ghost predicate SharedPrepared(o: MeshObject, before: seq<UVLayer>, mats: seq<Option<Material>>,
                                 reserved: string, how: PackMethod, init: seq<seq<UV>>)
    reads o
  {
    && o.Valid()
    && o.layers == ReplaceReserved(before, reserved, SharedLayerContents(SourceLayer(before, reserved), how, init))
    && o.active == |o.layers| - 1
    && o.materials == mats
  }

  /** Object `o` holds the layers of its shared-atlas step from `before`,
      whatever the shared packing then wrote into the reserved layer. */
  ghost predicate SharedLaidOut(o: MeshObject, before: seq<UVLayer>, mats: seq<Option<Material>>, reserved: string)
    reads o
  {
    && o.Valid()
    && |o.layers| > 0
    && o.layers == ReplaceReserved(before, reserved, o.layers[|o.layers| - 1].uvs)
    && o.active == |o.layers| - 1
    && o.materials == mats
  }

  /** A prepared object is laid out as the shared-atlas step leaves it. */
  lemma PreparedLaidOut(o: MeshObject, before: seq<UVLayer>, mats: seq<Option<Material>>,
                        reserved: string, how: PackMethod, init: seq<seq<UV>>)
    requires SharedPrepared(o, before, mats, reserved, how, init)
    ensures SharedLaidOut(o, before, mats, reserved)
  {
    ReservedOnceAndLast(before, reserved, SharedLayerContents(SourceLayer(before, reserved), how, init));
  }

  /** Object `o` either went through its shared-atlas step from `before`
      or is still untouched. */
  ghost predicate SharedStage(o: MeshObject, done: bool, before: seq<UVLayer>, mats: seq<Option<Material>>,
                              reserved: string, how: PackMethod, init: seq<seq<UV>>)
    reads o
  {
    if done then SharedPrepared(o, before, mats, reserved, how, init)
    else o.Valid() && o.layers == before && o.materials == mats
  }

  /** Prepare the reserved layer of every object, then pack all of them in
      one retry loop; nothing at all for an empty list. The shared packing
      always runs, so no object's reserved UVs are fixed afterwards. */
  method MakeNewUvMultiObject(objects: seq<MeshObject>, reserved: string, how: PackMethod, margin: real,
                              inits: seq<seq<seq<UV>>>, op: PackArgs -> PackOutcome)
    returns (uvName: Option<string>, tried: seq<PackArgs>, called: bool)
    requires |inits| == |objects|
    requires forall i, j :: 0 <= i < j < |objects| ==> objects[i] != objects[j]
    requires forall i :: 0 <= i < |objects| ==> objects[i].Valid() && Conforms(inits[i], objects[i].faceSizes)
    modifies set o | o in objects
    ensures forall i :: 0 <= i < |objects| ==>
      SharedLaidOut(objects[i], old(objects[i].layers), old(objects[i].materials), reserved)
    ensures objects == [] ==> uvName == None && tried == [] && !called
    ensures objects != [] ==> (uvName == Some(reserved)
      && 1 <= |tried| <= 4 && tried == ArgSets(margin)[..|tried|]
      && (called <==> op(tried[|tried| - 1]) == Packed))
  {
    if objects == [] {
      return None, [], false;
    }
    PrepareSharedLayers(objects, reserved, how, inits);
    forall i | 0 <= i < |objects|
      ensures SharedLaidOut(objects[i], old(objects[i].layers), old(objects[i].materials), reserved)
    {
      PreparedLaidOut(objects[i], old(objects[i].layers), old(objects[i].materials), reserved, how, inits[i]);
    }
    called, tried := PackIslandsWithRetry(margin, op);
    uvName := Some(reserved);
  }

  /** The first loop of the shared-atlas variant: every object's reserved
      layer prepared in turn, each object touched once. */
  method PrepareSharedLayers(objects: seq<MeshObject>, reserved: string, how: PackMethod, inits: seq<seq<seq<UV>>>)
    requires |inits| == |objects|
    requires forall i, j :: 0 <= i < j < |objects| ==> objects[i] != objects[j]
    requires forall i :: 0 <= i < |objects| ==> objects[i].Valid() && Conforms(inits[i], objects[i].faceSizes)
    modifies set o | o in objects
    ensures forall i :: 0 <= i < |objects| ==>
      SharedPrepared(objects[i], old(objects[i].layers), old(objects[i].materials), reserved, how, inits[i])
  {
    var k := 0;
    while k < |objects|
      invariant 0 <= k <= |objects|
      invariant forall i :: 0 <= i < |objects| ==>
        SharedStage(objects[i], i < k, old(objects[i].layers), old(objects[i].materials), reserved, how, inits[i])
    {
      objects[k].PrepareSharedLayer(reserved, how, inits[k]);
      k := k + 1;
    }
  }
}
