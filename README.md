# Repack & Rebake — a verified model of the atlas rules

The Blender add-on `repack_rebake.py` does two jobs for a selected object.

**Repack UV** builds a fresh UV layer named `RepackRebake_UV` from the object's first other UV layer. It does this in one of two ways:

- it copies the UVs and asks Blender's island packer to lay them out, trying four keyword sets from the richest signature down to the most basic; or
- it rescales all islands, without changing their shape, into the unit tile inside a margin (`RESCALE`).

**Rebake Maps** bakes the object's materials into at most three new square images, in this order:

1. It classifies the images of every material slot by role: base colour, normal map, packed occlusion–roughness–metalness ("ORM"). It also notes which channels are present.
2. It picks a resolution. This is the size candidate nearest to `sqrt(area fraction) * atlas size`.
3. It allocates `Rebaked_<object>_<Role>_<size>` images for the roles that have data and are switched on. If none are allocated, it skips the object.
4. It bakes into those images.
5. It replaces the object's materials with one glTF-friendly material:
   - the packed image feeds the principled node's roughness and metalness from its G and B channels;
   - the R channel feeds the glTF output group's `Occlusion` input when that group has one;
   - the normal image goes through a normal-map node.
6. It makes the reserved UV layer active.

The model states these rules over plain data:

- a mesh is a sequence of faces, each a sequence of per-corner UVs;
- a UV layer is a name with such UVs;
- a material is a node tree: a node sequence plus Blender-style links `(fromNode, fromSocket, toNode, toSocket)`;
- socket names are an enumeration of the names the add-on reads or links (`BaseColor` for "Base Color", `ImageIn` for "Image", `Bsdf` for "BSDF", and so on), plus `Named` for any other name;
- numbers are exact reals.

Where the code updates state in place, the model does the same:

- The object's layers, active index and material slots are the fields of the class `MeshData.MeshObject`. Its methods replace the reserved layer, write it, activate it and reassign the materials.
- The loops that accumulate the area, find bounds, gather roles, retry the packer, assemble the material and look up the glTF group are methods with loops. Each is proved equal to a specification function or fully characterised by its contract.
- The properties of those functions are proved as lemmas.

Modules, in dependency order:

- `Common`: `Option`, small real helpers.
- `Text`: ASCII lower case, substring test, split/join, integer text.
- `UvGeometry`: `clamp01`, triangle area, area fraction.
- `Rescale`: the `RESCALE` layout.
- `Shading`: images and node trees.
- `Roles`: role classification.
- `Resolution`: size-choice parsing, atlas size, nearest size.
- `PackRetry`: the pack-islands retry.
- `MeshData`: layer bookkeeping and the mesh object.
- `Assembler`: the simplified material.
- `Rebake`: names, allocation, bake sources, the whole per-object step.

Behaviour of the code that the model keeps, and that a reader may not expect:

- **Every principled node counts.** `gather_material_images_and_roles` (lines 97-119) inspects every principled node of every material. The roughness and metalness flags are OR-ed over all of them, and base colour and normal hits from all of them are listed in order. The model follows the code rather than a "first principled node" reading.
- **ORM image from link flags alone.** An ORM image is allocated when only the link flags say roughness or metalness is present (line 502). If no source image is then found, nothing is baked into it, but it is still created and wired into the final material.
- **The ORM fallback can only find base colour or normal.** The fallback search for an ORM source (lines 558-564) scans every texture, including the base colour and normal images that the classifier excluded. So when the classifier found no ORM image, the fallback can only find one of those two (`Rebake.OrmFallbackFindsExcludedImage`).
- **The base-colour fallback never runs.** The fallback to the first texture for the base-colour bake (line 536) is never reached: a base-colour image is only allocated when a base-colour role exists (`Rebake.BaseBakeReadsBaseColor`).
- **Empty source-layer name.** A source UV layer with an empty name counts as "no source layer" (line 479 tests truthiness).

## Model

All source paths are in `repack_rebake.py`.

| member | source | states |
|---|---|---|
| Text.Lower | repack_rebake.py:129 | the lower-cased name has the same length and lower-cases each character in place |
| Text.ContainsAt | repack_rebake.py:130 | a keyword that occurs at some position of a name is found by the `in` test |
| Text.ContainsPosition | repack_rebake.py:130 | conversely, a keyword found by the `in` test occurs at some position |
| Text.ContainsPrefixOf | repack_rebake.py:130-142 | a name containing a keyword contains every prefix of it (so "roughness" names also hit "rough") |
| Text.Split | repack_rebake.py:851 | `split(",")` always yields at least one piece and no piece contains the separator |
| Text.JoinSplit | repack_rebake.py:851 | joining the pieces of a split with the separator gives back the text |
| Text.SplitJoin | repack_rebake.py:851 | splitting separator-free pieces joined by the separator gives back the pieces |
| Text.ParseInt | repack_rebake.py:851 | `int()` fails on text that is blank after stripping |
| Text.NatToString | repack_rebake.py:499 | the decimal text of a size is non-empty and all digits |
| Text.IntRoundTrip | repack_rebake.py:851 | `int(str(n)) == n` for every integer |
| Text.NoCommaInNumber | repack_rebake.py:851 | the text of a number never contains a comma |
| UvGeometry.Frac | repack_rebake.py:18-19 | the fractional part lies in [0,1) and differs from the input by a whole number |
| UvGeometry.Clamp01 | repack_rebake.py:18-19 | both wrapped components lie in [0,1) and differ from the input by whole tiles |
| UvGeometry.FracShift | repack_rebake.py:18-19 | shifting a coordinate by a whole number does not change its fractional part |
| UvGeometry.Clamp01TileInvariant | repack_rebake.py:18-19 | points a whole number of tiles apart wrap to the same point |
| UvGeometry.Clamp01Idempotent | repack_rebake.py:18-19 | wrapping a wrapped point changes nothing |
| UvGeometry.TriArea | repack_rebake.py:14-15 | the triangle area is never negative |
| UvGeometry.TriAreaRotate | repack_rebake.py:14-15 | the area does not depend on which corner comes first |
| UvGeometry.FanArea | repack_rebake.py:42-47 | a fan of triangles has non-negative area |
| UvGeometry.FaceArea | repack_rebake.py:40-47 | a face's contribution is never negative |
| UvGeometry.ClampFraction | repack_rebake.py:50 | the result lies in [0,1] and is the input whenever the input already does |
| UvGeometry.AreaSumNonNegative | repack_rebake.py:38-50 | the summed area is non-negative, so the clamp reduces to `min(1, used)` |
| UvGeometry.ProperFaces | repack_rebake.py:40-41 | the kept faces all have at least three corners |
| UvGeometry.AreaSumSkipsDegenerate | repack_rebake.py:40-41 | dropping faces with fewer than three corners leaves the area unchanged |
| UvGeometry.FanAreaTileInvariant | repack_rebake.py:42-47 | moving corners by whole tiles does not change a fan's area |
| UvGeometry.AreaSumTileInvariant | repack_rebake.py:38-48 | moving corners of any face by whole tiles does not change the used area |
| UvGeometry.AccumulateArea | repack_rebake.py:38-48 | the face/triangle loop computes exactly the summed area, which is non-negative |
| Rescale.BoundsTight | repack_rebake.py:208-214 | the box lies in the unit tile, contains every wrapped corner and each side is attained by some corner |
| Rescale.MeasureBounds | repack_rebake.py:208-214 | the min/max loop computes exactly the bounding box of the wrapped corners |
| Rescale.WidenByFace | repack_rebake.py:210-214 | one face's corners widen the running box to exactly the box of all corners seen so far |
| Rescale.RescaleFace | repack_rebake.py:219-224 | one output corner per input corner |
| Rescale.Rescaled | repack_rebake.py:219-224 | the output layer has the same faces, each with the same number of corners |
| Rescale.RescaleLayer | repack_rebake.py:215-224 | the write loop produces exactly the rescaled layer |
| Rescale.PointWithinMargin | repack_rebake.py:215-223 | a point inside the box maps into [margin, 1-margin] on both axes |
| Rescale.RescaleWithinMargin | repack_rebake.py:208-224 | with 0 <= margin <= 0.5 every written UV lies in [margin, 1-margin] on both axes |
| Rescale.RescaleUniform | repack_rebake.py:215-223 | both axes use one factor, positive for margin < 0.5, so differences of points scale uniformly |
| Rescale.BoxSidesMapToMargins | repack_rebake.py:215-223 | the box's lower corner maps to (margin, margin) and the far edge of its longer side to 1-margin |
| Shading.LargerSide | repack_rebake.py:485 | `max(image.size)` is at least both sides and equals one of them |
| Shading.LinkInto | repack_rebake.py:100 | `links[0].from_node`: none exactly when nothing is linked into the socket, else the source of such a link |
| Shading.InputSource | repack_rebake.py:99-100 | a source exists exactly when the node has the input and it is linked, and it is a node of the tree |
| Shading.TexImageOf | repack_rebake.py:95 | an image exactly for an image-texture node that holds one |
| Roles.OptSeq | repack_rebake.py:121-122 | an optional role as a list of at most one element |
| Roles.FirstOf | repack_rebake.py:121-122 | the first hit, none exactly for an empty list |
| Roles.BaseHit | repack_rebake.py:99-102 | a base-colour hit is an image held by a node of the tree that feeds a linked Base Color input |
| Roles.NormalHit | repack_rebake.py:103-111 | a normal hit is an image held by the tree that reaches a linked Normal input, directly or through a normal map |
| Roles.KeywordsAnnounceChannels | repack_rebake.py:130-142 | a lower-cased name has a keyword exactly when it announces some channel |
| Roles.CollectTextures | repack_rebake.py:94-96 | the node loop collects exactly the texture pass |
| Roles.InspectPrincipled | repack_rebake.py:97-119 | the node loop performs exactly the principled pass |
| Roles.PrincipledStep | repack_rebake.py:98-119 | one node of the loop: a principled node appends its base-colour and normal hits and sets the link flags, any other node changes nothing |
| Roles.ScanMaterial | repack_rebake.py:90-119 | one slot's scan is exactly the material pass, skipping empty and node-less slots |
| Roles.ScanKeywords | repack_rebake.py:124-144 | the candidate loop computes exactly the keyword scan |
| Roles.GatherRoles | repack_rebake.py:80-154 | the whole gathering computes exactly the role set |
| Roles.TexPassFacts | repack_rebake.py:94-96 | the texture pass leaves the role hits and flags alone and adds exactly the images of image-texture nodes |
| Roles.BsdfPassHits | repack_rebake.py:97-111 | base and normal hits are images of the same tree and the texture list is untouched |
| Roles.BsdfPassRough | repack_rebake.py:113-115 | the roughness flag is set exactly when some principled node has a linked Roughness input |
| Roles.BsdfPassMetal | repack_rebake.py:117-119 | the metalness flag is set exactly when some principled node has a linked Metallic input |
| Roles.SlotsPassFacts | repack_rebake.py:89-119 | over all slots: textures are exactly those held by usable slots, hits are among them, the link flags hold iff some slot links them |
| Roles.ScanCandidates | repack_rebake.py:124-131 | candidates extend the earlier ones, and are exactly the images that are neither base nor normal and have a keyword |
| Roles.ScanFirstCandidate | repack_rebake.py:124-144 | the first candidate is the first eligible image; none exactly when none is eligible |
| Roles.ScanAo | repack_rebake.py:132-138 | the occlusion flag is set iff some eligible image's name says "orm"/"arm"/"oem", or else "ao"/"occ" |
| Roles.ScanRough | repack_rebake.py:132-140 | the roughness flag from names follows the same ordered test ("orm"/"arm"/"oem", else "rough") |
| Roles.ScanMetal | repack_rebake.py:132-142 | the metalness flag from names follows the same ordered test ("orm"/"arm"/"oem", else "met") |
| Roles.OrmIsFirstEligible | repack_rebake.py:124-144 | the ORM role is the first collected image that is neither base nor normal and has a keyword; none iff there is none |
| Roles.ChannelFlags | repack_rebake.py:113-142 | occlusion comes only from names; roughness and metalness come from a principled link or from a name |
| Roles.RolesAreCollectedTextures | repack_rebake.py:121-154 | every role image is a collected texture; base and normal are the first hits in slot and node order |
| Roles.PackedNameSetsAllChannels | repack_rebake.py:133-136 | an image named "Rock_ORM_2k" becomes the ORM image and sets all three flags |
| Roles.OcclusionNameSetsOnlyAo | repack_rebake.py:137-138 | an image named "Rock_AO" becomes the ORM candidate and sets only the occlusion flag |
| Resolution.ParseAll | repack_rebake.py:851 | every piece parses, in order, or some piece fails to parse |
| Resolution.Floored | repack_rebake.py:852 | each parsed size is raised to at least the minimum size |
| Resolution.Insert | repack_rebake.py:852 | inserting into an ascending list keeps it strictly ascending and adds exactly that element |
| Resolution.SortedUnique | repack_rebake.py:852 | `sorted(set(...))` is strictly ascending with the same elements |
| Resolution.AscendingUnique | repack_rebake.py:852 | two strictly ascending lists with the same elements are equal |
| Resolution.ParseSizeChoices | repack_rebake.py:850-854 | never empty; the default ladder when some piece fails, else strictly ascending sizes, all at least the minimum, from exactly the floored values |
| Resolution.SizeChoicesRoundTrip | repack_rebake.py:850-854 | parsing the comma-joined text of a strictly ascending list of sizes at least the minimum gives the list back |
| Resolution.DefaultTextIsFormatted | repack_rebake.py:918-921 | the property's default text is the comma-joined default ladder |
| Resolution.DefaultTextGivesLadder | repack_rebake.py:850-854 | with the default text and a minimum up to 128 the choices are the default ladder |
| Resolution.EmptyTextGivesLadder | repack_rebake.py:850-854 | empty text falls back to the default ladder |
| Resolution.SizeChoicesPositive | repack_rebake.py:850-854 | with a minimum of at least 1 every size choice is positive |
| Resolution.NearestSize | repack_rebake.py:27-28 | a member of the choices at least as close to the target as every choice, the first such on ties |
| Resolution.MaxSide | repack_rebake.py:487-488 | at least the start and every image's larger side, and equal to one of them |
| Resolution.AtlasRes | repack_rebake.py:483-488 | the base-colour image's larger side when there is one, else the maximum of 1024 and every texture's larger side |
| Resolution.RaiseToSides | repack_rebake.py:486-488 | the loop over the collected textures raises the start to the largest side of all of them |
| Resolution.TargetSquares | repack_rebake.py:490-491 | with a true square root, the target is the side of a square holding the used fraction of the atlas |
| Resolution.FortyPercentScenario | repack_rebake.py:490-492 | with a root of 0.4 in [0.632, 0.633], 40% of the tile on a 2048 atlas gives a target near 1295, which selects 1024 from the default ladder |
| Resolution.NearestMonotone | repack_rebake.py:27-28 | a larger target never selects a smaller choice |
| Resolution.TargetMonotone | repack_rebake.py:490-491 | with a monotone square root, a larger used area gives a target at least as large |
| Resolution.LargerAreaNeverSmaller | repack_rebake.py:490-492 | with a monotone square root, a larger used area never selects a smaller size |
| PackRetry.ArgSets | repack_rebake.py:269-273 | four keyword sets, each with `rotate=False` and the given margin |
| PackRetry.ArgSetsDescend | repack_rebake.py:269-273 | each set drops keywords of the previous one and adds none, so no set repeats |
| PackRetry.PackIslandsWithRetry | repack_rebake.py:268-291 | sets are tried in order; TypeError moves on, any other failure stops; `called` iff some attempt succeeded after only TypeErrors |
| MeshData.LayerNamed | repack_rebake.py:36 | a layer with that name from the list, none exactly when no layer has the name |
| MeshData.SourceLayer | repack_rebake.py:189-194 | the first layer whose name is not the reserved one; none iff every layer has the reserved name |
| MeshData.WithoutName | repack_rebake.py:196-198 | exactly the layers without that name |
| MeshData.MeshObject.FindSourceLayer | repack_rebake.py:473-477 | the search loop finds exactly the source layer |
| MeshData.MeshObject.AreaFraction | repack_rebake.py:31-50 | 0.0 for a missing layer, else the clamped summed area, always in [0,1] |
| MeshData.MeshObject.AddReservedLayer | repack_rebake.py:189-201 | returns the source, replaces the reserved layer by a fresh last one and makes it active |
| MeshData.MeshObject.WriteReserved | repack_rebake.py:224 | only the reserved (last) layer's UVs change |
| MeshData.MeshObject.MakeNewUv | repack_rebake.py:182-297 | the old reserved layer is removed, the other layers keep their order and a new reserved layer is last and active; under RESCALE with a source it holds the rescaled source and no pack is tried; otherwise the packer is retried |
| MeshData.MeshObject.FillReservedLayer | repack_rebake.py:189-224 | returns the source and leaves the reserved layer last, active and holding the rescaled source, the copied source or the initial contents |
| MeshData.MeshObject.PrepareSharedLayer | repack_rebake.py:309-338 | one object's step of the shared atlas: fresh reserved layer, a copy only under PACK |
| MeshData.MeshObject.ActivateLayer | repack_rebake.py:646-656 | the active index becomes the first layer with the name, unchanged when there is none |
| MeshData.MakeNewUvMultiObject | repack_rebake.py:300-388 | nothing for no objects; else every object keeps its other layers in order, gets a last, active reserved layer and keeps its slots, and one retry loop packs them all |
| MeshData.PrepareSharedLayers | repack_rebake.py:309-338 | the first loop prepares every object once, each from its own layers, with its material slots kept |
| MeshData.SourceConforms | repack_rebake.py:189-194 | the source layer fits the mesh's faces |
| MeshData.ReplaceKeepsDistinct | repack_rebake.py:196-201 | replacing the reserved layer keeps layer names distinct |
| MeshData.WithoutNameKeepsDistinct | repack_rebake.py:196-198 | removing a name keeps names distinct and leaves no layer with it |
| MeshData.WithoutNameNoop | repack_rebake.py:196-198 | removing a name nobody has changes nothing |
| MeshData.WithoutNameHead | repack_rebake.py:189-198 | the first remaining layer is the first layer without the name |
| MeshData.ReservedOnceAndLast | repack_rebake.py:196-201 | afterwards exactly one layer, the last, has the reserved name |
| MeshData.OthersKeepOrder | repack_rebake.py:196-201 | the other layers keep their names, contents and relative order |
| MeshData.ReplaceIdempotent | repack_rebake.py:196-201 | running the replacement twice equals running it once with the second contents |
| MeshData.SourceSurvivesReplace | repack_rebake.py:189-201 | the source layer is the same before and after the replacement, so repacking again reads the same source |
| Assembler.GroupNamed | repack_rebake.py:428-431 | a group with that name, none exactly when no group has it |
| Assembler.FindGltfOutputGroup | repack_rebake.py:428-431 | the lookup loop finds the first group named "glTF Material Output" |
| Assembler.AddImageNodes | repack_rebake.py:405-423 | one image-texture node per image given, base, then ORM, then normal |
| Assembler.WireOrm | repack_rebake.py:440-449 | with a packed image: a separate node, Color to Image, G to Roughness, B to Metallic, R to Occlusion when the group has it |
| Assembler.WireNormal | repack_rebake.py:451-454 | with a normal image: a normal-map node, Color to Color and Normal to Normal |
| Assembler.BuildSimplifiedMaterial | repack_rebake.py:391-463 | builds exactly the simplified material, named `Rebaked_<object>`, using nodes |
| Assembler.BuildSimplifiedTree | repack_rebake.py:405-461 | the node and link sequences built step by step are exactly the simplified tree's |
| Assembler.WireSurface | repack_rebake.py:455-460 | the BSDF output is linked to Surface for a plain output node, and for the group only when it has that input |
| Assembler.SimplifiedLinksInRange | repack_rebake.py:437-461 | every link joins nodes of the tree |
| Assembler.SimplifiedNodesAt | repack_rebake.py:405-452 | where the image, principled, output, separate and normal-map nodes sit and what they are |
| Assembler.SimplifiedShaped | repack_rebake.py:405-461 | the built tree has its nodes at the layout positions and exactly the wired links |
| Assembler.SimplifiedOneLinkPerInput | repack_rebake.py:437-461 | no input socket receives two links |
| Assembler.SimplifiedWiring | repack_rebake.py:437-461 | the links built are exactly the wired links, each present exactly when its image (and the group's input) exists |
| Assembler.WiredSource | repack_rebake.py:437-461 | in such a tree a wired input is fed by the node its link names when it is wired, and is unlinked otherwise |
| Assembler.BaseAndNormalRouted | repack_rebake.py:437-454 | the principled node's base colour and normal hits are exactly the base and normal images |
| Assembler.OrmRouted | repack_rebake.py:440-445 | roughness and metalness are linked iff there is a packed image, from its G and B channels |
| Assembler.OcclusionRouted | repack_rebake.py:446-449 | occlusion is linked iff there is a packed image and the group has the input, from its R channel |
| Assembler.SurfaceRouted | repack_rebake.py:432-435 | the output is the glTF group when found; its Surface input is fed by the BSDF unless the group lacks it |
| Assembler.OnePrincipled | repack_rebake.py:425 | the BSDF is the only principled node |
| Assembler.LeadingImagesIn | repack_rebake.py:405-423 | in such a tree the image-texture nodes are exactly the leading ones, holding the images in order |
| Assembler.RebakedFound | repack_rebake.py:80-122 | classifying the rebuilt material finds its images as textures, base and normal as hits, and both link flags iff packed |
| Assembler.OnlyPackedEligible | repack_rebake.py:124-131 | of the rebuilt images only the packed one can be an ORM candidate |
| Assembler.RebakedMaterialReclassifies | repack_rebake.py:391-463 | gathering roles from the rebuilt material gives back base and normal images, and the packed image as ORM when its name has a keyword |
| Rebake.BakedNamesDistinct | repack_rebake.py:499-507 | the three images allocated for one object and size have distinct names |
| Rebake.BakedNameRoleAt | repack_rebake.py:499-507 | the role name sits at a fixed position of the baked image name |
| Rebake.BakedOrmNameHasKeyword | repack_rebake.py:503 | the packed image's lower-cased name contains a keyword, so it is classified again |
| Rebake.SafeName | repack_rebake.py:73 | same length, only safe characters, each character kept exactly when it is safe |
| Rebake.SafeNameKeepsSafe | repack_rebake.py:73 | a safe name is kept, and sanitising twice is sanitising once |
| Rebake.CreateImage | repack_rebake.py:60-77 | a square image of the given name and size, colour space and alpha, saved as the sanitised name plus ".png" |
| Rebake.Allocate | repack_rebake.py:497-507 | each image iff its toggle is on and it has data (ORM: an image or any flag), with its name, size, colour space and alpha |
| Rebake.FirstKeywordImage | repack_rebake.py:558-564 | the first texture whose lower-cased name has a keyword; none iff there is none |
| Rebake.FindFallbackOrm | repack_rebake.py:559-564 | the fallback loop finds exactly that image |
| Rebake.BaseBakeReadsBaseColor | repack_rebake.py:497-536 | a base-colour bake always reads the base-colour role image |
| Rebake.OrmFallbackFindsExcludedImage | repack_rebake.py:558-564 | with no ORM role the fallback finds only the base-colour or normal image |
| Rebake.BakeSources | repack_rebake.py:533-623 | the image each allocated bake reads: base colour, ORM or its fallback, normal |
| Rebake.RebakeSkips | repack_rebake.py:469-511 | skipped for a missing reserved layer iff it is missing, for no source iff there is none, skipped as having nothing to bake iff both layers are there and no toggled role has data, so baked exactly when layers are there and some role is allocated |
| Rebake.RebakeResolution | repack_rebake.py:483-507 | the size is a choice nearest the area target and every image is square at it, named after object, role and size |
| Rebake.RebakeRoundTrip | repack_rebake.py:634-637 | classifying the final material gives back the baked base, normal and ORM images, with both ORM flags set |
| Rebake.PlanObject | repack_rebake.py:466-635 | the skip reason, or the size, images, bake sources and final material, computed without touching the object, are exactly the planned outcome |
| Rebake.RebakeSingleObject | repack_rebake.py:466-662 | performs the planned outcome; layers untouched; skipping changes nothing; baking leaves one final material and the reserved layer active |

## Left out

- The effect of `bpy.ops.uv.pack_islands` and `average_islands_scale` on the geometry is not modelled. The packer is a parameter giving the outcome of each call, and average-scale is not modelled.
- MeshData.MeshObject.MakeNewUv: on the PACK path the reserved layer's final UVs are left unconstrained, because the host's island averaging and packing rewrite them. Its contents before packing are stated by `FillReservedLayer`.
- MeshData.MakeNewUvMultiObject: every object's reserved UVs are left unconstrained after the shared packing, for the same reason. Their contents before packing are stated by `PrepareSharedLayers`.
- Images are compared by value (name and size), while the add-on compares image datablocks by identity (lines 121-129). The two agree only while image names are unique, as Blender keeps them.
- Mode switching, selection and the active-object changes (lines 244-256, 293, 340-350, 522-529) are not modelled: they have no visible data effect in this model.
- What `object.bake` writes into the images, including whether the three ORM passes (lines 580-600) compose the channels correctly, is not modelled. It depends on the renderer. The temporary bake material (lines 515-531) is not modelled either. The bake step is modelled as the image each bake reads.
- Image save/pack, `set_cycles_for_bake` and the colour-space `try/except` blocks are not modelled: they are host-side effects with no result the model could check.
- `active_render` is not modelled: render flags are not part of the layer model.
- Node locations and labels are cosmetic and are not modelled.
- Socket names are compared as values of an enumeration, not as strings. The sockets the add-on uses each have a constructor, and every other name is `Named(name)`; `Shading.CanonicalSocket` states that a name with its own constructor is never written as `Named`. Blender's lookup of a socket by its display name is not modelled.
- Removing existing same-named images and materials from Blender's data blocks (lines 62-64, 394-397) is not modelled: the data-block registry is outside the model.
- The save directory and `os.path.join` (lines 71-75) are not modelled. Only the file name is: the sanitised name plus ".png". The EXR branch is never used by callers.
- Rebake.SafeName: `str.isalnum` is a parameter, because Python's Unicode letter and digit classes are not modelled.
- Text.Lower: it lower-cases ASCII letters only, because Unicode case mapping is not modelled.
- Text.ParseInt: it accepts an optional sign, ASCII digits with single underscores between them, and surrounding ASCII white space. The non-ASCII digits and white space that Python's `int()` also accepts are not modelled.
- Floating point is not modelled: coordinates, areas and margins are exact reals.
- The square root is a parameter. Dafny has none, and the lemmas that need one say which property they use.
- Blender's limit on the number of UV layers is not modelled, nor is a failure of `uv_layers.new`: the host's capacity is outside the model.
- The contents Blender gives a newly added UV layer are a parameter (`init`), because they are host-defined.
- MeshData.MeshObject: mesh data shared between several objects is not modelled. Each object owns its layers and material slots.
- `rebake_multi_object` (duplicating, joining and re-assigning the final material) is not modelled. It is built from host operators, and its per-object work is `rebake_single_object`, which is modelled.
- The operators' loops over selected objects, their reports, the UI panel, the scene properties other than the size text and minimum size, `log`/`ar_debug` output and the package's `__init__.py` are not modelled: they are user interface and registration.
- `active_uv_name` (lines 22-24) is not modelled because the core does not use it.
