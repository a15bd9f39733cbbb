# wgpu-layers: the CPU-side bookkeeping of a vector-tile renderer, in Dafny

wgpu-layers draws Mapbox vector tiles with wgpu. This project models the parts of it that
run on the CPU and proves what they promise:

- **Parser.** It decodes tags and layers of an already decoded tile: `parse_tags`,
  `get_string_value`, `get_layer_names` and `get_features`.
- **Tile builders.** These flatten polygon rings into float buffers, compute hole-start
  indices and append offset-adjusted triangle indices:
  - the Fill, Line and Point tiles of `src/ressource/tile`
  - the older `u16` buckets of `src/bucket`
  - the line-strip builder `triangulate` of `src/lib.rs`
- **Tile transform.** Column-major 4×4 matrix products, the model matrix, the clipping
  rectangle, and the rule that a tile draws only when both GPU buffers are present.
- **Resource registries.** The `RessourceManager` with its scope-ordered layout map and
  shader modules; the insert-once `MaterialManager`; the `View`, in its new and old revisions.
- **Line-tessellation sizing.** The output buffer sizes and workgroup counts of both
  revisions, which disagree.
- **The `Instance` entry points.** `render` copies the view matrix and checks for a
  resize. The tile-parser queue drain has its early stop on an empty feature list.
  `add_pbf_tile_data` selects the "land" layer.
- **The test helpers.** `get_snapshot` and `get_view_matrix` of `tests/utils.rs`.

**How the system is represented.**
- GPU objects are values: a buffer carries its usage and contents, a render pass is a
  returned sequence of commands, and a compute dispatch is a record.
- `earcutr::earcut` is a function parameter, because it is a foreign triangulator.
- A Rust panic is `Fallible.Panicked`, with the message the source would print.
- Integers are unbounded, except in the older buckets. There, `u16` truncation and wrapping
  addition are written out.

**Files and modules.**
- `wrappers.dfy`: Option, Fallible
- `geo.dfy`: geometry and ring flattening
- `parser.dfy`
- `transform.dfy`: matrices of `src/ressource/tile/mod.rs`
- `gpu.dfy`: GPU values
- `tile_geometry.dfy`: the per-polygon specifications of the three tiles
- `ressource.dfy`: managers, materials, view, tiles
- `bucket.dfy`: old buckets
- `legacy_view.dfy`: old view
- `tessellation.dfy`: new tessellation
- `line_tessellation.dfy`: old tessellation
- `lib.dfy`
- `test_utils.dfy`

**Where the Rust code is imperative, the model is too.** The loops in the Rust code are
Dafny methods with loop invariants. Each is proved against a specification function, and
lemmas state the properties of those functions. The structs whose fields the source updates
are classes.

## Model

| member | source | states |
|---|---|---|
| Parser.GetLayerNames | src/parser.rs:22-38 | the names returned are exactly the names of the version-1 and version-2 layers, in layer order (`SupportedNames`) |
| Parser.SupportedNamesMembership | src/parser.rs:22-38 | a name is returned iff some layer of version 1 or 2 carries it |
| Parser.SupportedNamesAllSupported | src/parser.rs:22-38 | when every layer is supported, the name list has one entry per layer, in the same order |
| Parser.SupportedNamesAppend | src/parser.rs:24-36 | filtering distributes over concatenation of layer lists |
| Parser.SupportedNamesAtMost | src/parser.rs:22-38 | never more names than layers |
| Parser.GetFeatures | src/parser.rs:40-55 | returns None iff the index is past the last layer; otherwise succeeds iff every feature's tags decode, and then yields one feature per layer feature, in order, each with an empty geometry collection and `Some` of its decoded properties |
| Parser.ParseTags | src/parser.rs:58-72 | the chunked fold over the tag list computes `ParseTagsSpec`, panicking exactly where the source's `expect`/indexing would |
| Parser.ParseTagsSucceedsIff | src/parser.rs:63-71 | decoding succeeds iff the tag list has even length and every key and value index is in range |
| Parser.FoldChunksSucceedsIff | src/parser.rs:63-71 | after n chunks the fold has not panicked iff the first n pairs are complete and in range |
| Parser.PanicPersists | src/parser.rs:63-71 | once a chunk panics, later chunks do not change the outcome |
| Parser.ParseTagsContents | src/parser.rs:63-71 | the map's keys are exactly the keys named by the pairs, and a key's value is the string value of its last pair |
| Parser.FoldChunksKeys | src/parser.rs:65-70 | after n well-formed chunks the key set is exactly the keys of the first n pairs |
| Parser.FoldChunksLastWins | src/parser.rs:66-69 | a later pair with the same key overwrites an earlier one: the value kept is that of the last pair for the key |
| Parser.GetStringValue | src/parser.rs:74-97 | a set string field is returned as is; when no field is set the result is the empty string |
| Parser.GetStringValueIsFirstPresent | src/parser.rs:74-97 | the result is the first present field in the priority order string, float, double, int, uint, sint, bool |
| Parser.FirstPresent | src/parser.rs:75-96 | picks the first `Some` of a candidate list, or "" when none is present |
| Parser.NatToString | src/parser.rs:84-89 | decimal text of an integer: non-empty, digits only, no leading zero |
| Parser.NatToStringRoundTrip | src/parser.rs:84-89 | reading the decimal text back yields the number |
| Parser.IntToString | src/parser.rs:84-92 | signed text starts with '-' exactly for negative numbers |
| Parser.DigitChar | src/parser.rs:84-89 | a digit below ten maps to the character with that offset from '0' |
| Parser.Position | src/lib.rs:246-249 | `Iterator::position`: None iff the target is absent, otherwise the first index holding it |
| Parser.LandIndexAsWritten | src/lib.rs:246-249 | the index as the source computes it: None iff no supported layer is named "land", otherwise the position of "land" in the list of supported names (not in the list of all layers) |
| Parser.LandLayerIndex | src/lib.rs:246-251 | the corrected layer selection: the first layer that is supported and named "land", None iff there is none |
| Parser.FirstLand | src/lib.rs:246-251 | the same search from a given layer onwards |
| Parser.LandSelectionsAgreeOnSending | src/lib.rs:246-251 | the as-written and corrected selections agree on whether a message is sent |
| Parser.LandIndexAsWrittenInRange | src/lib.rs:246-254 | the as-written index is still a valid layer index, so `get_features` does not answer None |
| Parser.LandSelectionsAgreeWhenAllSupported | src/lib.rs:246-254 | when no layer is skipped, the as-written and corrected indices coincide |
| Parser.LandIndexAsWrittenSelectsWrongLayer | src/lib.rs:246-254 | for a tile [water (version 3), land (version 2)] the as-written code selects layer 0, "water"; the corrected selection is layer 1 |
| Geo.Coords | src/ressource/tile/fill.rs:29-32 | two floats per coordinate, x then y, in order |
| Geo.FlattenOpenLength | src/ressource/tile/fill.rs:25-36 | flattening rings without their closing coordinate yields twice the open vertex count |
| Geo.FlattenClosedLength | src/bucket/mod.rs:171-175 | flattening whole rings yields twice the closed vertex count |
| Geo.FlattenOpenAppend | src/ressource/tile/fill.rs:25-36 | flattening distributes over concatenation of ring lists |
| Geo.ClosedExceedsOpen | src/bucket/mod.rs:162-168 | keeping the closing coordinates adds exactly one vertex per ring |
| TileGeometry.PushOpenRing | src/ressource/tile/fill.rs:27-32 | the push loop appends exactly the ring's coordinates without the closing one |
| TileGeometry.FlattenRings | src/ressource/tile/line.rs:64-76 | the ring loop yields the flattened open rings and hole indices `HoleIndices(rings, unit)` (unit 2 for Fill, 1 for Line) |
| TileGeometry.FlattenPolygon | src/ressource/tile/point.rs:83-91 | the Point tile's ring loop yields the flattened open rings |
| TileGeometry.HoleIndices | src/ressource/tile/fill.rs:33-35 | one hole index per ring after the first |
| TileGeometry.FillHolesAreRingStarts | src/ressource/tile/fill.rs:33-35 | Fill hole index k is the vertex where ring k+1 starts; the indices are non-decreasing and never exceed the vertex count |
| TileGeometry.FillHoleIsRingStart | src/ressource/tile/fill.rs:33-35 | one hole index is the open vertex count of the rings before it |
| TileGeometry.FillHolesOrdered | src/ressource/tile/fill.rs:33-35 | hole indices are ordered like the rings |
| TileGeometry.OpenVertexCountPrefix | src/ressource/tile/fill.rs:25-36 | a longer ring prefix has at least as many vertices |
| TileGeometry.LineHolesAreFloatOffsets | src/ressource/tile/line.rs:73-75 | the Line tile's hole indices are in floats: exactly twice the Fill tile's vertex indices |
| TileGeometry.FillPolygonErrorUnchanged | src/ressource/tile/fill.rs:47-49 | when earcut fails, the vertex and index buffers are unchanged |
| TileGeometry.FillPolygonKeepsIndicesInRange | src/ressource/tile/fill.rs:38-46 | if earcut's indices address its own vertices, every stored index still addresses a stored vertex after the offset shift |
| TileGeometry.FillPolygonsKeepIndicesInRange | src/ressource/tile/fill.rs:84-98 | the same over all polygons of a feature list |
| TileGeometry.FillPolygonsOnlyAppend | src/ressource/tile/fill.rs:84-98 | adding polygons never alters the vertices and indices already stored |
| TileGeometry.FillPolygonsAppend | src/ressource/tile/fill.rs:84-98 | adding two polygon lists equals adding their concatenation |
| TileGeometry.CollectionPolygonsMembers | src/ressource/tile/line.rs:49-88 | the polygons a Line or Point tile uses are exactly the Polygon members of the collection; other geometries are ignored |
| TileGeometry.LinePolygonPanicIff | src/ressource/tile/line.rs:77-78 | one polygon panics with "earcutr error" iff earcut fails on it |
| TileGeometry.LinePolygonsPanicIff | src/ressource/tile/line.rs:49-88 | the Line tile panics iff earcut fails on some polygon, instead of skipping it |
| TileGeometry.LinePolygonsPanicPersists | src/ressource/tile/line.rs:77-78 | after a panic, later polygons change nothing |
| TileGeometry.LinePolygonsAppend | src/ressource/tile/line.rs:49-88 | adding two polygon lists equals adding their concatenation while neither panics |
| TileGeometry.LineAndFillShareVertices | src/ressource/tile/line.rs:79-83 | when earcut succeeds everywhere, the Line tile stores the same vertices as the Fill tile |
| TileGeometry.PointVerticesLength | src/ressource/tile/point.rs:72-92 | the Point tile stores two floats per open vertex |
| TileGeometry.PointVerticesAreFillVertices | src/ressource/tile/point.rs:72-92 | the Point tile's vertices are those the Fill tile stores when earcut succeeds |
| TileGeometry.PointVerticesAppend | src/ressource/tile/point.rs:67-99 | Point vertices distribute over concatenation of polygon lists |
| TileGeometry.CollectionInputSplit | src/ressource/tile/line.rs:49-88 | the polygon list of a feature list splits at any feature and member, which is how the nested loops of the Line and Point tiles are proved |
| Ressource.ScopeIndex | src/ressource/mod.rs:17-22 | Global is 0, Material 1, Model 2 |
| Ressource.SortedScopes | src/ressource/mod.rs:40 | the registered scopes in strictly ascending order, as the `BTreeMap` iterates them |
| Ressource.SortedScopesComplete | src/ressource/mod.rs:40 | no registered scope is missed |
| Ressource.OrderedLayouts | src/ressource/mod.rs:99-100 | the layouts, one per registered scope, in ascending scope order |
| Ressource.OrderedLayoutsCount | src/ressource/mod.rs:99-100 | as many layouts as registered scopes |
| Ressource.PipelineSlotsMatchScopes | src/ressource/mod.rs:99-107 | with all three scopes registered, slot `s as u32` of a pipeline holds the layout of scope s |
| Ressource.PipelineSlotsWithoutGlobal | src/ressource/mod.rs:99-107 | without a Global layout the Material layout lands in slot 0, so slot 1 (the Material scope index) holds the Model layout |
| Ressource.RessourceManager.constructor | src/ressource/mod.rs:46-58 | two-phase construction: the layout map holds exactly the Material and Model scopes, the Common shader module is stored, the material cache is empty and the tile manager present |
| Ressource.RessourceManager.CreateShaderModule | src/ressource/mod.rs:60-76 | stores the module under its scope, overwriting, and returns that same module; nothing else changes |
| Ressource.RessourceManager.CreateBindGroup | src/ressource/mod.rs:78-88 | succeeds iff the scope has a registered layout, then binds that layout to the resource; otherwise the `unwrap` panic |
| Ressource.RessourceManager.CreateRenderPipeline | src/ressource/mod.rs:94-120 | the pipeline uses every registered layout in ascending scope order with the given vertex and fragment states |
| Ressource.RessourceManager.RegisterBindGroupLayout | src/ressource/mod.rs:122-129 | inserts or overwrites one scope's layout; other scopes and all other fields are unchanged |
| Ressource.RessourceManager.CreateTile | src/ressource/mod.rs:131-136 | a fresh tile of the requested bucket type over the extent, with empty buffers; the material cache gains the tile's material |
| Ressource.RessourceManager.GetMaterial | src/ressource/mod.rs:138-145 | returns the cached material of that type, or builds and caches one |
| Ressource.MaterialManager.constructor | src/ressource/material/mod.rs:60-87 | creates the Common shader module, registers the Material layout and starts with an empty cache |
| Ressource.MaterialManager.Get | src/ressource/material/mod.rs:89-124 | a hit returns the cached material and leaves the cache unchanged; a miss inserts exactly the new material; entries are never removed; a material is built on every call (ghost `built`), since the `or_insert` argument is evaluated eagerly |
| Ressource.BuildMaterial | src/ressource/material/mod.rs:97-122 | a material's pipeline uses all registered layouts in scope order with the type's vertex and fragment states, and its bind group holds the type's style in a uniform buffer under the Material layout |
| Ressource.StyleOf | src/ressource/material/fill.rs:29-34 | the style constants of the three materials: opaque fill colour, black stroke, stroke width 1.0 (2.0 × 0.5) for lines and 0 otherwise |
| Ressource.VertexStateOf | src/ressource/material/point.rs:7-23 | the vertex layouts: stride 16 for lines, 8 otherwise; only the Point material adds a second, per-instance layout |
| Ressource.FragmentStateOf | src/ressource/material/line.rs:16-24 | `fs_stroke` for lines, `fs_fill` otherwise, with the manager's texture format |
| Ressource.Set | src/ressource/material/mod.rs:40-43 | `Material::set` sets the pipeline, then binds its bind group at index 1 |
| Ressource.MaterialBindsInItsSlot | src/ressource/material/mod.rs:40-43 | with all three scopes registered, the layout in the slot `set` binds to is the material's own bind-group layout |
| Ressource.NewTileManager | src/ressource/tile/mod.rs:177-200 | registers the Model layout and changes nothing else |
| Ressource.View.constructor | src/ressource/view.rs:47-95 | identity view matrix, the given width and height, half sizes width·0.5 and height·0.5; the Global layout is registered before the bind group is made, so the lookup cannot fail |
| Ressource.View.Set | src/ressource/view.rs:97-109 | binds the view bind group at index 0, then writes the view buffer |
| Ressource.View.SetSize | src/ressource/view.rs:111-118 | width, height, half sizes and the buffered width and height agree with the new size; the matrix is unchanged |
| Ressource.View.SetViewMatrix | src/ressource/view.rs:120-122 | replaces only the matrix; `get_view_matrix` then returns it |
| Ressource.View.GetViewMatrix | src/ressource/view.rs:124-126 | the buffered matrix is a 4×4 matrix |
| Ressource.View.GetSize | src/ressource/view.rs:128-130 | the surface size equals the buffered width and height |
| Ressource.View.GetHalfSize | src/ressource/view.rs:132-134 | the half sizes are half the surface size |
| Ressource.RectBuffersWellFormed | src/ressource/tile/point.rs:13-14 | the rectangle has four distinct (±0.5, ±0.5) corners, and its six indices form two triangles whose indices are all below 4 |
| Ressource.Tile.NewFill | src/ressource/tile/fill.rs:54-81 | bucket type Fill, the given extent, empty CPU buffers, no GPU buffers, the Fill material from the cache, and the tile uniform bound under the Model layout |
| Ressource.Tile.NewLine | src/ressource/tile/line.rs:14-42 | bucket type Line, the given extent, empty buffers, no GPU buffers and the Line material |
| Ressource.Tile.NewPoint | src/ressource/tile/point.rs:17-61 | bucket type Point; the vertex and index GPU buffers hold the rectangle from the start; no instance buffer |
| Ressource.Tile.GetBucketType | src/ressource/tile/mod.rs:92-94 | returns the stored bucket type |
| Ressource.Tile.AddBuffers | src/ressource/tile/mod.rs:52-55 | sets both GPU buffers; nothing else changes |
| Ressource.Tile.Render | src/ressource/tile/mod.rs:57-90 | nothing is drawn unless both GPU buffers are present; otherwise the material is set, the model bind group goes to slot 2, the tile uniform gets `get_transforms` of the view, and the draw covers index-buffer bytes / 4 indices (the index count for a `u32` buffer) |
| Ressource.Tile.AddPolygon | src/ressource/tile/fill.rs:12-51 | the CPU buffers become `FillPolygon` of the old ones: open rings appended and earcut's indices shifted by the earlier vertex count, or nothing on an earcut error; GPU buffers untouched |
| Ressource.Tile.AddPolygons | src/ressource/tile/fill.rs:89-93 | a MultiPolygon's members are added in order |
| Ressource.Tile.AddGeometryFill | src/ressource/tile/fill.rs:85-97 | a Polygon or MultiPolygon adds its polygons; other geometries add nothing |
| Ressource.Tile.AddFeaturesFill | src/ressource/tile/fill.rs:83-115 | all features' polygons are added in order, then both GPU buffers hold the CPU buffers |
| Ressource.FillTileDrawsItsIndices | src/ressource/tile/fill.rs:83-115 | after filling, every index addresses a stored vertex and the draw count equals the index count |
| Ressource.Tile.AddLinePolygon | src/ressource/tile/line.rs:52-84 | one polygon: panics with "earcutr error" exactly when `LinePolygon` does, otherwise the CPU buffers become its result |
| Ressource.Tile.AddCollectionLine | src/ressource/tile/line.rs:65-88 | one collection: panics iff earcut fails on one of its polygons; otherwise the CPU buffers become `LinePolygons` of the old ones |
| Ressource.Tile.AddFeaturesLine | src/ressource/tile/line.rs:44-107 | all features: the same panic condition; on success both GPU buffers hold the CPU buffers |
| Ressource.Tile.AddCollectionPoint | src/ressource/tile/point.rs:69-98 | appends the open-ring coordinates of the collection's polygons to the vertices; indices untouched |
| Ressource.Tile.AddFeaturesPoint | src/ressource/tile/point.rs:63-108 | the same over all features; then the instance buffer holds the vertices |
| Transform.Mat4x4Mul | src/ressource/tile/mod.rs:97-109 | the triple loop computes the column-major product c[i][j] = Σk a[k][j]·b[i][k] |
| Transform.Mul | src/ressource/tile/mod.rs:97-109 | the product of two 4×4 matrices is a 4×4 matrix |
| Transform.MulEntryExpand | src/ressource/tile/mod.rs:101-107 | each entry of the product written out as its four-term sum |
| Transform.MulIdentity | src/ressource/tile/mod.rs:97-109 | the identity is neutral on both sides |
| Transform.Mat4x4MulVec4 | src/ressource/tile/mod.rs:111-120 | the double loop computes result[i] = Σj b[j]·a[j][i] |
| Transform.MulVec | src/ressource/tile/mod.rs:111-120 | matrix times vector is a 4-vector |
| Transform.MulVecEntryExpand | src/ressource/tile/mod.rs:114-118 | each entry written out as its four-term sum |
| Transform.MulVecCompose | src/ressource/tile/mod.rs:146-150 | applying a product equals applying its factors in turn, so the model-view matrix maps like view after model |
| Transform.TileTransform | src/ressource/tile/mod.rs:125-130 | the scale-and-translate matrix is 4×4 |
| Transform.FlipTileTransform | src/ressource/tile/mod.rs:131-136 | the Y-flip matrix is 4×4 |
| Transform.ModelMatrix | src/ressource/tile/mod.rs:124-138 | the model matrix is 4×4 |
| Transform.GetModelMatrix | src/ressource/tile/mod.rs:122-138 | computes `ModelMatrix` by the loops |
| Transform.ModelMatrixMapsPoint | src/ressource/tile/mod.rs:124-138 | maps tile point (x, y) to (extent[0] + s·x, extent[1] + s·(tile_size − y)), with s = (extent[2] − extent[0]) / tile_size on both axes |
| Transform.ToScreen | src/ressource/tile/mod.rs:153-158 | one projected point gives two screen coordinates |
| Transform.ScreenRect | src/ressource/tile/mod.rs:153-158 | clipping rect = ((min.x+1)·hw, (−min.y+1)·hh, (max.x+1)·hw, (−max.y+1)·hh) |
| Transform.Transforms | src/ressource/tile/mod.rs:140-164 | the uniform holds a 4×4 model-view matrix and a four-float clipping rect |
| Transform.GetTransforms | src/ressource/tile/mod.rs:140-164 | computes `Transforms` by the loops |
| Transform.ClippingRectCorners | src/ressource/tile/mod.rs:146-158 | the rect's corners are the view projections of the tile's world corners (extent[0], extent[1] + width) and (extent[2], extent[1]) |
| Transform.ModelViewMapsPoint | src/ressource/tile/mod.rs:146-147 | the model-view matrix maps a tile point to the view image of its world position |
| Transform.IdentityViewClippingRect | src/ressource/tile/mod.rs:140-164 | under the identity view the tile (0, 0)–(4096, 4096) on a 512×512 surface clips to [256, −1048320, 1048832, 256] |
| Bucket.AsU16 | src/bucket/mod.rs:182-184 | `as u16` keeps the value modulo 2^16 and leaves values below 2^16 alone |
| Bucket.AsU32 | src/bucket/mod.rs:144 | `as u32` keeps the value modulo 2^32 |
| Bucket.WrappingAddU16 | src/bucket/line.rs:183 | `u16` addition in a release build: the sum, less 2^16 when it does not fit |
| Bucket.PushRing | src/bucket/mod.rs:172-175 | the push loop appends every coordinate of the ring, the closing one included |
| Bucket.FlattenClosedRings | src/bucket/mod.rs:169-179 | the ring loop yields the flattened closed rings and the hole indices |
| Bucket.ClosedHoleIndices | src/bucket/mod.rs:176-178 | one hole index per ring after the first |
| Bucket.ClosedHolesAreFloatOffsets | src/bucket/mod.rs:176-178 | hole index k is in floats: twice the closed vertex count of rings 0..k |
| Bucket.CastU16 | src/bucket/mod.rs:182-184 | every earcut index is truncated to `u16`, with no vertex offset |
| Bucket.BucketIndicesIgnoreEarlierVertices | src/bucket/mod.rs:180-184 | the indices a polygon appends do not depend on the vertices already stored (no offset) |
| Bucket.BucketPolygonsVertexCount | src/bucket/mod.rs:156-190 | the vertex buffer grows by two floats per closed vertex |
| Bucket.BucketPolygonsKeepU16 | src/bucket/mod.rs:182-184 | every stored index fits in `u16` |
| Bucket.FeaturePolygonsMembers | src/bucket/mod.rs:156-190 | only Polygon features contribute; other geometries are ignored |
| Bucket.Bucket.constructor | src/bucket/mod.rs:40-125 | empty features and buffers, no GPU buffers, the world buffer initialised with the view matrix |
| Bucket.Bucket.Render | src/bucket/mod.rs:127-150 | nothing is drawn unless both GPU buffers are present; otherwise pipeline, bind group 0, world-matrix write, `u16` index buffer and a draw of `index_buffer.len() as u32` indices |
| Bucket.BucketDrawCoversIndexBuffer | src/bucket/mod.rs:144 | while the length fits in `u32`, that count is exactly the number of `u16` indices in the GPU buffer |
| Bucket.Bucket.AddFeatures | src/bucket/mod.rs:152-208 | the CPU buffers become `BucketPolygons` of the old ones, all input features move into `features`, and both GPU buffers hold the CPU buffers |
| Bucket.ShiftU16 | src/bucket/line.rs:179-183 | each index becomes (i as u16) + offset with `u16` wrap-around |
| Bucket.LineBucketMatchesLineTile | src/bucket/line.rs:178-183 | while every shifted index fits in `u16`, a polygon gets the same buffers as in the newer Line tile |
| Bucket.LineBucketOffsetWraps | src/bucket/line.rs:179-183 | with exactly 2^16 earlier vertices the offset truncates to 0, so each new index points into the old vertices |
| Bucket.LineBucketPolygonsAppend | src/bucket/line.rs:149-190 | adding two polygon lists equals adding their concatenation |
| Bucket.LineBucketPolygonsVertices | src/bucket/line.rs:164-180 | the vertices grow by exactly the open-ring coordinates, the same as the Point tile's |
| Bucket.LineBucket.NewLine | src/bucket/line.rs:130-142 | bucket type Line, a zero extent, empty features and buffers, no GPU buffers |
| Bucket.LineBucket.AddPolygon | src/bucket/line.rs:153-184 | one polygon: the CPU buffers become `LineBucketPolygon` of the old ones |
| Bucket.LineBucket.AddCollection | src/bucket/line.rs:150-189 | one collection: the CPU buffers become `LineBucketPolygons` over its polygons |
| Bucket.LineBucket.AddFeatures | src/bucket/line.rs:145-208 | all features: the same, all input features move into `features`, and both GPU buffers hold the CPU buffers |
| LegacyView.NewView | src/view.rs:13-25 | the given width and height; a 16-entry matrix with 1.0 at flat positions 0, 5, 10, 15 and 0.0 elsewhere |
| LegacyView.NewViewIsIdentity | src/view.rs:18-23 | read column by column, that matrix is the 4×4 identity |
| Tessellation.CeilDiv | src/tessellation/mod.rs:202 | `ceil(n / d)`: the least q with q·d ≥ n |
| Tessellation.CeilDivIsLeast | src/tessellation/mod.rs:202 | no smaller count covers n |
| Tessellation.Workgroups | src/tessellation/mod.rs:202 | count·256 ≥ index count, and (count − 1)·256 < index count |
| Tessellation.CreateBuffers | src/tessellation/mod.rs:101-137 | the storage inputs hold the vertices and indices unchanged; output vertex bytes = 16·4·len, output index bytes = 4·6·len, with their usages |
| Tessellation.Tessellate | src/tessellation/mod.rs:173-209 | binds the four buffers in order, dispatches enough 256-wide workgroups and returns the (output vertices, output indices) pair |
| Tessellation.OutputSlotsPerIndex | src/tessellation/mod.rs:105-107 | the outputs hold exactly 4 vertices of 16 bytes and 6 words per index |
| Tessellation.DispatchIsMinimal | src/tessellation/mod.rs:202-203 | no smaller workgroup count covers the indices |
| LineTessellation.VerticesCount | src/bucket/line_tessellation.rs:102 | (len − 1)·4, and panics on the `usize` underflow iff there are no indices |
| LineTessellation.CreateBuffers | src/bucket/line_tessellation.rs:99-134 | panics iff there are no indices; otherwise output vertex bytes = 16·count and output index bytes = 4·count |
| LineTessellation.Tessellate | src/bucket/line_tessellation.rs:170-215 | each reported size is the byte size of the buffer it is paired with, and ceil((len − 1)/256) workgroups cover the edges |
| LineTessellation.RevisionsDisagree | src/bucket/line_tessellation.rs:177-179 | for the same indices the newer revision allocates 64 more vertex bytes and 8·len + 16 more index bytes |
| Lib.Range | src/lib.rs:144-148 | `offset, …, offset + n − 1` |
| Lib.Strip | src/lib.rs:144-151 | one ring's strip: its n vertex indices from the offset, then the offset twice |
| Lib.PushRingStrip | src/lib.rs:142-152 | the inner loop appends the ring's open coordinates and its strip, and advances the offset by n |
| Lib.StripRings | src/lib.rs:140-157 | the ring loop gives `AddRings` from the offset, with the hole indices in floats (which the output never uses) |
| Lib.TriangulatePolygon | src/lib.rs:126-159 | only the exterior ring is used; the interiors are the empty slice, so there are no hole indices |
| Lib.TriangulateCollection | src/lib.rs:124-165 | adds the exteriors of the collection's polygons in order; other geometries are ignored |
| Lib.Triangulate | src/lib.rs:115-168 | the output is the strips of all polygon exteriors of all features in order, and the vertex count is twice the final offset |
| Lib.AddRingsShape | src/lib.rs:140-157 | two floats per open vertex; the offset advances by the vertex count; n + 2 indices per ring; earlier indices kept |
| Lib.RingStripAt | src/lib.rs:144-152 | ring k's indices sit right after those of rings 0..k and are `Strip(offset before k, n)` |
| Lib.VertexCountIsTwiceOffset | src/lib.rs:121-159 | after the whole run the vertex count is twice the final offset |
| Lib.IndicesBelowOffset | src/lib.rs:144-152 | when every ring has at least two coordinates, every index is below the final offset |
| Lib.AddRingsAppend | src/lib.rs:122-166 | the strip builder distributes over concatenation of ring lists |
| Lib.Exteriors | src/lib.rs:127-131 | one exterior ring per polygon, in order |
| Lib.MatrixOfFlat | src/lib.rs:97-102 | the 16 floats read as a 4×4 matrix with `m[i][j] = flat[i*4 + j]` |
| Lib.Flatten | src/lib.rs:97-102 | the inverse reading yields 16 floats |
| Lib.FlattenMatrixOfFlat | src/lib.rs:97-102 | round trip: flattening the matrix gives back the first 16 floats |
| Lib.MatrixOfFlatten | src/lib.rs:97-102 | round trip: reading a flattened matrix gives back the matrix |
| Lib.ViewMatrixArray | src/lib.rs:95-102 | the copy loop panics with "view matrix is wrong" iff fewer than 16 floats are given, otherwise yields `MatrixOfFlat` |
| Lib.MemberFeatures | src/lib.rs:209-217 | a feature's collection becomes one feature per member geometry, each with the same properties |
| Lib.EmptyCollectionsFillNothing | src/lib.rs:209-217 | features with empty collections give the Fill tile nothing to add |
| Lib.DrainOutcomeShape | src/lib.rs:171-235 | a drain consumes a prefix of the queue; every tile comes from an accepted message of the queue; a panic needs a message |
| Lib.DrainSpecFirst | src/lib.rs:172-224 | the first message decides: a None message is dropped; an empty list or a failed unwrap ends the drain; any other message becomes one more tile |
| Lib.AcceptedOf | src/lib.rs:174-221 | the messages that become tiles, all accepted |
| Lib.EmptyFeaturesStopDrain | src/lib.rs:175-177 | a message with an empty feature list returns at once; the messages behind it stay queued, with no panic |
| Lib.DrainConsumesAll | src/lib.rs:171-235 | if every message is dropped or becomes a tile, the drain empties the queue with one tile per accepted message, in order |
| Lib.LayerFeatures | src/parser.rs:43-51 | the queued features: one per layer feature, all with empty geometry |
| Lib.ParsedMessagesBuildEmptyTiles | src/lib.rs:251-258 | every message `add_pbf_tile_data` queues is well formed and yields a tile with empty buffers, since the parser gives empty geometries |
| Lib.Instance.constructor | src/lib.rs:22-27 | `Instance::default()`: no renderer, no tiles, a zero size, an empty queue |
| Lib.Instance.Init | src/lib.rs:269-277 | installs the renderer, clears the tiles, records the size; queued messages stay |
| Lib.Instance.BuildTile | src/lib.rs:204-221 | a fresh Fill tile over the message's extent, holding the Fill buffers of its features; earlier tiles keep their contents |
| Lib.Instance.Receive | src/lib.rs:172-224 | one turn: the first message is taken off the queue; exactly the accepted messages with a renderer push one fresh tile; the turn stops on an empty list or a failed unwrap, and panics only for the latter |
| Lib.Instance.Drain | src/lib.rs:170-236 | the queue left, the panic and the tiles pushed (in order, each built from its message) are those of `DrainSpec`; earlier tiles stay |
| Lib.Instance.Render | src/lib.rs:88-113 | drain first; then panic if there is no renderer, fewer than 16 matrix floats or fewer than 2 size entries; otherwise the view holds the copied matrix, and the size is recorded, with the answer "resized" exactly when width or height changed |
| Lib.Instance.AddPbfTileData | src/lib.rs:238-267 | uses the corrected layer selection `LandLayerIndex`, not the source's index (see Findings). A decode failure panics; without a supported "land" layer nothing is queued; otherwise exactly one message is queued, with that layer's features and the extent, iff its tags decode |
| TestUtils.GetViewMatrix | tests/utils.rs:95-103 | 16 floats |
| TestUtils.TestViewMatrixReadsAsTransform | tests/utils.rs:96-103 | read as `render` reads it, the test matrix is a scale by 7.713e-7 in x and y, the identity in z, followed by a translation |
| TestUtils.ReplaceChar | tests/utils.rs:108-109 | `replace(c, d)`: same length, c replaced by d position-wise, all else unchanged |
| TestUtils.SnapshotShape | tests/utils.rs:105-110 | the output starts with "data:image/png;base64,", has length prefix + input, and each input character is mapped to the standard alphabet |
| TestUtils.SnapshotIsStandardAlphabet | tests/utils.rs:105-110 | the output contains no '_' and no '-' |
| TestUtils.ReplacementsCommute | tests/utils.rs:108-109 | two replacements with unrelated characters commute |
| TestUtils.SnapshotReplacementsCommute | tests/utils.rs:105-110 | replacing '-' first gives the same snapshot |
| TestUtils.SnapshotRoundTrip | tests/utils.rs:105-110 | for input without '/' and '+', undoing the replacements after the prefix gives the input back |

## Left out

- Protocol-buffer decoding (`Parser::new`) is not modelled. `add_pbf_tile_data` receives the decoded tile, or None when decoding fails. Geometry decoding does not exist in the source.
- GPU work is not modelled: device calls, WGSL shaders, queue submission and render passes. Buffers, layouts, bind groups and pipelines are values, and a render pass is a command list. `min_binding_size: None` is written as 0.
- `earcutr::earcut` is a function parameter. Nothing is claimed about its output except where a lemma assumes it explicitly, as in `FillPolygonKeepsIndicesInRange`.
- Float rounding is not modelled. Matrices, half sizes, clipping rectangles, and the `f32` ceiling in the workgroup counts are over `real` or exact integers. The `f32` ceiling differs only for index counts of 2^24 or more.
- Float-to-string formatting is a `FloatText` parameter. Integers and booleans are rendered exactly.
- Concurrency and host glue are not modelled: `rayon::spawn`, `thread_local!`, `Rc<RefCell>`, and the wasm `spawn_local` branch of the drain (src/lib.rs:184-203). The drain's call to `triangulate` is modelled by `Triangulate` on its own, since outside the wasm branch nothing uses its result.
- The channel is a `queue` field of `Instance`. A message is sent by appending and received by taking the head. A `Disconnected` error cannot happen, because the sender lives as long as the receiver.
- `src/renderer.rs` is not part of this model. A `Renderer` is its view and its resource manager. `Instance.Render` therefore does not call `Renderer::set_size` or `Renderer::render`; it answers whether the size changed.
- Lib.Instance.Drain: the drain creates the tile with `Feature<GeometryCollection>` but fills it as Fill features. The model bridges this by giving each member geometry of a collection its own feature (`MemberFeatures`).
- Lib.Instance.Drain: it does not state that the new tiles are fresh objects. Only `Receive` and `BuildTile` state freshness, one tile at a time.
- The ring flatteners compute `len() - 1` in `usize`. For an empty ring they underflow and panic. The model makes non-empty rings a precondition of the tile builders (`GeometriesWellFormed`, `FillFeaturesWellFormed`) and of `triangulate`.
- Lib.Triangulate: the running offset is unbounded. The source's `u32` offset could overflow past 2^32 vertices.
- Lib.Instance.AddPbfTileData: it queues the features of the first supported layer named "land" (`Parser.LandLayerIndex`). The source passes the position of "land" among the supported names, which selects a different layer when an unsupported layer comes before it (`Parser.LandIndexAsWritten`, `Parser.LandIndexAsWrittenSelectsWrongLayer`). In that case the source may also panic on the other layer's tags, and the model does not show that panic.
- TileGeometry.FillPolygon: the offset `(len / 2) as u32` and the shifted index `(i as u32) + offset` are unbounded integers. The `u32` casts and the addition are not modelled. They could only overflow past 2^32 vertices.
- TileGeometry.LinePolygon: the same `u32` offset and addition are unbounded integers, with the same 2^32 bound.
- Ressource.Tile.Render: the draw count is bytes / 4 on an unbounded integer. The `u64` to `u32` casts are not modelled.
- Bucket.WrappingAddU16: it models a release build. A debug build would panic on the overflow instead.
- Moving features out of a `&mut Vec` (`append`) is modelled as concatenation onto `features`. The emptied input vector is not modelled.
- `Ressource.BucketType` is Fill | Line | Point. The enum in src/ressource/tile/mod.rs:15-18 lists only Fill and Line, while point.rs constructs `Point` and sets an `instance_wgpu_buffer` field that the struct lacks. The model follows point.rs.
- `Bucket.BucketType` is Fill | Line, declared locally because the older line.rs refers to a `BucketType` outside the shown files.
- The older line.rs also calls `view.get_half_size()`, which the old `View` (src/view.rs) lacks. Its transforms and style buffers, pipeline and bind group are not modelled. `Bucket.LineBucket.NewLine` takes no GPU inputs.
- The `MaterialType::Line` style in src/ressource/material/line.rs omits the `_pad` field. The model keeps only colours and width.
- `src/ressource/material/{fill,line,point}.rs` are reduced to their style constants, vertex strides and entry points.
- The test-only GPU helpers of the two tessellation files, `tests/render_test.rs`, the demos and `src/offscreen_window.rs` are not part of this model.

## Findings

| source | as written | input that shows it | evidently intended | confidence | as-written member | corrected member |
|---|---|---|---|---|---|---|
| src/lib.rs:246-254 | the position of "land" in the list of supported layer names (versions 1 and 2 only) is passed to `get_features`, which indexes the unfiltered layer list | a tile with layers [water (version 3), land (version 2)]: "land" is at position 0 of the filtered names, so `get_features(0)` queues the features of "water" | queue the features of the first supported layer named "land", i.e. index 1 | not executed | Parser.LandIndexAsWritten (counterexample: Parser.LandIndexAsWrittenSelectsWrongLayer) | Parser.LandLayerIndex (used by Lib.Instance.AddPbfTileData) |
