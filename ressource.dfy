/**
 * The resource registries and the tiles of src/ressource: the
 * RessourceManager with its ordered bind-group-layout map and shader-module
 * map, the MaterialManager cache, the View uniform state and the Fill, Line
 * and Point tiles with their CPU buffers. They refer to one another (a tile
 * asks the manager for its material, the managers register layouts in the
 * RessourceManager), so they share one module.
 */
module Ressource {
  import opened Wrappers
  import opened Geo
  import opened Transform
  import opened Gpu
  import opened TileGeometry

  // ---------------------------------------------------------------------------
  // Scopes and layouts

  /** Bind-group slots, ordered by their discriminant (`Ord` is derived). */
  datatype BindGroupScope = GlobalScope | MaterialScope | ModelScope

  /** `scope as u32`: the slot index passed to `set_bind_group`. */
  function ScopeIndex(s: BindGroupScope): (i: nat)
    ensures i < 3
  {
    match s
    case GlobalScope => 0
    case MaterialScope => 1
    case ModelScope => 2
  }

  datatype ShaderModuleScope = Common

  /** The layout View::new registers: the ViewBuffer, visible to the vertex stage. */
  const GlobalLayout: BindGroupLayout := BindGroupLayout(VertexStage, ViewBufferSize)
  /** The layout MaterialManager::new registers: the Style block. */
  const MaterialLayout: BindGroupLayout := BindGroupLayout(VertexFragmentStage, StyleSize)
  /** The layout TileManager::new registers: the TileUniform block. */
  const ModelLayout: BindGroupLayout := BindGroupLayout(VertexFragmentStage, TileUniformSize)

  /** The registered scopes in ascending order, as a `BTreeMap` iterates its keys. */
  function SortedScopes(keys: set<BindGroupScope>): (r: seq<BindGroupScope>)
    ensures forall i, j :: 0 <= i < j < |r| ==> ScopeIndex(r[i]) < ScopeIndex(r[j])
    ensures forall s :: s in r ==> s in keys
  {
    (if GlobalScope in keys then [GlobalScope] else [])
    + (if MaterialScope in keys then [MaterialScope] else [])
    + (if ModelScope in keys then [ModelScope] else [])
  }

  /** Every registered scope is listed. */
  lemma SortedScopesComplete(keys: set<BindGroupScope>)
    ensures forall s :: s in keys ==> s in SortedScopes(keys)
  {
    forall s | s in keys
      ensures s in SortedScopes(keys)
    {
      match s {
        case GlobalScope =>
        case MaterialScope =>
        case ModelScope =>
      }
    }
  }

  /** `bind_group_layouts.values()`: the layouts in ascending scope order. */
  function OrderedLayouts(layouts: map<BindGroupScope, BindGroupLayout>): (r: seq<BindGroupLayout>)
    ensures |r| == |SortedScopes(layouts.Keys)|
    ensures forall i :: 0 <= i < |r| ==> r[i] == layouts[SortedScopes(layouts.Keys)[i]]
  {
    var scopes := SortedScopes(layouts.Keys);
    seq(|scopes|, i requires 0 <= i < |scopes| => layouts[scopes[i]])
  }

  /** One layout per registered scope: the pipeline layout has as many entries as the map. */
  lemma OrderedLayoutsCount(layouts: map<BindGroupScope, BindGroupLayout>)
    ensures |OrderedLayouts(layouts)| == |layouts.Keys|
  {
    var keys := layouts.Keys;
    forall s | s in keys
      ensures s == GlobalScope || s == MaterialScope || s == ModelScope
    {
      match s {
        case GlobalScope =>
        case MaterialScope =>
        case ModelScope =>
      }
    }
    if GlobalScope in keys {
      if MaterialScope in keys {
        if ModelScope in keys { assert keys == {GlobalScope, MaterialScope, ModelScope}; }
        else { assert keys == {GlobalScope, MaterialScope}; }
      } else {
        if ModelScope in keys { assert keys == {GlobalScope, ModelScope}; }
        else { assert keys == {GlobalScope}; }
      }
    } else {
      if MaterialScope in keys {
        if ModelScope in keys { assert keys == {MaterialScope, ModelScope}; }
        else { assert keys == {MaterialScope}; }
      } else {
        if ModelScope in keys { assert keys == {ModelScope}; }
        else { assert keys == {}; }
      }
    }
  }

  /**
   * Once all three scopes are registered, pipeline layout slot `ScopeIndex(s)`
   * holds the layout of scope `s`, so `set_bind_group(scope as u32, ..)`
   * binds each group where the pipeline expects its layout.
   */
  lemma PipelineSlotsMatchScopes(layouts: map<BindGroupScope, BindGroupLayout>)
    requires layouts.Keys == {GlobalScope, MaterialScope, ModelScope}
    ensures |OrderedLayouts(layouts)| == 3
    ensures forall s :: OrderedLayouts(layouts)[ScopeIndex(s)] == layouts[s]
  {
    var scopes := SortedScopes(layouts.Keys);
    assert GlobalScope in layouts.Keys && MaterialScope in layouts.Keys && ModelScope in layouts.Keys;
    assert scopes == [GlobalScope, MaterialScope, ModelScope];
    var r := OrderedLayouts(layouts);
    forall s
      ensures s in layouts && r[ScopeIndex(s)] == layouts[s]
    {
      match s {
        case GlobalScope =>
        case MaterialScope =>
        case ModelScope =>
      }
    }
  }

  /**
   * Without the Global scope the slots shift down: slot 1, where materials
   * bind their Style group, holds the Model layout.
   */
  lemma PipelineSlotsWithoutGlobal(layouts: map<BindGroupScope, BindGroupLayout>)
    requires layouts.Keys == {MaterialScope, ModelScope}
    ensures OrderedLayouts(layouts) == [layouts[MaterialScope], layouts[ModelScope]]
    ensures OrderedLayouts(layouts)[ScopeIndex(MaterialScope)] == layouts[ModelScope]
  {
    assert GlobalScope !in layouts.Keys && MaterialScope in layouts.Keys && ModelScope in layouts.Keys;
    assert SortedScopes(layouts.Keys) == [MaterialScope, ModelScope];
  }

  /** The panic of `Option::unwrap` on `None`. */
  const UnwrapNone: string := "called `Option::unwrap()` on a `None` value"

  /** The common WGSL module is included from this file; its text is not part of this model. */
  const CommonShaderSource: string := "shader/common.wgsl"

  // ---------------------------------------------------------------------------
  // RessourceManager

  class RessourceManager {
    const textureFormat: TextureFormat
    var materialManager: Option<MaterialManager>
    var tileManager: Option<TileManager>
    var bindGroupLayouts: map<BindGroupScope, BindGroupLayout>
    var shaderModules: map<ShaderModuleScope, ShaderModule>

    /** What `new` establishes and nothing later undoes. */
    predicate Valid()
      reads this
    {
      && materialManager.Some?
      && tileManager.Some?
      && MaterialScope in bindGroupLayouts
      && ModelScope in bindGroupLayouts
    }

    /**
     * Two-phase construction: empty registries first, then the material
     * manager and the tile manager, each registering its layout in `this`.
     */
    constructor (textureFormat: TextureFormat)
      ensures Valid()
      ensures this.textureFormat == textureFormat
      ensures bindGroupLayouts == map[MaterialScope := MaterialLayout, ModelScope := ModelLayout]
      ensures shaderModules == map[Common := ShaderModule(CommonShaderSource)]
      ensures fresh(materialManager.value)
      ensures materialManager.value.shaderModule == ShaderModule(CommonShaderSource)
      ensures materialManager.value.materials == map[]
      ensures tileManager == Some(TileManager)
    {
      this.textureFormat := textureFormat;
      materialManager := None;
      tileManager := None;
      bindGroupLayouts := map[];
      shaderModules := map[];
      new;
      var mm := new MaterialManager(this);
      materialManager := Some(mm);
      var tm := NewTileManager(this);
      tileManager := Some(tm);
    }

    /** Store a new shader module under `scope`, replacing any earlier one, and hand back the same module. */
    method CreateShaderModule(scope: ShaderModuleScope, code: string) returns (m: ShaderModule)
      modifies this
      ensures m == ShaderModule(code)
      ensures shaderModules == old(shaderModules)[scope := m]
      ensures bindGroupLayouts == old(bindGroupLayouts)
      ensures materialManager == old(materialManager) && tileManager == old(tileManager)
    {
      m := ShaderModule(code);
      shaderModules := shaderModules[scope := m];
    }

    /** A bind group over `resource` with the layout registered for `scope`; panics when none is. */
    function CreateBindGroup(scope: BindGroupScope, resource: GpuBuffer): (r: Fallible<BindGroup>)
      reads this
      ensures r.Returned? <==> scope in bindGroupLayouts
      ensures r.Returned? ==> r.value.layout == bindGroupLayouts[scope] && r.value.resource == resource
      ensures r.Panicked? ==> r.reason == UnwrapNone
    {
      if scope in bindGroupLayouts then Returned(BindGroup(bindGroupLayouts[scope], resource))
      else Panicked(UnwrapNone)
    }

    /** A pipeline whose layout lists every registered bind-group layout in ascending scope order. */
    function CreateRenderPipeline(vertex: VertexState, fragment: FragmentState): (p: RenderPipeline)
      reads this
      ensures |p.layouts| == |SortedScopes(bindGroupLayouts.Keys)|
      ensures forall i :: 0 <= i < |p.layouts| ==> p.layouts[i] == bindGroupLayouts[SortedScopes(bindGroupLayouts.Keys)[i]]
      ensures p.vertex == vertex && p.fragment == fragment
    {
      RenderPipeline(OrderedLayouts(bindGroupLayouts), vertex, fragment)
    }

    /** Insert or replace the layout of one scope; every other scope keeps its layout. */
    method RegisterBindGroupLayout(scope: BindGroupScope, layout: BindGroupLayout)
      modifies this
      ensures bindGroupLayouts == old(bindGroupLayouts)[scope := layout]
      ensures forall s :: s != scope && s in old(bindGroupLayouts) ==> s in bindGroupLayouts && bindGroupLayouts[s] == old(bindGroupLayouts)[s]
      ensures shaderModules == old(shaderModules)
      ensures materialManager == old(materialManager) && tileManager == old(tileManager)
    {
      bindGroupLayouts := bindGroupLayouts[scope := layout];
    }

    /** A new, empty tile of the requested kind over `extent`. */
    method CreateTile(bucketType: BucketType, extent: seq<real>) returns (t: Tile)
      requires Valid() && |extent| == 4
      modifies materialManager.value
      ensures fresh(t)
      ensures t.GetBucketType() == bucketType && t.extent == extent
      ensures t.vertexBuffer == [] && t.indexBuffer == [] && t.instanceGpuBuffer == None
      ensures materialManager.value.materials == old(materialManager.value.materials)[MaterialFor(bucketType) := t.material]
    {
      if bucketType == Fill {
        t := new Tile.NewFill(this, extent);
      } else if bucketType == Line {
        t := new Tile.NewLine(this, extent);
      } else {
        t := new Tile.NewPoint(this, extent);
      }
    }

    /** The cached material of the given type, built and cached on first use. */
    method GetMaterial(materialType: MaterialType) returns (m: Material)
      requires Valid()
      modifies materialManager.value
      ensures materialManager.value.materials == old(materialManager.value.materials)[materialType := m]
      ensures materialType in old(materialManager.value.materials) ==> m == old(materialManager.value.materials)[materialType]
      ensures materialType !in old(materialManager.value.materials) ==>
        m == BuildMaterial(this, materialType, materialManager.value.shaderModule)
    {
      ghost var built;
      m, built := materialManager.value.Get(this, materialType);
    }
  }

  // ---------------------------------------------------------------------------
  // Materials

  datatype MaterialType = FillMaterial | LineMaterial | PointMaterial

  /** The material a tile of each kind asks for. */
  function MaterialFor(b: BucketType): MaterialType
  {
    match b
    case Fill => FillMaterial
    case Line => LineMaterial
    case Point => PointMaterial
  }

  /** Colours and stroke width per material (src/ressource/material/{fill,line,point}.rs). */
  function StyleOf(t: MaterialType): (s: Style)
    ensures |s.fillColor| == 4 && |s.strokeColor| == 4 && s.fillColor[3] == 1.0
    ensures s.strokeColor == [0.0, 0.0, 0.0, 1.0]
    ensures s.strokeWidth == (if t == LineMaterial then 1.0 else 0.0)
  {
    match t
    case FillMaterial => Style([0.506, 0.694, 0.31, 1.0], [0.0, 0.0, 0.0, 1.0], 0.0)
    // half the stroke width of 2.0, because the stroke buffer is double sided
    case LineMaterial => Style([0.0, 0.0, 0.0, 1.0], [0.0, 0.0, 0.0, 1.0], 2.0 * 0.5)
    case PointMaterial => Style([1.0, 0.0, 0.0, 1.0], [0.0, 0.0, 0.0, 1.0], 0.0)
  }

  /** Entry point and vertex-buffer layouts of each material's vertex stage. */
  function VertexStateOf(t: MaterialType, shaderModule: ShaderModule): (v: VertexState)
    ensures v.shaderModule == shaderModule && |v.buffers| >= 1 && v.buffers[0].stepMode == PerVertex
    ensures v.buffers[0].arrayStride == (if t == LineMaterial then 16 else 4 * Dimensions)
    ensures t == PointMaterial <==> |v.buffers| == 2
  {
    match t
    case FillMaterial => VertexState(shaderModule, "vs_fill", [VertexBufferLayout(8, PerVertex)])
    case LineMaterial => VertexState(shaderModule, "vs_stroke", [VertexBufferLayout(16, PerVertex)])
    case PointMaterial =>
      VertexState(shaderModule, "vs_point", [VertexBufferLayout(8, PerVertex), VertexBufferLayout(8, PerInstance)])
  }

  function FragmentStateOf(t: MaterialType, shaderModule: ShaderModule, format: TextureFormat): (f: FragmentState)
    ensures f.shaderModule == shaderModule && f.format == format
    ensures f.entryPoint == (if t == LineMaterial then "fs_stroke" else "fs_fill")
  {
    FragmentState(shaderModule, if t == LineMaterial then "fs_stroke" else "fs_fill", format)
  }

  /** A material: its render pipeline and its Style bind group. */
  datatype Material = Material(pipeline: RenderPipeline, bindGroup: BindGroup)
  {
    /** Material::set: the pipeline, then the Style group in the Material slot. */
    function Set(): (commands: seq<PassCommand>)
      ensures |commands| == 2 && commands[0] == SetPipeline(pipeline)
      ensures commands[1].SetBindGroup? && commands[1].index == 1 && commands[1].group == bindGroup
    {
      [SetPipeline(pipeline), SetBindGroup(ScopeIndex(MaterialScope), bindGroup)]
    }
  }

  /**
   * `CreatePipeline::new` for one material type: a pipeline over the layouts
   * registered at that moment and a bind group over a uniform buffer holding
   * the material's Style.
   */
  function BuildMaterial(rm: RessourceManager, t: MaterialType, shaderModule: ShaderModule): (m: Material)
    requires MaterialScope in rm.bindGroupLayouts
    reads rm
    ensures m.pipeline.layouts == OrderedLayouts(rm.bindGroupLayouts)
    ensures m.pipeline.vertex == VertexStateOf(t, shaderModule)
    ensures m.pipeline.fragment == FragmentStateOf(t, shaderModule, rm.textureFormat)
    ensures m.bindGroup.layout == rm.bindGroupLayouts[MaterialScope]
    ensures m.bindGroup.resource.contents == Block(StyleBlock(StyleOf(t)))
    ensures m.bindGroup.resource.usage == {UniformUsage}
  {
    var styleBuffer := CreateBufferInit(Block(StyleBlock(StyleOf(t))), {UniformUsage});
    var pipeline := rm.CreateRenderPipeline(VertexStateOf(t, shaderModule), FragmentStateOf(t, shaderModule, rm.textureFormat));
    Material(pipeline, rm.CreateBindGroup(MaterialScope, styleBuffer).value)
  }

  /**
   * A material built once every scope is registered binds its Style group in
   * the slot whose pipeline layout is the Material layout.
   */
  lemma MaterialBindsInItsSlot(rm: RessourceManager, t: MaterialType, shaderModule: ShaderModule)
    requires rm.bindGroupLayouts.Keys == {GlobalScope, MaterialScope, ModelScope}
    ensures var m := BuildMaterial(rm, t, shaderModule);
      m.pipeline.layouts[m.Set()[1].index] == m.bindGroup.layout
  {
    PipelineSlotsMatchScopes(rm.bindGroupLayouts);
  }

  class MaterialManager {
    const shaderModule: ShaderModule
    var materials: map<MaterialType, Material>

    /** Creates the Common shader module and registers the Material layout; the cache starts empty. */
    constructor (rm: RessourceManager)
      modifies rm
      ensures shaderModule == ShaderModule(CommonShaderSource) && materials == map[]
      ensures rm.shaderModules == old(rm.shaderModules)[Common := shaderModule]
      ensures rm.bindGroupLayouts == old(rm.bindGroupLayouts)[MaterialScope := MaterialLayout]
      ensures rm.materialManager == old(rm.materialManager) && rm.tileManager == old(rm.tileManager)
    {
      var sm := rm.CreateShaderModule(Common, CommonShaderSource);
      rm.RegisterBindGroupLayout(MaterialScope, MaterialLayout);
      shaderModule := sm;
      materials := map[];
    }

    /**
     * `entry(t).or_insert(..)`: the argument of `or_insert` is evaluated first,
     * so a candidate material (`built`) is made on every call; it is cached and
     * returned only on a miss, and dropped on a hit. Entries are never removed.
     */
    method Get(rm: RessourceManager, t: MaterialType) returns (m: Material, ghost built: Material)
      requires MaterialScope in rm.bindGroupLayouts
      modifies this
      ensures built == BuildMaterial(rm, t, shaderModule)
      ensures t in old(materials) ==> m == old(materials)[t] && materials == old(materials)
      ensures t !in old(materials) ==> m == built && materials == old(materials)[t := built]
      ensures old(materials).Keys <= materials.Keys && t in materials && materials[t] == m
    {
      var candidate := BuildMaterial(rm, t, shaderModule);
      built := candidate;
      if t !in materials {
        materials := materials[t := candidate];
      }
      m := materials[t];
    }
  }

  // ---------------------------------------------------------------------------
  // TileManager

  /** TileManager is a unit struct; creating it registers the Model layout. */
  datatype TileManager = TileManager

  method NewTileManager(rm: RessourceManager) returns (tm: TileManager)
    modifies rm
    ensures rm.bindGroupLayouts == old(rm.bindGroupLayouts)[ModelScope := ModelLayout]
    ensures rm.shaderModules == old(rm.shaderModules)
    ensures rm.materialManager == old(rm.materialManager) && rm.tileManager == old(rm.tileManager)
    ensures tm == TileManager
  {
    rm.RegisterBindGroupLayout(ModelScope, ModelLayout);
    tm := TileManager;
  }

  // ---------------------------------------------------------------------------
  // View

  class View {
    const bindGroup: BindGroup
    const viewMatrixBuffer: GpuBuffer
    var width: nat
    var height: nat
    var halfWidth: real
    var halfHeight: real
    var viewBuffer: ViewBuffer

    /** Size, half size and the size copied into the uniform block agree. */
    predicate Valid()
      reads this
    {
      && halfWidth == width as real * 0.5
      && halfHeight == height as real * 0.5
      && viewBuffer.width == width
      && viewBuffer.height == height
      && IsMat4(viewBuffer.viewMatrix)
    }

    /**
     * The identity view matrix and the given size; the Global layout is
     * registered before the Global bind group is made, so that lookup succeeds.
     */
    constructor (width: nat, height: nat, rm: RessourceManager)
      modifies rm
      ensures Valid()
      ensures this.width == width && this.height == height
      ensures viewBuffer == ViewBuffer(Identity, width, height)
      ensures viewMatrixBuffer == CreateBufferInit(Block(ViewBufferBlock(ViewBuffer(Identity, width, height))), {UniformUsage, CopyDst})
      ensures bindGroup == BindGroup(GlobalLayout, viewMatrixBuffer)
      ensures rm.bindGroupLayouts == old(rm.bindGroupLayouts)[GlobalScope := GlobalLayout]
      ensures rm.shaderModules == old(rm.shaderModules)
      ensures rm.materialManager == old(rm.materialManager) && rm.tileManager == old(rm.tileManager)
    {
      var initial := ViewBuffer(Identity, width, height);
      var buffer := CreateBufferInit(Block(ViewBufferBlock(initial)), {UniformUsage, CopyDst});
      rm.RegisterBindGroupLayout(GlobalScope, GlobalLayout);
      var group := rm.CreateBindGroup(GlobalScope, buffer);
      bindGroup := group.value;
      this.width := width;
      this.height := height;
      halfWidth := width as real * 0.5;
      halfHeight := height as real * 0.5;
      viewBuffer := initial;
      viewMatrixBuffer := buffer;
    }

    /** View::set: the Global group in slot 0, then the current ViewBuffer written to its buffer. */
    function Set(): (commands: seq<PassCommand>)
      reads this
      ensures |commands| == 2
      ensures commands[0].SetBindGroup? && commands[0].index == 0 && commands[0].group == bindGroup
      ensures commands[1] == WriteBuffer(viewMatrixBuffer, ViewBufferBlock(viewBuffer))
    {
      [SetBindGroup(ScopeIndex(GlobalScope), bindGroup), WriteBuffer(viewMatrixBuffer, ViewBufferBlock(viewBuffer))]
    }

    /** New surface size: width, height, half sizes and the uniform's size change together; the matrix stays. */
    method SetSize(width: nat, height: nat)
      requires Valid()
      modifies this
      ensures Valid()
      ensures GetSize() == (width, height)
      ensures GetHalfSize() == (width as real * 0.5, height as real * 0.5)
      ensures viewBuffer == old(viewBuffer).(width := width, height := height)
    {
      this.width := width;
      this.height := height;
      halfWidth := width as real * 0.5;
      halfHeight := height as real * 0.5;
      viewBuffer := viewBuffer.(width := width, height := height);
    }

    /** Replace the view matrix and nothing else. */
    method SetViewMatrix(viewMatrix: Matrix)
      requires Valid() && IsMat4(viewMatrix)
      modifies this
      ensures Valid()
      ensures GetViewMatrix() == viewMatrix
      ensures viewBuffer == old(viewBuffer).(viewMatrix := viewMatrix)
      ensures width == old(width) && height == old(height)
      ensures halfWidth == old(halfWidth) && halfHeight == old(halfHeight)
    {
      viewBuffer := viewBuffer.(viewMatrix := viewMatrix);
    }

    function GetViewMatrix(): (m: Matrix)
      reads this
      ensures Valid() ==> IsMat4(m)
    {
      viewBuffer.viewMatrix
    }

    function GetSize(): (size: (nat, nat))
      reads this
      ensures Valid() ==> size == (viewBuffer.width, viewBuffer.height)
    {
      (width, height)
    }

    function GetHalfSize(): (half: (real, real))
      reads this
      ensures Valid() ==> half == (GetSize().0 as real * 0.5, GetSize().1 as real * 0.5)
    {
      (halfWidth, halfHeight)
    }
  }

  // ---------------------------------------------------------------------------
  // Tiles

  /** The tile kinds (the enum in src/ressource/tile/mod.rs lists only Fill and Line; point.rs uses Point). */
  datatype BucketType = Fill | Line | Point

  const ZeroMatrix: Matrix := [[0.0, 0.0, 0.0, 0.0], [0.0, 0.0, 0.0, 0.0], [0.0, 0.0, 0.0, 0.0], [0.0, 0.0, 0.0, 0.0]]

  /** `TileUniform::default()`: all zeros. */
  const DefaultTileUniform: TileUniform := TileUniform(ZeroMatrix, [0.0, 0.0, 0.0, 0.0])

  /** The unit square the Point tile instances, as four corners. */
  const RectVertexBuffer: seq<real> := [-0.5, -0.5, 0.5, -0.5, 0.5, 0.5, -0.5, 0.5]
  /** Two triangles over the four corners. */
  const RectIndicesBuffer: seq<nat> := [0, 1, 2, 2, 3, 0]

  /** The rectangle's corners are (±0.5, ±0.5), all four distinct, and its six indices name them. */
  lemma RectBuffersWellFormed()
    ensures |RectVertexBuffer| == 4 * Dimensions && |RectIndicesBuffer| == 6
    ensures forall i :: 0 <= i < |RectVertexBuffer| ==> RectVertexBuffer[i] == 0.5 || RectVertexBuffer[i] == -0.5
    ensures forall c, d :: 0 <= c < d < 4 ==>
      (RectVertexBuffer[2 * c], RectVertexBuffer[2 * c + 1]) != (RectVertexBuffer[2 * d], RectVertexBuffer[2 * d + 1])
    ensures forall i :: 0 <= i < |RectIndicesBuffer| ==> RectIndicesBuffer[i] < |RectVertexBuffer| / Dimensions
    ensures IndicesInRange(Buffers(RectVertexBuffer, RectIndicesBuffer))
  {
  }

  class Tile {
    const material: Material
    const bindGroup: BindGroup
    const tileUniformBuffer: GpuBuffer
    const extent: seq<real>
    const bucketType: BucketType
    var vertexGpuBuffer: Option<GpuBuffer>
    var vertexBuffer: seq<real>
    var indexGpuBuffer: Option<GpuBuffer>
    var indexBuffer: seq<nat>
    var instanceGpuBuffer: Option<GpuBuffer>

    /** The CPU buffers as one value. */
    function CpuBuffers(): Buffers
      reads this
    {
      Buffers(vertexBuffer, indexBuffer)
    }

    /** Fill `Bucket::new`: empty CPU buffers, no GPU buffers, the Fill material and the Model bind group. */
    constructor NewFill(rm: RessourceManager, extent: seq<real>)
      requires rm.Valid() && |extent| == 4
      modifies rm.materialManager.value
      ensures bucketType == Fill && this.extent == extent
      ensures vertexBuffer == [] && indexBuffer == []
      ensures vertexGpuBuffer == None && indexGpuBuffer == None && instanceGpuBuffer == None
      ensures tileUniformBuffer == CreateBufferInit(Block(TileUniformBlock(DefaultTileUniform)), {UniformUsage, CopyDst})
      ensures bindGroup == BindGroup(rm.bindGroupLayouts[ModelScope], tileUniformBuffer)
      ensures rm.materialManager.value.materials == old(rm.materialManager.value.materials)[FillMaterial := material]
      ensures material == rm.materialManager.value.materials[FillMaterial]
    {
      var uniform := CreateBufferInit(Block(TileUniformBlock(DefaultTileUniform)), {UniformUsage, CopyDst});
      var group := rm.CreateBindGroup(ModelScope, uniform);
      var m := rm.GetMaterial(FillMaterial);
      material := m;
      bindGroup := group.value;
      tileUniformBuffer := uniform;
      vertexGpuBuffer := None;
      vertexBuffer := [];
      indexGpuBuffer := None;
      indexBuffer := [];
      instanceGpuBuffer := None;
      this.extent := extent;
      bucketType := Fill;
    }

    /** Line `Bucket::new`: as the Fill tile, with the Line material and bucket type. */
    constructor NewLine(rm: RessourceManager, extent: seq<real>)
      requires rm.Valid() && |extent| == 4
      modifies rm.materialManager.value
      ensures bucketType == Line && this.extent == extent
      ensures vertexBuffer == [] && indexBuffer == []
      ensures vertexGpuBuffer == None && indexGpuBuffer == None && instanceGpuBuffer == None
      ensures tileUniformBuffer == CreateBufferInit(Block(TileUniformBlock(DefaultTileUniform)), {UniformUsage, CopyDst})
      ensures bindGroup == BindGroup(rm.bindGroupLayouts[ModelScope], tileUniformBuffer)
      ensures rm.materialManager.value.materials == old(rm.materialManager.value.materials)[LineMaterial := material]
      ensures material == rm.materialManager.value.materials[LineMaterial]
    {
      var uniform := CreateBufferInit(Block(TileUniformBlock(DefaultTileUniform)), {UniformUsage, CopyDst});
      var group := rm.CreateBindGroup(ModelScope, uniform);
      var m := rm.GetMaterial(LineMaterial);
      material := m;
      bindGroup := group.value;
      tileUniformBuffer := uniform;
      vertexGpuBuffer := None;
      vertexBuffer := [];
      indexGpuBuffer := None;
      indexBuffer := [];
      instanceGpuBuffer := None;
      this.extent := extent;
      bucketType := Line;
    }

    /** Point `Bucket::new`: the rectangle's GPU buffers are set at once; no instance buffer yet. */
    constructor NewPoint(rm: RessourceManager, extent: seq<real>)
      requires rm.Valid() && |extent| == 4
      modifies rm.materialManager.value
      ensures bucketType == Point && this.extent == extent
      ensures vertexBuffer == [] && indexBuffer == []
      ensures vertexGpuBuffer == Some(CreateBufferInit(Floats(RectVertexBuffer), {VertexUsage}))
      ensures indexGpuBuffer == Some(CreateBufferInit(Words(RectIndicesBuffer), {IndexUsage}))
      ensures instanceGpuBuffer == None
      ensures tileUniformBuffer == CreateBufferInit(Block(TileUniformBlock(DefaultTileUniform)), {UniformUsage, CopyDst})
      ensures bindGroup == BindGroup(rm.bindGroupLayouts[ModelScope], tileUniformBuffer)
      ensures rm.materialManager.value.materials == old(rm.materialManager.value.materials)[PointMaterial := material]
      ensures material == rm.materialManager.value.materials[PointMaterial]
    {
      var uniform := CreateBufferInit(Block(TileUniformBlock(DefaultTileUniform)), {UniformUsage, CopyDst});
      var group := rm.CreateBindGroup(ModelScope, uniform);
      var vertices := CreateBufferInit(Floats(RectVertexBuffer), {VertexUsage});
      var indices := CreateBufferInit(Words(RectIndicesBuffer), {IndexUsage});
      var m := rm.GetMaterial(PointMaterial);
      material := m;
      bindGroup := group.value;
      tileUniformBuffer := uniform;
      vertexGpuBuffer := Some(vertices);
      vertexBuffer := [];
      indexGpuBuffer := Some(indices);
      indexBuffer := [];
      instanceGpuBuffer := None;
      this.extent := extent;
      bucketType := Point;
    }

    function GetBucketType(): (b: BucketType)
      reads this
      ensures b == bucketType
    {
      bucketType
    }

    /** Set both GPU buffers; nothing else changes. */
    method AddBuffers(vertices: GpuBuffer, indices: GpuBuffer)
      modifies this
      ensures vertexGpuBuffer == Some(vertices) && indexGpuBuffer == Some(indices)
      ensures vertexBuffer == old(vertexBuffer) && indexBuffer == old(indexBuffer)
      ensures instanceGpuBuffer == old(instanceGpuBuffer)
    {
      vertexGpuBuffer := Some(vertices);
      indexGpuBuffer := Some(indices);
    }

    /**
     * Tile::render. With both GPU buffers present: the material, the Model
     * group in slot 2, the tile uniform for the current view, the buffers and
     * one draw of every index (byte size / 4). Otherwise nothing is recorded.
     */
    method Render(view: View) returns (commands: seq<PassCommand>)
      requires view.Valid() && |extent| == 4
      ensures !(vertexGpuBuffer.Some? && indexGpuBuffer.Some?) <==> commands == []
      ensures vertexGpuBuffer.Some? && indexGpuBuffer.Some? ==>
        && |commands| == 7
        && commands[..2] == material.Set()
        && commands[2].SetBindGroup? && commands[2].index == 2 && commands[2].group == bindGroup
        && commands[3] == WriteBuffer(tileUniformBuffer,
             TileUniformBlock(Transforms(view.viewBuffer.viewMatrix, extent, view.halfWidth, view.halfHeight)))
        && commands[4] == SetVertexBuffer(0, vertexGpuBuffer.value)
        && commands[5] == SetIndexBuffer(indexGpuBuffer.value, Uint32)
        && commands[6] == DrawIndexed(0, ByteSize(indexGpuBuffer.value.contents) / 4, 0, 0, 1)
        && (indexGpuBuffer.value.contents.Words? ==> commands[6].indexEnd == |indexGpuBuffer.value.contents.words|)
    {
      match (vertexGpuBuffer, indexGpuBuffer)
      case (Some(vertices), Some(indices)) =>
        commands := material.Set() + [SetBindGroup(ScopeIndex(ModelScope), bindGroup)];
        var (halfWidth, halfHeight) := view.GetHalfSize();
        var tileUniform := GetTransforms(view.GetViewMatrix(), extent, halfWidth, halfHeight);
        var end := ByteSize(indices.contents) / 4;
        commands := commands + [
          WriteBuffer(tileUniformBuffer, TileUniformBlock(tileUniform)),
          SetVertexBuffer(0, vertices),
          SetIndexBuffer(indices, Uint32),
          DrawIndexed(0, end, 0, 0, 1)
        ];
      case _ =>
        commands := [];
    }

    /**
     * add_polygon: flatten the rings, triangulate, and on success append the
     * vertices and the indices shifted past the vertices already present.
     */
    method AddPolygon(p: Polygon, earcut: Earcut)
      requires PolygonRingsNonEmpty(p)
      modifies this
      ensures CpuBuffers() == FillPolygon(old(CpuBuffers()), p, earcut)
      ensures vertexGpuBuffer == old(vertexGpuBuffer) && indexGpuBuffer == old(indexGpuBuffer)
      ensures instanceGpuBuffer == old(instanceGpuBuffer)
    {
      var rings := Rings(p);
      var vertices, holeIndices := FlattenRings(rings, Dimensions);
      match earcut(vertices, holeIndices)
      case EarcutOk(indices) =>
        var offset := |vertexBuffer| / Dimensions;
        vertexBuffer := vertexBuffer + vertices;
        indexBuffer := indexBuffer + Shift(indices, offset);
      case EarcutErr =>
    }

    /** add_polygon for each member of a multi-polygon, in order. */
    method AddPolygons(ps: seq<Polygon>, earcut: Earcut)
      requires AllRingsNonEmpty(ps)
      modifies this
      ensures CpuBuffers() == FillPolygons(old(CpuBuffers()), ps, earcut)
      ensures vertexGpuBuffer == old(vertexGpuBuffer) && indexGpuBuffer == old(indexGpuBuffer)
      ensures instanceGpuBuffer == old(instanceGpuBuffer)
    {
      for j := 0 to |ps|
        invariant CpuBuffers() == FillPolygons(old(CpuBuffers()), ps[..j], earcut)
        invariant vertexGpuBuffer == old(vertexGpuBuffer) && indexGpuBuffer == old(indexGpuBuffer)
        invariant instanceGpuBuffer == old(instanceGpuBuffer)
      {
        assert ps[..j + 1][..j] == ps[..j];
        AddPolygon(ps[j], earcut);
      }
      assert ps[..|ps|] == ps;
    }

    /** The match of Fill add_features on one geometry: a polygon, a multi-polygon, or nothing. */
    method AddGeometryFill(g: Geometry, earcut: Earcut)
      requires AllRingsNonEmpty(GeometryPolygons(g))
      modifies this
      ensures CpuBuffers() == FillPolygons(old(CpuBuffers()), GeometryPolygons(g), earcut)
      ensures vertexGpuBuffer == old(vertexGpuBuffer) && indexGpuBuffer == old(indexGpuBuffer)
      ensures instanceGpuBuffer == old(instanceGpuBuffer)
    {
      match g {
        case PolygonGeometry(p) =>
          assert GeometryPolygons(g)[0] == p;
          AddPolygon(p, earcut);
          assert [p][..0] == [];
        case MultiPolygonGeometry(ps) =>
          AddPolygons(ps, earcut);
        case OtherGeometry =>
      }
    }

    /**
     * Fill add_features: add_polygon for each polygon and each member of a
     * multi-polygon, in order; then GPU buffers over the CPU buffers.
     */
    method AddFeaturesFill(features: seq<Feature<Geometry>>, earcut: Earcut)
      requires FillFeaturesWellFormed(features)
      modifies this
      ensures AllRingsNonEmpty(FillInput(features))
      ensures CpuBuffers() == FillPolygons(old(CpuBuffers()), FillInput(features), earcut)
      ensures vertexGpuBuffer == Some(CreateBufferInit(Floats(vertexBuffer), {VertexUsage}))
      ensures indexGpuBuffer == Some(CreateBufferInit(Words(indexBuffer), {IndexUsage}))
      ensures instanceGpuBuffer == old(instanceGpuBuffer)
    {
      ghost var start := CpuBuffers();
      FillInputRingsNonEmpty(features);
      for i := 0 to |features|
        invariant AllRingsNonEmpty(FillInput(features[..i]))
        invariant CpuBuffers() == FillPolygons(start, FillInput(features[..i]), earcut)
        invariant instanceGpuBuffer == old(instanceGpuBuffer)
      {
        assert features[..i + 1][..i] == features[..i];
        FillInputRingsNonEmpty(features[..i + 1]);
        AddGeometryFill(features[i].geometry, earcut);
        FillPolygonsAppend(start, FillInput(features[..i]), GeometryPolygons(features[i].geometry), earcut);
      }
      assert features[..|features|] == features;
      vertexGpuBuffer := Some(CreateBufferInit(Floats(vertexBuffer), {VertexUsage}));
      indexGpuBuffer := Some(CreateBufferInit(Words(indexBuffer), {IndexUsage}));
    }

    /**
     * The inner loop of Line add_features over one feature's collection:
     * polygon members only, hole indices in floats, abort on a triangulation error.
     */
    method AddCollectionLine(collection: GeometryCollection, earcut: Earcut) returns (r: Fallible<()>)
      requires GeometriesWellFormed(collection)
      modifies this
      ensures AllRingsNonEmpty(CollectionPolygons(collection))
      ensures r.Panicked? <==> LinePolygons(old(CpuBuffers()), CollectionPolygons(collection), earcut).Panicked?
      ensures r.Panicked? ==> r.reason == EarcutrError
      ensures r.Panicked? ==> LinePolygons(old(CpuBuffers()), CollectionPolygons(collection), earcut) == Panicked(EarcutrError)
      ensures r.Returned? ==> LinePolygons(old(CpuBuffers()), CollectionPolygons(collection), earcut) == Returned(CpuBuffers())
      ensures vertexGpuBuffer == old(vertexGpuBuffer) && indexGpuBuffer == old(indexGpuBuffer)
      ensures instanceGpuBuffer == old(instanceGpuBuffer)
    {
      ghost var start := CpuBuffers();
      for j := 0 to |collection|
        invariant AllRingsNonEmpty(CollectionPolygons(collection[..j]))
        invariant LinePolygons(start, CollectionPolygons(collection[..j]), earcut) == Returned(CpuBuffers())
        invariant vertexGpuBuffer == old(vertexGpuBuffer) && indexGpuBuffer == old(indexGpuBuffer)
        invariant instanceGpuBuffer == old(instanceGpuBuffer)
      {
        LineCollectionStep(start, collection, j, earcut);
        if collection[j].PolygonGeometry? {
          var added := AddLinePolygon(collection[j].polygon, earcut);
          if added.Panicked? {
            LineCollectionAbort(start, collection, j, earcut);
            return added;
          }
        }
      }
      assert collection[..|collection|] == collection;
      r := Returned(());
    }

    /**
     * One polygon member in Line add_features: flatten the rings, triangulate
     * with hole indices in floats, and append; a triangulation error aborts.
     */
    method AddLinePolygon(p: Polygon, earcut: Earcut) returns (r: Fallible<()>)
      requires PolygonRingsNonEmpty(p)
      modifies this
      ensures r.Panicked? ==> r.reason == EarcutrError && LinePolygon(old(CpuBuffers()), p, earcut) == Panicked(EarcutrError)
      ensures r.Returned? ==> LinePolygon(old(CpuBuffers()), p, earcut) == Returned(CpuBuffers())
      ensures vertexGpuBuffer == old(vertexGpuBuffer) && indexGpuBuffer == old(indexGpuBuffer)
      ensures instanceGpuBuffer == old(instanceGpuBuffer)
    {
      var rings := Rings(p);
      var vertices, holeIndices := FlattenRings(rings, 1);
      match earcut(vertices, holeIndices)
      case EarcutErr =>
        r := Panicked(EarcutrError);
      case EarcutOk(indices) =>
        var offset := |vertexBuffer| / Dimensions;
        vertexBuffer := vertexBuffer + vertices;
        indexBuffer := indexBuffer + Shift(indices, offset);
        r := Returned(());
    }

    /**
     * Line add_features: the polygon members of each feature's collection,
     * hole indices in floats; a triangulation error aborts the whole call
     * (`expect`). On success the GPU buffers are set over the CPU buffers.
     */
    method AddFeaturesLine(features: seq<Feature<GeometryCollection>>, earcut: Earcut) returns (r: Fallible<()>)
      requires CollectionFeaturesWellFormed(features)
      modifies this
      ensures AllRingsNonEmpty(CollectionInput(features))
      ensures r.Panicked? <==> LinePolygons(old(CpuBuffers()), CollectionInput(features), earcut).Panicked?
      ensures r.Panicked? ==> r.reason == LinePolygons(old(CpuBuffers()), CollectionInput(features), earcut).reason
      ensures r.Returned? ==>
        && LinePolygons(old(CpuBuffers()), CollectionInput(features), earcut) == Returned(CpuBuffers())
        && vertexGpuBuffer == Some(CreateBufferInit(Floats(vertexBuffer), {VertexUsage}))
        && indexGpuBuffer == Some(CreateBufferInit(Words(indexBuffer), {IndexUsage}))
        && instanceGpuBuffer == old(instanceGpuBuffer)
    {
      ghost var start := CpuBuffers();
      CollectionInputRingsNonEmpty(features);
      for i := 0 to |features|
        invariant AllRingsNonEmpty(CollectionInput(features[..i]))
        invariant LinePolygons(start, CollectionInput(features[..i]), earcut) == Returned(CpuBuffers())
        invariant instanceGpuBuffer == old(instanceGpuBuffer)
      {
        assert features[..i + 1][..i] == features[..i];
        CollectionInputRingsNonEmpty(features[..i + 1]);
        ghost var done := CollectionInput(features[..i]);
        ghost var here := CollectionPolygons(features[i].geometry);
        var outcome := AddCollectionLine(features[i].geometry, earcut);
        if outcome.Panicked? {
          // the polygons read so far abort; the rest cannot change that
          assert features == features[..i + 1] + features[i + 1..];
          CollectionInputAppend(features[..i + 1], features[i + 1..]);
          CollectionInputRingsNonEmpty(features[..i + 1]);
          CollectionInputRingsNonEmpty(features[i + 1..]);
          LinePolygonsAppend(start, done, here, earcut);
          assert CollectionInput(features[..i + 1]) == done + here;
          LinePolygonsPanicPersists(start, CollectionInput(features[..i + 1]), CollectionInput(features[i + 1..]), earcut);
          return outcome;
        }
        LinePolygonsAppend(start, done, here, earcut);
      }
      assert features[..|features|] == features;
      vertexGpuBuffer := Some(CreateBufferInit(Floats(vertexBuffer), {VertexUsage}));
      indexGpuBuffer := Some(CreateBufferInit(Words(indexBuffer), {IndexUsage}));
      r := Returned(());
    }

    /** The inner loop of Point add_features over one feature's collection. */
    method AddCollectionPoint(collection: GeometryCollection)
      requires GeometriesWellFormed(collection)
      modifies this
      ensures AllRingsNonEmpty(CollectionPolygons(collection))
      ensures vertexBuffer == old(vertexBuffer) + PointVertices(CollectionPolygons(collection))
      ensures indexBuffer == old(indexBuffer)
      ensures vertexGpuBuffer == old(vertexGpuBuffer) && indexGpuBuffer == old(indexGpuBuffer)
      ensures instanceGpuBuffer == old(instanceGpuBuffer)
    {
      for j := 0 to |collection|
        invariant AllRingsNonEmpty(CollectionPolygons(collection[..j]))
        invariant vertexBuffer == old(vertexBuffer) + PointVertices(CollectionPolygons(collection[..j]))
        invariant indexBuffer == old(indexBuffer)
        invariant vertexGpuBuffer == old(vertexGpuBuffer) && indexGpuBuffer == old(indexGpuBuffer)
        invariant instanceGpuBuffer == old(instanceGpuBuffer)
      {
        PointCollectionAppend(old(vertexBuffer), vertexBuffer, collection, j);
        if collection[j].PolygonGeometry? {
          var ring := FlattenPolygon(Rings(collection[j].polygon));
          vertexBuffer := vertexBuffer + ring;
        }
      }
      assert collection[..|collection|] == collection;
    }

    /**
     * Point add_features: every ring of every polygon member, closing
     * coordinate dropped, appended to the vertex buffer; the instance buffer
     * then holds the vertex buffer. The index buffer is not touched.
     */
    method AddFeaturesPoint(features: seq<Feature<GeometryCollection>>)
      requires CollectionFeaturesWellFormed(features)
      modifies this
      ensures AllRingsNonEmpty(CollectionInput(features))
      ensures vertexBuffer == old(vertexBuffer) + PointVertices(CollectionInput(features))
      ensures indexBuffer == old(indexBuffer)
      ensures vertexGpuBuffer == old(vertexGpuBuffer) && indexGpuBuffer == old(indexGpuBuffer)
      ensures instanceGpuBuffer == Some(CreateBufferInit(Floats(vertexBuffer), {VertexUsage}))
    {
      ghost var start := vertexBuffer;
      for i := 0 to |features|
        invariant AllRingsNonEmpty(CollectionInput(features[..i]))
        invariant vertexBuffer == start + PointVertices(CollectionInput(features[..i]))
        invariant indexBuffer == old(indexBuffer)
        invariant vertexGpuBuffer == old(vertexGpuBuffer) && indexGpuBuffer == old(indexGpuBuffer)
      {
        ghost var before := vertexBuffer;
        AddCollectionPoint(features[i].geometry);
        PointFeaturesAppend(start, before, features, i);
      }
      assert features[..|features|] == features;
      instanceGpuBuffer := Some(CreateBufferInit(Floats(vertexBuffer), {VertexUsage}));
    }
  }

  /**
   * After Fill add_features every index buffer entry names a vertex of the
   * vertex buffer, and the draw Tile::render issues covers every index.
   */
  lemma FillTileDrawsItsIndices(before: Buffers, features: seq<Feature<Geometry>>, earcut: Earcut)
    requires FillFeaturesWellFormed(features) && IndicesInRange(before) && EarcutStaysInRange(earcut)
    ensures AllRingsNonEmpty(FillInput(features))
    ensures var after := FillPolygons(before, FillInput(features), earcut);
      && IndicesInRange(after)
      && ByteSize(CreateBufferInit(Words(after.indices), {IndexUsage}).contents) / 4 == |after.indices|
  {
    FillInputRingsNonEmpty(features);
    FillPolygonsKeepIndicesInRange(before, FillInput(features), earcut);
  }
}
