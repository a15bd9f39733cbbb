/**
 * The wgpu objects the renderer creates, as plain values: buffers carry their
 * usage and contents, bind groups their layout and resource, pipelines the
 * layouts and shader entry points they were built from. A render pass is the
 * list of commands recorded into it, so drawing code returns that list.
 */
module Gpu {
  import opened Transform

  datatype Usage = UniformUsage | CopyDst | CopySrc | VertexUsage | IndexUsage | StorageUsage | MapRead

  /** `[[f32; 4]; 4]` view matrix plus surface size (`ViewBuffer`, src/ressource/view.rs). */
  datatype ViewBuffer = ViewBuffer(viewMatrix: Matrix, width: nat, height: nat)

  /** Material colours and stroke width (`Style`, src/ressource/material/mod.rs). */
  datatype Style = Style(fillColor: seq<real>, strokeColor: seq<real>, strokeWidth: real)

  /** The `#[repr(C)]` uniform blocks written into uniform buffers. */
  datatype UniformBlock =
    | TileUniformBlock(tile: TileUniform)
    | ViewBufferBlock(view: ViewBuffer)
    | StyleBlock(style: Style)
    | WorldBlock(matrix: seq<real>)

  /** `size_of::<TileUniform>()`: a 4x4 `f32` matrix and four `f32`. */
  const TileUniformSize: nat := 80
  /** `size_of::<ViewBuffer>()`: a 4x4 `f32` matrix, two `u32` and two `u32` of padding. */
  const ViewBufferSize: nat := 80
  /** `size_of::<Style>()`: two `[f32; 4]`, one `f32` and three `u32` of padding. */
  const StyleSize: nat := 48

  function BlockSize(b: UniformBlock): nat
  {
    match b
    case TileUniformBlock(_) => TileUniformSize
    case ViewBufferBlock(_) => ViewBufferSize
    case StyleBlock(_) => StyleSize
    case WorldBlock(m) => 4 * |m|
  }

  /** What a buffer was initialised with. */
  datatype Contents =
    | Floats(floats: seq<real>)
    | Words(words: seq<nat>)
    | HalfWords(halfWords: seq<nat>)
    | Block(block: UniformBlock)
    | Uninitialised(byteSize: nat)

  /** Size in bytes: four per `f32`/`u32`, two per `u16`. */
  function ByteSize(c: Contents): nat
  {
    match c
    case Floats(f) => 4 * |f|
    case Words(w) => 4 * |w|
    case HalfWords(h) => 2 * |h|
    case Block(b) => BlockSize(b)
    case Uninitialised(n) => n
  }

  datatype GpuBuffer = GpuBuffer(usage: set<Usage>, contents: Contents)

  /** `device.create_buffer_init`: a buffer holding exactly the given contents. */
  function CreateBufferInit(contents: Contents, usage: set<Usage>): (b: GpuBuffer)
    ensures b.contents == contents && b.usage == usage
  {
    GpuBuffer(usage, contents)
  }

  datatype ShaderStages = VertexStage | VertexFragmentStage | ComputeStage

  /** A bind-group layout with one uniform-buffer entry at binding 0. */
  datatype BindGroupLayout = BindGroupLayout(visibility: ShaderStages, minBindingSize: nat)

  /** A bind group with one buffer bound at binding 0. */
  datatype BindGroup = BindGroup(layout: BindGroupLayout, resource: GpuBuffer)

  datatype ShaderModule = ShaderModule(code: string)

  datatype TextureFormat = TextureFormat(name: string)

  datatype StepMode = PerVertex | PerInstance

  datatype VertexBufferLayout = VertexBufferLayout(arrayStride: nat, stepMode: StepMode)

  datatype VertexState = VertexState(shaderModule: ShaderModule, entryPoint: string, buffers: seq<VertexBufferLayout>)

  datatype FragmentState = FragmentState(shaderModule: ShaderModule, entryPoint: string, format: TextureFormat)

  datatype RenderPipeline = RenderPipeline(layouts: seq<BindGroupLayout>, vertex: VertexState, fragment: FragmentState)

  datatype IndexFormat = Uint16 | Uint32

  /** A command recorded into a render pass, or a `queue.write_buffer` issued while recording. */
  datatype PassCommand =
    | SetPipeline(pipeline: RenderPipeline)
    | SetBindGroup(index: nat, group: BindGroup)
    | WriteBuffer(target: GpuBuffer, data: UniformBlock)
    | SetVertexBuffer(slot: nat, vertexBuffer: GpuBuffer)
    | SetIndexBuffer(indexBuffer: GpuBuffer, format: IndexFormat)
    | DrawIndexed(indexStart: nat, indexEnd: nat, baseVertex: int, instanceStart: nat, instanceEnd: nat)
}
