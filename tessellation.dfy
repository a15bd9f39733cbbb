/**
 * Line tessellation on the GPU (src/tessellation/mod.rs): the sizes of the
 * buffers the compute pass writes and the number of workgroups it dispatches,
 * both functions of the number of input indices. The compute shader itself is
 * not part of this model.
 */
module Tessellation {
  import opened Gpu

  /** `WORK_GROUP_MAX_X`: invocations per workgroup along x. */
  const WorkGroupMaxX: nat := 256

  /** Bytes of one `f32` or `u32`. */
  const WordSize: nat := 4

  /** `size_of::<OutputVertex>()`: a position and a normal, two `f32` each, no padding. */
  const OutputVertexSize: nat := 2 * WordSize + 2 * WordSize

  /** Output vertices generated for each input index. */
  const VerticesPerIndex: nat := 4
  /** Output indices generated for each input index. */
  const IndicesPerIndex: nat := 6

  /** `ceil(n / d)` on naturals. */
  function CeilDiv(n: nat, d: nat): (q: nat)
    requires d > 0
    ensures q * d >= n
    ensures n > 0 ==> (q - 1) * d < n
    ensures n == 0 ==> q == 0
  {
    (n + d - 1) / d
  }

  /** No smaller count of groups covers `n` invocations. */
  lemma CeilDivIsLeast(n: nat, d: nat, q: nat)
    requires d > 0 && q * d >= n
    ensures CeilDiv(n, d) <= q
  {
    var c := CeilDiv(n, d);
    if n > 0 {
      assert (c - 1) * d < q * d;
    }
  }

  /** `(indices.len() as f32 / WORK_GROUP_MAX_X).ceil() as u32`, without float rounding. */
  function Workgroups(indexCount: nat): (x: nat)
    ensures x * WorkGroupMaxX >= indexCount
    ensures indexCount > 0 ==> (x - 1) * WorkGroupMaxX < indexCount
  {
    CeilDiv(indexCount, WorkGroupMaxX)
  }

  /** `line_vertices_buffer_size`: four output vertices per input index. */
  function LineVerticesBufferSize(indexCount: nat): nat
  {
    OutputVertexSize * indexCount * VerticesPerIndex
  }

  /** `line_indices_buffer_size`: six `u32` per input index (`size_of_val(indices) * 6`). */
  function LineIndicesBufferSize(indexCount: nat): nat
  {
    WordSize * indexCount * IndicesPerIndex
  }

  /** The two output buffers' usage: reused as vertex/index buffer, written by the shader, readable for tests. */
  const LineVerticesUsage: set<Usage> := {VertexUsage, StorageUsage, CopySrc}
  const LineIndicesUsage: set<Usage> := {IndexUsage, StorageUsage, CopySrc}

  /** The four buffers of `create_buffers`: the inputs as storage, then the two uninitialised outputs. */
  datatype TessellationBuffers = TessellationBuffers(
    vertices: GpuBuffer, indices: GpuBuffer, lineVertices: GpuBuffer, lineIndices: GpuBuffer)

  function CreateBuffers(vertices: seq<real>, indices: seq<nat>): (b: TessellationBuffers)
    ensures b.vertices.contents == Floats(vertices) && b.indices.contents == Words(indices)
    ensures b.vertices.usage == {StorageUsage} && b.indices.usage == {StorageUsage}
    ensures ByteSize(b.lineVertices.contents) == OutputVertexSize * VerticesPerIndex * |indices|
    ensures ByteSize(b.lineIndices.contents) == WordSize * IndicesPerIndex * |indices|
    ensures b.lineVertices.usage == LineVerticesUsage && b.lineIndices.usage == LineIndicesUsage
  {
    TessellationBuffers(
      CreateBufferInit(Floats(vertices), {StorageUsage}),
      CreateBufferInit(Words(indices), {StorageUsage}),
      GpuBuffer(LineVerticesUsage, Uninitialised(LineVerticesBufferSize(|indices|))),
      GpuBuffer(LineIndicesUsage, Uninitialised(LineIndicesBufferSize(|indices|))))
  }

  /** The compute pass `tessellate` submits: its four bound buffers (bindings 0..3) and the dispatch size. */
  datatype ComputeDispatch = ComputeDispatch(bindings: seq<GpuBuffer>, x: nat, y: nat, z: nat)

  /** What `tessellate` submits and what it hands back. */
  datatype Tessellated = Tessellated(dispatch: ComputeDispatch, lineVertices: GpuBuffer, lineIndices: GpuBuffer)

  /**
   * `tessellate`: bind the four buffers in order, dispatch one invocation per
   * input index (rounded up to whole workgroups), and return the two output
   * buffers, vertices first.
   */
  function Tessellate(vertices: seq<real>, indices: seq<nat>): (t: Tessellated)
    ensures |t.dispatch.bindings| == 4
    ensures t.dispatch.bindings[0].contents == Floats(vertices) && t.dispatch.bindings[1].contents == Words(indices)
    ensures t.lineVertices == t.dispatch.bindings[2] && t.lineIndices == t.dispatch.bindings[3]
    ensures t.dispatch.x * WorkGroupMaxX >= |indices| && t.dispatch.y == 1 && t.dispatch.z == 1
    ensures ByteSize(t.lineVertices.contents) == OutputVertexSize * VerticesPerIndex * |indices|
    ensures ByteSize(t.lineIndices.contents) == WordSize * IndicesPerIndex * |indices|
  {
    var b := CreateBuffers(vertices, indices);
    var x := Workgroups(|indices|);
    Tessellated(ComputeDispatch([b.vertices, b.indices, b.lineVertices, b.lineIndices], x, 1, 1), b.lineVertices, b.lineIndices)
  }

  /**
   * Each input index owns a slot of four output vertices and six output
   * indices: the output buffers hold exactly that many whole elements.
   */
  lemma OutputSlotsPerIndex(vertices: seq<real>, indices: seq<nat>)
    ensures var t := Tessellate(vertices, indices);
      && ByteSize(t.lineVertices.contents) % OutputVertexSize == 0
      && ByteSize(t.lineVertices.contents) / OutputVertexSize == VerticesPerIndex * |indices|
      && ByteSize(t.lineIndices.contents) % WordSize == 0
      && ByteSize(t.lineIndices.contents) / WordSize == IndicesPerIndex * |indices|
  {
    var t := Tessellate(vertices, indices);
    assert ByteSize(t.lineVertices.contents) == OutputVertexSize * (VerticesPerIndex * |indices|);
    assert ByteSize(t.lineIndices.contents) == WordSize * (IndicesPerIndex * |indices|);
  }

  /** The dispatch is the smallest one that gives every input index an invocation. */
  lemma DispatchIsMinimal(vertices: seq<real>, indices: seq<nat>, groups: nat)
    requires groups * WorkGroupMaxX >= |indices|
    ensures Tessellate(vertices, indices).dispatch.x <= groups
  {
    CeilDivIsLeast(|indices|, WorkGroupMaxX, groups);
  }
}
