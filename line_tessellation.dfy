/**
 * The older line tessellation (src/bucket/line_tessellation.rs): four output
 * vertices per edge of the index list, so `indices.len() - 1` edges, which
 * underflows on an empty list; `tessellate` reports each output buffer
 * together with its size.
 */
module LineTessellation {
  import opened Wrappers
  import opened Gpu
  import Tessellation

  /** Output vertices generated for each edge. */
  const VerticesPerEdge: nat := 4

  const UnderflowMessage: string := "attempt to subtract with overflow"

  /** `(indices.len() - 1) * 4`: panics when there are no indices. */
  function VerticesCount(indexCount: nat): (r: Fallible<nat>)
    ensures r.Panicked? <==> indexCount == 0
    ensures r.Returned? ==> r.value == VerticesPerEdge * (indexCount - 1)
  {
    if indexCount == 0 then Panicked(UnderflowMessage) else Returned((indexCount - 1) * VerticesPerEdge)
  }

  /** `size_of::<OutputVertex>() * vertices_count`. */
  function LineVerticesBufferSize(verticesCount: nat): nat
  {
    Tessellation.OutputVertexSize * verticesCount
  }

  /** `size_of::<u32>() * vertices_count`: one `u32` per output vertex. */
  function LineIndicesBufferSize(verticesCount: nat): nat
  {
    Tessellation.WordSize * verticesCount
  }

  /** `create_buffers`: the inputs as storage buffers, then the two uninitialised outputs. */
  function CreateBuffers(vertices: seq<real>, indices: seq<nat>): (r: Fallible<Tessellation.TessellationBuffers>)
    ensures r.Panicked? <==> |indices| == 0
    ensures r.Returned? ==>
      && r.value.vertices.contents == Floats(vertices) && r.value.indices.contents == Words(indices)
      && ByteSize(r.value.lineVertices.contents) == Tessellation.OutputVertexSize * VerticesPerEdge * (|indices| - 1)
      && ByteSize(r.value.lineIndices.contents) == Tessellation.WordSize * VerticesPerEdge * (|indices| - 1)
  {
    match VerticesCount(|indices|)
    case Panicked(e) => Panicked(e)
    case Returned(count) =>
      Returned(Tessellation.TessellationBuffers(
        CreateBufferInit(Floats(vertices), {StorageUsage}),
        CreateBufferInit(Words(indices), {StorageUsage}),
        GpuBuffer(Tessellation.LineVerticesUsage, Uninitialised(LineVerticesBufferSize(count))),
        GpuBuffer(Tessellation.LineIndicesUsage, Uninitialised(LineIndicesBufferSize(count)))))
  }

  /** `[(line_vertices_buffer, size), (line_indices_buffer, size)]` and the submitted pass. */
  datatype Tessellated = Tessellated(
    dispatch: Tessellation.ComputeDispatch,
    outputs: seq<(GpuBuffer, nat)>)

  /**
   * `tessellate`: the sizes computed here, paired with the buffers
   * `create_buffers` allocated, vertices first; one invocation per edge,
   * rounded up to whole workgroups. Panics on an empty index list.
   */
  function Tessellate(vertices: seq<real>, indices: seq<nat>): (r: Fallible<Tessellated>)
    ensures r.Panicked? <==> |indices| == 0
    ensures r.Returned? ==>
      && |r.value.outputs| == 2 && |r.value.dispatch.bindings| == 4
      && r.value.outputs[0].0 == r.value.dispatch.bindings[2]
      && r.value.outputs[1].0 == r.value.dispatch.bindings[3]
      && r.value.outputs[0].1 == ByteSize(r.value.outputs[0].0.contents)
      && r.value.outputs[1].1 == ByteSize(r.value.outputs[1].0.contents)
      && r.value.dispatch.x * Tessellation.WorkGroupMaxX >= |indices| - 1
  {
    match VerticesCount(|indices|)
    case Panicked(e) => Panicked(e)
    case Returned(count) =>
      var vertexSize := LineVerticesBufferSize(count);
      var indexSize := LineIndicesBufferSize(count);
      var b := CreateBuffers(vertices, indices).value;
      var x := Tessellation.CeilDiv(|indices| - 1, Tessellation.WorkGroupMaxX);
      Returned(Tessellated(
        Tessellation.ComputeDispatch([b.vertices, b.indices, b.lineVertices, b.lineIndices], x, 1, 1),
        [(b.lineVertices, vertexSize), (b.lineIndices, indexSize)]))
  }

  /**
   * The two revisions disagree on the output sizes: for the same non-empty
   * index list the newer one (src/tessellation/mod.rs) allocates one more
   * edge's worth of vertices (64 bytes) and 24 rather than 16 bytes of
   * indices per index.
   */
  lemma RevisionsDisagree(vertices: seq<real>, indices: seq<nat>)
    requires |indices| > 0
    ensures var old_ := Tessellate(vertices, indices).value;
      var new_ := Tessellation.Tessellate(vertices, indices);
      && ByteSize(new_.lineVertices.contents) == old_.outputs[0].1 + Tessellation.OutputVertexSize * VerticesPerEdge
      && ByteSize(new_.lineIndices.contents) == old_.outputs[1].1 + 8 * |indices| + 16
  {
  }
}
