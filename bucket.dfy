/**
 * The older tile builders (src/bucket/mod.rs and src/bucket/line.rs). Their
 * index buffers hold `u16`, so the model writes the truncating casts and the
 * wrapping `u16` addition out. The triangulator of that revision
 * (`earcutr::earcut`) answers a plain index list; it is a parameter.
 */
module Bucket {
  import opened Wrappers
  import opened Geo
  import opened Gpu
  import opened TileGeometry
  import LegacyView

  // ---------------------------------------------------------------------------
  // Fixed-width integers

  const U16Limit: nat := 0x1_0000
  const U32Limit: nat := 0x1_0000_0000

  /** `n as u16`: the value below 2^16 that agrees with `n` modulo 2^16. */
  function AsU16(n: nat): (r: nat)
    ensures r < U16Limit && (n - r) % U16Limit == 0
    ensures n < U16Limit ==> r == n
  {
    n % U16Limit
  }

  /** `n as u32`, as for `AsU16`. */
  function AsU32(n: nat): (r: nat)
    ensures r < U32Limit && (n - r) % U32Limit == 0
    ensures n < U32Limit ==> r == n
  {
    n % U32Limit
  }

  /** `a + b` on `u16` in a release build: the sum, less 2^16 when it does not fit. */
  function WrappingAddU16(a: nat, b: nat): (r: nat)
    requires a < U16Limit && b < U16Limit
    ensures r < U16Limit
    ensures a + b < U16Limit ==> r == a + b
    ensures a + b >= U16Limit ==> r == a + b - U16Limit
  {
    (a + b) % U16Limit
  }

  /** `earcutr::earcut(vertices, hole_indices, 2)` of this revision: a list of vertex indices. */
  type LegacyEarcut = (seq<real>, seq<nat>) -> seq<nat>

  /** Every entry fits in a `u16`. */
  predicate AllU16(s: seq<nat>)
  {
    forall i :: 0 <= i < |s| ==> s[i] < U16Limit
  }

  // ---------------------------------------------------------------------------
  // src/bucket/mod.rs: closed rings, indices cast without an offset

  /**
   * The hole indices of src/bucket/mod.rs: after every ring but the last, the
   * number of floats pushed so far, closing coordinates included.
   */
  function ClosedHoleIndices(rings: seq<LineString>): (h: seq<nat>)
    requires |rings| >= 1
    ensures |h| == |rings| - 1
  {
    seq(|rings| - 1, k requires 0 <= k < |rings| - 1 => |FlattenClosed(rings[..k + 1])|)
  }

  /** Push every coordinate of `ring`, the closing one included. */
  method PushRing(vertices: seq<real>, ring: LineString) returns (r: seq<real>)
    ensures r == vertices + Coords(ring)
  {
    r := vertices;
    for j := 0 to |ring|
      invariant r == vertices + Coords(ring[..j])
    {
      assert ring[..j + 1][..j] == ring[..j];
      r := r + [ring[j].x, ring[j].y];
    }
    assert ring[..|ring|] == ring;
  }

  lemma FlattenClosedStep(rings: seq<LineString>, i: nat)
    requires i < |rings|
    ensures FlattenClosed(rings[..i + 1]) == FlattenClosed(rings[..i]) + Coords(rings[i])
  {
    assert rings[..i + 1][..i] == rings[..i];
  }

  lemma ClosedHoleIndicesStep(rings: seq<LineString>, i: nat)
    requires i < |rings| - 1
    ensures ClosedHoleIndices(rings)[..i + 1] == ClosedHoleIndices(rings)[..i] + [|FlattenClosed(rings[..i + 1])|]
  {
  }

  /** The ring loop of src/bucket/mod.rs add_features. */
  method FlattenClosedRings(rings: seq<LineString>) returns (vertices: seq<real>, holeIndices: seq<nat>)
    requires |rings| >= 1
    ensures vertices == FlattenClosed(rings)
    ensures holeIndices == ClosedHoleIndices(rings)
  {
    vertices := [];
    holeIndices := [];
    for i := 0 to |rings|
      invariant vertices == FlattenClosed(rings[..i])
      invariant |holeIndices| == (if i < |rings| then i else |rings| - 1)
      invariant holeIndices == ClosedHoleIndices(rings)[..|holeIndices|]
    {
      FlattenClosedStep(rings, i);
      vertices := PushRing(vertices, rings[i]);
      if i < |rings| - 1 {
        ClosedHoleIndicesStep(rings, i);
        holeIndices := holeIndices + [|vertices|];
      }
    }
    assert rings[..|rings|] == rings;
  }

  /** Hole index k counts floats: twice the number of coordinates in rings 0..k, closing ones included. */
  lemma ClosedHolesAreFloatOffsets(rings: seq<LineString>)
    requires |rings| >= 1
    ensures forall k :: 0 <= k < |rings| - 1 ==> ClosedHoleIndices(rings)[k] == 2 * ClosedVertexCount(rings[..k + 1])
  {
    forall k | 0 <= k < |rings| - 1
      ensures ClosedHoleIndices(rings)[k] == 2 * ClosedVertexCount(rings[..k + 1])
    {
      FlattenClosedLength(rings[..k + 1]);
    }
  }

  /** `indices.iter().map(|i| *i as u16)`. */
  function CastU16(indices: seq<nat>): (r: seq<nat>)
    ensures |r| == |indices| && AllU16(r)
    ensures forall i :: 0 <= i < |indices| ==> r[i] == AsU16(indices[i])
  {
    seq(|indices|, i requires 0 <= i < |indices| => AsU16(indices[i]))
  }

  /** The polygons src/bucket/mod.rs reads: features whose geometry is a single polygon, in order. */
  function FeaturePolygons(features: seq<Feature<Geometry>>): seq<Polygon>
  {
    if features == [] then []
    else
      var g := features[|features| - 1].geometry;
      FeaturePolygons(features[..|features| - 1]) + (if g.PolygonGeometry? then [g.polygon] else [])
  }

  /** A polygon is read exactly when some feature's geometry is that polygon; multi-polygons are not read. */
  lemma {:induction false} FeaturePolygonsMembers(features: seq<Feature<Geometry>>, p: Polygon)
    ensures p in FeaturePolygons(features) <==> exists i :: 0 <= i < |features| && features[i].geometry == PolygonGeometry(p)
  {
    if features != [] {
      var init := features[..|features| - 1];
      FeaturePolygonsMembers(init, p);
      if exists i :: 0 <= i < |features| && features[i].geometry == PolygonGeometry(p) {
        var i :| 0 <= i < |features| && features[i].geometry == PolygonGeometry(p);
        if i < |init| {
          assert init[i] == features[i];
        }
      }
      if exists i :: 0 <= i < |init| && init[i].geometry == PolygonGeometry(p) {
        var i :| 0 <= i < |init| && init[i].geometry == PolygonGeometry(p);
        assert features[i] == init[i];
      }
    }
  }

  /** One polygon in src/bucket/mod.rs: closed rings appended, earcut's indices cast to `u16`, no offset. */
  function BucketPolygon(b: Buffers, p: Polygon, earcut: LegacyEarcut): Buffers
  {
    var rings := Rings(p);
    var vertices := FlattenClosed(rings);
    Buffers(b.vertices + vertices, b.indices + CastU16(earcut(vertices, ClosedHoleIndices(rings))))
  }

  function BucketPolygons(b: Buffers, ps: seq<Polygon>, earcut: LegacyEarcut): Buffers
  {
    if ps == [] then b else BucketPolygon(BucketPolygons(b, ps[..|ps| - 1], earcut), ps[|ps| - 1], earcut)
  }

  /**
   * The indices src/bucket/mod.rs appends for a polygon do not depend on what
   * the buffers already hold: they are earcut's indices into the polygon's own
   * vertices, cast to `u16`, and are not shifted past the earlier vertices.
   */
  lemma BucketIndicesIgnoreEarlierVertices(b1: Buffers, b2: Buffers, p: Polygon, earcut: LegacyEarcut)
    ensures BucketPolygon(b1, p, earcut).indices[|b1.indices|..] == BucketPolygon(b2, p, earcut).indices[|b2.indices|..]
    ensures BucketPolygon(b1, p, earcut).vertices[|b1.vertices|..] == BucketPolygon(b2, p, earcut).vertices[|b2.vertices|..]
  {
    var r1 := BucketPolygon(b1, p, earcut);
    var r2 := BucketPolygon(b2, p, earcut);
    assert r1.indices[|b1.indices|..] == r2.indices[|b2.indices|..];
    assert r1.vertices[|b1.vertices|..] == r2.vertices[|b2.vertices|..];
  }

  /** The vertex buffer grows by two floats per coordinate of every ring read, closing ones included. */
  lemma {:induction false} BucketPolygonsVertexCount(b: Buffers, ps: seq<Polygon>, earcut: LegacyEarcut)
    ensures |BucketPolygons(b, ps, earcut).vertices| == |b.vertices| + 2 * BucketClosedCount(ps)
  {
    if ps != [] {
      BucketPolygonsVertexCount(b, ps[..|ps| - 1], earcut);
      FlattenClosedLength(Rings(ps[|ps| - 1]));
    }
  }

  /** Coordinates of all rings of the polygons, closing ones included. */
  function BucketClosedCount(ps: seq<Polygon>): nat
  {
    if ps == [] then 0 else BucketClosedCount(ps[..|ps| - 1]) + ClosedVertexCount(Rings(ps[|ps| - 1]))
  }

  /** A `u16` index buffer stays a `u16` index buffer. */
  lemma {:induction false} BucketPolygonsKeepU16(b: Buffers, ps: seq<Polygon>, earcut: LegacyEarcut)
    requires AllU16(b.indices)
    ensures AllU16(BucketPolygons(b, ps, earcut).indices)
  {
    if ps != [] {
      BucketPolygonsKeepU16(b, ps[..|ps| - 1], earcut);
      var mid := BucketPolygons(b, ps[..|ps| - 1], earcut);
      var r := BucketPolygons(b, ps, earcut);
      forall i | 0 <= i < |r.indices|
        ensures r.indices[i] < U16Limit
      {
        if i < |mid.indices| {
          assert r.indices[i] == mid.indices[i];
        }
      }
    }
  }

  lemma BucketFeaturesStep(start: Buffers, features: seq<Feature<Geometry>>, i: nat, earcut: LegacyEarcut)
    requires i < |features|
    ensures var g := features[i].geometry;
      BucketPolygons(start, FeaturePolygons(features[..i + 1]), earcut) ==
      if g.PolygonGeometry? then BucketPolygon(BucketPolygons(start, FeaturePolygons(features[..i]), earcut), g.polygon, earcut)
      else BucketPolygons(start, FeaturePolygons(features[..i]), earcut)
  {
    assert features[..i + 1][..i] == features[..i];
    var ps := FeaturePolygons(features[..i]);
    var g := features[i].geometry;
    if g.PolygonGeometry? {
      assert FeaturePolygons(features[..i + 1]) == ps + [g.polygon];
      assert (ps + [g.polygon])[..|ps|] == ps;
    } else {
      assert FeaturePolygons(features[..i + 1]) == ps;
    }
  }

  /** The GPU objects src/bucket/mod.rs builds once, in `Bucket::new`. */
  const BucketShader: ShaderModule := ShaderModule("shader/bucket.wgsl")

  /** One uniform buffer at binding 0, seen by the vertex stage; no minimum size (0 stands for `None`). */
  const BucketLayout: BindGroupLayout := BindGroupLayout(VertexStage, 0)

  function BucketPipeline(textureFormat: TextureFormat): RenderPipeline
  {
    RenderPipeline([BucketLayout],
      VertexState(BucketShader, "vs_main", [VertexBufferLayout(8, PerVertex)]),
      FragmentState(BucketShader, "fs_main", textureFormat))
  }

  /** `Bucket<F>` of src/bucket/mod.rs. */
  class Bucket {
    const pipeline: RenderPipeline
    const bindGroup: BindGroup
    const worldBuffer: GpuBuffer
    var features: seq<Feature<Geometry>>
    var vertexGpuBuffer: Option<GpuBuffer>
    var vertexBuffer: seq<real>
    var indexGpuBuffer: Option<GpuBuffer>
    var indexBuffer: seq<nat>

    function CpuBuffers(): Buffers
      reads this
    {
      Buffers(vertexBuffer, indexBuffer)
    }

    /** `Bucket::new`: no features, empty buffers, the world buffer holding the view matrix. */
    constructor (textureFormat: TextureFormat, view: LegacyView.View)
      ensures features == [] && vertexBuffer == [] && indexBuffer == []
      ensures vertexGpuBuffer == None && indexGpuBuffer == None
      ensures worldBuffer == CreateBufferInit(Block(WorldBlock(view.viewMatrix)), {UniformUsage, CopyDst})
      ensures bindGroup == BindGroup(BucketLayout, worldBuffer) && pipeline == BucketPipeline(textureFormat)
    {
      var world := CreateBufferInit(Block(WorldBlock(view.viewMatrix)), {UniformUsage, CopyDst});
      pipeline := BucketPipeline(textureFormat);
      bindGroup := BindGroup(BucketLayout, world);
      worldBuffer := world;
      features := [];
      vertexGpuBuffer := None;
      vertexBuffer := [];
      indexGpuBuffer := None;
      indexBuffer := [];
    }

    /**
     * `Bucket::render`: with both GPU buffers present, the pipeline, the bind
     * group in slot 0, the current view matrix written to the world buffer,
     * the buffers (`u16` indices) and one draw of as many indices as the CPU
     * index buffer holds; otherwise nothing is recorded.
     */
    method Render(view: LegacyView.View) returns (commands: seq<PassCommand>)
      ensures !(vertexGpuBuffer.Some? && indexGpuBuffer.Some?) <==> commands == []
      ensures vertexGpuBuffer.Some? && indexGpuBuffer.Some? ==> commands == [
        SetPipeline(pipeline),
        SetBindGroup(0, bindGroup),
        WriteBuffer(worldBuffer, WorldBlock(view.viewMatrix)),
        SetVertexBuffer(0, vertexGpuBuffer.value),
        SetIndexBuffer(indexGpuBuffer.value, Uint16),
        DrawIndexed(0, AsU32(|indexBuffer|), 0, 0, 1)
      ]
    {
      match (vertexGpuBuffer, indexGpuBuffer)
      case (Some(vertices), Some(indices)) =>
        commands := [
          SetPipeline(pipeline),
          SetBindGroup(0, bindGroup),
          WriteBuffer(worldBuffer, WorldBlock(view.viewMatrix)),
          SetVertexBuffer(0, vertices),
          SetIndexBuffer(indices, Uint16),
          DrawIndexed(0, AsU32(|indexBuffer|), 0, 0, 1)
        ];
      case _ =>
        commands := [];
    }

    /**
     * `Bucket::add_features`: every single-polygon feature is flattened (closed
     * rings) and triangulated, its indices cast to `u16` and appended; other
     * geometries, multi-polygons included, are skipped. The features move into
     * the bucket, and both GPU buffers are rebuilt from the CPU buffers.
     */
    method AddFeatures(features: seq<Feature<Geometry>>, earcut: LegacyEarcut)
      modifies this
      ensures CpuBuffers() == BucketPolygons(old(CpuBuffers()), FeaturePolygons(features), earcut)
      ensures this.features == old(this.features) + features
      ensures vertexGpuBuffer == Some(CreateBufferInit(Floats(vertexBuffer), {VertexUsage}))
      ensures indexGpuBuffer == Some(CreateBufferInit(HalfWords(indexBuffer), {IndexUsage}))
    {
      ghost var start := CpuBuffers();
      for i := 0 to |features|
        invariant CpuBuffers() == BucketPolygons(start, FeaturePolygons(features[..i]), earcut)
        invariant this.features == old(this.features)
      {
        BucketFeaturesStep(start, features, i, earcut);
        var geometry := features[i].geometry;
        if geometry.PolygonGeometry? {
          var rings := Rings(geometry.polygon);
          var vertices, holeIndices := FlattenClosedRings(rings);
          var indices := earcut(vertices, holeIndices);
          vertexBuffer := vertexBuffer + vertices;
          indexBuffer := indexBuffer + CastU16(indices);
        }
      }
      assert features[..|features|] == features;
      this.features := this.features + features;
      vertexGpuBuffer := Some(CreateBufferInit(Floats(vertexBuffer), {VertexUsage}));
      indexGpuBuffer := Some(CreateBufferInit(HalfWords(indexBuffer), {IndexUsage}));
    }
  }

  /**
   * After add_features the draw Bucket::render issues covers exactly the
   * `u16` entries of the GPU index buffer, while there are fewer than 2^32.
   */
  lemma BucketDrawCoversIndexBuffer(b: Buffers)
    requires |b.indices| < U32Limit
    ensures AsU32(|b.indices|) == ByteSize(CreateBufferInit(HalfWords(b.indices), {IndexUsage}).contents) / 2
  {
  }

  // ---------------------------------------------------------------------------
  // src/bucket/line.rs: open rings, a `u16` offset and wrapping `u16` addition

  /** The bucket kinds of the revision src/bucket/line.rs belongs to. */
  datatype BucketType = Fill | Line

  /** `indices.iter().map(|i| (*i as u16) + offset)` with `u16` wrap-around. */
  function ShiftU16(indices: seq<nat>, offset: nat): (r: seq<nat>)
    requires offset < U16Limit
    ensures |r| == |indices| && AllU16(r)
    ensures forall i :: 0 <= i < |indices| ==> r[i] == WrappingAddU16(AsU16(indices[i]), offset)
  {
    seq(|indices|, i requires 0 <= i < |indices| => WrappingAddU16(AsU16(indices[i]), offset))
  }

  /**
   * One polygon in src/bucket/line.rs: open rings appended, hole indices in
   * floats, and earcut's indices shifted by the earlier vertex count, both
   * taken as `u16`.
   */
  function LineBucketPolygon(b: Buffers, p: Polygon, earcut: LegacyEarcut): Buffers
    requires PolygonRingsNonEmpty(p)
  {
    var rings := Rings(p);
    var vertices := FlattenOpen(rings);
    var offset := AsU16(|b.vertices| / Dimensions);
    Buffers(b.vertices + vertices, b.indices + ShiftU16(earcut(vertices, HoleIndices(rings, 1)), offset))
  }

  function LineBucketPolygons(b: Buffers, ps: seq<Polygon>, earcut: LegacyEarcut): Buffers
    requires AllRingsNonEmpty(ps)
  {
    if ps == [] then b else LineBucketPolygon(LineBucketPolygons(b, ps[..|ps| - 1], earcut), ps[|ps| - 1], earcut)
  }

  /** The legacy triangulator seen through the newer API: it always succeeds. */
  function AlwaysOk(earcut: LegacyEarcut): Earcut
  {
    (vs, hs) => EarcutOk(earcut(vs, hs))
  }

  /** What the legacy triangulator answers for a polygon, given the Line bucket's hole indices. */
  function LineBucketTriangles(p: Polygon, earcut: LegacyEarcut): seq<nat>
    requires PolygonRingsNonEmpty(p)
  {
    earcut(FlattenOpen(Rings(p)), HoleIndices(Rings(p), 1))
  }

  /**
   * While the earlier vertex count plus every index fits in a `u16`, the old
   * Line bucket appends exactly what the newer Line tile appends for the same
   * triangulation (src/ressource/tile/line.rs).
   */
  lemma LineBucketMatchesLineTile(b: Buffers, p: Polygon, earcut: LegacyEarcut)
    requires PolygonRingsNonEmpty(p)
    requires forall k :: 0 <= k < |LineBucketTriangles(p, earcut)| ==>
      LineBucketTriangles(p, earcut)[k] + |b.vertices| / Dimensions < U16Limit
    ensures LinePolygon(b, p, AlwaysOk(earcut)) == Returned(LineBucketPolygon(b, p, earcut))
  {
    var rings := Rings(p);
    var vertices := FlattenOpen(rings);
    var indices := LineBucketTriangles(p, earcut);
    var offset := |b.vertices| / Dimensions;
    assert AlwaysOk(earcut)(vertices, HoleIndices(rings, 1)) == EarcutOk(indices);
    var shifted := ShiftU16(indices, AsU16(offset));
    forall k | 0 <= k < |indices|
      ensures shifted[k] == indices[k] + offset
    {
      assert indices[k] + offset < U16Limit;
    }
    assert Shift(indices, offset) == shifted;
  }

  /**
   * Once the buffer holds 2^16 vertices the `u16` offset wraps to 0: every
   * index appended for the next polygon names one of the earlier vertices
   * rather than one of its own, which start at vertex 2^16.
   */
  lemma LineBucketOffsetWraps(b: Buffers, p: Polygon, earcut: LegacyEarcut)
    requires PolygonRingsNonEmpty(p) && |b.vertices| / Dimensions == U16Limit
    ensures var indices := LineBucketTriangles(p, earcut);
      var r := LineBucketPolygon(b, p, earcut);
      && |r.indices| == |b.indices| + |indices|
      && forall k :: 0 <= k < |indices| ==>
           r.indices[|b.indices| + k] == AsU16(indices[k]) && r.indices[|b.indices| + k] < |b.vertices| / Dimensions
  {
  }

  lemma {:induction false} LineBucketPolygonsAppend(b: Buffers, ps: seq<Polygon>, qs: seq<Polygon>, earcut: LegacyEarcut)
    requires AllRingsNonEmpty(ps) && AllRingsNonEmpty(qs)
    ensures AllRingsNonEmpty(ps + qs)
    ensures LineBucketPolygons(b, ps + qs, earcut) == LineBucketPolygons(LineBucketPolygons(b, ps, earcut), qs, earcut)
    decreases |qs|
  {
    AllRingsNonEmptyAppend(ps, qs);
    if qs == [] {
      assert ps + qs == ps;
    } else {
      assert (ps + qs)[..|ps + qs| - 1] == ps + qs[..|qs| - 1];
      LineBucketPolygonsAppend(b, ps, qs[..|qs| - 1], earcut);
    }
  }

  /** The vertex buffer grows by two floats per open-ring vertex read, whatever the indices do. */
  lemma {:induction false} LineBucketPolygonsVertices(b: Buffers, ps: seq<Polygon>, earcut: LegacyEarcut)
    requires AllRingsNonEmpty(ps)
    ensures LineBucketPolygons(b, ps, earcut).vertices == b.vertices + PointVertices(ps)
  {
    if ps != [] {
      LineBucketPolygonsVertices(b, ps[..|ps| - 1], earcut);
      AppendAssoc(b.vertices, PointVertices(ps[..|ps| - 1]), FlattenOpen(Rings(ps[|ps| - 1])));
    }
  }

  lemma LineBucketCollectionStep(start: Buffers, gc: GeometryCollection, j: nat, earcut: LegacyEarcut)
    requires j < |gc| && GeometriesWellFormed(gc) && AllRingsNonEmpty(CollectionPolygons(gc[..j]))
    ensures AllRingsNonEmpty(CollectionPolygons(gc[..j + 1]))
    ensures LineBucketPolygons(start, CollectionPolygons(gc[..j + 1]), earcut) ==
      if gc[j].PolygonGeometry? then LineBucketPolygon(LineBucketPolygons(start, CollectionPolygons(gc[..j]), earcut), gc[j].polygon, earcut)
      else LineBucketPolygons(start, CollectionPolygons(gc[..j]), earcut)
  {
    var done := CollectionPolygons(gc[..j]);
    CollectionPolygonsStep(gc, j);
    if gc[j].PolygonGeometry? {
      var p := gc[j].polygon;
      assert PolygonRingsNonEmpty(p);
      assert CollectionPolygons(gc[..j + 1]) == done + [p];
      AllRingsNonEmptyAppend(done, [p]);
      assert (done + [p])[..|done|] == done;
    } else {
      assert CollectionPolygons(gc[..j + 1]) == done;
    }
  }

  lemma LineBucketFeaturesStep(start: Buffers, features: seq<Feature<GeometryCollection>>, i: nat, earcut: LegacyEarcut)
    requires i < |features| && AllRingsNonEmpty(CollectionInput(features[..i]))
    requires AllRingsNonEmpty(CollectionPolygons(features[i].geometry))
    ensures AllRingsNonEmpty(CollectionInput(features[..i + 1]))
    ensures LineBucketPolygons(start, CollectionInput(features[..i + 1]), earcut) ==
      LineBucketPolygons(LineBucketPolygons(start, CollectionInput(features[..i]), earcut), CollectionPolygons(features[i].geometry), earcut)
  {
    var done := CollectionInput(features[..i]);
    var here := CollectionPolygons(features[i].geometry);
    assert features[..i + 1][..i] == features[..i];
    assert CollectionInput(features[..i + 1]) == done + here;
    LineBucketPolygonsAppend(start, done, here, earcut);
  }

  /** `Bucket<F>` as src/bucket/line.rs builds and fills it. */
  class LineBucket {
    const bucketType: BucketType
    const extent: seq<real>
    var features: seq<Feature<GeometryCollection>>
    var vertexGpuBuffer: Option<GpuBuffer>
    var vertexBuffer: seq<real>
    var indexGpuBuffer: Option<GpuBuffer>
    var indexBuffer: seq<nat>

    function CpuBuffers(): Buffers
      reads this
    {
      Buffers(vertexBuffer, indexBuffer)
    }

    /** `AcceptFeatures::<F, Line>::new`: bucket type Line, a zero extent, no features, empty buffers. */
    constructor NewLine()
      ensures bucketType == Line && extent == [0.0, 0.0, 0.0, 0.0]
      ensures features == [] && vertexBuffer == [] && indexBuffer == []
      ensures vertexGpuBuffer == None && indexGpuBuffer == None
    {
      bucketType := Line;
      extent := [0.0, 0.0, 0.0, 0.0];
      features := [];
      vertexGpuBuffer := None;
      vertexBuffer := [];
      indexGpuBuffer := None;
      indexBuffer := [];
    }

    /** The inner loop of add_features over one feature's collection. */
    method AddCollection(collection: GeometryCollection, earcut: LegacyEarcut)
      requires GeometriesWellFormed(collection)
      modifies this
      ensures AllRingsNonEmpty(CollectionPolygons(collection))
      ensures CpuBuffers() == LineBucketPolygons(old(CpuBuffers()), CollectionPolygons(collection), earcut)
      ensures features == old(features)
      ensures vertexGpuBuffer == old(vertexGpuBuffer) && indexGpuBuffer == old(indexGpuBuffer)
    {
      ghost var start := CpuBuffers();
      for j := 0 to |collection|
        invariant AllRingsNonEmpty(CollectionPolygons(collection[..j]))
        invariant CpuBuffers() == LineBucketPolygons(start, CollectionPolygons(collection[..j]), earcut)
        invariant features == old(features)
        invariant vertexGpuBuffer == old(vertexGpuBuffer) && indexGpuBuffer == old(indexGpuBuffer)
      {
        LineBucketCollectionStep(start, collection, j, earcut);
        if collection[j].PolygonGeometry? {
          AddPolygon(collection[j].polygon, earcut);
        }
      }
      assert collection[..|collection|] == collection;
    }

    /**
     * One polygon member: open rings appended, earcut's indices shifted by
     * the earlier vertex count taken as `u16`.
     */
    method AddPolygon(p: Polygon, earcut: LegacyEarcut)
      requires PolygonRingsNonEmpty(p)
      modifies this
      ensures CpuBuffers() == LineBucketPolygon(old(CpuBuffers()), p, earcut)
      ensures features == old(features)
      ensures vertexGpuBuffer == old(vertexGpuBuffer) && indexGpuBuffer == old(indexGpuBuffer)
    {
      var rings := Rings(p);
      var vertices, holeIndices := FlattenRings(rings, 1);
      var indices := earcut(vertices, holeIndices);
      var offset := AsU16(|vertexBuffer| / Dimensions);
      vertexBuffer := vertexBuffer + vertices;
      indexBuffer := indexBuffer + ShiftU16(indices, offset);
    }

    /**
     * add_features: every polygon member of every feature's collection is
     * flattened (open rings) and triangulated; its indices, shifted by the
     * `u16` vertex offset, are appended. The features move into the bucket
     * and both GPU buffers are rebuilt from the CPU buffers.
     */
    method AddFeatures(features: seq<Feature<GeometryCollection>>, earcut: LegacyEarcut)
      requires CollectionFeaturesWellFormed(features)
      modifies this
      ensures AllRingsNonEmpty(CollectionInput(features))
      ensures CpuBuffers() == LineBucketPolygons(old(CpuBuffers()), CollectionInput(features), earcut)
      ensures this.features == old(this.features) + features
      ensures vertexGpuBuffer == Some(CreateBufferInit(Floats(vertexBuffer), {VertexUsage}))
      ensures indexGpuBuffer == Some(CreateBufferInit(HalfWords(indexBuffer), {IndexUsage}))
    {
      ghost var start := CpuBuffers();
      for i := 0 to |features|
        invariant AllRingsNonEmpty(CollectionInput(features[..i]))
        invariant CpuBuffers() == LineBucketPolygons(start, CollectionInput(features[..i]), earcut)
        invariant this.features == old(this.features)
      {
        AddCollection(features[i].geometry, earcut);
        LineBucketFeaturesStep(start, features, i, earcut);
      }
      assert features[..|features|] == features;
      this.features := this.features + features;
      vertexGpuBuffer := Some(CreateBufferInit(Floats(vertexBuffer), {VertexUsage}));
      indexGpuBuffer := Some(CreateBufferInit(HalfWords(indexBuffer), {IndexUsage}));
    }
  }
}
