/**
 * The entry points of src/lib.rs: the line-strip builder `triangulate`, the
 * `Instance` singleton with its `render` (view-matrix copy and resize check),
 * the drain of the tile-parser queue and `add_pbf_tile_data`, which parses a
 * tile and queues its "land" layer.
 */
module Lib {
  import opened Wrappers
  import opened Geo
  import opened TileGeometry
  import opened Transform
  import opened Parser
  import Ressource

  // ---------------------------------------------------------------------------
  // triangulate

  /** `offset, offset + 1, ..., offset + n - 1`. */
  function Range(offset: nat, n: nat): (r: seq<nat>)
    ensures |r| == n
    ensures forall k :: 0 <= k < n ==> r[k] == offset + k
  {
    if n == 0 then [] else Range(offset, n - 1) + [offset + n - 1]
  }

  /**
   * The indices of one ring of `n` open vertices starting at `offset`: each
   * vertex in order, then `offset` once to close the ring and once more to
   * separate it from the next line strip.
   */
  function Strip(offset: nat, n: nat): (r: seq<nat>)
    ensures |r| == n + 2
    ensures forall k :: 0 <= k < n ==> r[k] == offset + k
    ensures r[n] == offset && r[n + 1] == offset
  {
    Range(offset, n) + [offset, offset]
  }

  /** What triangulate has built so far: `all_vertices`, `all_indices` and `offset`. */
  datatype Strips = Strips(vertices: seq<real>, indices: seq<nat>, offset: nat)

  const NoStrips: Strips := Strips([], [], 0)

  /** One ring: its open coordinates, its strip, and the offset advanced past its vertices. */
  function AddRing(s: Strips, ring: LineString): Strips
    requires |ring| >= 1
  {
    Strips(s.vertices + Coords(Open(ring)), s.indices + Strip(s.offset, |ring| - 1), s.offset + |ring| - 1)
  }

  /** The rings, one after another. */
  function AddRings(s: Strips, rings: seq<LineString>): Strips
    requires RingsNonEmpty(rings)
  {
    if rings == [] then s else AddRing(AddRings(s, rings[..|rings| - 1]), rings[|rings| - 1])
  }

  /** The exterior rings of the polygons, in order. */
  function Exteriors(ps: seq<Polygon>): (r: seq<LineString>)
    ensures |r| == |ps|
    ensures forall k :: 0 <= k < |ps| ==> r[k] == ps[k].exterior
  {
    seq(|ps|, k requires 0 <= k < |ps| => ps[k].exterior)
  }

  /**
   * The rings triangulate reads: the exterior of every polygon member of every
   * feature's collection; interiors, multi-polygons and other kinds are skipped.
   */
  function TriangulatedRings(features: seq<Feature<GeometryCollection>>): seq<LineString>
  {
    Exteriors(CollectionInput(features))
  }

  /** Every polygon member has a non-empty exterior (`exterior.0.len() - 1` does not underflow). */
  predicate ExteriorsNonEmpty(features: seq<Feature<GeometryCollection>>)
  {
    RingsNonEmpty(TriangulatedRings(features))
  }

  lemma {:induction false} AddRingsAppend(s: Strips, a: seq<LineString>, b: seq<LineString>)
    requires RingsNonEmpty(a) && RingsNonEmpty(b)
    ensures RingsNonEmpty(a + b)
    ensures AddRings(s, a + b) == AddRings(AddRings(s, a), b)
    decreases |b|
  {
    if b == [] {
      assert a + b == a;
    } else {
      assert (a + b)[..|a + b| - 1] == a + b[..|b| - 1];
      AddRingsAppend(s, a, b[..|b| - 1]);
    }
  }

  /**
   * The strips of any ring list: the flattened open rings as vertices, one
   * vertex per open coordinate added to the offset, and `n + 2` indices per
   * ring of `n` open coordinates.
   */
  lemma {:induction false} AddRingsShape(s: Strips, rings: seq<LineString>)
    requires RingsNonEmpty(rings)
    ensures var t := AddRings(s, rings);
      && t.vertices == s.vertices + FlattenOpen(rings)
      && t.offset == s.offset + OpenVertexCount(rings)
      && |t.indices| == |s.indices| + OpenVertexCount(rings) + 2 * |rings|
      && t.indices[..|s.indices|] == s.indices
  {
    if rings != [] {
      var init := rings[..|rings| - 1];
      AddRingsShape(s, init);
      AppendAssoc(s.vertices, FlattenOpen(init), Coords(Open(rings[|rings| - 1])));
    }
  }

  /** After triangulate the vertex buffer holds exactly two floats per vertex the offset counts. */
  lemma VertexCountIsTwiceOffset(rings: seq<LineString>)
    requires RingsNonEmpty(rings)
    ensures |AddRings(NoStrips, rings).vertices| == 2 * AddRings(NoStrips, rings).offset
  {
    AddRingsShape(NoStrips, rings);
    FlattenOpenLength(rings);
  }

  /**
   * Ring `k`'s strip sits right after the indices of the rings before it and
   * starts at the offset those rings leave.
   */
  lemma RingStripAt(s: Strips, rings: seq<LineString>, k: nat)
    requires RingsNonEmpty(rings) && k < |rings|
    ensures var before := AddRings(s, rings[..k]);
      var t := AddRings(s, rings);
      var n := |rings[k]| - 1;
      && |before.indices| + (n + 2) <= |t.indices|
      && t.indices[|before.indices|..|before.indices| + (n + 2)] == Strip(before.offset, n)
  {
    var before := AddRings(s, rings[..k]);
    var n := |rings[k]| - 1;
    AddRingsNext(s, rings, k);
    IndicesPrefix(s, rings, k + 1);
    SliceAfterPrefix(AddRings(s, rings).indices, before.indices, Strip(before.offset, n), n + 2);
  }

  /** The indices up to and including ring `k` are those before it followed by ring `k`'s strip. */
  lemma AddRingsNext(s: Strips, rings: seq<LineString>, k: nat)
    requires RingsNonEmpty(rings) && k < |rings|
    ensures var before := AddRings(s, rings[..k]);
      AddRings(s, rings[..k + 1]).indices == before.indices + Strip(before.offset, |rings[k]| - 1)
  {
    assert rings[..k + 1][..k] == rings[..k];
  }

  /** When `a` starts with `b + c`, the slice of `a` just after `b` is `c`. */
  lemma SliceAfterPrefix<T>(a: seq<T>, b: seq<T>, c: seq<T>, m: nat)
    requires |b + c| <= |a| && a[..|b + c|] == b + c && |c| == m
    ensures |b| + m <= |a| && a[|b|..|b| + m] == c
  {
    assert forall i :: |b| <= i < |b| + |c| ==> a[i] == (b + c)[i];
  }

  /** The indices built for the first `j` rings are a prefix of those built for all of them. */
  lemma IndicesPrefix(s: Strips, rings: seq<LineString>, j: nat)
    requires RingsNonEmpty(rings) && j <= |rings|
    ensures var p := AddRings(s, rings[..j]).indices;
      var t := AddRings(s, rings).indices;
      |p| <= |t| && t[..|p|] == p
  {
    var a := rings[..j];
    var b := rings[j..];
    assert rings == a + b;
    AddRingsAppend(s, a, b);
    AddRingsShape(AddRings(s, a), b);
  }

  /** Every ring with two or more coordinates: all indices point below the final offset. */
  predicate RingsHaveEdges(rings: seq<LineString>)
  {
    forall k :: 0 <= k < |rings| ==> |rings[k]| >= 2
  }

  lemma {:induction false} IndicesBelowOffset(s: Strips, rings: seq<LineString>)
    requires RingsNonEmpty(rings) && RingsHaveEdges(rings)
    requires forall k :: 0 <= k < |s.indices| ==> s.indices[k] < s.offset
    ensures var t := AddRings(s, rings);
      forall k :: 0 <= k < |t.indices| ==> t.indices[k] < t.offset
  {
    if rings != [] {
      var init := rings[..|rings| - 1];
      IndicesBelowOffset(s, init);
      var mid := AddRings(s, init);
      assert var t0 := AddRings(s, init); forall k :: 0 <= k < |t0.indices| ==> t0.indices[k] < t0.offset;
      assert forall k :: 0 <= k < |mid.indices| ==> mid.indices[k] < mid.offset;
      var n := |rings[|rings| - 1]| - 1;
      var t := AddRing(mid, rings[|rings| - 1]);
      assert n >= 1 && t.offset == mid.offset + n;
      forall k | 0 <= k < |t.indices|
        ensures t.indices[k] < t.offset
      {
        if k < |mid.indices| {
          assert t.indices[k] == mid.indices[k] < mid.offset;
        } else {
          var j := k - |mid.indices|;
          assert t.indices[k] == Strip(mid.offset, n)[j];
          if j < n {
            assert Strip(mid.offset, n)[j] == mid.offset + j;
          } else {
            assert Strip(mid.offset, n)[j] == mid.offset;
          }
        }
      }
    }
  }

  /** The coordinate loop: push `x, y` and the index `i + offset` for every open coordinate. */
  method PushRingStrip(vertices: seq<real>, indices: seq<nat>, ring: LineString, offset: nat)
    returns (vertices': seq<real>, indices': seq<nat>, offset': nat)
    requires |ring| >= 1
    ensures Strips(vertices', indices', offset') == AddRing(Strips(vertices, indices, offset), ring)
  {
    var end := |ring| - 1;
    var slice := ring[..end];
    vertices' := vertices;
    indices' := indices;
    for i := 0 to |slice|
      invariant vertices' == vertices + Coords(slice[..i])
      invariant indices' == indices + Range(offset, i)
    {
      assert slice[..i + 1][..i] == slice[..i];
      AppendAssoc(vertices, Coords(slice[..i]), [slice[i].x, slice[i].y]);
      AppendAssoc(indices, Range(offset, i), [i + offset]);
      vertices' := vertices' + [slice[i].x, slice[i].y];
      indices' := indices' + [i + offset];
    }
    assert slice[..|slice|] == slice == Open(ring);
    ghost var range := Range(offset, |slice|);
    AppendAssoc(indices, range, [offset]);
    AppendAssoc(indices, range + [offset], [offset]);
    assert range + [offset] + [offset] == Strip(offset, |slice|);
    indices' := indices' + [offset];
    indices' := indices' + [offset];
    offset' := offset + |slice|;
  }

  lemma StripRingsStep(rings: seq<LineString>, offset: nat, i: nat)
    requires RingsNonEmpty(rings) && i < |rings|
    ensures RingsNonEmpty(rings[..i]) && RingsNonEmpty(rings[..i + 1])
    ensures AddRings(Strips([], [], offset), rings[..i + 1]) == AddRing(AddRings(Strips([], [], offset), rings[..i]), rings[i])
    ensures |AddRings(Strips([], [], offset), rings[..i + 1]).vertices| == |FlattenOpen(rings[..i + 1])|
  {
    assert rings[..i + 1][..i] == rings[..i];
    AddRingsShape(Strips([], [], offset), rings[..i + 1]);
  }

  /**
   * The ring loop of triangulate on one polygon's rings: the local vertex and
   * index buffers, and after every ring but the last the number of floats
   * pushed so far as a hole index.
   */
  method StripRings(rings: seq<LineString>, offset: nat)
    returns (vertices: seq<real>, indices: seq<nat>, holeIndices: seq<nat>, offset': nat)
    requires |rings| >= 1 && RingsNonEmpty(rings)
    ensures Strips(vertices, indices, offset') == AddRings(Strips([], [], offset), rings)
    ensures holeIndices == HoleIndices(rings, 1)
  {
    vertices, holeIndices, indices := [], [], [];
    offset' := offset;
    for i := 0 to |rings|
      invariant Strips(vertices, indices, offset') == AddRings(Strips([], [], offset), rings[..i])
      invariant |holeIndices| == (if i < |rings| then i else |rings| - 1)
      invariant holeIndices == HoleIndices(rings, 1)[..|holeIndices|]
    {
      StripRingsStep(rings, offset, i);
      vertices, indices, offset' := PushRingStrip(vertices, indices, rings[i], offset');
      if i < |rings| - 1 {
        HoleIndicesStep(rings, 1, i);
        holeIndices := holeIndices + [|vertices|];
      }
    }
    assert rings[..|rings|] == rings;
  }

  /**
   * One polygon: its rings are the exterior alone (the interiors are replaced
   * by an empty slice), so no hole index is ever recorded.
   */
  method TriangulatePolygon(polygon: Polygon, offset: nat)
    returns (vertices: seq<real>, indices: seq<nat>, holeIndices: seq<nat>, offset': nat)
    requires |polygon.exterior| >= 1
    ensures Strips(vertices, indices, offset') == AddRing(Strips([], [], offset), polygon.exterior)
    ensures holeIndices == []
  {
    var interior: seq<LineString> := [];
    var rings := [polygon.exterior] + interior;
    vertices, indices, holeIndices, offset' := StripRings(rings, offset);
    assert rings[..0] == [];
  }

  lemma ExteriorsAppend(ps: seq<Polygon>, qs: seq<Polygon>)
    ensures Exteriors(ps + qs) == Exteriors(ps) + Exteriors(qs)
  {
  }

  lemma RingsNonEmptySplit(a: seq<LineString>, b: seq<LineString>)
    requires RingsNonEmpty(a + b)
    ensures RingsNonEmpty(a) && RingsNonEmpty(b)
  {
    assert forall k :: 0 <= k < |a| ==> a[k] == (a + b)[k];
    assert forall k :: 0 <= k < |b| ==> b[k] == (a + b)[|a| + k];
  }

  /** One more member of a collection, in terms of the strips built so far. */
  lemma CollectionStripsStep(s: Strips, gc: GeometryCollection, j: nat)
    requires j < |gc| && RingsNonEmpty(Exteriors(CollectionPolygons(gc)))
    ensures RingsNonEmpty(Exteriors(CollectionPolygons(gc[..j])))
    ensures RingsNonEmpty(Exteriors(CollectionPolygons(gc[..j + 1])))
    ensures AddRings(s, Exteriors(CollectionPolygons(gc[..j + 1]))) ==
      if gc[j].PolygonGeometry? then AddRing(AddRings(s, Exteriors(CollectionPolygons(gc[..j]))), gc[j].polygon.exterior)
      else AddRings(s, Exteriors(CollectionPolygons(gc[..j])))
  {
    var tail := if gc[j].PolygonGeometry? then [gc[j].polygon] else [];
    assert gc == gc[..j + 1] + gc[j + 1..];
    CollectionPolygonsAppend(gc[..j + 1], gc[j + 1..]);
    ExteriorsAppend(CollectionPolygons(gc[..j + 1]), CollectionPolygons(gc[j + 1..]));
    RingsNonEmptySplit(Exteriors(CollectionPolygons(gc[..j + 1])), Exteriors(CollectionPolygons(gc[j + 1..])));
    CollectionPolygonsStep(gc, j);
    ExteriorsAppend(CollectionPolygons(gc[..j]), tail);
    RingsNonEmptySplit(Exteriors(CollectionPolygons(gc[..j])), Exteriors(tail));
    if gc[j].PolygonGeometry? {
      var e := Exteriors(CollectionPolygons(gc[..j + 1]));
      assert e[..|e| - 1] == Exteriors(CollectionPolygons(gc[..j]));
    } else {
      assert CollectionPolygons(gc[..j + 1]) == CollectionPolygons(gc[..j]);
    }
  }

  /** A ring built on its own and appended equals the ring built in place. */
  lemma AddRingOnto(vertices: seq<real>, indices: seq<nat>, offset: nat, ring: LineString)
    requires |ring| >= 1
    ensures var alone := AddRing(Strips([], [], offset), ring);
      AddRing(Strips(vertices, indices, offset), ring) == Strips(vertices + alone.vertices, indices + alone.indices, alone.offset)
  {
    assert [] + Coords(Open(ring)) == Coords(Open(ring));
    assert [] + Strip(offset, |ring| - 1) == Strip(offset, |ring| - 1);
  }

  /** The geometry loop of triangulate over one feature's collection. */
  method TriangulateCollection(gc: GeometryCollection, vertices: seq<real>, indices: seq<nat>, offset: nat)
    returns (vertices': seq<real>, indices': seq<nat>, offset': nat)
    requires RingsNonEmpty(Exteriors(CollectionPolygons(gc)))
    ensures Strips(vertices', indices', offset') == AddRings(Strips(vertices, indices, offset), Exteriors(CollectionPolygons(gc)))
  {
    vertices', indices', offset' := vertices, indices, offset;
    for j := 0 to |gc|
      invariant RingsNonEmpty(Exteriors(CollectionPolygons(gc[..j])))
      invariant Strips(vertices', indices', offset') == AddRings(Strips(vertices, indices, offset), Exteriors(CollectionPolygons(gc[..j])))
    {
      CollectionStripsStep(Strips(vertices, indices, offset), gc, j);
      if gc[j].PolygonGeometry? {
        var polygonVertices, polygonIndices, _, next := TriangulatePolygon(gc[j].polygon, offset');
        AddRingOnto(vertices', indices', offset', gc[j].polygon.exterior);
        vertices' := vertices' + polygonVertices;
        indices' := indices' + polygonIndices;
        offset' := next;
      }
    }
    assert gc[..|gc|] == gc;
  }

  /** The rings of the first `i + 1` features: those of the first `i`, then feature `i`'s. */
  lemma FeatureStripsStep(features: seq<Feature<GeometryCollection>>, i: nat)
    requires i < |features| && ExteriorsNonEmpty(features)
    ensures RingsNonEmpty(Exteriors(CollectionInput(features[..i])))
    ensures RingsNonEmpty(Exteriors(CollectionPolygons(features[i].geometry)))
    ensures RingsNonEmpty(Exteriors(CollectionInput(features[..i + 1])))
    ensures AddRings(NoStrips, Exteriors(CollectionInput(features[..i + 1]))) ==
      AddRings(AddRings(NoStrips, Exteriors(CollectionInput(features[..i]))), Exteriors(CollectionPolygons(features[i].geometry)))
  {
    var done := CollectionInput(features[..i]);
    var here := CollectionPolygons(features[i].geometry);
    assert features == features[..i + 1] + features[i + 1..];
    CollectionInputAppend(features[..i + 1], features[i + 1..]);
    ExteriorsAppend(CollectionInput(features[..i + 1]), CollectionInput(features[i + 1..]));
    RingsNonEmptySplit(Exteriors(CollectionInput(features[..i + 1])), Exteriors(CollectionInput(features[i + 1..])));
    assert features[..i + 1][..i] == features[..i];
    ExteriorsAppend(done, here);
    RingsNonEmptySplit(Exteriors(done), Exteriors(here));
    AddRingsAppend(NoStrips, Exteriors(done), Exteriors(here));
  }

  /**
   * triangulate: every exterior ring of every polygon member, in order, as a
   * line strip; the vertices of all rings in one buffer and the strips'
   * indices, offset by the vertices before them, in the other.
   */
  method Triangulate(features: seq<Feature<GeometryCollection>>) returns (allVertices: seq<real>, allIndices: seq<nat>)
    requires ExteriorsNonEmpty(features)
    ensures Strips(allVertices, allIndices, |allVertices| / Dimensions) == AddRings(NoStrips, TriangulatedRings(features))
  {
    allVertices, allIndices := [], [];
    var offset := 0;
    for i := 0 to |features|
      invariant RingsNonEmpty(Exteriors(CollectionInput(features[..i])))
      invariant Strips(allVertices, allIndices, offset) == AddRings(NoStrips, Exteriors(CollectionInput(features[..i])))
    {
      FeatureStripsStep(features, i);
      allVertices, allIndices, offset := TriangulateCollection(features[i].geometry, allVertices, allIndices, offset);
      if i + 1 < |features| {
        FeatureStripsStep(features, i + 1);
      } else {
        assert features[..i + 1] == features;
      }
    }
    assert features[..|features|] == features;
    VertexCountIsTwiceOffset(TriangulatedRings(features));
  }

  // ---------------------------------------------------------------------------
  // render: the view matrix

  /** Read 16 floats as four columns of four: entry `[i][j]` is float `4 * i + j`. */
  function MatrixOfFlat(flat: seq<real>): (m: Matrix)
    requires |flat| >= 16
    ensures IsMat4(m)
  {
    seq(4, i requires 0 <= i < 4 => seq(4, j requires 0 <= j < 4 => flat[4 * i + j]))
  }

  /** The columns of a 4x4 matrix laid end to end. */
  function Flatten(m: Matrix): (flat: seq<real>)
    requires IsMat4(m)
    ensures |flat| == 16
  {
    m[0] + m[1] + m[2] + m[3]
  }

  /** Reading a flat matrix and laying it out again gives back its first 16 floats. */
  lemma FlattenMatrixOfFlat(flat: seq<real>)
    requires |flat| >= 16
    ensures Flatten(MatrixOfFlat(flat)) == flat[..16]
  {
    var m := MatrixOfFlat(flat);
    forall k | 0 <= k < 16
      ensures Flatten(m)[k] == flat[k]
    {
      assert Flatten(m)[k] == m[k / 4][k % 4];
    }
  }

  /** Laying a matrix out and reading it back gives the same matrix. */
  lemma MatrixOfFlatten(m: Matrix)
    requires IsMat4(m)
    ensures MatrixOfFlat(Flatten(m)) == m
  {
    var r := MatrixOfFlat(Flatten(m));
    forall i | 0 <= i < 4
      ensures r[i] == m[i]
    {
      forall j | 0 <= j < 4
        ensures r[i][j] == m[i][j]
      {
        assert Flatten(m)[4 * i + j] == m[i][j];
      }
    }
  }

  const ViewMatrixWrong: string := "view matrix is wrong"

  /**
   * The copy loop of render: `view_matrix_array[i][j] = view_matrix[i * 4 + j]`,
   * panicking at the first float that is missing.
   */
  method ViewMatrixArray(viewMatrix: seq<real>) returns (r: Fallible<Matrix>)
    ensures r.Panicked? <==> |viewMatrix| < 16
    ensures r.Returned? ==> r.value == MatrixOfFlat(viewMatrix)
  {
    var columns: Matrix := [[0.0, 0.0, 0.0, 0.0], [0.0, 0.0, 0.0, 0.0], [0.0, 0.0, 0.0, 0.0], [0.0, 0.0, 0.0, 0.0]];
    for i := 0 to 4
      invariant IsMat4(columns)
      invariant 4 * i <= |viewMatrix|
      invariant forall a, b :: 0 <= a < i && 0 <= b < 4 ==> columns[a][b] == viewMatrix[4 * a + b]
    {
      for j := 0 to 4
        invariant IsMat4(columns)
        invariant 4 * i + j <= |viewMatrix|
        invariant forall a, b :: 0 <= a < i && 0 <= b < 4 ==> columns[a][b] == viewMatrix[4 * a + b]
        invariant forall b :: 0 <= b < j ==> columns[i][b] == viewMatrix[4 * i + b]
      {
        if i * 4 + j >= |viewMatrix| {
          return Panicked(ViewMatrixWrong);
        }
        columns := columns[i := columns[i][j := viewMatrix[i * 4 + j]]];
      }
    }
    assert forall a :: 0 <= a < 4 ==> columns[a] == MatrixOfFlat(viewMatrix)[a];
    return Returned(columns);
  }

  // ---------------------------------------------------------------------------
  // The tile-parser queue

  /** `Message`: the parsed features of one tile (if its layer was found) and its extent. */
  datatype Message = Message(parsedFeatures: Option<seq<Feature<GeometryCollection>>>, extent: seq<real>)

  /**
   * The Fill tile reads one geometry per feature: each member of a feature's
   * collection is handed over as a feature of its own, with the same properties.
   */
  function MemberFeatures(f: Feature<GeometryCollection>): (r: seq<Feature<Geometry>>)
    ensures |r| == |f.geometry|
    ensures forall k :: 0 <= k < |r| ==> r[k].geometry == f.geometry[k] && r[k].properties == f.properties
  {
    seq(|f.geometry|, k requires 0 <= k < |f.geometry| => Feature(f.geometry[k], f.properties))
  }

  function FillFeatures(fs: seq<Feature<GeometryCollection>>): seq<Feature<Geometry>>
  {
    if fs == [] then [] else FillFeatures(fs[..|fs| - 1]) + MemberFeatures(fs[|fs| - 1])
  }

  /** Features whose collections are all empty hand the Fill tile nothing. */
  lemma {:induction false} EmptyCollectionsFillNothing(fs: seq<Feature<GeometryCollection>>)
    requires AllGeometriesEmpty(fs)
    ensures FillFeatures(fs) == []
  {
    if fs != [] {
      var init := fs[..|fs| - 1];
      assert AllGeometriesEmpty(init) by {
        forall i | 0 <= i < |init|
          ensures init[i].geometry == []
        {
          assert init[i] == fs[i];
        }
      }
      EmptyCollectionsFillNothing(init);
    }
  }

  /** Every polygon a queued message would hand the Fill tile has non-empty rings. */
  predicate MessageWellFormed(m: Message)
  {
    m.parsedFeatures.Some? ==> FillFeaturesWellFormed(FillFeatures(m.parsedFeatures.value))
  }

  predicate QueueWellFormed(q: seq<Message>)
  {
    forall k :: 0 <= k < |q| ==> MessageWellFormed(q[k])
  }

  /** The CPU buffers of the Fill tile built from a message. */
  function TileBuffers(m: Message, earcut: Earcut): Buffers
    requires m.parsedFeatures.Some? && MessageWellFormed(m)
  {
    FillInputRingsNonEmpty(FillFeatures(m.parsedFeatures.value));
    FillPolygons(EmptyBuffers, FillInput(FillFeatures(m.parsedFeatures.value)), earcut)
  }

  /** A message the drain turns into a tile: non-empty features and a four-float extent. */
  predicate Accepted(m: Message)
  {
    m.parsedFeatures.Some? && m.parsedFeatures.value != [] && |m.extent| == 4
  }

  /**
   * The outcome of draining a queue: the messages that became tiles, in
   * order, the messages left queued, and whether the drain panicked.
   */
  datatype DrainOutcome = DrainOutcome(created: seq<Message>, remaining: seq<Message>, panicked: bool)

  function Prepend(created: seq<Message>, d: DrainOutcome): DrainOutcome
  {
    d.(created := created + d.created)
  }

  const ExtentUnwrap: string := "called `Result::unwrap()` on an `Err` value"

  /**
   * process_tile_parser_queue on queue `q` (with or without a renderer): a
   * message without features is consumed and dropped; one with an empty
   * feature list is consumed and ends the drain; a wrong-length extent, or a
   * missing renderer, panics; any other message becomes one tile. The drain
   * also ends when the queue is empty.
   */
  function DrainSpec(q: seq<Message>, hasRenderer: bool): DrainOutcome
  {
    if q == [] then DrainOutcome([], [], false)
    else
      var m := q[0];
      if m.parsedFeatures.None? then DrainSpec(q[1..], hasRenderer)
      else if m.parsedFeatures.value == [] then DrainOutcome([], q[1..], false)
      else if |m.extent| != 4 || !hasRenderer then DrainOutcome([], q[1..], true)
      else Prepend([m], DrainSpec(q[1..], hasRenderer))
  }

  /** The first message decides: dropped, drain ended (panicking unless its feature list is empty), or one more tile. */
  lemma DrainSpecFirst(q: seq<Message>, hasRenderer: bool)
    requires q != []
    ensures var m := q[0];
      DrainSpec(q, hasRenderer) ==
        if m.parsedFeatures.None? then DrainSpec(q[1..], hasRenderer)
        else if !(Accepted(m) && hasRenderer) then DrainOutcome([], q[1..], m.parsedFeatures != Some([]))
        else Prepend([m], DrainSpec(q[1..], hasRenderer))
  {
  }

  lemma PrependTwice(a: seq<Message>, b: seq<Message>, d: DrainOutcome)
    ensures Prepend(a, Prepend(b, d)) == Prepend(a + b, d)
  {
    AppendAssoc(a, b, d.created);
  }

  /**
   * Whatever the queue: the drain leaves a suffix of it queued, builds tiles
   * only from accepted messages of the queue, and panics only on a message.
   */
  lemma {:induction false} DrainOutcomeShape(q: seq<Message>, hasRenderer: bool)
    ensures var d := DrainSpec(q, hasRenderer);
      && |d.created| + |d.remaining| <= |q|
      && d.remaining == q[|q| - |d.remaining|..]
      && (forall k :: 0 <= k < |d.created| ==> Accepted(d.created[k]) && d.created[k] in q)
      && (d.panicked ==> |q| > 0)
  {
    if q != [] {
      DrainOutcomeShape(q[1..], hasRenderer);
      var rest := DrainSpec(q[1..], hasRenderer);
      var d := DrainSpec(q, hasRenderer);
      if d == Prepend([q[0]], rest) {
        forall k | 0 <= k < |d.created|
          ensures Accepted(d.created[k]) && d.created[k] in q
        {
          if k > 0 {
            assert d.created[k] == rest.created[k - 1];
          }
        }
      }
    }
  }

  /** The queued messages before the one that ends a drain, as tiles. */
  function AcceptedOf(q: seq<Message>): (r: seq<Message>)
    ensures forall k :: 0 <= k < |r| ==> Accepted(r[k])
  {
    if q == [] then []
    else (if Accepted(q[0]) then [q[0]] else []) + AcceptedOf(q[1..])
  }

  /** A message with no features or with a tile to build does not end the drain. */
  predicate PassesThrough(m: Message, hasRenderer: bool)
  {
    m.parsedFeatures.None? || (Accepted(m) && hasRenderer)
  }

  /**
   * A message whose feature list is empty ends the drain at once: everything
   * queued after it stays queued, every accepted message before it became a
   * tile, and messages without features were dropped.
   */
  lemma {:induction false} EmptyFeaturesStopDrain(before: seq<Message>, m: Message, after: seq<Message>, hasRenderer: bool)
    requires forall k :: 0 <= k < |before| ==> PassesThrough(before[k], hasRenderer)
    requires m.parsedFeatures == Some([])
    ensures DrainSpec(before + [m] + after, hasRenderer) == DrainOutcome(AcceptedOf(before), after, false)
  {
    var q := before + [m] + after;
    if before == [] {
      assert q[0] == m && q[1..] == after;
    } else {
      assert q[0] == before[0];
      assert q[1..] == before[1..] + [m] + after;
      EmptyFeaturesStopDrain(before[1..], m, after, hasRenderer);
    }
  }

  /** Without a message that ends it, the drain consumes the whole queue and builds a tile per accepted message. */
  lemma {:induction false} DrainConsumesAll(q: seq<Message>, hasRenderer: bool)
    requires forall k :: 0 <= k < |q| ==> PassesThrough(q[k], hasRenderer)
    ensures DrainSpec(q, hasRenderer) == DrainOutcome(AcceptedOf(q), [], false)
  {
    if q != [] {
      DrainConsumesAll(q[1..], hasRenderer);
    }
  }

  /** The Fill tile the drain pushes for message `m`. */
  predicate NewFillTile(t: Ressource.Tile, m: Message, earcut: Earcut)
    reads t
  {
    && m.parsedFeatures.Some? && MessageWellFormed(m)
    && t.bucketType == Ressource.Fill
    && t.extent == m.extent
    && t.CpuBuffers() == TileBuffers(m, earcut)
  }

  const ParseError: string := "parse error"

  /** The features get_features builds for a layer whose tags all parse. */
  function LayerFeatures(layer: Layer, fmt: FloatText): (fs: seq<Feature<GeometryCollection>>)
    requires forall i :: 0 <= i < |layer.features| ==> ParseTagsSpec(layer.features[i].tags, layer.keys, layer.values, fmt).Returned?
    ensures |fs| == |layer.features| && AllGeometriesEmpty(fs)
  {
    seq(|layer.features|, i requires 0 <= i < |layer.features| =>
      EmptyGeometryFeature(ParseTagsSpec(layer.features[i].tags, layer.keys, layer.values, fmt).value))
  }

  /**
   * A message from add_pbf_tile_data carries features without geometry, so the
   * Fill tile the drain builds from it stays empty.
   */
  lemma ParsedMessagesBuildEmptyTiles(layer: Layer, fmt: FloatText, extent: seq<real>, earcut: Earcut)
    requires forall i :: 0 <= i < |layer.features| ==> ParseTagsSpec(layer.features[i].tags, layer.keys, layer.values, fmt).Returned?
    ensures MessageWellFormed(Message(Some(LayerFeatures(layer, fmt)), extent))
    ensures TileBuffers(Message(Some(LayerFeatures(layer, fmt)), extent), earcut) == EmptyBuffers
  {
    EmptyCollectionsFillNothing(LayerFeatures(layer, fmt));
  }

  // ---------------------------------------------------------------------------
  // Instance

  /** The parts of `renderer::Renderer` that src/lib.rs touches: its view and its ressource manager. */
  datatype Renderer = Renderer(view: Ressource.View, ressourceManager: Ressource.RessourceManager)

  /**
   * `Instance` together with the thread-local tile-parser channel: the
   * renderer (absent until init), the tiles, the last surface size, and the
   * messages sent but not yet received.
   */
  class Instance {
    var renderer: Option<Renderer>
    var tiles: seq<Ressource.Tile>
    var currentSize: (nat, nat)
    var queue: seq<Message>

    function RendererObjects(): set<object>
      reads this
    {
      if renderer.Some? then {renderer.value.view, renderer.value.ressourceManager} else {}
    }

    /** The material manager that creating a tile may extend. */
    function MaterialObjects(): set<object>
      reads this, RendererObjects()
    {
      if renderer.Some? && renderer.value.ressourceManager.materialManager.Some?
      then {renderer.value.ressourceManager.materialManager.value} else {}
    }

    predicate Valid()
      reads this, RendererObjects()
    {
      && QueueWellFormed(queue)
      && (renderer.Some? ==> renderer.value.view.Valid() && renderer.value.ressourceManager.Valid())
    }

    /** `Instance::default()`: no renderer, no tiles, a zero size, an empty queue. */
    constructor ()
      ensures Valid()
      ensures renderer == None && tiles == [] && currentSize == (0, 0) && queue == []
    {
      renderer := None;
      tiles := [];
      currentSize := (0, 0);
      queue := [];
    }

    /** init: install the renderer, clear the tiles and record the surface size. */
    method Init(r: Renderer, size: (nat, nat))
      requires Valid() && r.view.Valid() && r.ressourceManager.Valid()
      modifies this
      ensures Valid()
      ensures renderer == Some(r) && tiles == [] && currentSize == size && queue == old(queue)
    {
      renderer := Some(r);
      tiles := [];
      currentSize := size;
    }

    /** The body of the drain for an accepted message: create a Fill tile and add the features to it. */
    method BuildTile(msg: Message, earcut: Earcut, ghost made: seq<Ressource.Tile>, ghost created: seq<Message>)
      returns (tile: Ressource.Tile)
      requires Valid() && renderer.Some? && Accepted(msg) && MessageWellFormed(msg)
      requires |made| == |created| && forall k :: 0 <= k < |made| ==> NewFillTile(made[k], created[k], earcut)
      modifies MaterialObjects()
      ensures Valid()
      ensures forall k :: 0 <= k < |made| ==> NewFillTile(made[k], created[k], earcut)
      ensures fresh(tile) && NewFillTile(tile, msg, earcut)
    {
      tile := renderer.value.ressourceManager.CreateTile(Ressource.Fill, msg.extent);
      if tile.GetBucketType() == Ressource.Fill {
        tile.AddFeaturesFill(FillFeatures(msg.parsedFeatures.value), earcut);
      }
    }

    /**
     * One turn of the drain loop: take the first message; a message without
     * features is dropped, an empty feature list stops the drain, a bad
     * extent or a missing renderer panics, and any other message becomes a
     * Fill tile pushed onto the tiles.
     */
    method Receive(earcut: Earcut, ghost made: seq<Ressource.Tile>, ghost created: seq<Message>)
      returns (r: Fallible<()>, stopped: bool, tile: Option<Ressource.Tile>)
      requires Valid() && queue != []
      requires |made| == |created| && forall k :: 0 <= k < |made| ==> NewFillTile(made[k], created[k], earcut)
      modifies this, MaterialObjects()
      ensures Valid()
      ensures forall k :: 0 <= k < |made| ==> NewFillTile(made[k], created[k], earcut)
      ensures renderer == old(renderer) && currentSize == old(currentSize)
      ensures queue == old(queue)[1..]
      ensures var m := old(queue)[0];
        && (stopped <==> m.parsedFeatures.Some? && !(Accepted(m) && renderer.Some?))
        && (r.Panicked? <==> stopped && m.parsedFeatures != Some([]))
        && (tile.Some? <==> Accepted(m) && renderer.Some?)
        && (tile.Some? ==> tiles == old(tiles) + [tile.value] && fresh(tile.value) && NewFillTile(tile.value, m, earcut))
        && (tile.None? ==> tiles == old(tiles))
    {
      r, stopped, tile := Returned(()), false, None;
      var msg := queue[0];
      queue := queue[1..];
      if msg.parsedFeatures.Some? {
        if msg.parsedFeatures.value == [] {
          stopped := true;
        } else if |msg.extent| != 4 {
          r, stopped := Panicked(ExtentUnwrap), true;
        } else if renderer.None? {
          r, stopped := Panicked(Ressource.UnwrapNone), true;
        } else {
          var t := BuildTile(msg, earcut, made, created);
          tiles := tiles + [t];
          tile := Some(t);
        }
      }
    }

    /**
     * process_tile_parser_queue: receive until the queue is empty; every
     * accepted message becomes a new Fill tile over its extent, built from its
     * features; the queue left behind, the tiles and the panic are those of
     * `DrainSpec`.
     */
    method Drain(earcut: Earcut) returns (r: Fallible<()>)
      requires Valid()
      modifies this, MaterialObjects()
      ensures Valid()
      ensures renderer == old(renderer) && currentSize == old(currentSize)
      ensures var d := DrainSpec(old(queue), renderer.Some?);
        && (r.Panicked? <==> d.panicked)
        && queue == d.remaining
        && |tiles| == |old(tiles)| + |d.created| && tiles[..|old(tiles)|] == old(tiles)
        && (forall k :: 0 <= k < |d.created| ==> NewFillTile(tiles[|old(tiles)| + k], d.created[k], earcut))
    {
      r := Returned(());
      var hasRenderer := renderer.Some?;
      var stopped := false;
      ghost var created: seq<Message> := [];
      ghost var made: seq<Ressource.Tile> := [];
      ghost var start := tiles;
      while queue != [] && !stopped
        invariant Valid()
        invariant renderer == old(renderer) && currentSize == old(currentSize)
        invariant DrainSpec(old(queue), hasRenderer) ==
          Prepend(created, if stopped then DrainOutcome([], queue, r.Panicked?) else DrainSpec(queue, hasRenderer))
        invariant !stopped ==> r.Returned?
        invariant tiles == start + made && |made| == |created|
        invariant forall k :: 0 <= k < |made| ==> NewFillTile(made[k], created[k], earcut)
        decreases |queue|, !stopped
      {
        ghost var msg := queue[0];
        DrainSpecFirst(queue, hasRenderer);
        var tile;
        r, stopped, tile := Receive(earcut, made, created);
        if tile.Some? {
          PrependTwice(created, [msg], DrainSpec(queue, hasRenderer));
          made := made + [tile.value];
          created := created + [msg];
        }
      }
      assert forall k :: 0 <= k < |made| ==> tiles[|start| + k] == made[k];
    }

    /**
     * render: drain the queue, then copy the 16 floats of the view matrix
     * into the view, and record the new size only when width or height
     * changed; answers whether the size changed.
     */
    method Render(viewMatrix: seq<real>, newSize: seq<nat>, earcut: Earcut) returns (r: Fallible<bool>)
      requires Valid()
      modifies this, MaterialObjects(), RendererObjects()
      ensures Valid() && renderer == old(renderer)
      ensures var d := DrainSpec(old(queue), renderer.Some?);
        && queue == d.remaining
        && |tiles| == |old(tiles)| + |d.created| && tiles[..|old(tiles)|] == old(tiles)
        && (forall k :: 0 <= k < |d.created| ==> NewFillTile(tiles[|old(tiles)| + k], d.created[k], earcut))
        && (d.panicked ==> r.Panicked?)
        && (!d.panicked ==> (r.Panicked? <==> renderer.None? || |viewMatrix| < 16 || |newSize| < 2))
      ensures r.Returned? ==>
        && renderer.value.view.GetViewMatrix() == MatrixOfFlat(viewMatrix)
        && renderer.value.view.GetSize() == old(renderer.value.view.GetSize())
        && currentSize == (newSize[0], newSize[1])
        && (r.value <==> old(currentSize) != (newSize[0], newSize[1]))
    {
      var drained := Drain(earcut);
      if drained.Panicked? {
        return Panicked(drained.reason);
      }
      if renderer.None? {
        return Panicked(Ressource.UnwrapNone);
      }
      var matrix := ViewMatrixArray(viewMatrix);
      if matrix.Panicked? {
        return Panicked(matrix.reason);
      }
      renderer.value.view.SetViewMatrix(matrix.value);
      if |newSize| < 2 {
        return Panicked(IndexOutOfBounds);
      }
      var resized := currentSize.0 != newSize[0] || currentSize.1 != newSize[1];
      if resized {
        currentSize := (newSize[0], newSize[1]);
      }
      return Returned(resized);
    }

    /**
     * add_pbf_tile_data on an already decoded tile (None when decoding
     * fails): select the first supported layer named "land" and, if there is
     * one, queue its features with the extent.
     */
    method AddPbfTileData(decoded: Option<VectorTile>, extent: seq<real>, fmt: FloatText) returns (r: Fallible<()>)
      requires Valid()
      modifies this
      ensures Valid()
      ensures renderer == old(renderer) && tiles == old(tiles) && currentSize == old(currentSize)
      ensures decoded.None? ==> r.Panicked? && queue == old(queue)
      ensures decoded.Some? && LandLayerIndex(decoded.value).None? ==> r.Returned? && queue == old(queue)
      ensures decoded.Some? && LandLayerIndex(decoded.value).Some? ==>
        var layer := decoded.value.layers[LandLayerIndex(decoded.value).value];
        && (r.Returned? <==> forall i :: 0 <= i < |layer.features| ==> ParseTagsSpec(layer.features[i].tags, layer.keys, layer.values, fmt).Returned?)
        && (r.Returned? ==> queue == old(queue) + [Message(Some(LayerFeatures(layer, fmt)), extent)])
        && (r.Panicked? ==> queue == old(queue))
    {
      if decoded.None? {
        return Panicked(ParseError);
      }
      var tile := decoded.value;
      var layerIndex := LandLayerIndex(tile);
      if layerIndex.Some? {
        var parsed := GetFeatures(tile, layerIndex.value, fmt);
        if parsed.Panicked? {
          return Panicked(parsed.reason);
        }
        var layer := tile.layers[layerIndex.value];
        var features := LayerFeatures(layer, fmt);
        assert parsed.value.Some? && |parsed.value.value| == |features|;
        assert forall i :: 0 <= i < |features| ==> parsed.value.value[i] == features[i];
        assert parsed.value.value == features;
        var message := Message(parsed.value, extent);
        EmptyCollectionsFillNothing(features);
        assert MessageWellFormed(message);
        queue := queue + [message];
      }
      return Returned(());
    }
  }
}
