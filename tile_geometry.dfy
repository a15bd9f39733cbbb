/**
 * The CPU-side geometry work of the Fill, Line and Point tiles
 * (src/ressource/tile/fill.rs, line.rs, point.rs): flattening polygon rings
 * into an `f32` vertex buffer, the hole-start indices handed to the
 * triangulator, and the buffers that result from a sequence of polygons.
 * The triangulator (`earcutr::earcut`) is foreign: it is a parameter.
 */
module TileGeometry {
  import opened Wrappers
  import opened Geo

  /** Coordinates per vertex (DIMENSIONS). */
  const Dimensions: nat := 2

  /** What `earcutr::earcut` answers: triangle indices, or an error. */
  datatype EarcutResult = EarcutOk(indices: seq<nat>) | EarcutErr

  /** `earcutr::earcut(vertices, hole_indices, 2)`. */
  type Earcut = (seq<real>, seq<nat>) -> EarcutResult

  const EarcutrError: string := "earcutr error"

  /** A tile's CPU vertex buffer (`Vec<f32>`) and index buffer (`Vec<u32>`). */
  datatype Buffers = Buffers(vertices: seq<real>, indices: seq<nat>)

  const EmptyBuffers: Buffers := Buffers([], [])

  // ---------------------------------------------------------------------------
  // Flattening

  /**
   * The hole indices pushed after every ring but the last: the length of the
   * vertex list built so far, divided by `unit` (2 in the Fill tile, 1 in the
   * Line tile).
   */
  function HoleIndices(rings: seq<LineString>, unit: nat): (h: seq<nat>)
    requires RingsNonEmpty(rings) && |rings| >= 1 && unit > 0
    ensures |h| == |rings| - 1
  {
    seq(|rings| - 1, k requires 0 <= k < |rings| - 1 => |FlattenOpen(rings[..k + 1])| / unit)
  }

  /** Push the coordinates of `ring`, without its closing one, as `x, y` pairs. */
  method PushOpenRing(vertices: seq<real>, ring: LineString) returns (r: seq<real>)
    requires |ring| >= 1
    ensures r == vertices + Coords(Open(ring))
  {
    var end := |ring| - 1;
    r := vertices;
    for j := 0 to end
      invariant r == vertices + Coords(ring[..j])
    {
      assert ring[..j + 1][..j] == ring[..j];
      r := r + [ring[j].x, ring[j].y];
    }
    assert ring[..end] == Open(ring);
  }

  /** The ring loop of add_polygon and of the Line add_features: vertices and hole indices. */
  method FlattenRings(rings: seq<LineString>, unit: nat) returns (vertices: seq<real>, holeIndices: seq<nat>)
    requires RingsNonEmpty(rings) && |rings| >= 1 && unit > 0
    ensures vertices == FlattenOpen(rings)
    ensures holeIndices == HoleIndices(rings, unit)
  {
    vertices := [];
    holeIndices := [];
    for i := 0 to |rings|
      invariant vertices == FlattenOpen(rings[..i])
      invariant |holeIndices| == (if i < |rings| then i else |rings| - 1)
      invariant holeIndices == HoleIndices(rings, unit)[..|holeIndices|]
    {
      FlattenOpenStep(rings, i);
      vertices := PushOpenRing(vertices, rings[i]);
      if i < |rings| - 1 {
        HoleIndicesStep(rings, unit, i);
        holeIndices := holeIndices + [|vertices| / unit];
      }
    }
    assert rings[..|rings|] == rings;
  }

  /** The ring loop of the Point add_features: vertices only. */
  method FlattenPolygon(rings: seq<LineString>) returns (vertices: seq<real>)
    requires RingsNonEmpty(rings)
    ensures vertices == FlattenOpen(rings)
  {
    vertices := [];
    for k := 0 to |rings|
      invariant vertices == FlattenOpen(rings[..k])
    {
      FlattenOpenStep(rings, k);
      vertices := PushOpenRing(vertices, rings[k]);
    }
    assert rings[..|rings|] == rings;
  }

  /** The hole index pushed after ring i is the flattened length of rings 0..i, in units. */
  lemma HoleIndicesStep(rings: seq<LineString>, unit: nat, i: nat)
    requires RingsNonEmpty(rings) && unit > 0 && i < |rings| - 1
    ensures HoleIndices(rings, unit)[..i + 1] == HoleIndices(rings, unit)[..i] + [|FlattenOpen(rings[..i + 1])| / unit]
  {
  }

  /** One more ring flattened: its open coordinates follow the earlier rings'. */
  lemma FlattenOpenStep(rings: seq<LineString>, i: nat)
    requires RingsNonEmpty(rings) && i < |rings|
    ensures FlattenOpen(rings[..i + 1]) == FlattenOpen(rings[..i]) + Coords(Open(rings[i]))
  {
    assert rings[..i + 1][..i] == rings[..i];
  }

  /**
   * In the Fill tile (hole indices in vertices), entry k is the first vertex
   * of ring k + 1; hole starts never decrease and never pass the vertex count.
   */
  lemma FillHolesAreRingStarts(rings: seq<LineString>)
    requires RingsNonEmpty(rings) && |rings| >= 1
    ensures forall k :: 0 <= k < |rings| - 1 ==> HoleIndices(rings, Dimensions)[k] == OpenVertexCount(rings[..k + 1])
    ensures forall k, l :: 0 <= k <= l < |rings| - 1 ==> HoleIndices(rings, Dimensions)[k] <= HoleIndices(rings, Dimensions)[l]
    ensures forall k :: 0 <= k < |rings| - 1 ==> HoleIndices(rings, Dimensions)[k] <= OpenVertexCount(rings)
  {
    forall k | 0 <= k < |rings| - 1
      ensures HoleIndices(rings, Dimensions)[k] == OpenVertexCount(rings[..k + 1])
      ensures HoleIndices(rings, Dimensions)[k] <= OpenVertexCount(rings)
    {
      FillHoleIsRingStart(rings, k);
      OpenVertexCountPrefix(rings, k + 1, |rings|);
      assert rings[..|rings|] == rings;
    }
    forall k, l | 0 <= k <= l < |rings| - 1
      ensures HoleIndices(rings, Dimensions)[k] <= HoleIndices(rings, Dimensions)[l]
    {
      FillHolesOrdered(rings, k, l);
    }
  }

  lemma FillHolesOrdered(rings: seq<LineString>, k: nat, l: nat)
    requires RingsNonEmpty(rings) && k <= l < |rings| - 1
    ensures HoleIndices(rings, Dimensions)[k] <= HoleIndices(rings, Dimensions)[l]
  {
    FillHoleIsRingStart(rings, k);
    FillHoleIsRingStart(rings, l);
    OpenVertexCountPrefix(rings, k + 1, l + 1);
  }

  lemma FillHoleIsRingStart(rings: seq<LineString>, k: nat)
    requires RingsNonEmpty(rings) && k < |rings| - 1
    ensures HoleIndices(rings, Dimensions)[k] == OpenVertexCount(rings[..k + 1])
  {
    FlattenOpenLength(rings[..k + 1]);
  }

  /** A longer prefix of the rings never has fewer open vertices. */
  lemma {:induction false} OpenVertexCountPrefix(rings: seq<LineString>, n: nat, m: nat)
    requires RingsNonEmpty(rings) && n <= m <= |rings|
    ensures OpenVertexCount(rings[..n]) <= OpenVertexCount(rings[..m])
    decreases m - n
  {
    if n < m {
      OpenVertexCountPrefix(rings, n, m - 1);
      assert rings[..m][..m - 1] == rings[..m - 1];
    }
  }

  /** The Line tile records hole indices in floats: twice the Fill tile's vertex indices. */
  lemma LineHolesAreFloatOffsets(rings: seq<LineString>)
    requires RingsNonEmpty(rings) && |rings| >= 1
    ensures forall k :: 0 <= k < |rings| - 1 ==> HoleIndices(rings, 1)[k] == 2 * HoleIndices(rings, Dimensions)[k]
  {
    forall k | 0 <= k < |rings| - 1
      ensures HoleIndices(rings, 1)[k] == 2 * HoleIndices(rings, Dimensions)[k]
    {
      FlattenOpenLength(rings[..k + 1]);
    }
  }

  /** Triangle indices shifted past the vertices already in the buffer. */
  function Shift(indices: seq<nat>, offset: nat): (r: seq<nat>)
    ensures |r| == |indices|
    ensures forall i :: 0 <= i < |indices| ==> r[i] == indices[i] + offset
  {
    seq(|indices|, i requires 0 <= i < |indices| => indices[i] + offset)
  }

  // ---------------------------------------------------------------------------
  // Which polygons each tile kind consumes

  predicate AllRingsNonEmpty(ps: seq<Polygon>)
  {
    forall i :: 0 <= i < |ps| ==> PolygonRingsNonEmpty(ps[i])
  }

  /** The polygons of one geometry, as the Fill tile reads them: a polygon, the members of a multi-polygon, or none. */
  function GeometryPolygons(g: Geometry): seq<Polygon>
  {
    match g
    case PolygonGeometry(p) => [p]
    case MultiPolygonGeometry(ps) => ps
    case OtherGeometry => []
  }

  /** The polygons the Fill tile triangulates, feature by feature, in order. */
  function FillInput(features: seq<Feature<Geometry>>): seq<Polygon>
  {
    if features == [] then []
    else FillInput(features[..|features| - 1]) + GeometryPolygons(features[|features| - 1].geometry)
  }

  /** The polygon members of a geometry collection, in order; multi-polygons and other kinds are skipped. */
  function CollectionPolygons(gc: GeometryCollection): seq<Polygon>
  {
    if gc == [] then []
    else
      var last := gc[|gc| - 1];
      CollectionPolygons(gc[..|gc| - 1]) + (if last.PolygonGeometry? then [last.polygon] else [])
  }

  /** The polygons the Line and Point tiles (and triangulate) read: polygon members of each feature's collection. */
  function CollectionInput(features: seq<Feature<GeometryCollection>>): seq<Polygon>
  {
    if features == [] then []
    else CollectionInput(features[..|features| - 1]) + CollectionPolygons(features[|features| - 1].geometry)
  }

  /** A polygon is read by the Line/Point tiles exactly when it is a polygon member of some collection. */
  lemma {:induction false} CollectionPolygonsMembers(gc: GeometryCollection, p: Polygon)
    ensures p in CollectionPolygons(gc) <==> PolygonGeometry(p) in gc
  {
    if gc != [] {
      CollectionPolygonsMembers(gc[..|gc| - 1], p);
      assert gc == gc[..|gc| - 1] + [gc[|gc| - 1]];
    }
  }

  // ---------------------------------------------------------------------------
  // Fill: add_polygon

  /**
   * add_polygon on buffers `b`: on success the flattened rings are appended
   * and the triangle indices, shifted by the number of vertices already
   * present, are appended; on a triangulation error nothing changes.
   */
  function FillPolygon(b: Buffers, p: Polygon, earcut: Earcut): Buffers
    requires PolygonRingsNonEmpty(p)
  {
    var rings := Rings(p);
    var vertices := FlattenOpen(rings);
    match earcut(vertices, HoleIndices(rings, Dimensions))
    case EarcutOk(indices) => Buffers(b.vertices + vertices, b.indices + Shift(indices, |b.vertices| / Dimensions))
    case EarcutErr => b
  }

  /** add_polygon applied to each polygon in turn. */
  function FillPolygons(b: Buffers, ps: seq<Polygon>, earcut: Earcut): Buffers
    requires AllRingsNonEmpty(ps)
  {
    if ps == [] then b else FillPolygon(FillPolygons(b, ps[..|ps| - 1], earcut), ps[|ps| - 1], earcut)
  }

  lemma {:induction false} FillPolygonsAppend(b: Buffers, ps: seq<Polygon>, qs: seq<Polygon>, earcut: Earcut)
    requires AllRingsNonEmpty(ps) && AllRingsNonEmpty(qs)
    ensures AllRingsNonEmpty(ps + qs)
    ensures FillPolygons(b, ps + qs, earcut) == FillPolygons(FillPolygons(b, ps, earcut), qs, earcut)
    decreases |qs|
  {
    if qs == [] {
      assert ps + qs == ps;
    } else {
      assert (ps + qs)[..|ps + qs| - 1] == ps + qs[..|qs| - 1];
      FillPolygonsAppend(b, ps, qs[..|qs| - 1], earcut);
    }
  }

  /** Every index refers to a vertex of the buffer, which holds whole `x, y` pairs. */
  predicate IndicesInRange(b: Buffers)
  {
    |b.vertices| % 2 == 0 && forall i :: 0 <= i < |b.indices| ==> b.indices[i] < |b.vertices| / 2
  }

  /** The triangulator only answers indices of the vertices it was given. */
  ghost predicate EarcutStaysInRange(earcut: Earcut)
  {
    forall vs: seq<real>, hs: seq<nat> :: earcut(vs, hs).EarcutOk? ==>
      forall i :: 0 <= i < |earcut(vs, hs).indices| ==> earcut(vs, hs).indices[i] < |vs| / 2
  }

  lemma FillPolygonKeepsIndicesInRange(b: Buffers, p: Polygon, earcut: Earcut)
    requires PolygonRingsNonEmpty(p) && IndicesInRange(b) && EarcutStaysInRange(earcut)
    ensures IndicesInRange(FillPolygon(b, p, earcut))
  {
    var rings := Rings(p);
    var vertices := FlattenOpen(rings);
    FlattenOpenLength(rings);
    var r := earcut(vertices, HoleIndices(rings, Dimensions));
    if r.EarcutOk? {
      var n := FillPolygon(b, p, earcut);
      assert |n.vertices| / 2 == |b.vertices| / 2 + |vertices| / 2;
      forall i | 0 <= i < |n.indices|
        ensures n.indices[i] < |n.vertices| / 2
      {
        if i >= |b.indices| {
          assert n.indices[i] == r.indices[i - |b.indices|] + |b.vertices| / 2;
        }
      }
    }
  }

  /**
   * When the triangulator answers only indices of the vertices it is given,
   * every index in a tile's buffer refers to a vertex of that buffer, however
   * many polygons were added.
   */
  lemma {:induction false} FillPolygonsKeepIndicesInRange(b: Buffers, ps: seq<Polygon>, earcut: Earcut)
    requires AllRingsNonEmpty(ps) && IndicesInRange(b) && EarcutStaysInRange(earcut)
    ensures IndicesInRange(FillPolygons(b, ps, earcut))
  {
    if ps != [] {
      FillPolygonsKeepIndicesInRange(b, ps[..|ps| - 1], earcut);
      FillPolygonKeepsIndicesInRange(FillPolygons(b, ps[..|ps| - 1], earcut), ps[|ps| - 1], earcut);
    }
  }

  /** Adding polygons only appends: what the buffers held before is kept as a prefix. */
  lemma {:induction false} FillPolygonsOnlyAppend(b: Buffers, ps: seq<Polygon>, earcut: Earcut)
    requires AllRingsNonEmpty(ps)
    ensures var r := FillPolygons(b, ps, earcut);
      && |b.vertices| <= |r.vertices| && r.vertices[..|b.vertices|] == b.vertices
      && |b.indices| <= |r.indices| && r.indices[..|b.indices|] == b.indices
  {
    if ps != [] {
      var mid := FillPolygons(b, ps[..|ps| - 1], earcut);
      FillPolygonsOnlyAppend(b, ps[..|ps| - 1], earcut);
      var r := FillPolygons(b, ps, earcut);
      assert r.vertices[..|mid.vertices|] == mid.vertices;
      assert r.indices[..|mid.indices|] == mid.indices;
      assert r.vertices[..|b.vertices|] == mid.vertices[..|b.vertices|];
      assert r.indices[..|b.indices|] == mid.indices[..|b.indices|];
    }
  }

  /** A triangulation error on a polygon leaves both buffers as they were. */
  lemma FillPolygonErrorUnchanged(b: Buffers, p: Polygon, earcut: Earcut)
    requires PolygonRingsNonEmpty(p)
    requires earcut(FlattenOpen(Rings(p)), HoleIndices(Rings(p), Dimensions)).EarcutErr?
    ensures FillPolygon(b, p, earcut) == b
  {
  }

  // ---------------------------------------------------------------------------
  // Line: add_features

  /**
   * One polygon of the Line add_features: like add_polygon, but the hole
   * indices count floats, and a triangulation error aborts (`expect`).
   */
  function LinePolygon(b: Buffers, p: Polygon, earcut: Earcut): Fallible<Buffers>
    requires PolygonRingsNonEmpty(p)
  {
    var rings := Rings(p);
    var vertices := FlattenOpen(rings);
    match earcut(vertices, HoleIndices(rings, 1))
    case EarcutOk(indices) => Returned(Buffers(b.vertices + vertices, b.indices + Shift(indices, |b.vertices| / Dimensions)))
    case EarcutErr => Panicked(EarcutrError)
  }

  function LinePolygons(b: Buffers, ps: seq<Polygon>, earcut: Earcut): Fallible<Buffers>
    requires AllRingsNonEmpty(ps)
  {
    if ps == [] then Returned(b)
    else match LinePolygons(b, ps[..|ps| - 1], earcut)
      case Panicked(e) => Panicked(e)
      case Returned(mid) => LinePolygon(mid, ps[|ps| - 1], earcut)
  }

  /** The triangulator rejects a polygon, given the Line tile's hole indices. */
  predicate LineEarcutFails(p: Polygon, earcut: Earcut)
    requires PolygonRingsNonEmpty(p)
  {
    earcut(FlattenOpen(Rings(p)), HoleIndices(Rings(p), 1)).EarcutErr?
  }

  lemma LinePolygonPanicIff(b: Buffers, p: Polygon, earcut: Earcut)
    requires PolygonRingsNonEmpty(p)
    ensures LinePolygon(b, p, earcut).Panicked? <==> LineEarcutFails(p, earcut)
  {
  }

  predicate SomeLineEarcutFails(ps: seq<Polygon>, earcut: Earcut)
    requires AllRingsNonEmpty(ps)
  {
    exists i :: 0 <= i < |ps| && LineEarcutFails(ps[i], earcut)
  }

  /** Some polygon fails exactly when one before the last fails or the last one does. */
  lemma SomeLineEarcutFailsSplit(ps: seq<Polygon>, earcut: Earcut)
    requires AllRingsNonEmpty(ps) && ps != []
    ensures AllRingsNonEmpty(ps[..|ps| - 1])
    ensures SomeLineEarcutFails(ps, earcut) <==>
      SomeLineEarcutFails(ps[..|ps| - 1], earcut) || LineEarcutFails(ps[|ps| - 1], earcut)
  {
    var init := ps[..|ps| - 1];
    assert forall i :: 0 <= i < |init| ==> init[i] == ps[i];
  }

  /** The Line tile aborts exactly when the triangulator rejects one of its polygons. */
  lemma {:induction false} LinePolygonsPanicIff(b: Buffers, ps: seq<Polygon>, earcut: Earcut)
    requires AllRingsNonEmpty(ps)
    ensures LinePolygons(b, ps, earcut).Panicked? <==> exists i :: 0 <= i < |ps| && LineEarcutFails(ps[i], earcut)
  {
    if ps != [] {
      var init := ps[..|ps| - 1];
      SomeLineEarcutFailsSplit(ps, earcut);
      LinePolygonsPanicIff(b, init, earcut);
      if LinePolygons(b, init, earcut).Returned? {
        LinePolygonPanicIff(LinePolygons(b, init, earcut).value, ps[|ps| - 1], earcut);
      }
    }
  }

  lemma {:induction false} LinePolygonsAppend(b: Buffers, ps: seq<Polygon>, qs: seq<Polygon>, earcut: Earcut)
    requires AllRingsNonEmpty(ps) && AllRingsNonEmpty(qs)
    requires LinePolygons(b, ps, earcut).Returned?
    ensures AllRingsNonEmpty(ps + qs)
    ensures LinePolygons(b, ps + qs, earcut) == LinePolygons(LinePolygons(b, ps, earcut).value, qs, earcut)
    decreases |qs|
  {
    if qs == [] {
      assert ps + qs == ps;
    } else {
      assert (ps + qs)[..|ps + qs| - 1] == ps + qs[..|qs| - 1];
      LinePolygonsAppend(b, ps, qs[..|qs| - 1], earcut);
    }
  }

  /**
   * When the triangulator never fails, the Line tile and the Fill tile build
   * the same vertex buffer from the same polygons.
   */
  lemma {:induction false} LineAndFillShareVertices(b: Buffers, ps: seq<Polygon>, earcut: Earcut)
    requires AllRingsNonEmpty(ps)
    requires LinePolygons(b, ps, earcut).Returned?
    requires forall i :: 0 <= i < |ps| ==>
      (!LineEarcutFails(ps[i], earcut) && earcut(FlattenOpen(Rings(ps[i])), HoleIndices(Rings(ps[i]), Dimensions)).EarcutOk?)
    ensures LinePolygons(b, ps, earcut).value.vertices == FillPolygons(b, ps, earcut).vertices
  {
    if ps != [] {
      LinePolygonsPanicIff(b, ps[..|ps| - 1], earcut);
      LineAndFillShareVertices(b, ps[..|ps| - 1], earcut);
    }
  }

  // ---------------------------------------------------------------------------
  // Point: add_features

  /** The Point tile's vertex data: every ring of every polygon, closing coordinates dropped. */
  function PointVertices(ps: seq<Polygon>): seq<real>
    requires AllRingsNonEmpty(ps)
  {
    if ps == [] then [] else PointVertices(ps[..|ps| - 1]) + FlattenOpen(Rings(ps[|ps| - 1]))
  }

  /** Two floats per open-ring vertex, summed over the polygons. */
  function PointVertexCount(ps: seq<Polygon>): nat
    requires AllRingsNonEmpty(ps)
  {
    if ps == [] then 0 else PointVertexCount(ps[..|ps| - 1]) + OpenVertexCount(Rings(ps[|ps| - 1]))
  }

  lemma {:induction false} PointVerticesLength(ps: seq<Polygon>)
    requires AllRingsNonEmpty(ps)
    ensures |PointVertices(ps)| == 2 * PointVertexCount(ps)
  {
    if ps != [] {
      PointVerticesLength(ps[..|ps| - 1]);
      FlattenOpenLength(Rings(ps[|ps| - 1]));
    }
  }

  /**
   * The Point tile's vertices are the vertices the Fill tile would append
   * for the same polygons when the triangulator accepts every one of them.
   */
  lemma {:induction false} PointVerticesAreFillVertices(b: Buffers, ps: seq<Polygon>, earcut: Earcut)
    requires AllRingsNonEmpty(ps)
    requires forall i :: 0 <= i < |ps| ==> earcut(FlattenOpen(Rings(ps[i])), HoleIndices(Rings(ps[i]), Dimensions)).EarcutOk?
    ensures FillPolygons(b, ps, earcut).vertices == b.vertices + PointVertices(ps)
  {
    if ps != [] {
      var init, last := ps[..|ps| - 1], ps[|ps| - 1];
      assert forall i :: 0 <= i < |init| ==> init[i] == ps[i];
      PointVerticesAreFillVertices(b, init, earcut);
      var mid := FillPolygons(b, init, earcut);
      assert earcut(FlattenOpen(Rings(last)), HoleIndices(Rings(last), Dimensions)).EarcutOk?;
      assert FillPolygon(mid, last, earcut).vertices == mid.vertices + FlattenOpen(Rings(last));
      AppendAssoc(b.vertices, PointVertices(init), FlattenOpen(Rings(last)));
    }
  }

  lemma {:induction false} PointVerticesAppend(ps: seq<Polygon>, qs: seq<Polygon>)
    requires AllRingsNonEmpty(ps) && AllRingsNonEmpty(qs)
    ensures AllRingsNonEmpty(ps + qs)
    ensures PointVertices(ps + qs) == PointVertices(ps) + PointVertices(qs)
    decreases |qs|
  {
    if qs == [] {
      assert ps + qs == ps;
    } else {
      assert (ps + qs)[..|ps + qs| - 1] == ps + qs[..|qs| - 1];
      PointVerticesAppend(ps, qs[..|qs| - 1]);
      AppendAssoc(PointVertices(ps), PointVertices(qs[..|qs| - 1]), FlattenOpen(Rings(qs[|qs| - 1])));
    }
  }

  // ---------------------------------------------------------------------------
  // Well-formed inputs and how the polygon lists split

  /** Every polygon member of the collection has non-empty rings. */
  predicate GeometriesWellFormed(gc: GeometryCollection)
  {
    forall k :: 0 <= k < |gc| && gc[k].PolygonGeometry? ==> PolygonRingsNonEmpty(gc[k].polygon)
  }

  predicate CollectionFeaturesWellFormed(features: seq<Feature<GeometryCollection>>)
  {
    forall i :: 0 <= i < |features| ==> GeometriesWellFormed(features[i].geometry)
  }

  /** Every polygon of every feature, as the Fill tile reads them, has non-empty rings. */
  predicate FillFeaturesWellFormed(features: seq<Feature<Geometry>>)
  {
    forall i :: 0 <= i < |features| ==> AllRingsNonEmpty(GeometryPolygons(features[i].geometry))
  }

  lemma AllRingsNonEmptyAppend(ps: seq<Polygon>, qs: seq<Polygon>)
    requires AllRingsNonEmpty(ps) && AllRingsNonEmpty(qs)
    ensures AllRingsNonEmpty(ps + qs)
  {
    forall i | 0 <= i < |ps + qs|
      ensures PolygonRingsNonEmpty((ps + qs)[i])
    {
      if i >= |ps| {
        assert (ps + qs)[i] == qs[i - |ps|];
      }
    }
  }

  lemma {:induction false} CollectionPolygonsAppend(a: GeometryCollection, b: GeometryCollection)
    ensures CollectionPolygons(a + b) == CollectionPolygons(a) + CollectionPolygons(b)
    decreases |b|
  {
    if b != [] {
      assert (a + b)[..|a + b| - 1] == a + b[..|b| - 1];
      CollectionPolygonsAppend(a, b[..|b| - 1]);
    } else {
      assert a + b == a;
    }
  }

  lemma {:induction false} CollectionInputAppend(a: seq<Feature<GeometryCollection>>, b: seq<Feature<GeometryCollection>>)
    ensures CollectionInput(a + b) == CollectionInput(a) + CollectionInput(b)
    decreases |b|
  {
    if b != [] {
      assert (a + b)[..|a + b| - 1] == a + b[..|b| - 1];
      CollectionInputAppend(a, b[..|b| - 1]);
    } else {
      assert a + b == a;
    }
  }

  /**
   * The polygons read so far when the loops of add_features stand at member
   * `j` of feature `i`, followed by the ones still to come.
   */
  lemma CollectionInputSplit(features: seq<Feature<GeometryCollection>>, i: nat, j: nat)
    requires i < |features| && j <= |features[i].geometry|
    ensures CollectionInput(features) ==
      CollectionInput(features[..i]) + CollectionPolygons(features[i].geometry[..j])
      + (CollectionPolygons(features[i].geometry[j..]) + CollectionInput(features[i + 1..]))
  {
    var gc := features[i].geometry;
    var pre, post := features[..i], features[i + 1..];
    assert features == pre + ([features[i]] + post);
    CollectionInputAppend(pre, [features[i]] + post);
    CollectionInputAppend([features[i]], post);
    assert [features[i]][..0] == [];
    assert CollectionInput([features[i]]) == CollectionPolygons(gc);
    assert gc == gc[..j] + gc[j..];
    CollectionPolygonsAppend(gc[..j], gc[j..]);
    var p1, p2 := CollectionPolygons(gc[..j]), CollectionPolygons(gc[j..]);
    AppendAssoc(p1, p2, CollectionInput(post));
    AppendAssoc(CollectionInput(pre), p1, p2 + CollectionInput(post));
  }

  lemma {:induction false} CollectionPolygonsRingsNonEmpty(gc: GeometryCollection)
    requires GeometriesWellFormed(gc)
    ensures AllRingsNonEmpty(CollectionPolygons(gc))
  {
    if gc != [] {
      var init := gc[..|gc| - 1];
      assert GeometriesWellFormed(init) by {
        forall k | 0 <= k < |init| && init[k].PolygonGeometry?
          ensures PolygonRingsNonEmpty(init[k].polygon)
        {
          assert init[k] == gc[k];
        }
      }
      CollectionPolygonsRingsNonEmpty(init);
      var last := gc[|gc| - 1];
      AllRingsNonEmptyAppend(CollectionPolygons(init), if last.PolygonGeometry? then [last.polygon] else []);
    }
  }

  lemma {:induction false} CollectionInputRingsNonEmpty(features: seq<Feature<GeometryCollection>>)
    requires CollectionFeaturesWellFormed(features)
    ensures AllRingsNonEmpty(CollectionInput(features))
  {
    if features != [] {
      var init := features[..|features| - 1];
      assert CollectionFeaturesWellFormed(init) by {
        forall i | 0 <= i < |init|
          ensures GeometriesWellFormed(init[i].geometry)
        {
          assert init[i] == features[i];
        }
      }
      CollectionInputRingsNonEmpty(init);
      CollectionPolygonsRingsNonEmpty(features[|features| - 1].geometry);
      AllRingsNonEmptyAppend(CollectionInput(init), CollectionPolygons(features[|features| - 1].geometry));
    }
  }

  lemma {:induction false} FillInputRingsNonEmpty(features: seq<Feature<Geometry>>)
    requires FillFeaturesWellFormed(features)
    ensures AllRingsNonEmpty(FillInput(features))
  {
    if features != [] {
      var init := features[..|features| - 1];
      assert FillFeaturesWellFormed(init) by {
        forall i | 0 <= i < |init|
          ensures AllRingsNonEmpty(GeometryPolygons(init[i].geometry))
        {
          assert init[i] == features[i];
        }
      }
      FillInputRingsNonEmpty(init);
      AllRingsNonEmptyAppend(FillInput(init), GeometryPolygons(features[|features| - 1].geometry));
    }
  }

  /** Once the Line tile has aborted, further polygons do not change the outcome. */
  lemma {:induction false} LinePolygonsPanicPersists(b: Buffers, ps: seq<Polygon>, qs: seq<Polygon>, earcut: Earcut)
    requires AllRingsNonEmpty(ps) && AllRingsNonEmpty(qs)
    requires LinePolygons(b, ps, earcut).Panicked?
    ensures AllRingsNonEmpty(ps + qs)
    ensures LinePolygons(b, ps + qs, earcut) == LinePolygons(b, ps, earcut)
    decreases |qs|
  {
    AllRingsNonEmptyAppend(ps, qs);
    if qs == [] {
      assert ps + qs == ps;
    } else {
      assert (ps + qs)[..|ps + qs| - 1] == ps + qs[..|qs| - 1];
      LinePolygonsPanicPersists(b, ps, qs[..|qs| - 1], earcut);
    }
  }

  /** One more member of a collection: its polygon, if it is one, joins the list. */
  lemma CollectionPolygonsStep(gc: GeometryCollection, j: nat)
    requires j < |gc|
    ensures CollectionPolygons(gc[..j + 1]) ==
      CollectionPolygons(gc[..j]) + (if gc[j].PolygonGeometry? then [gc[j].polygon] else [])
  {
    assert gc[..j + 1][..j] == gc[..j];
  }

  lemma PointVerticesStep(ps: seq<Polygon>, p: Polygon)
    requires AllRingsNonEmpty(ps) && PolygonRingsNonEmpty(p)
    ensures AllRingsNonEmpty(ps + [p])
    ensures PointVertices(ps + [p]) == PointVertices(ps) + FlattenOpen(Rings(p))
  {
    AllRingsNonEmptyAppend(ps, [p]);
    assert (ps + [p])[..|ps|] == ps;
  }

  lemma LinePolygonsStep(b: Buffers, ps: seq<Polygon>, p: Polygon, earcut: Earcut)
    requires AllRingsNonEmpty(ps) && PolygonRingsNonEmpty(p)
    ensures AllRingsNonEmpty(ps + [p])
    ensures LinePolygons(b, ps + [p], earcut) ==
      match LinePolygons(b, ps, earcut)
      case Panicked(e) => Panicked(e)
      case Returned(mid) => LinePolygon(mid, p, earcut)
  {
    AllRingsNonEmptyAppend(ps, [p]);
    assert (ps + [p])[..|ps|] == ps;
  }

  /** One member of a collection, as the Line tile's inner loop reads it: a polygon member is triangulated unless an earlier one failed. */
  lemma LineCollectionStep(b: Buffers, gc: GeometryCollection, j: nat, earcut: Earcut)
    requires j < |gc| && GeometriesWellFormed(gc) && AllRingsNonEmpty(CollectionPolygons(gc[..j]))
    ensures AllRingsNonEmpty(CollectionPolygons(gc[..j + 1]))
    ensures LinePolygons(b, CollectionPolygons(gc[..j + 1]), earcut) ==
      if gc[j].PolygonGeometry? then
        match LinePolygons(b, CollectionPolygons(gc[..j]), earcut)
        case Panicked(e) => Panicked(e)
        case Returned(mid) => LinePolygon(mid, gc[j].polygon, earcut)
      else LinePolygons(b, CollectionPolygons(gc[..j]), earcut)
  {
    var done := CollectionPolygons(gc[..j]);
    CollectionPolygonsStep(gc, j);
    if gc[j].PolygonGeometry? {
      var p := gc[j].polygon;
      assert PolygonRingsNonEmpty(p);
      assert CollectionPolygons(gc[..j + 1]) == done + [p];
      LinePolygonsStep(b, done, p, earcut);
    } else {
      assert CollectionPolygons(gc[..j + 1]) == done;
    }
  }

  /** Once member `j` of a collection has failed, the rest of the collection changes nothing. */
  lemma LineCollectionAbort(b: Buffers, gc: GeometryCollection, j: nat, earcut: Earcut)
    requires j < |gc| && GeometriesWellFormed(gc) && AllRingsNonEmpty(CollectionPolygons(gc[..j + 1]))
    requires LinePolygons(b, CollectionPolygons(gc[..j + 1]), earcut).Panicked?
    ensures AllRingsNonEmpty(CollectionPolygons(gc))
    ensures LinePolygons(b, CollectionPolygons(gc), earcut) == LinePolygons(b, CollectionPolygons(gc[..j + 1]), earcut)
  {
    assert gc == gc[..j + 1] + gc[j + 1..];
    CollectionPolygonsAppend(gc[..j + 1], gc[j + 1..]);
    CollectionPolygonsRingsNonEmpty(gc[j + 1..]);
    LinePolygonsPanicPersists(b, CollectionPolygons(gc[..j + 1]), CollectionPolygons(gc[j + 1..]), earcut);
  }

  /** One member of a collection, as the Point tile's inner loop reads it. */
  lemma PointCollectionStep(gc: GeometryCollection, j: nat)
    requires j < |gc| && GeometriesWellFormed(gc) && AllRingsNonEmpty(CollectionPolygons(gc[..j]))
    ensures AllRingsNonEmpty(CollectionPolygons(gc[..j + 1]))
    ensures PointVertices(CollectionPolygons(gc[..j + 1])) ==
      PointVertices(CollectionPolygons(gc[..j])) + (if gc[j].PolygonGeometry? then FlattenOpen(Rings(gc[j].polygon)) else [])
  {
    CollectionPolygonsStep(gc, j);
    if gc[j].PolygonGeometry? {
      PointVerticesStep(CollectionPolygons(gc[..j]), gc[j].polygon);
    } else {
      assert CollectionPolygons(gc[..j + 1]) == CollectionPolygons(gc[..j]);
    }
  }

  /** The Point tile's inner loop step, stated on the buffer it extends. */
  lemma PointCollectionAppend(start: seq<real>, vertices: seq<real>, gc: GeometryCollection, j: nat)
    requires j < |gc| && GeometriesWellFormed(gc) && AllRingsNonEmpty(CollectionPolygons(gc[..j]))
    requires vertices == start + PointVertices(CollectionPolygons(gc[..j]))
    ensures AllRingsNonEmpty(CollectionPolygons(gc[..j + 1]))
    ensures gc[j].PolygonGeometry? ==>
      vertices + FlattenOpen(Rings(gc[j].polygon)) == start + PointVertices(CollectionPolygons(gc[..j + 1]))
    ensures !gc[j].PolygonGeometry? ==> vertices == start + PointVertices(CollectionPolygons(gc[..j + 1]))
  {
    var done := CollectionPolygons(gc[..j]);
    CollectionPolygonsStep(gc, j);
    if gc[j].PolygonGeometry? {
      var p := gc[j].polygon;
      assert PolygonRingsNonEmpty(p);
      assert CollectionPolygons(gc[..j + 1]) == done + [p];
      PointVerticesStep(done, p);
    } else {
      assert CollectionPolygons(gc[..j + 1]) == done;
    }
  }

  /** The Point tile's outer loop step: one feature's collection appended to the buffer. */
  lemma PointFeaturesAppend(start: seq<real>, vertices: seq<real>, features: seq<Feature<GeometryCollection>>, i: nat)
    requires i < |features| && AllRingsNonEmpty(CollectionInput(features[..i]))
    requires AllRingsNonEmpty(CollectionPolygons(features[i].geometry))
    requires vertices == start + PointVertices(CollectionInput(features[..i]))
    ensures AllRingsNonEmpty(CollectionInput(features[..i + 1]))
    ensures vertices + PointVertices(CollectionPolygons(features[i].geometry)) ==
      start + PointVertices(CollectionInput(features[..i + 1]))
  {
    var done := CollectionInput(features[..i]);
    var here := CollectionPolygons(features[i].geometry);
    assert features[..i + 1][..i] == features[..i];
    assert CollectionInput(features[..i + 1]) == done + here;
    PointVerticesAppend(done, here);
    AppendAssoc(start, PointVertices(done), PointVertices(here));
  }
}
