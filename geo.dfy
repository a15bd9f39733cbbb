/**
 * Geometry values handed to the tile builders (the `geo_types` crate) and the
 * `Feature` record of src/feature.rs and src/bucket/feature.rs, together with
 * the ring flattening that every bucket performs before triangulation.
 */
module Geo {
  import opened Wrappers

  /** A tile-local coordinate (an `f32` pair, modelled over the reals). */
  datatype Coord = Coord(x: real, y: real)

  /** A ring or polyline: its coordinates in order; a closed ring repeats its first coordinate at the end. */
  type LineString = seq<Coord>

  datatype Polygon = Polygon(exterior: LineString, interiors: seq<LineString>)

  /**
   * The geometry kinds the tile builders distinguish: polygons, multi-polygons
   * and everything else (points, lines, ...), which every builder ignores.
   */
  datatype Geometry =
    | PolygonGeometry(polygon: Polygon)
    | MultiPolygonGeometry(polygons: seq<Polygon>)
    | OtherGeometry

  type GeometryCollection = seq<Geometry>

  /** `Feature<T>`: a geometry and an optional string-to-string property map. */
  datatype Feature<G> = Feature(geometry: G, properties: Option<map<string, string>>)

  /** The exterior ring followed by the interior rings, in order. */
  function Rings(p: Polygon): seq<LineString>
  {
    [p.exterior] + p.interiors
  }

  /** Every ring has at least one coordinate (`ring.0.len() - 1` does not underflow). */
  predicate RingsNonEmpty(rings: seq<LineString>)
  {
    forall k :: 0 <= k < |rings| ==> |rings[k]| >= 1
  }

  predicate PolygonRingsNonEmpty(p: Polygon)
  {
    RingsNonEmpty(Rings(p))
  }

  /** A ring without its closing coordinate. */
  function Open(ring: LineString): LineString
    requires |ring| >= 1
  {
    ring[..|ring| - 1]
  }

  /** Coordinates pushed as `x, y, x, y, ...` into an `f32` buffer. */
  function Coords(cs: seq<Coord>): (r: seq<real>)
    ensures |r| == 2 * |cs|
    ensures forall i :: 0 <= i < |cs| ==> r[2 * i] == cs[i].x && r[2 * i + 1] == cs[i].y
  {
    if cs == [] then [] else Coords(cs[..|cs| - 1]) + [cs[|cs| - 1].x, cs[|cs| - 1].y]
  }

  /** The coordinates of every ring, each without its closing coordinate, concatenated in ring order. */
  function FlattenOpen(rings: seq<LineString>): (r: seq<real>)
    requires RingsNonEmpty(rings)
  {
    if rings == [] then [] else FlattenOpen(rings[..|rings| - 1]) + Coords(Open(rings[|rings| - 1]))
  }

  /** The coordinates of every ring, closing coordinate included, concatenated in ring order. */
  function FlattenClosed(rings: seq<LineString>): seq<real>
  {
    if rings == [] then [] else FlattenClosed(rings[..|rings| - 1]) + Coords(rings[|rings| - 1])
  }

  /** Number of vertices in the open rings: the sum of `len - 1` over the rings. */
  function OpenVertexCount(rings: seq<LineString>): nat
    requires RingsNonEmpty(rings)
  {
    if rings == [] then 0 else OpenVertexCount(rings[..|rings| - 1]) + (|rings[|rings| - 1]| - 1)
  }

  /** Number of vertices in the closed rings: the sum of the ring lengths. */
  function ClosedVertexCount(rings: seq<LineString>): nat
  {
    if rings == [] then 0 else ClosedVertexCount(rings[..|rings| - 1]) + |rings[|rings| - 1]|
  }

  /** Flattening without the closing coordinates yields two floats per open-ring vertex. */
  lemma {:induction false} FlattenOpenLength(rings: seq<LineString>)
    requires RingsNonEmpty(rings)
    ensures |FlattenOpen(rings)| == 2 * OpenVertexCount(rings)
  {
    if rings != [] {
      FlattenOpenLength(rings[..|rings| - 1]);
    }
  }

  /** Flattening with the closing coordinates yields two floats per ring coordinate. */
  lemma {:induction false} FlattenClosedLength(rings: seq<LineString>)
    ensures |FlattenClosed(rings)| == 2 * ClosedVertexCount(rings)
  {
    if rings != [] {
      FlattenClosedLength(rings[..|rings| - 1]);
    }
  }

  /** Flattening distributes over concatenation of ring lists (ring order is kept). */
  lemma {:induction false} FlattenOpenAppend(a: seq<LineString>, b: seq<LineString>)
    requires RingsNonEmpty(a) && RingsNonEmpty(b)
    ensures RingsNonEmpty(a + b)
    ensures FlattenOpen(a + b) == FlattenOpen(a) + FlattenOpen(b)
    decreases |b|
  {
    if b == [] {
      assert a + b == a;
    } else {
      var b' := b[..|b| - 1];
      var last := b[|b| - 1];
      assert (a + b)[..|a + b| - 1] == a + b';
      assert (a + b)[|a + b| - 1] == last;
      FlattenOpenAppend(a, b');
      assert FlattenOpen(b) == FlattenOpen(b') + Coords(Open(last));
      assert FlattenOpen(a + b) == FlattenOpen(a + b') + Coords(Open(last));
      AppendAssoc(FlattenOpen(a), FlattenOpen(b'), Coords(Open(last)));
    }
  }

  /** Every closed ring of n coordinates contributes the n - 1 open vertices plus its repeated first coordinate. */
  lemma {:induction false} ClosedExceedsOpen(rings: seq<LineString>)
    requires RingsNonEmpty(rings)
    ensures ClosedVertexCount(rings) == OpenVertexCount(rings) + |rings|
  {
    if rings != [] {
      ClosedExceedsOpen(rings[..|rings| - 1]);
    }
  }
}
