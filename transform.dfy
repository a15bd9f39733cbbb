/**
 * The 4x4 matrix arithmetic of src/ressource/tile/mod.rs: column-major
 * matrices, the matrix and matrix-vector products, the tile model matrix and
 * the per-tile uniform (model-view matrix and clipping rectangle). `f32`
 * arithmetic is modelled over the reals.
 */
module Transform {

  /** A column-major matrix: `m[c][r]` is row `r` of column `c`. */
  type Matrix = seq<seq<real>>

  predicate IsMat4(m: Matrix)
  {
    |m| == 4 && forall c :: 0 <= c < 4 ==> |m[c]| == 4
  }

  predicate IsVec4(v: seq<real>)
  {
    |v| == 4
  }

  /** The tile side length in tile units (TILE_SIZE). */
  const TileSize: real := 4096.0

  const Identity: Matrix := [[1.0, 0.0, 0.0, 0.0], [0.0, 1.0, 0.0, 0.0], [0.0, 0.0, 1.0, 0.0], [0.0, 0.0, 0.0, 1.0]]

  /** The partial sum over `k < n` that mat4x4_mul accumulates into `c[i][j]`. */
  function MulEntry(a: Matrix, b: Matrix, i: nat, j: nat, n: nat): real
    requires IsMat4(a) && IsMat4(b) && i < 4 && j < 4 && n <= 4
  {
    if n == 0 then 0.0 else MulEntry(a, b, i, j, n - 1) + a[n - 1][j] * b[i][n - 1]
  }

  /** The product `a * b`: column `i`, row `j` is row `j` of `a` times column `i` of `b`. */
  function Mul(a: Matrix, b: Matrix): (c: Matrix)
    requires IsMat4(a) && IsMat4(b)
    ensures IsMat4(c)
  {
    seq(4, i requires 0 <= i < 4 => seq(4, j requires 0 <= j < 4 => MulEntry(a, b, i, j, 4)))
  }

  /** The partial sum over `j < n` that mat4x4_mul_vec4 accumulates into `result[i]`. */
  function MulVecEntry(a: Matrix, v: seq<real>, i: nat, n: nat): real
    requires IsMat4(a) && IsVec4(v) && i < 4 && n <= 4
  {
    if n == 0 then 0.0 else MulVecEntry(a, v, i, n - 1) + v[n - 1] * a[n - 1][i]
  }

  /** The product `a * v` of a matrix and a column vector. */
  function MulVec(a: Matrix, v: seq<real>): (r: seq<real>)
    requires IsMat4(a) && IsVec4(v)
    ensures IsVec4(r)
  {
    seq(4, i requires 0 <= i < 4 => MulVecEntry(a, v, i, 4))
  }

  lemma MulEntryExpand(a: Matrix, b: Matrix, i: nat, j: nat)
    requires IsMat4(a) && IsMat4(b) && i < 4 && j < 4
    ensures Mul(a, b)[i][j] == a[0][j] * b[i][0] + a[1][j] * b[i][1] + a[2][j] * b[i][2] + a[3][j] * b[i][3]
  {
    assert MulEntry(a, b, i, j, 1) == a[0][j] * b[i][0];
    assert MulEntry(a, b, i, j, 2) == MulEntry(a, b, i, j, 1) + a[1][j] * b[i][1];
    assert MulEntry(a, b, i, j, 3) == MulEntry(a, b, i, j, 2) + a[2][j] * b[i][2];
    assert MulEntry(a, b, i, j, 4) == MulEntry(a, b, i, j, 3) + a[3][j] * b[i][3];
  }

  lemma MulVecEntryExpand(a: Matrix, v: seq<real>, i: nat)
    requires IsMat4(a) && IsVec4(v) && i < 4
    ensures MulVec(a, v)[i] == v[0] * a[0][i] + v[1] * a[1][i] + v[2] * a[2][i] + v[3] * a[3][i]
  {
    assert MulVecEntry(a, v, i, 1) == v[0] * a[0][i];
    assert MulVecEntry(a, v, i, 2) == MulVecEntry(a, v, i, 1) + v[1] * a[1][i];
    assert MulVecEntry(a, v, i, 3) == MulVecEntry(a, v, i, 2) + v[2] * a[2][i];
    assert MulVecEntry(a, v, i, 4) == MulVecEntry(a, v, i, 3) + v[3] * a[3][i];
  }

  /** mat4x4_mul: the triple loop computes the matrix product. */
  method Mat4x4Mul(a: Matrix, b: Matrix) returns (c: Matrix)
    requires IsMat4(a) && IsMat4(b)
    ensures c == Mul(a, b)
  {
    c := [[0.0, 0.0, 0.0, 0.0], [0.0, 0.0, 0.0, 0.0], [0.0, 0.0, 0.0, 0.0], [0.0, 0.0, 0.0, 0.0]];
    for i := 0 to 4
      invariant IsMat4(c)
      invariant forall r, s :: 0 <= r < i && 0 <= s < 4 ==> c[r][s] == MulEntry(a, b, r, s, 4)
      invariant forall r, s :: i <= r < 4 && 0 <= s < 4 ==> c[r][s] == 0.0
    {
      for j := 0 to 4
        invariant IsMat4(c)
        invariant forall r, s :: 0 <= r < i && 0 <= s < 4 ==> c[r][s] == MulEntry(a, b, r, s, 4)
        invariant forall s :: 0 <= s < j ==> c[i][s] == MulEntry(a, b, i, s, 4)
        invariant forall s :: j <= s < 4 ==> c[i][s] == 0.0
        invariant forall r, s :: i < r < 4 && 0 <= s < 4 ==> c[r][s] == 0.0
      {
        for k := 0 to 4
          invariant IsMat4(c)
          invariant forall r, s :: 0 <= r < i && 0 <= s < 4 ==> c[r][s] == MulEntry(a, b, r, s, 4)
          invariant forall s :: 0 <= s < j ==> c[i][s] == MulEntry(a, b, i, s, 4)
          invariant c[i][j] == MulEntry(a, b, i, j, k)
          invariant forall s :: j < s < 4 ==> c[i][s] == 0.0
          invariant forall r, s :: i < r < 4 && 0 <= s < 4 ==> c[r][s] == 0.0
        {
          c := c[i := c[i][j := c[i][j] + a[k][j] * b[i][k]]];
        }
      }
    }
    forall r | 0 <= r < 4
      ensures c[r] == Mul(a, b)[r]
    {
    }
  }

  /** mat4x4_mul_vec4: the double loop computes the matrix-vector product. */
  method Mat4x4MulVec4(a: Matrix, v: seq<real>) returns (result: seq<real>)
    requires IsMat4(a) && IsVec4(v)
    ensures result == MulVec(a, v)
  {
    result := [0.0, 0.0, 0.0, 0.0];
    for i := 0 to 4
      invariant |result| == 4
      invariant forall r :: 0 <= r < i ==> result[r] == MulVecEntry(a, v, r, 4)
      invariant forall r :: i <= r < 4 ==> result[r] == 0.0
    {
      for j := 0 to 4
        invariant |result| == 4
        invariant forall r :: 0 <= r < i ==> result[r] == MulVecEntry(a, v, r, 4)
        invariant result[i] == MulVecEntry(a, v, i, j)
        invariant forall r :: i < r < 4 ==> result[r] == 0.0
      {
        result := result[i := result[i] + v[j] * a[j][i]];
      }
    }
  }

  /** The identity matrix is neutral on both sides of the product. */
  lemma MulIdentity(m: Matrix)
    requires IsMat4(m)
    ensures Mul(Identity, m) == m
    ensures Mul(m, Identity) == m
  {
    forall i | 0 <= i < 4
      ensures Mul(Identity, m)[i] == m[i] && Mul(m, Identity)[i] == m[i]
    {
      forall j | 0 <= j < 4
        ensures Mul(Identity, m)[i][j] == m[i][j] && Mul(m, Identity)[i][j] == m[i][j]
      {
        MulEntryExpand(Identity, m, i, j);
        MulEntryExpand(m, Identity, i, j);
      }
    }
  }

  /** Applying a product is applying its factors in turn. */
  lemma MulVecCompose(a: Matrix, b: Matrix, v: seq<real>)
    requires IsMat4(a) && IsMat4(b) && IsVec4(v)
    ensures MulVec(Mul(a, b), v) == MulVec(a, MulVec(b, v))
  {
    var w := MulVec(b, v);
    forall i | 0 <= i < 4
      ensures MulVec(Mul(a, b), v)[i] == MulVec(a, w)[i]
    {
      MulVecEntryExpand(Mul(a, b), v, i);
      MulVecEntryExpand(a, w, i);
      MulEntryExpand(a, b, 0, i);
      MulEntryExpand(a, b, 1, i);
      MulEntryExpand(a, b, 2, i);
      MulEntryExpand(a, b, 3, i);
      MulVecEntryExpand(b, v, 0);
      MulVecEntryExpand(b, v, 1);
      MulVecEntryExpand(b, v, 2);
      MulVecEntryExpand(b, v, 3);
    }
  }

  /** The scale of tile units to world units for a tile of the given extent. */
  function Scale(extent: seq<real>, tileSize: real): real
    requires |extent| == 4 && tileSize != 0.0
  {
    (extent[2] - extent[0]) / tileSize
  }

  /** Scales tile units by Scale and moves the origin to (extent[0], extent[1]). */
  function TileTransform(extent: seq<real>, tileSize: real): (m: Matrix)
    requires |extent| == 4 && tileSize != 0.0
    ensures IsMat4(m)
  {
    var s := Scale(extent, tileSize);
    [[s, 0.0, 0.0, 0.0], [0.0, s, 0.0, 0.0], [0.0, 0.0, 1.0, 0.0], [extent[0], extent[1], 0.0, 1.0]]
  }

  /** Flips the y axis within the tile: y becomes tileSize - y. */
  function FlipTileTransform(tileSize: real): (m: Matrix)
    ensures IsMat4(m)
  {
    [[1.0, 0.0, 0.0, 0.0], [0.0, -1.0, 0.0, 0.0], [0.0, 0.0, 1.0, 0.0], [0.0, tileSize, 0.0, 1.0]]
  }

  /** get_model_matrix, as a value: the tile transform applied after the y flip. */
  function ModelMatrix(extent: seq<real>, tileSize: real): (m: Matrix)
    requires |extent| == 4 && tileSize != 0.0
    ensures IsMat4(m)
  {
    Mul(TileTransform(extent, tileSize), FlipTileTransform(tileSize))
  }

  /** get_model_matrix. */
  method GetModelMatrix(extent: seq<real>, tileSize: real) returns (m: Matrix)
    requires |extent| == 4 && tileSize != 0.0
    ensures m == ModelMatrix(extent, tileSize)
  {
    var tileTransform := TileTransform(extent, tileSize);
    var flipTileTransform := FlipTileTransform(tileSize);
    m := Mat4x4Mul(tileTransform, flipTileTransform);
  }

  /**
   * The model matrix maps tile point (x, y) to world point
   * (extent[0] + s * x, extent[1] + s * (tileSize - y)) with
   * s = (extent[2] - extent[0]) / tileSize: tile y grows downwards, world y upwards.
   */
  lemma ModelMatrixMapsPoint(extent: seq<real>, tileSize: real, x: real, y: real, z: real)
    requires |extent| == 4 && tileSize != 0.0
    ensures MulVec(ModelMatrix(extent, tileSize), [x, y, z, 1.0])
      == [extent[0] + Scale(extent, tileSize) * x, extent[1] + Scale(extent, tileSize) * (tileSize - y), z, 1.0]
  {
    var t := TileTransform(extent, tileSize);
    var f := FlipTileTransform(tileSize);
    var p := [x, y, z, 1.0];
    MulVecCompose(t, f, p);
    MulVecEntryExpand(f, p, 0);
    MulVecEntryExpand(f, p, 1);
    MulVecEntryExpand(f, p, 2);
    MulVecEntryExpand(f, p, 3);
    var q := MulVec(f, p);
    assert q == [x, tileSize - y, z, 1.0];
    MulVecEntryExpand(t, q, 0);
    MulVecEntryExpand(t, q, 1);
    MulVecEntryExpand(t, q, 2);
    MulVecEntryExpand(t, q, 3);
    var r := MulVec(t, q);
    assert r[0] == extent[0] + Scale(extent, tileSize) * x;
    assert r[1] == extent[1] + Scale(extent, tileSize) * (tileSize - y);
  }

  /** The TileUniform uniform block: model-view matrix and clipping rectangle in pixels. */
  datatype TileUniform = TileUniform(modelViewMatrix: Matrix, clippingRect: seq<real>)

  /** Screen pixels of a view-space point: x from [-1, 1] to [0, 2 * halfWidth], y flipped. */
  function ToScreen(p: seq<real>, halfWidth: real, halfHeight: real): (r: seq<real>)
    requires IsVec4(p)
    ensures |r| == 2
  {
    [(p[0] + 1.0) * halfWidth, (1.0 - p[1]) * halfHeight]
  }

  lemma ScreenRect(lo: seq<real>, hi: seq<real>, halfWidth: real, halfHeight: real)
    requires IsVec4(lo) && IsVec4(hi)
    ensures ToScreen(lo, halfWidth, halfHeight) + ToScreen(hi, halfWidth, halfHeight) ==
      [(lo[0] + 1.0) * halfWidth, (-lo[1] + 1.0) * halfHeight, (hi[0] + 1.0) * halfWidth, (-hi[1] + 1.0) * halfHeight]
  {
  }

  /** get_transforms, as a value. */
  function Transforms(view: Matrix, extent: seq<real>, halfWidth: real, halfHeight: real): (u: TileUniform)
    requires IsMat4(view) && |extent| == 4
    ensures IsMat4(u.modelViewMatrix) && |u.clippingRect| == 4
  {
    var modelView := Mul(view, ModelMatrix(extent, TileSize));
    var minExtent := MulVec(modelView, [0.0, 0.0, 0.0, 1.0]);
    var maxExtent := MulVec(modelView, [TileSize, TileSize, 0.0, 1.0]);
    TileUniform(modelView, ToScreen(minExtent, halfWidth, halfHeight) + ToScreen(maxExtent, halfWidth, halfHeight))
  }

  /** get_transforms: the model-view matrix and the clipping rectangle of a tile. */
  method GetTransforms(view: Matrix, extent: seq<real>, halfWidth: real, halfHeight: real) returns (u: TileUniform)
    requires IsMat4(view) && |extent| == 4
    ensures u == Transforms(view, extent, halfWidth, halfHeight)
  {
    var modelMatrix := GetModelMatrix(extent, TileSize);
    var modelViewMatrix := Mat4x4Mul(view, modelMatrix);
    var minExtent := Mat4x4MulVec4(modelViewMatrix, [0.0, 0.0, 0.0, 1.0]);
    var maxExtent := Mat4x4MulVec4(modelViewMatrix, [TileSize, TileSize, 0.0, 1.0]);
    var clippingRect := [
      (minExtent[0] + 1.0) * halfWidth,
      (-minExtent[1] + 1.0) * halfHeight,
      (maxExtent[0] + 1.0) * halfWidth,
      (-maxExtent[1] + 1.0) * halfHeight
    ];
    ScreenRect(minExtent, maxExtent, halfWidth, halfHeight);
    u := TileUniform(modelViewMatrix, clippingRect);
  }

  /**
   * The clipping rectangle spans the screen images of the tile's top-left
   * world corner (extent[0], extent[1] + (extent[2] - extent[0])) and its
   * bottom-right world corner (extent[2], extent[1]) under the view matrix;
   * extent[3] is not used.
   */
  lemma ClippingRectCorners(view: Matrix, extent: seq<real>, halfWidth: real, halfHeight: real)
    requires IsMat4(view) && |extent| == 4
    ensures var u := Transforms(view, extent, halfWidth, halfHeight);
      && u.clippingRect[..2] == ToScreen(MulVec(view, [extent[0], extent[1] + (extent[2] - extent[0]), 0.0, 1.0]), halfWidth, halfHeight)
      && u.clippingRect[2..] == ToScreen(MulVec(view, [extent[2], extent[1], 0.0, 1.0]), halfWidth, halfHeight)
  {
    var m := ModelMatrix(extent, TileSize);
    var mv := Mul(view, m);
    var origin := [0.0, 0.0, 0.0, 1.0];
    var corner := [TileSize, TileSize, 0.0, 1.0];
    MulVecCompose(view, m, origin);
    MulVecCompose(view, m, corner);
    ModelMatrixMapsPoint(extent, TileSize, 0.0, 0.0, 0.0);
    ModelMatrixMapsPoint(extent, TileSize, TileSize, TileSize, 0.0);
    assert Scale(extent, TileSize) * TileSize == extent[2] - extent[0];
    var mo := MulVec(m, origin);
    var mc := MulVec(m, corner);
    assert mo[0] == extent[0] && mo[1] == extent[1] + (extent[2] - extent[0]) && mo[2] == 0.0 && mo[3] == 1.0;
    assert mc[0] == extent[2] && mc[1] == extent[1] && mc[2] == 0.0 && mc[3] == 1.0;
    assert mo == [extent[0], extent[1] + (extent[2] - extent[0]), 0.0, 1.0];
    assert mc == [extent[2], extent[1], 0.0, 1.0];
    var lo := ToScreen(MulVec(mv, origin), halfWidth, halfHeight);
    var hi := ToScreen(MulVec(mv, corner), halfWidth, halfHeight);
    assert Transforms(view, extent, halfWidth, halfHeight).clippingRect == lo + hi;
    assert (lo + hi)[..2] == lo && (lo + hi)[2..] == hi;
  }

  /** The model-view matrix applies the model matrix first, then the view. */
  lemma ModelViewMapsPoint(view: Matrix, extent: seq<real>, halfWidth: real, halfHeight: real, x: real, y: real)
    requires IsMat4(view) && |extent| == 4
    ensures MulVec(Transforms(view, extent, halfWidth, halfHeight).modelViewMatrix, [x, y, 0.0, 1.0])
      == MulVec(view, [extent[0] + Scale(extent, TileSize) * x, extent[1] + Scale(extent, TileSize) * (TileSize - y), 0.0, 1.0])
  {
    var m := ModelMatrix(extent, TileSize);
    var p := [x, y, 0.0, 1.0];
    MulVecCompose(view, m, p);
    ModelMatrixMapsPoint(extent, TileSize, x, y, 0.0);
    var q := MulVec(ModelMatrix(extent, TileSize), [x, y, 0.0, 1.0]);
    assert q[0] == extent[0] + Scale(extent, TileSize) * x;
    assert q[1] == extent[1] + Scale(extent, TileSize) * (TileSize - y);
    assert q[2] == 0.0;
    assert q[3] == 1.0;
    var world := [extent[0] + Scale(extent, TileSize) * x, extent[1] + Scale(extent, TileSize) * (TileSize - y), 0.0, 1.0];
    assert q == world;
    assert Transforms(view, extent, halfWidth, halfHeight).modelViewMatrix == Mul(view, m);
  }

  /**
   * With the identity view, a full 4096-unit tile at the origin and a
   * 512 x 512 canvas, the clipping rectangle is [256, -1048320, 1048832, 256]:
   * the matrices map tile units straight to clip space, so the rectangle is
   * far larger than the canvas.
   */
  lemma IdentityViewClippingRect()
    ensures Transforms(Identity, [0.0, 0.0, TileSize, TileSize], 256.0, 256.0).clippingRect
      == [256.0, -1048320.0, 1048832.0, 256.0]
  {
    var extent := [0.0, 0.0, TileSize, TileSize];
    ClippingRectCorners(Identity, extent, 256.0, 256.0);
    var tl := [0.0, TileSize, 0.0, 1.0];
    var br := [TileSize, 0.0, 0.0, 1.0];
    MulVecEntryExpand(Identity, tl, 0);
    MulVecEntryExpand(Identity, tl, 1);
    MulVecEntryExpand(Identity, br, 0);
    MulVecEntryExpand(Identity, br, 1);
    var u := Transforms(Identity, extent, 256.0, 256.0);
    assert u.clippingRect == u.clippingRect[..2] + u.clippingRect[2..];
  }
}
