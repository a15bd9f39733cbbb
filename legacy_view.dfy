/**
 * The surface state of the older renderer revision (src/view.rs): the surface
 * size and a flat, column-major 4x4 view matrix that starts as the identity.
 */
module LegacyView {
  import opened Transform

  /** `View { width: u32, height: u32, view_matrix: [f32; 16] }`. */
  datatype View = View(width: nat, height: nat, viewMatrix: seq<real>)

  /** The identity matrix, written out as 16 floats. */
  const FlatIdentity: seq<real> := [
    1.0, 0.0, 0.0, 0.0,
    0.0, 1.0, 0.0, 0.0,
    0.0, 0.0, 1.0, 0.0,
    0.0, 0.0, 0.0, 1.0
  ]

  /** `View::new((width, height))`: the given size and the identity view matrix. */
  function NewView(size: (nat, nat)): (v: View)
    ensures v.width == size.0 && v.height == size.1
    ensures |v.viewMatrix| == 16
    ensures forall i :: 0 <= i < 16 && i % 5 == 0 ==> v.viewMatrix[i] == 1.0
    ensures forall i :: 0 <= i < 16 && i % 5 != 0 ==> v.viewMatrix[i] == 0.0
  {
    View(size.0, size.1, FlatIdentity)
  }

  /** Read as four columns of four, the flat matrix of a new view is the identity of the tile transform. */
  lemma NewViewIsIdentity(size: (nat, nat))
    ensures forall c, r :: 0 <= c < 4 && 0 <= r < 4 ==> NewView(size).viewMatrix[4 * c + r] == Identity[c][r]
  {
    var m := NewView(size).viewMatrix;
    forall c, r | 0 <= c < 4 && 0 <= r < 4
      ensures m[4 * c + r] == Identity[c][r]
    {
      if c == r {
        assert (4 * c + r) % 5 == 0;
      } else {
        assert (4 * c + r) % 5 != 0;
      }
    }
  }
}
