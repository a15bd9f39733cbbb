/**
 * The helpers of tests/utils.rs that are plain data and string work: the
 * canvas size, the fixed view matrix of the render tests, and the snapshot
 * string that turns a URL-safe base64 PNG into a `data:` URL.
 */
module TestUtils {
  import opened Transform
  import Lib

  /** `CANVAS_SIZE`. */
  const CanvasSize: (nat, nat) := (512, 512)

  const Base64Prefix: string := "data:image/png;base64,"

  /** `get_view_matrix`: a scale of 7.7130255e-7 in x and y and a translation, column-major. */
  function GetViewMatrix(): (m: seq<real>)
    ensures |m| == 16
  {
    [
      0.00000077130255, 0.0, 0.0, 0.0,
      0.0, 0.00000077130255, 0.0, 0.0,
      0.0, 0.0, 1.0, 0.0,
      -0.97514784, -4.825174, 0.0, 1.0
    ]
  }

  /** render accepts the test matrix: it is read as a scale in the first two columns and a translation in the last. */
  lemma TestViewMatrixReadsAsTransform()
    ensures var m := Lib.MatrixOfFlat(GetViewMatrix());
      && IsMat4(m)
      && m[0] == [0.00000077130255, 0.0, 0.0, 0.0]
      && m[1] == [0.0, 0.00000077130255, 0.0, 0.0]
      && m[2] == [0.0, 0.0, 1.0, 0.0]
      && m[3] == [-0.97514784, -4.825174, 0.0, 1.0]
  {
    var m := Lib.MatrixOfFlat(GetViewMatrix());
    assert m[0][0] == GetViewMatrix()[0];
  }

  /** `str::replace` with a one-character pattern and replacement. */
  function ReplaceChar(s: string, from: char, to: char): (r: string)
    ensures |r| == |s|
    ensures forall i :: 0 <= i < |s| ==> r[i] == (if s[i] == from then to else s[i])
  {
    if s == [] then [] else ReplaceChar(s[..|s| - 1], from, to) + [if s[|s| - 1] == from then to else s[|s| - 1]]
  }

  /** `get_snapshot`: the prefix joined to the input, then `_` to `/` and `-` to `+` throughout. */
  function GetSnapshot(base64: string): string
  {
    ReplaceChar(ReplaceChar(Base64Prefix + base64, '_', '/'), '-', '+')
  }

  /** The standard base64 character for a URL-safe one (section 5 of RFC 4648). */
  function Standard(c: char): char
  {
    if c == '_' then '/' else if c == '-' then '+' else c
  }

  /**
   * The snapshot is the prefix followed by the input, character for
   * character, with the two URL-safe characters replaced by their standard
   * counterparts.
   */
  lemma SnapshotShape(base64: string)
    ensures var r := GetSnapshot(base64);
      && |r| == |Base64Prefix| + |base64|
      && r[..|Base64Prefix|] == Base64Prefix
      && forall i :: 0 <= i < |base64| ==> r[|Base64Prefix| + i] == Standard(base64[i])
  {
    var r := GetSnapshot(base64);
    var s := Base64Prefix + base64;
    assert forall i :: 0 <= i < |Base64Prefix| ==> s[i] == Base64Prefix[i] && s[i] != '_' && s[i] != '-';
    assert forall i :: 0 <= i < |base64| ==> s[|Base64Prefix| + i] == base64[i];
  }

  /** No URL-safe character survives. */
  lemma SnapshotIsStandardAlphabet(base64: string)
    ensures '_' !in GetSnapshot(base64) && '-' !in GetSnapshot(base64)
  {
    var r := GetSnapshot(base64);
    forall i | 0 <= i < |r|
      ensures r[i] != '_' && r[i] != '-'
    {
      var once := ReplaceChar(Base64Prefix + base64, '_', '/');
      assert once[i] != '_';
    }
  }

  /** Two replacements over disjoint characters can be applied in either order. */
  lemma ReplacementsCommute(s: string, a: char, b: char, c: char, d: char)
    requires a != c && a != d && b != c
    ensures ReplaceChar(ReplaceChar(s, a, b), c, d) == ReplaceChar(ReplaceChar(s, c, d), a, b)
  {
    var x := ReplaceChar(ReplaceChar(s, a, b), c, d);
    var y := ReplaceChar(ReplaceChar(s, c, d), a, b);
    assert forall i :: 0 <= i < |s| ==> x[i] == y[i];
  }

  /** The two replacements of get_snapshot commute. */
  lemma SnapshotReplacementsCommute(base64: string)
    ensures GetSnapshot(base64) == ReplaceChar(ReplaceChar(Base64Prefix + base64, '-', '+'), '_', '/')
  {
    ReplacementsCommute(Base64Prefix + base64, '_', '/', '-', '+');
  }

  /**
   * For URL-safe input (no `/` and no `+`), undoing the replacements on the
   * part after the prefix gives the input back.
   */
  lemma SnapshotRoundTrip(base64: string)
    requires '/' !in base64 && '+' !in base64
    ensures ReplaceChar(ReplaceChar(GetSnapshot(base64)[|Base64Prefix|..], '/', '_'), '+', '-') == base64
  {
    SnapshotShape(base64);
    var tail := GetSnapshot(base64)[|Base64Prefix|..];
    var back := ReplaceChar(ReplaceChar(tail, '/', '_'), '+', '-');
    forall i | 0 <= i < |base64|
      ensures back[i] == base64[i]
    {
      assert tail[i] == Standard(base64[i]);
    }
  }
}
