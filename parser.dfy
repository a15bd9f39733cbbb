/**
 * src/parser.rs: reading layer names, features and tag maps out of an
 * already-decoded Mapbox Vector Tile (version 2.1 of the Mapbox Vector Tile
 * Specification). Decoding the protocol-buffer bytes is not part of this model.
 */
module Parser {
  import opened Wrappers
  import opened Geo

  /**
   * The `Value` message of section 4.1 of the Mapbox Vector Tile
   * Specification: every field is optional; a well-formed value sets one.
   * `f32`/`f64` payloads are modelled over the reals.
   */
  datatype Value = Value(
    stringValue: Option<string>,
    floatValue: Option<real>,
    doubleValue: Option<real>,
    intValue: Option<int>,
    uintValue: Option<nat>,
    sintValue: Option<int>,
    boolValue: Option<bool>)

  datatype GeomType = Unknown | PointType | LineStringType | PolygonType

  /** A feature as decoded from the wire; its geometry command stream is carried but never read. */
  datatype TileFeature = TileFeature(id: Option<nat>, tags: seq<nat>, geomType: Option<GeomType>, geometry: seq<nat>)

  datatype Layer = Layer(
    version: nat,
    name: string,
    features: seq<TileFeature>,
    keys: seq<string>,
    values: seq<Value>,
    extent: Option<nat>)

  datatype VectorTile = VectorTile(layers: seq<Layer>)

  /** Rust's `to_string` for `f32` and `f64`, kept abstract. */
  datatype FloatText = FloatText(f32: real -> string, f64: real -> string)

  const ItemNotFound: string := "item not found"
  const IndexOutOfBounds: string := "index out of bounds"

  // ---------------------------------------------------------------------------
  // Decimal rendering of integers and booleans (Rust's `to_string`)

  function DigitChar(d: nat): (c: char)
    requires d < 10
    ensures '0' <= c <= '9' && (c as int) - ('0' as int) == d
  {
    "0123456789"[d]
  }

  /** Decimal digits of `n`, most significant first, without leading zeros. */
  function NatToString(n: nat): (s: string)
    ensures |s| >= 1
    ensures forall i :: 0 <= i < |s| ==> '0' <= s[i] <= '9'
    ensures s[0] == '0' ==> n == 0
  {
    if n < 10 then [DigitChar(n)] else NatToString(n / 10) + [DigitChar(n % 10)]
  }

  /** The number a string of decimal digits denotes. */
  function DecimalValue(s: string): nat
    requires forall i :: 0 <= i < |s| ==> '0' <= s[i] <= '9'
  {
    if s == [] then 0 else DecimalValue(s[..|s| - 1]) * 10 + ((s[|s| - 1] as int) - ('0' as int))
  }

  /** The decimal rendering reads back as the number it renders. */
  lemma {:induction false} NatToStringRoundTrip(n: nat)
    ensures DecimalValue(NatToString(n)) == n
  {
    if n >= 10 {
      NatToStringRoundTrip(n / 10);
      var s := NatToString(n);
      assert s[..|s| - 1] == NatToString(n / 10);
    }
  }

  function IntToString(i: int): (s: string)
    ensures |s| >= 1 && (i < 0 <==> s[0] == '-')
  {
    if i < 0 then "-" + NatToString(-i) else NatToString(i)
  }

  function BoolToString(b: bool): string
  {
    if b then "true" else "false"
  }

  // ---------------------------------------------------------------------------
  // get_string_value

  /** The renderings of the `Value` fields in the order the decoder tries them. */
  function Candidates(v: Value, fmt: FloatText): seq<Option<string>>
  {
    [ v.stringValue,
      if v.floatValue.Some? then Some(fmt.f32(v.floatValue.value)) else None,
      if v.doubleValue.Some? then Some(fmt.f64(v.doubleValue.value)) else None,
      if v.intValue.Some? then Some(IntToString(v.intValue.value)) else None,
      if v.uintValue.Some? then Some(NatToString(v.uintValue.value)) else None,
      if v.sintValue.Some? then Some(IntToString(v.sintValue.value)) else None,
      if v.boolValue.Some? then Some(BoolToString(v.boolValue.value)) else None ]
  }

  /** The first present entry, or the empty string when none is present. */
  function FirstPresent(cs: seq<Option<string>>): (r: string)
    ensures (forall i :: 0 <= i < |cs| ==> cs[i].None?) ==> r == ""
    ensures forall i :: 0 <= i < |cs| && cs[i].Some? && (forall j :: 0 <= j < i ==> cs[j].None?) ==> r == cs[i].value
  {
    if cs == [] then "" else if cs[0].Some? then cs[0].value else FirstPresent(cs[1..])
  }

  predicate NoFieldSet(v: Value)
  {
    v.stringValue.None? && v.floatValue.None? && v.doubleValue.None? && v.intValue.None?
    && v.uintValue.None? && v.sintValue.None? && v.boolValue.None?
  }

  /**
   * get_string_value: the rendering of the first populated field in the
   * priority order string, float, double, int, uint, sint, bool; "" if none.
   */
  function GetStringValue(v: Value, fmt: FloatText): (r: string)
    ensures NoFieldSet(v) ==> r == ""
    ensures v.stringValue.Some? ==> r == v.stringValue.value
  {
    if v.stringValue.Some? then v.stringValue.value
    else if v.floatValue.Some? then fmt.f32(v.floatValue.value)
    else if v.doubleValue.Some? then fmt.f64(v.doubleValue.value)
    else if v.intValue.Some? then IntToString(v.intValue.value)
    else if v.uintValue.Some? then NatToString(v.uintValue.value)
    else if v.sintValue.Some? then IntToString(v.sintValue.value)
    else if v.boolValue.Some? then BoolToString(v.boolValue.value)
    else ""
  }

  /** get_string_value renders the first populated field of the priority list. */
  lemma GetStringValueIsFirstPresent(v: Value, fmt: FloatText)
    ensures GetStringValue(v, fmt) == FirstPresent(Candidates(v, fmt))
  {
    var cs := Candidates(v, fmt);
    var k := if v.stringValue.Some? then 0 else if v.floatValue.Some? then 1
      else if v.doubleValue.Some? then 2 else if v.intValue.Some? then 3
      else if v.uintValue.Some? then 4 else if v.sintValue.Some? then 5
      else if v.boolValue.Some? then 6 else 7;
    assert forall j :: 0 <= j < k ==> cs[j].None?;
    if k < 7 {
      assert cs[k].Some? && GetStringValue(v, fmt) == cs[k].value;
    }
  }

  // ---------------------------------------------------------------------------
  // parse_tags

  /** Number of `chunks(2)` of a tag list: the last chunk holds one index when the length is odd. */
  function ChunkCount(len: nat): nat
  {
    (len + 1) / 2
  }

  /** Inserting one chunk, starting at `tags[i]`, into the accumulator, or the panic it causes. */
  function InsertChunk(acc: map<string, string>, tags: seq<nat>, i: nat,
                       keys: seq<string>, values: seq<Value>, fmt: FloatText): Fallible<map<string, string>>
    requires i < |tags|
  {
    if tags[i] >= |keys| then Panicked(ItemNotFound)
    else if i + 1 >= |tags| then Panicked(IndexOutOfBounds)
    else if tags[i + 1] >= |values| then Panicked(ItemNotFound)
    else Returned(acc[keys[tags[i]] := GetStringValue(values[tags[i + 1]], fmt)])
  }

  /** The fold of parse_tags over its first `n` chunks. */
  function FoldChunks(tags: seq<nat>, keys: seq<string>, values: seq<Value>, fmt: FloatText, n: nat): Fallible<map<string, string>>
    requires n <= ChunkCount(|tags|)
  {
    if n == 0 then Returned(map[])
    else match FoldChunks(tags, keys, values, fmt, n - 1)
      case Panicked(e) => Panicked(e)
      case Returned(acc) => InsertChunk(acc, tags, 2 * (n - 1), keys, values, fmt)
  }

  function ParseTagsSpec(tags: seq<nat>, keys: seq<string>, values: seq<Value>, fmt: FloatText): Fallible<map<string, string>>
  {
    FoldChunks(tags, keys, values, fmt, ChunkCount(|tags|))
  }

  /** The first `n` pairs are complete and both of their indices are in range. */
  predicate PairsInRange(tags: seq<nat>, keys: seq<string>, values: seq<Value>, n: nat)
  {
    2 * n <= |tags| && forall p :: 0 <= p < n ==> tags[2 * p] < |keys| && tags[2 * p + 1] < |values|
  }

  /** Every pair is complete and both of its indices are in range. */
  predicate TagsWellFormed(tags: seq<nat>, keys: seq<string>, values: seq<Value>)
  {
    |tags| % 2 == 0 && PairsInRange(tags, keys, values, |tags| / 2)
  }

  /** Once the fold has panicked, later chunks do not change the outcome. */
  lemma {:induction false} PanicPersists(tags: seq<nat>, keys: seq<string>, values: seq<Value>, fmt: FloatText, m: nat, n: nat)
    requires m <= n <= ChunkCount(|tags|)
    requires FoldChunks(tags, keys, values, fmt, m).Panicked?
    ensures FoldChunks(tags, keys, values, fmt, n) == FoldChunks(tags, keys, values, fmt, m)
    decreases n - m
  {
    if m < n {
      PanicPersists(tags, keys, values, fmt, m, n - 1);
    }
  }

  /** Folding the first `n` chunks succeeds exactly when each of their indices exists. */
  lemma {:induction false} FoldChunksSucceedsIff(tags: seq<nat>, keys: seq<string>, values: seq<Value>, fmt: FloatText, n: nat)
    requires n <= ChunkCount(|tags|)
    ensures FoldChunks(tags, keys, values, fmt, n).Returned? <==> PairsInRange(tags, keys, values, n)
  {
    if n > 0 {
      FoldChunksSucceedsIff(tags, keys, values, fmt, n - 1);
      if PairsInRange(tags, keys, values, n) {
        assert tags[2 * (n - 1)] < |keys| && tags[2 * (n - 1) + 1] < |values|;
      }
    }
  }

  /**
   * parse_tags fails (panics) exactly when the tag list has odd length or one
   * of its key or value indices is out of range.
   */
  lemma ParseTagsSucceedsIff(tags: seq<nat>, keys: seq<string>, values: seq<Value>, fmt: FloatText)
    ensures ParseTagsSpec(tags, keys, values, fmt).Returned? <==> TagsWellFormed(tags, keys, values)
  {
    FoldChunksSucceedsIff(tags, keys, values, fmt, ChunkCount(|tags|));
  }

  /** After a successful fold of `n` chunks the map holds exactly the keys of those pairs. */
  lemma {:induction false} FoldChunksKeys(tags: seq<nat>, keys: seq<string>, values: seq<Value>, fmt: FloatText, n: nat)
    requires n <= ChunkCount(|tags|)
    requires PairsInRange(tags, keys, values, n)
    ensures FoldChunks(tags, keys, values, fmt, n).Returned?
    ensures forall k :: k in FoldChunks(tags, keys, values, fmt, n).value <==>
      exists p :: 0 <= p < n && keys[tags[2 * p]] == k
  {
    FoldChunksSucceedsIff(tags, keys, values, fmt, n);
    if n > 0 {
      FoldChunksKeys(tags, keys, values, fmt, n - 1);
      var m := FoldChunks(tags, keys, values, fmt, n).value;
      forall k | k in m
        ensures exists p :: 0 <= p < n && keys[tags[2 * p]] == k
      {
        if k != keys[tags[2 * (n - 1)]] {
          var p :| 0 <= p < n - 1 && keys[tags[2 * p]] == k;
        }
      }
    }
  }

  /** After a successful fold of `n` chunks each key maps to the value of the LAST pair naming it. */
  lemma {:induction false} FoldChunksLastWins(tags: seq<nat>, keys: seq<string>, values: seq<Value>, fmt: FloatText, n: nat, p: nat)
    requires n <= ChunkCount(|tags|)
    requires PairsInRange(tags, keys, values, n)
    requires p < n
    requires forall q :: p < q < n ==> keys[tags[2 * q]] != keys[tags[2 * p]]
    ensures FoldChunks(tags, keys, values, fmt, n).Returned?
    ensures keys[tags[2 * p]] in FoldChunks(tags, keys, values, fmt, n).value
    ensures FoldChunks(tags, keys, values, fmt, n).value[keys[tags[2 * p]]] == GetStringValue(values[tags[2 * p + 1]], fmt)
  {
    FoldChunksSucceedsIff(tags, keys, values, fmt, n);
    if p < n - 1 {
      FoldChunksLastWins(tags, keys, values, fmt, n - 1, p);
      assert keys[tags[2 * (n - 1)]] != keys[tags[2 * p]];
    }
  }

  /**
   * parse_tags reads the tags pairwise (key index, value index); the result
   * holds exactly the keys the pairs name, and a later pair with the same key
   * overwrites an earlier one.
   */
  lemma ParseTagsContents(tags: seq<nat>, keys: seq<string>, values: seq<Value>, fmt: FloatText, p: nat)
    requires TagsWellFormed(tags, keys, values)
    requires p < |tags| / 2
    requires forall q :: p < q < |tags| / 2 ==> keys[tags[2 * q]] != keys[tags[2 * p]]
    ensures ParseTagsSpec(tags, keys, values, fmt).Returned?
    ensures forall k :: k in ParseTagsSpec(tags, keys, values, fmt).value <==>
      exists q :: 0 <= q < |tags| / 2 && keys[tags[2 * q]] == k
    ensures ParseTagsSpec(tags, keys, values, fmt).value[keys[tags[2 * p]]] == GetStringValue(values[tags[2 * p + 1]], fmt)
  {
    assert ChunkCount(|tags|) == |tags| / 2;
    FoldChunksKeys(tags, keys, values, fmt, |tags| / 2);
    FoldChunksLastWins(tags, keys, values, fmt, |tags| / 2, p);
  }

  /** parse_tags: fold the tag pairs into a map, panicking on a missing index. */
  method ParseTags(tags: seq<nat>, keys: seq<string>, values: seq<Value>, fmt: FloatText)
    returns (r: Fallible<map<string, string>>)
    ensures r == ParseTagsSpec(tags, keys, values, fmt)
  {
    var acc: map<string, string> := map[];
    var c := 0;
    while 2 * c < |tags|
      invariant c <= ChunkCount(|tags|)
      invariant FoldChunks(tags, keys, values, fmt, c) == Returned(acc)
    {
      var i := 2 * c;
      if tags[i] >= |keys| {
        r := Panicked(ItemNotFound);
      } else if i + 1 >= |tags| {
        r := Panicked(IndexOutOfBounds);
      } else if tags[i + 1] >= |values| {
        r := Panicked(ItemNotFound);
      } else {
        acc := acc[keys[tags[i]] := GetStringValue(values[tags[i + 1]], fmt)];
        c := c + 1;
        continue;
      }
      assert FoldChunks(tags, keys, values, fmt, c + 1) == r;
      PanicPersists(tags, keys, values, fmt, c + 1, ChunkCount(|tags|));
      return;
    }
    r := Returned(acc);
  }

  // ---------------------------------------------------------------------------
  // get_layer_names

  /** Versions 1 and 2 of the specification are supported. */
  predicate Supported(layer: Layer)
  {
    layer.version == 1 || layer.version == 2
  }

  /** Names of the supported layers, in layer order. */
  function SupportedNames(layers: seq<Layer>): seq<string>
  {
    if layers == [] then []
    else
      var init := SupportedNames(layers[..|layers| - 1]);
      if Supported(layers[|layers| - 1]) then init + [layers[|layers| - 1].name] else init
  }

  /** A name is listed exactly when some supported layer carries it. */
  lemma {:induction false} SupportedNamesMembership(layers: seq<Layer>, n: string)
    ensures n in SupportedNames(layers) <==> exists i :: 0 <= i < |layers| && Supported(layers[i]) && layers[i].name == n
  {
    if layers != [] {
      var init := layers[..|layers| - 1];
      SupportedNamesMembership(init, n);
      if exists i :: 0 <= i < |layers| && Supported(layers[i]) && layers[i].name == n {
        var i :| 0 <= i < |layers| && Supported(layers[i]) && layers[i].name == n;
        if i < |layers| - 1 {
          assert init[i] == layers[i];
        }
      }
    }
  }

  /** The listing keeps layer order: listing a concatenation lists each part in turn. */
  lemma {:induction false} SupportedNamesAppend(a: seq<Layer>, b: seq<Layer>)
    ensures SupportedNames(a + b) == SupportedNames(a) + SupportedNames(b)
    decreases |b|
  {
    if b == [] {
      assert a + b == a;
    } else {
      assert (a + b)[..|a + b| - 1] == a + b[..|b| - 1];
      SupportedNamesAppend(a, b[..|b| - 1]);
    }
  }

  /** When every layer is supported, every name is listed, in order. */
  lemma {:induction false} SupportedNamesAllSupported(layers: seq<Layer>)
    requires forall i :: 0 <= i < |layers| ==> Supported(layers[i])
    ensures |SupportedNames(layers)| == |layers|
    ensures forall i :: 0 <= i < |layers| ==> SupportedNames(layers)[i] == layers[i].name
  {
    if layers != [] {
      SupportedNamesAllSupported(layers[..|layers| - 1]);
    }
  }

  /** get_layer_names: the names of the layers of version 1 or 2, in layer order. */
  method GetLayerNames(tile: VectorTile) returns (names: seq<string>)
    ensures names == SupportedNames(tile.layers)
  {
    names := [];
    for i := 0 to |tile.layers|
      invariant names == SupportedNames(tile.layers[..i])
    {
      assert tile.layers[..i + 1][..i] == tile.layers[..i];
      var layer := tile.layers[i];
      if layer.version == 1 || layer.version == 2 {
        names := names + [layer.name];
      }
    }
    assert tile.layers[..|tile.layers|] == tile.layers;
  }

  // ---------------------------------------------------------------------------
  // get_features

  /** The feature get_features builds for a wire feature whose tags parse to `props`. */
  function EmptyGeometryFeature(props: map<string, string>): Feature<GeometryCollection>
  {
    Feature([], Some(props))
  }

  /**
   * get_features: None when the layer index is out of range; otherwise one
   * feature per wire feature, in order, each with an empty geometry
   * collection and its parsed tags; a panic if any feature's tags fail.
   */
  method GetFeatures(tile: VectorTile, layerIndex: nat, fmt: FloatText)
    returns (r: Fallible<Option<seq<Feature<GeometryCollection>>>>)
    ensures r == Returned(None) <==> layerIndex >= |tile.layers|
    ensures layerIndex < |tile.layers| ==>
      var layer := tile.layers[layerIndex];
      && (r.Returned? <==> forall i :: 0 <= i < |layer.features| ==>
            ParseTagsSpec(layer.features[i].tags, layer.keys, layer.values, fmt).Returned?)
      && (r.Returned? ==>
            && r.value.Some? && |r.value.value| == |layer.features|
            && forall i :: 0 <= i < |layer.features| ==>
                 r.value.value[i] == EmptyGeometryFeature(ParseTagsSpec(layer.features[i].tags, layer.keys, layer.values, fmt).value))
  {
    if layerIndex >= |tile.layers| {
      return Returned(None);
    }
    var layer := tile.layers[layerIndex];
    var features: seq<Feature<GeometryCollection>> := [];
    for i := 0 to |layer.features|
      invariant |features| == i
      invariant forall j :: 0 <= j < i ==> ParseTagsSpec(layer.features[j].tags, layer.keys, layer.values, fmt).Returned?
      invariant forall j :: 0 <= j < i ==>
        features[j] == EmptyGeometryFeature(ParseTagsSpec(layer.features[j].tags, layer.keys, layer.values, fmt).value)
    {
      var props := ParseTags(layer.features[i].tags, layer.keys, layer.values, fmt);
      if props.Panicked? {
        return Panicked(props.reason);
      }
      features := features + [Feature([], Some(props.value))];
    }
    r := Returned(Some(features));
  }

  /** Every feature produced by get_features has an empty geometry collection. */
  predicate AllGeometriesEmpty(fs: seq<Feature<GeometryCollection>>)
  {
    forall i :: 0 <= i < |fs| ==> fs[i].geometry == []
  }

  // ---------------------------------------------------------------------------
  // Selecting the "land" layer (src/lib.rs, add_pbf_tile_data)

  /** `iter().position(..)`: the first index holding `target`. */
  function Position(names: seq<string>, target: string): (r: Option<nat>)
    ensures r.None? <==> target !in names
    ensures r.Some? ==>
      && r.value < |names| && names[r.value] == target
      && forall j :: 0 <= j < r.value ==> names[j] != target
  {
    if names == [] then None
    else if names[0] == target then Some(0)
    else match Position(names[1..], target)
      case None => None
      case Some(k) => Some(k + 1)
  }

  const LandLayerName: string := "land"

  /**
   * The layer index add_pbf_tile_data passes to get_features, AS WRITTEN: the
   * position of "land" in the list of SUPPORTED layer names, which
   * get_features then uses as an index into ALL layers.
   */
  function LandIndexAsWritten(tile: VectorTile): (r: Option<nat>)
    ensures r.None? <==> LandLayerName !in SupportedNames(tile.layers)
    ensures r.Some? ==>
      && r.value < |SupportedNames(tile.layers)|
      && SupportedNames(tile.layers)[r.value] == LandLayerName
  {
    Position(SupportedNames(tile.layers), LandLayerName)
  }

  /**
   * The index add_pbf_tile_data evidently means: the first supported layer
   * named "land", as an index into all layers.
   */
  function LandLayerIndex(tile: VectorTile): (r: Option<nat>)
    ensures r.None? <==> forall i :: 0 <= i < |tile.layers| ==> !(Supported(tile.layers[i]) && tile.layers[i].name == LandLayerName)
    ensures r.Some? ==>
      && r.value < |tile.layers| && Supported(tile.layers[r.value]) && tile.layers[r.value].name == LandLayerName
      && forall j :: 0 <= j < r.value ==> !(Supported(tile.layers[j]) && tile.layers[j].name == LandLayerName)
  {
    FirstLand(tile.layers, 0)
  }

  function FirstLand(layers: seq<Layer>, from: nat): (r: Option<nat>)
    requires from <= |layers|
    ensures r.None? <==> forall i :: from <= i < |layers| ==> !(Supported(layers[i]) && layers[i].name == LandLayerName)
    ensures r.Some? ==>
      && from <= r.value < |layers| && Supported(layers[r.value]) && layers[r.value].name == LandLayerName
      && forall j :: from <= j < r.value ==> !(Supported(layers[j]) && layers[j].name == LandLayerName)
    decreases |layers| - from
  {
    if from == |layers| then None
    else if Supported(layers[from]) && layers[from].name == LandLayerName then Some(from)
    else FirstLand(layers, from + 1)
  }

  /** Both selections agree on WHETHER a message is sent: some supported layer is named "land". */
  lemma LandSelectionsAgreeOnSending(tile: VectorTile)
    ensures LandIndexAsWritten(tile).Some? <==> LandLayerIndex(tile).Some?
  {
    SupportedNamesMembership(tile.layers, LandLayerName);
  }

  /** The index sent as written is always in range, so get_features never answers None there. */
  lemma LandIndexAsWrittenInRange(tile: VectorTile)
    requires LandIndexAsWritten(tile).Some?
    ensures LandIndexAsWritten(tile).value < |tile.layers|
  {
    SupportedNamesAtMost(tile.layers);
  }

  lemma {:induction false} SupportedNamesAtMost(layers: seq<Layer>)
    ensures |SupportedNames(layers)| <= |layers|
  {
    if layers != [] {
      SupportedNamesAtMost(layers[..|layers| - 1]);
    }
  }

  /** When every layer is supported the two selections coincide. */
  lemma LandSelectionsAgreeWhenAllSupported(tile: VectorTile)
    requires forall i :: 0 <= i < |tile.layers| ==> Supported(tile.layers[i])
    ensures LandIndexAsWritten(tile) == LandLayerIndex(tile)
  {
    SupportedNamesAllSupported(tile.layers);
    var names := SupportedNames(tile.layers);
    var w := LandIndexAsWritten(tile);
    var c := LandLayerIndex(tile);
    LandSelectionsAgreeOnSending(tile);
  }

  /**
   * A tile whose first layer has an unsupported version: as written, the
   * index of "land" among the supported names is 0, which selects the
   * unsupported "water" layer instead of "land".
   */
  lemma LandIndexAsWrittenSelectsWrongLayer()
    ensures var tile := VectorTile([Layer(3, "water", [], [], [], None), Layer(2, LandLayerName, [], [], [], None)]);
      && LandIndexAsWritten(tile) == Some(0)
      && tile.layers[0].name != LandLayerName
      && LandLayerIndex(tile) == Some(1)
  {
    var tile := VectorTile([Layer(3, "water", [], [], [], None), Layer(2, LandLayerName, [], [], [], None)]);
    assert tile.layers[..1] == [tile.layers[0]];
    assert [tile.layers[0]][..0] == [];
    assert SupportedNames([tile.layers[0]]) == [];
    assert SupportedNames(tile.layers) == [LandLayerName];
    assert SupportedNames(tile.layers)[0] == LandLayerName;
  }
}
