/**
 * The signal codec: conversion between raw values and engineering values,
 * between raw values and discrete labels, and the derived raw bounds and
 * absolute start bit of an SPN. Scales and offsets are exact `real`s.
 */
module SignalCodec {
  import opened Wrappers
  import opened Catalog

  /** Python's `round(x)`: the nearest integer, a tie going to the even one. */
  function RoundHalfEven(x: real): (n: int)
    ensures x - 0.5 <= n as real <= x + 0.5
    ensures (n as real == x - 0.5 || n as real == x + 0.5) ==> n % 2 == 0
  {
    var f := x.Floor;
    var d := x - f as real;
    if d < 0.5 then f
    else if d > 0.5 then f + 1
    else if f % 2 == 0 then f
    else f + 1
  }

  /** The two properties of `RoundHalfEven` determine its result. */
  lemma RoundHalfEvenUnique(x: real, n: int)
    requires x - 0.5 <= n as real <= x + 0.5
    requires (n as real == x - 0.5 || n as real == x + 0.5) ==> n % 2 == 0
    ensures n == RoundHalfEven(x)
  {
  }

  /** `raw * scale + offset`: the engineering value of a raw value. */
  function Decode(raw: int, scale: real, offset: real): real
  {
    raw as real * scale + offset
  }

  /**
   * `round((decoded - offset) / scale)`: the raw value whose engineering value
   * is nearest to `decoded` (ties to even). A zero scale raises in the source.
   */
  function Encode(decoded: real, scale: real, offset: real): (raw: int)
    requires scale != 0.0
    ensures var q := (decoded - offset) / scale; q - 0.5 <= raw as real <= q + 0.5
  {
    RoundHalfEven((decoded - offset) / scale)
  }

  /** Encoding a decoded raw value gives the raw value back. */
  lemma EncodeDecode(raw: int, scale: real, offset: real)
    requires scale != 0.0
    ensures Encode(Decode(raw, scale, offset), scale, offset) == raw
  {
    assert (Decode(raw, scale, offset) - offset) / scale == raw as real;
    RoundHalfEvenUnique(raw as real, raw);
  }

  /** Decoding an encoded value lands within half a scale step of it. */
  lemma DecodeEncodeNearest(decoded: real, scale: real, offset: real)
    requires scale > 0.0
    ensures var back := Decode(Encode(decoded, scale, offset), scale, offset);
      decoded - scale / 2.0 <= back <= decoded + scale / 2.0
  {
    var q := (decoded - offset) / scale;
    var raw := Encode(decoded, scale, offset);
    var e := raw as real - q;
    assert -0.5 <= e <= 0.5;
    assert q * scale == decoded - offset;
    assert Decode(raw, scale, offset) - decoded == e * scale;
    assert e * scale <= 0.5 * scale && -0.5 * scale <= e * scale;
  }

  /** The assertion vectors of the test suite. */
  lemma DecodeEncodeVectors()
    ensures Decode(0, 0.5, -40.0) == -40.0 && Decode(0, 1.0, -40.0) == -40.0 && Decode(0, 2.0, -40.0) == -40.0
    ensures Decode(40, 0.5, -40.0) == -20.0 && Decode(40, 1.0, -40.0) == 0.0 && Decode(40, 2.0, -40.0) == 40.0
    ensures Decode(1, 2.0, -40.0) == -38.0
    ensures Encode(-40.0, 0.5, -40.0) == 0 && Encode(-40.0, 1.0, -40.0) == 0 && Encode(-40.0, 2.0, -40.0) == 0
    ensures Encode(-20.0, 0.5, -40.0) == 40 && Encode(0.0, 1.0, -40.0) == 40 && Encode(40.0, 2.0, -40.0) == 40
    ensures Encode(-38.0, 2.0, -40.0) == 1
  {
    EncodeDecode(0, 0.5, -40.0);
    EncodeDecode(0, 1.0, -40.0);
    EncodeDecode(0, 2.0, -40.0);
    EncodeDecode(40, 0.5, -40.0);
    EncodeDecode(40, 1.0, -40.0);
    EncodeDecode(40, 2.0, -40.0);
    EncodeDecode(1, 2.0, -40.0);
  }

  /** A tie is rounded to the even neighbour, as Python's `round` does. */
  lemma EncodeTiesToEven()
    ensures Encode(0.5, 1.0, 0.0) == 0 && Encode(1.5, 1.0, 0.0) == 2 && Encode(2.5, 1.0, 0.0) == 2
    ensures Encode(-0.5, 1.0, 0.0) == 0 && Encode(-1.5, 1.0, 0.0) == -2
  {
  }

  /** An SPN whose bounds can be encoded: numeric, non-zero scale and an offset. */
  predicate NumericSpn(spec: SpnSpec) {
    spec.scale.Factor? && spec.scale.factor != 0.0 && spec.offset.Some?
  }

  /** The raw value of the SPN's minimum engineering value. */
  function RawMinValue(spec: SpnSpec): (raw: int)
    requires NumericSpn(spec) && spec.minValue.Some?
    ensures raw == Encode(spec.minValue.value, spec.scale.factor, spec.offset.value)
    ensures spec.scale.factor > 0.0 ==>
      var back := Decode(raw, spec.scale.factor, spec.offset.value);
      spec.minValue.value - spec.scale.factor / 2.0 <= back <= spec.minValue.value + spec.scale.factor / 2.0
  {
    var raw := Encode(spec.minValue.value, spec.scale.factor, spec.offset.value);
    if spec.scale.factor > 0.0 then
      DecodeEncodeNearest(spec.minValue.value, spec.scale.factor, spec.offset.value); raw
    else raw
  }

  /** The raw value of the SPN's maximum engineering value. */
  function RawMaxValue(spec: SpnSpec): (raw: int)
    requires NumericSpn(spec) && spec.maxValue.Some?
    ensures raw == Encode(spec.maxValue.value, spec.scale.factor, spec.offset.value)
    ensures spec.scale.factor > 0.0 ==>
      var back := Decode(raw, spec.scale.factor, spec.offset.value);
      spec.maxValue.value - spec.scale.factor / 2.0 <= back <= spec.maxValue.value + spec.scale.factor / 2.0
  {
    var raw := Encode(spec.maxValue.value, spec.scale.factor, spec.offset.value);
    if spec.scale.factor > 0.0 then
      DecodeEncodeNearest(spec.maxValue.value, spec.scale.factor, spec.offset.value); raw
    else raw
  }

  /** With a positive scale, the raw bounds keep the order of the engineering bounds. */
  lemma RawBoundsOrdered(spec: SpnSpec)
    requires NumericSpn(spec) && spec.minValue.Some? && spec.maxValue.Some?
    requires spec.scale.factor > 0.0 && spec.minValue.value <= spec.maxValue.value
    ensures RawMinValue(spec) <= RawMaxValue(spec)
  {
    var s, o := spec.scale.factor, spec.offset.value;
    var qmin := (spec.minValue.value - o) / s;
    var qmax := (spec.maxValue.value - o) / s;
    assert qmin * s <= qmax * s;
    assert qmin <= qmax;

  }

  /**
   * The absolute bit index of an SPN in its frame: `start_byte * 8 +
   * start_bit`; `TypeError` when either field is `None`.
   */
  function StartBit(spec: SpnSpec): (r: Result<nat>)
    ensures r.Raises? <==> spec.startByte.None? || spec.startBit.None?
    ensures r.Raises? ==> r.error == TypeError
    ensures r.Ok? ==> r.value == spec.startByte.value * 8 + spec.startBit.value
    ensures r.Ok? && spec.startBit.value < 8 ==>
      r.value / 8 == spec.startByte.value && r.value % 8 == spec.startBit.value
  {
    if spec.startByte.None? || spec.startBit.None? then Raises(TypeError)
    else Ok(spec.startByte.value * 8 + spec.startBit.value)
  }

  /**
   * The label of a raw value; the empty label when the SPN has no value
   * table or the value is not one of its keys.
   */
  function GetLabel(spec: SpnSpec, raw: int): (found: Label)
    ensures spec.discreteValues.Some? && HasKey(spec.discreteValues.value, raw) ==>
      exists i :: 0 <= i < |spec.discreteValues.value| && spec.discreteValues.value[i] == (raw, found)
    ensures spec.discreteValues.None? || !HasKey(spec.discreteValues.value, raw) ==> found == Line("")
  {
    if spec.discreteValues.None? then Line("")
    else
      match Lookup(spec.discreteValues.value, raw)
      case Some(l) => l
      case None => Line("")
  }

  /** The first key, in insertion order, whose label is `target`. */
  function FirstKeyWithLabel(t: ValueTable, target: Label): (r: Option<int>)
    ensures r.None? <==> forall i :: 0 <= i < |t| ==> t[i].1 != target
    ensures r.Some? ==> exists i :: 0 <= i < |t| && t[i] == (r.value, target)
                                  && forall j :: 0 <= j < i ==> t[j].1 != target
  {
    if t == [] then None
    else if t[0].1 == target then Some(t[0].0)
    else
      var r := FirstKeyWithLabel(t[1..], target);
      assert forall i :: 1 <= i < |t| ==> t[i] == t[1..][i - 1];
      if r.Some? then
        var i :| 0 <= i < |t[1..]| && t[1..][i] == (r.value, target)
                 && forall j :: 0 <= j < i ==> t[1..][j].1 != target;
        assert t[i + 1] == (r.value, target) && forall j :: 0 <= j < i + 1 ==> t[j].1 != target;
        r
      else r
  }

  /**
   * The first raw value whose label is the text `text`, or `None`; `KeyError`
   * when the SPN has no value table. A key stored with a list of lines never
   * matches a text.
   */
  function GetLabelValue(spec: SpnSpec, text: string): (r: Result<Option<int>>)
    ensures r.Raises? <==> spec.discreteValues.None?
    ensures r.Raises? ==> r.error == KeyError
    ensures r.Ok? ==> (r.value.None? <==>
      forall i :: 0 <= i < |spec.discreteValues.value| ==> spec.discreteValues.value[i].1 != Line(text))
    ensures r.Ok? && r.value.Some? ==>
      var t := spec.discreteValues.value;
      exists i :: 0 <= i < |t| && t[i] == (r.value.value, Line(text))
                  && forall j :: 0 <= j < i ==> t[j].1 != Line(text)
  {
    if spec.discreteValues.None? then Raises(KeyError)
    else Ok(FirstKeyWithLabel(spec.discreteValues.value, Line(text)))
  }

  /** When `GetLabelValue` finds a raw value, that value's label is the searched text. */
  lemma GetLabelValueThenGetLabel(spec: SpnSpec, text: string)
    requires spec.discreteValues.Some? && DistinctKeys(spec.discreteValues.value)
    requires GetLabelValue(spec, text).Ok? && GetLabelValue(spec, text).value.Some?
    ensures GetLabel(spec, GetLabelValue(spec, text).value.value) == Line(text)
  {
    var t := spec.discreteValues.value;
    var k := GetLabelValue(spec, text).value.value;
    var i :| 0 <= i < |t| && t[i] == (k, Line(text));
    LookupAt(t, i);
  }

  /** Two raw values may share a label, so the search does not invert `GetLabel`. */
  lemma GetLabelValueIsNotAnInverse()
    ensures var spec := SpnSpec("s", Some(0), Some(0), Some(2), Enum, None, None, None, None,
                                Some([(0, Line("Off")), (1, Line("Off"))]));
      GetLabel(spec, 1) == Line("Off") && GetLabelValue(spec, "Off") == Ok(Some(0))
  {
  }

  /**
   * The label lookup of the root module: `catalog[pgn]['SPNs'][spn]
   * ['discrete_values'][raw]` under one `try`, so that any missing level gives
   * the empty label.
   */
  function CatalogGetLabel(catalog: Catalog, pgn: nat, spn: nat, raw: int): (found: Label)
    ensures pgn !in catalog || spn !in catalog[pgn].spns ==> found == Line("")
    ensures pgn in catalog && spn in catalog[pgn].spns ==> found == GetLabel(catalog[pgn].spns[spn], raw)
  {
    if pgn in catalog && spn in catalog[pgn].spns then GetLabel(catalog[pgn].spns[spn], raw) else Line("")
  }

  /**
   * The label search of the root module: `KeyError` for a missing PGN, SPN
   * or value table, otherwise the search of that SPN's table; a value it
   * finds is labelled `text` by `CatalogGetLabel`.
   */
  function CatalogGetLabelValue(catalog: Catalog, pgn: nat, spn: nat, text: string): (r: Result<Option<int>>)
    ensures r.Raises? <==> pgn !in catalog || spn !in catalog[pgn].spns || catalog[pgn].spns[spn].discreteValues.None?
    ensures r.Raises? ==> r.error == KeyError
    ensures r.Ok? ==> r == GetLabelValue(catalog[pgn].spns[spn], text)
    ensures r.Ok? && r.value.Some? && DistinctKeys(catalog[pgn].spns[spn].discreteValues.value) ==>
      CatalogGetLabel(catalog, pgn, spn, r.value.value) == Line(text)
  {
    if pgn !in catalog || spn !in catalog[pgn].spns then Raises(KeyError)
    else
      var r := GetLabelValue(catalog[pgn].spns[spn], text);
      if r.Ok? && r.value.Some? && DistinctKeys(catalog[pgn].spns[spn].discreteValues.value) then
        GetLabelValueThenGetLabel(catalog[pgn].spns[spn], text); r
      else r
  }

  /** The loaded catalog object of the `protocols` package: a read-only mapping. */
  class ProtocolCatalog {
    const spec: Catalog

    /** Wraps an already loaded catalog; reading the pickle file is not modelled. */
    constructor (spec: Catalog)
      ensures this.spec == spec
    {
      this.spec := spec;
    }

    /** `catalog[item]`: the record of one PGN; a missing PGN raises `KeyError`. */
    method GetItem(item: nat) returns (r: Result<PgnSpec>)
      ensures item in spec ==> r == Ok(spec[item])
      ensures item !in spec ==> r == Raises(KeyError)
    {
      if item in spec {
        r := Ok(spec[item]);
      } else {
        r := Raises(KeyError);
      }
    }
  }
}
