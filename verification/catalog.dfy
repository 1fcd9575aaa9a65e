/**
 * The protocol catalog (the J1939 Digital Annex after normalisation): a
 * read-only table from PGN to its parameter-group record, each holding its
 * SPN records. Only the fields the core reads are modelled.
 */
module Catalog {
  import opened Wrappers

  /**
   * A discrete-value label: one description line, or (when several lines of
   * the description carry the same value) the list of those lines in order.
   */
  datatype Label = Line(text: string) | Lines(items: seq<string>)

  /** An insertion-ordered dictionary from raw values to labels (a Python dict). */
  type ValueTable = seq<(int, Label)>

  predicate DistinctKeys(t: ValueTable) {
    forall i, j :: 0 <= i < j < |t| ==> t[i].0 != t[j].0
  }

  predicate HasKey(t: ValueTable, k: int) {
    exists i :: 0 <= i < |t| && t[i].0 == k
  }

  /** `t[k]` on a dictionary: the label stored under `k`, if any. */
  function Lookup(t: ValueTable, k: int): (r: Option<Label>)
    ensures r.None? <==> !HasKey(t, k)
    ensures r.Some? ==> exists i :: 0 <= i < |t| && t[i] == (k, r.value)
  {
    if t == [] then None
    else if t[0].0 == k then Some(t[0].1)
    else
      var r := Lookup(t[1..], k);
      assert forall i :: 1 <= i < |t| ==> t[i] == t[1..][i - 1];
      assert HasKey(t[1..], k) ==> HasKey(t, k);
      r
  }

  /** The label of a key of a dictionary is the one stored at its unique entry. */
  lemma {:induction false} LookupAt(t: ValueTable, i: nat)
    requires DistinctKeys(t) && i < |t|
    ensures Lookup(t, t[i].0) == Some(t[i].1)
  {
    if i > 0 {
      assert t[0].0 != t[i].0;
      assert t[1..][i - 1] == t[i];
      LookupAt(t[1..], i - 1);
    }
  }

  /**
   * The `scale` of an SPN: a numeric resolution, one of the tags `'ENUM'`,
   * `'ASCII'` and `'BINARY'` of the resolution parser, the tag `'BIT_MAPPED'`
   * the builder puts on its list of bit-mapped SPNs, or `None` for a
   * resolution text of no known form.
   */
  datatype Scale = Factor(factor: real) | Enum | Ascii | Binary | BitMapped | Unknown

  /**
   * One SPN record of a PGN. The start byte and bit are `None` when the
   * position text has no known form, and the length is `None` when the
   * length text states none. `discreteValues` is `None` when the record has
   * no `discrete_values` key (the builder adds one only for SPNs whose unit
   * is 'bit' or 'bit-mapped'); reading it then raises `KeyError`.
   */
  datatype SpnSpec = SpnSpec(
    name: string,
    startByte: Option<nat>,
    startBit: Option<nat>,
    lengthBits: Option<nat>,
    scale: Scale,
    offset: Option<real>,
    minValue: Option<real>,
    maxValue: Option<real>,
    unit: Option<string>,
    discreteValues: Option<ValueTable>)

  /** One PGN record. */
  datatype PgnSpec = PgnSpec(
    groupLabel: string,
    acronym: string,
    dataLength: nat,
    defaultPriority: nat,
    spns: map<nat, SpnSpec>)

  /** The whole catalog, keyed by PGN. */
  type Catalog = map<nat, PgnSpec>
}
