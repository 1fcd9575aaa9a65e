/**
 * What the three older transmit loops (`caninterface.py`, `cannodes.py`,
 * `canbustransmitter.py`) have in common, word for word: the pending-flag
 * update of `add_pending_tx`, the `(mode, continuous, pending)` decision
 * table of `tx_pgn`, and its loop packing the listed SPNs into the payload.
 */
module LegacyTx {
  import opened Wrappers
  import opened Text
  import opened Catalog
  import opened FramePacking

  /** The argument of `add_pending_tx`: the string 'all PGNs' or one PGN. */
  datatype PgnSelector = AllPgns | OnePgn(pgn: nat)

  /**
   * The pending flags after `add_pending_tx`: every known PGN flagged (and no
   * PGN added), or the one PGN flagged (added if new).
   */
  function PendingAfter(pending: map<nat, bool>, sel: PgnSelector): (r: map<nat, bool>)
    ensures sel.AllPgns? ==> r.Keys == pending.Keys && forall p :: p in r ==> r[p]
    ensures sel.OnePgn? ==> r.Keys == pending.Keys + {sel.pgn} && r[sel.pgn]
    ensures sel.OnePgn? ==> forall p :: p in pending && p != sel.pgn ==> r[p] == pending[p]
  {
    match sel
    case AllPgns => map p | p in pending :: true
    case OnePgn(pgn) => pending[pgn := true]
  }

  /** Outcome of the decision table. */
  datatype Arbitration = Send | SendAndClear | Skip | ArbitrationError

  /**
   * The `match` of `tx_pgn` on the GUI's mode string, the PGN's continuous
   * check box and its pending flag, first matching case first.
   */
  function Arbitrate(mode: string, continuous: bool, pending: bool): (a: Arbitration)
    ensures a == SendAndClear ==> pending
    ensures a == Skip ==> !pending
  {
    if mode == "Tx All" || (mode == "Use PGN Settings" && continuous) then Send
    else if pending then SendAndClear
    else if (mode == "Use PGN Settings" && !continuous) || mode == "Stop All" then Skip
    else ArbitrationError
  }

  /** The table raises exactly for an unknown mode with nothing pending. */
  lemma ArbitrationErrorIff(mode: string, continuous: bool, pending: bool)
    ensures Arbitrate(mode, continuous, pending) == ArbitrationError
        <==> mode !in {"Tx All", "Use PGN Settings", "Stop All"} && !pending
  {
  }

  /** A pending request is always served: it sends, whatever the mode. */
  lemma PendingAlwaysSends(mode: string, continuous: bool)
    ensures Arbitrate(mode, continuous, true) in {Send, SendAndClear}
  {
  }

  /** The pending flag is cleared exactly when it was set and no continuous rule applies. */
  lemma ClearsOnlyOneShot(mode: string, continuous: bool, pending: bool)
    ensures Arbitrate(mode, continuous, pending) == SendAndClear
        <==> pending && mode != "Tx All" && !(mode == "Use PGN Settings" && continuous)
  {
  }

  /**
   * The whole table for the three known modes: 'Tx All', and 'Use PGN
   * Settings' with the box checked, send; with nothing pending, 'Stop All'
   * and 'Use PGN Settings' with the box unchecked skip.
   */
  lemma ArbitrateSendSkipIff(mode: string, continuous: bool, pending: bool)
    ensures Arbitrate(mode, continuous, pending) == Send
        <==> mode == "Tx All" || (mode == "Use PGN Settings" && continuous)
    ensures Arbitrate(mode, continuous, pending) == Skip
        <==> !pending && ((mode == "Use PGN Settings" && !continuous) || mode == "Stop All")
  {
  }

  /** 'Stop All' overrides the continuous check box: with nothing pending no PGN is sent. */
  lemma StopAllOverridesContinuous(continuous: bool)
    ensures Arbitrate("Stop All", continuous, false) == Skip
  {
  }

  /**
   * The state of one task started for a PGN: what its `tx_pgn` closure
   * captures, and whether an exception raised in the loop has ended its
   * thread.
   */
  datatype TxTask = TxTask(pgn: nat, canId: nat, rateMs: nat, spns: seq<nat>, data: seq<bv8>, ended: bool)

  /** What one iteration of a `tx_pgn` loop did. */
  datatype TxResult = Skipped | Transmitted | Printed | Failed(error: PyError)

  /** The value tag of an SPN: its decimal number followed by `suffix`. */
  function Tag(spn: nat, suffix: string): string {
    NatToString(spn) + suffix
  }

  /**
   * The listed SPNs can be packed into `n` bytes: each is an SPN of the
   * PGN with the position fields its write reads, its position lies inside
   * the payload, its value tag has a value, and whole-byte values fit their
   * bytes.
   */
  predicate Packable(pgnSpec: PgnSpec, spns: seq<nat>, values: map<string, int>, suffix: string, n: nat) {
    forall j :: 0 <= j < |spns| ==>
      && spns[j] in pgnSpec.spns
      && Positioned(pgnSpec.spns[spns[j]])
      && Tag(spns[j], suffix) in values
      && Fits(LayoutOf(pgnSpec.spns[spns[j]]), n)
      && RawFits(LayoutOf(pgnSpec.spns[spns[j]]), values[Tag(spns[j], suffix)])
  }

  /** The payload after writing each listed SPN in list order. */
  function PackAll(data: seq<bv8>, pgnSpec: PgnSpec, spns: seq<nat>, values: map<string, int>, suffix: string): (r: seq<bv8>)
    requires Packable(pgnSpec, spns, values, suffix, |data|)
    ensures |r| == |data|
    decreases |spns|
  {
    if spns == [] then data
    else
      var last := spns[|spns| - 1];
      var before := PackAll(data, pgnSpec, spns[..|spns| - 1], values, suffix);
      WriteSpn(before, LayoutOf(pgnSpec.spns[last]), values[Tag(last, suffix)])
  }

  /** The packing loop of `tx_pgn`, on the payload kept between iterations. */
  method PackSpns(data: seq<bv8>, pgnSpec: PgnSpec, spns: seq<nat>, values: map<string, int>, suffix: string)
    returns (r: seq<bv8>)
    requires Packable(pgnSpec, spns, values, suffix, |data|)
    ensures r == PackAll(data, pgnSpec, spns, values, suffix)
  {
    r := data;
    for j := 0 to |spns|
      invariant |r| == |data|
      invariant r == PackAll(data, pgnSpec, spns[..j], values, suffix)
    {
      assert spns[..j + 1][..j] == spns[..j];
      var spn := spns[j];
      r := PackSpn(r, LayoutOf(pgnSpec.spns[spn]), values[Tag(spn, suffix)]);
    }
    assert spns[..|spns|] == spns;
  }

  /** Bytes that no listed SPN touches keep their old value. */
  lemma {:induction false} PackAllUntouched(data: seq<bv8>, pgnSpec: PgnSpec, spns: seq<nat>, values: map<string, int>, suffix: string, i: nat)
    requires Packable(pgnSpec, spns, values, suffix, |data|) && i < |data|
    requires forall j :: 0 <= j < |spns| ==> !Touches(LayoutOf(pgnSpec.spns[spns[j]]), i)
    ensures PackAll(data, pgnSpec, spns, values, suffix)[i] == data[i]
  {
    if spns != [] {
      PackAllUntouched(data, pgnSpec, spns[..|spns| - 1], values, suffix, i);
    }
  }

  /**
   * A listed SPN that no later-listed SPN overlaps reads back its value
   * (modulo 2 to the power of its length).
   */
  lemma {:induction false} PackAllReadBack(data: seq<bv8>, pgnSpec: PgnSpec, spns: seq<nat>, values: map<string, int>, suffix: string, k: nat)
    requires Packable(pgnSpec, spns, values, suffix, |data|) && k < |spns|
    requires var l := LayoutOf(pgnSpec.spns[spns[k]]); IsSubByte(l.lengthBits) || IsWholeBytes(l.lengthBits)
    requires forall j :: k < j < |spns| ==> Disjoint(LayoutOf(pgnSpec.spns[spns[k]]), LayoutOf(pgnSpec.spns[spns[j]]))
    ensures var l := LayoutOf(pgnSpec.spns[spns[k]]);
      ReadSpn(PackAll(data, pgnSpec, spns, values, suffix), l) == values[Tag(spns[k], suffix)] % Pow2(l.lengthBits)
    decreases |spns|
  {
    var l := LayoutOf(pgnSpec.spns[spns[k]]);
    var init := spns[..|spns| - 1];
    var before := PackAll(data, pgnSpec, init, values, suffix);
    if k == |spns| - 1 {
      ReadAfterWrite(before, l, values[Tag(spns[k], suffix)]);
    } else {
      assert init[k] == spns[k];
      PackAllReadBack(data, pgnSpec, init, values, suffix, k);
      var last := spns[|spns| - 1];
      WriteOtherField(before, l, LayoutOf(pgnSpec.spns[last]), values[Tag(last, suffix)]);
    }
  }
}
