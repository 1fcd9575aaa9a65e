/**
 * The module-level transmitter of `canbustransmitter.py`: its globals
 * (`bus`, the catalog `J1939` and the pending flags) become the fields of
 * one object. Values are read by tag `f'{spn}_raw_value'`; with no bus a
 * frame is printed instead of sent, and a failing send is not caught.
 */
module CanBusTransmitter {
  import opened Wrappers
  import opened Catalog
  import opened J1939Id
  import opened FramePacking
  import opened LegacyTx

  /** The suffix of the value tags read by the packing loop. */
  const RawValueSuffix := "_raw_value"

  class Globals {
    /** Whether the global `bus` is not `None`. */
    var bus: bool
    const catalog: Catalog
    var pendingTx: map<nat, bool>
    var tasks: seq<TxTask>
    ghost var sent: seq<Frame>
    /** The frames written to standard output instead, oldest first. */
    ghost var printed: seq<Frame>

    ghost predicate Valid()
      reads this
    {
      forall i :: 0 <= i < |tasks| ==>
        tasks[i].pgn in pendingTx && tasks[i].pgn in catalog
        && |tasks[i].data| == catalog[tasks[i].pgn].dataLength
    }

    constructor(catalog: Catalog)
      ensures Valid()
      ensures this.catalog == catalog && !bus && pendingTx == map[] && tasks == []
      ensures sent == [] && printed == []
    {
      this.catalog := catalog;
      bus := false;
      pendingTx := map[];
      tasks := [];
      sent := [];
      printed := [];
    }

    /** `add_pending_tx`: 'all PGNs' rebinds the global to a dict with every flag set. */
    method AddPendingTx(sel: PgnSelector)
      requires Valid()
      modifies this
      ensures Valid()
      ensures pendingTx == PendingAfter(old(pendingTx), sel)
      ensures bus == old(bus) && tasks == old(tasks) && sent == old(sent) && printed == old(printed)
    {
      pendingTx := PendingAfter(pendingTx, sel);
    }

    method StartPgnTx(pgn: nat, priority: nat, sourceAddress: nat, txRateMs: Option<nat>, spns: seq<nat>)
      returns (r: Result<()>)
      requires Valid() && IdFieldsInRange(priority, pgn, sourceAddress)
      modifies this
      ensures Valid()
      ensures txRateMs.None? ==> r == Raises(TypeError) && pendingTx == old(pendingTx) && tasks == old(tasks)
      ensures txRateMs.Some? ==> pendingTx == old(pendingTx)[pgn := false]
      ensures txRateMs.Some? && pgn in catalog ==> (
        && r == Ok(())
        && tasks == old(tasks) + [TxTask(pgn, CanId(priority, pgn, sourceAddress), txRateMs.value, spns, Zeros(catalog[pgn].dataLength), false)])
      ensures txRateMs.Some? && pgn !in catalog ==> r == Raises(KeyError) && tasks == old(tasks)
      ensures bus == old(bus) && sent == old(sent) && printed == old(printed)
    {
      var canId := CanId(priority, pgn, sourceAddress);
      if txRateMs.None? {
        return Raises(TypeError);
      }
      pendingTx := pendingTx[pgn := false];
      if pgn !in catalog {
        return Raises(KeyError);
      }
      tasks := tasks + [TxTask(pgn, canId, txRateMs.value, spns, Zeros(catalog[pgn].dataLength), false)];
      r := Ok(());
    }

    /**
     * One iteration of task `i`'s loop: decide, pack, then send when a bus
     * is set and print otherwise. Nothing catches an exception raised here,
     * so a `Failed` iteration ends the task: it is marked `ended` and never
     * iterates again.
     */
    method TxPgn(i: nat, mode: string, continuous: bool, values: map<string, int>, sendFails: bool)
      returns (result: TxResult)
      requires Valid() && i < |tasks| && !tasks[i].ended
      requires Packable(catalog[tasks[i].pgn], tasks[i].spns, values, RawValueSuffix, |tasks[i].data|)
      modifies this
      ensures Valid()
      ensures bus == old(bus)
      ensures |tasks| == old(|tasks|) && (tasks[i].ended <==> result.Failed?)
      ensures var t := old(tasks[i]);
        var a := Arbitrate(mode, continuous, old(pendingTx[t.pgn]));
        var packed := PackAll(t.data, catalog[t.pgn], t.spns, values, RawValueSuffix);
        && (a == Skip ==>
              && result == Skipped && pendingTx == old(pendingTx) && tasks == old(tasks)
              && sent == old(sent) && printed == old(printed))
        && (a == ArbitrationError ==>
              && result == Failed(ValueError) && pendingTx == old(pendingTx)
              && tasks == old(tasks)[i := t.(ended := true)]
              && sent == old(sent) && printed == old(printed))
        && (a == Send || a == SendAndClear ==>
              && pendingTx == (if a == SendAndClear then old(pendingTx)[t.pgn := false] else old(pendingTx))
              && (!bus ==>
                    && result == Printed && sent == old(sent) && printed == old(printed) + [Frame(t.canId, true, packed)]
                    && tasks == old(tasks)[i := t.(data := packed)])
              && (bus && sendFails ==>
                    && result == Failed(CanOperationError) && sent == old(sent) && printed == old(printed)
                    && tasks == old(tasks)[i := t.(data := packed, ended := true)])
              && (bus && !sendFails ==>
                    && result == Transmitted && sent == old(sent) + [Frame(t.canId, true, packed)] && printed == old(printed)
                    && tasks == old(tasks)[i := t.(data := packed)]))
    {
      var t := tasks[i];
      var a := Arbitrate(mode, continuous, pendingTx[t.pgn]);
      match a {
        case Send =>
        case SendAndClear =>
          pendingTx := pendingTx[t.pgn := false];
        case Skip =>
          return Skipped;
        case ArbitrationError =>
          tasks := tasks[i := t.(ended := true)];
          return Failed(ValueError);
      }
      var data := PackSpns(t.data, catalog[t.pgn], t.spns, values, RawValueSuffix);
      if bus && sendFails {
        tasks := tasks[i := t.(data := data, ended := true)];
        return Failed(CanOperationError);
      }
      tasks := tasks[i := t.(data := data)];
      if bus {
        sent := sent + [Frame(t.canId, true, data)];
        result := Transmitted;
      } else {
        printed := printed + [Frame(t.canId, true, data)];
        result := Printed;
      }
    }
  }
}
