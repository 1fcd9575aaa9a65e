/**
 * `Transmitter` of `cannodes.py`: the same state and loop as the bus
 * handler of `caninterface.py`, but the bus is handed in and may be `None`,
 * in which case sending raises `AttributeError`. Values are read by tag
 * `str(spn)`; a failing send is not caught and ends the transmit thread.
 */
module CanNodes {
  import opened Wrappers
  import opened Catalog
  import opened J1939Id
  import opened FramePacking
  import opened LegacyTx

  class Transmitter {
    const catalog: Catalog
    /** Whether the bus handed to the constructor is not `None`. */
    const bus: bool
    var pendingTx: map<nat, bool>
    /** The started tasks, in start order. */
    var tasks: seq<TxTask>
    ghost var sent: seq<Frame>

    /** Every task's PGN has a pending flag and a catalog record matching its payload length. */
    ghost predicate Valid()
      reads this
    {
      forall i :: 0 <= i < |tasks| ==>
        tasks[i].pgn in pendingTx && tasks[i].pgn in catalog
        && |tasks[i].data| == catalog[tasks[i].pgn].dataLength
    }

    constructor(catalog: Catalog, bus: bool)
      ensures Valid()
      ensures this.catalog == catalog && this.bus == bus
      ensures pendingTx == map[] && tasks == [] && sent == []
    {
      this.catalog := catalog;
      this.bus := bus;
      pendingTx := map[];
      tasks := [];
      sent := [];
    }

    method AddPendingTx(sel: PgnSelector)
      requires Valid()
      modifies this
      ensures Valid()
      ensures pendingTx == PendingAfter(old(pendingTx), sel)
      ensures tasks == old(tasks) && sent == old(sent)
    {
      pendingTx := PendingAfter(pendingTx, sel);
    }

    /**
     * Clears the PGN's pending flag, then starts a task with a zero payload
     * of the PGN's data length; `KeyError` (flag already cleared) when the
     * PGN is not in the catalog. A missing rate (`None` in the source)
     * raises `TypeError` before anything changes.
     */
    method RegisterTxPgn(pgn: nat, priority: nat, sourceAddress: nat, txRateMs: Option<nat>, spns: seq<nat>)
      returns (r: Result<()>)
      requires Valid() && IdFieldsInRange(priority, pgn, sourceAddress)
      modifies this
      ensures Valid()
      ensures txRateMs.None? ==> r == Raises(TypeError) && pendingTx == old(pendingTx) && tasks == old(tasks)
      ensures txRateMs.Some? ==> pendingTx == old(pendingTx)[pgn := false]
      ensures txRateMs.Some? && pgn in catalog ==> (
        && r == Ok(())
        && tasks == old(tasks) + [TxTask(pgn, CanId(priority, pgn, sourceAddress), txRateMs.value, spns, Zeros(catalog[pgn].dataLength), false)])
      ensures txRateMs.Some? && pgn !in catalog ==> r == Raises(KeyError) && tasks == old(tasks)
      ensures sent == old(sent)
    {
      var canId := CanId(priority, pgn, sourceAddress);
      if txRateMs.None? {
        return Raises(TypeError);
      }
      pendingTx := pendingTx[pgn := false];
      if pgn !in catalog {
        return Raises(KeyError);
      }
      tasks := tasks + [TxTask(pgn, canId, txRateMs.value, spns, Zeros(catalog[pgn].dataLength), false)];
      r := Ok(());
    }

    /**
     * One iteration of task `i`'s loop, after its sleep: decide, pack the
     * listed SPNs into its payload, send. `mode` and `continuous`
     * are the GUI values read by the loop, `values` the SPN values by tag,
     * and `sendFails` stands for the bus raising `CanOperationError`; with no
     * bus the send raises `AttributeError`. Nothing catches an exception
     * raised here, so a `Failed` iteration ends the task: it is marked
     * `ended` and never iterates again.
     */
    method TxPgn(i: nat, mode: string, continuous: bool, values: map<string, int>, sendFails: bool)
      returns (result: TxResult)
      requires Valid() && i < |tasks| && !tasks[i].ended
      requires Packable(catalog[tasks[i].pgn], tasks[i].spns, values, "", |tasks[i].data|)
      modifies this
      ensures Valid()
      ensures |tasks| == old(|tasks|) && (tasks[i].ended <==> result.Failed?)
      ensures var t := old(tasks[i]);
        var a := Arbitrate(mode, continuous, old(pendingTx[t.pgn]));
        var packed := PackAll(t.data, catalog[t.pgn], t.spns, values, "");
        && (a == Skip ==> result == Skipped && pendingTx == old(pendingTx) && tasks == old(tasks) && sent == old(sent))
        && (a == ArbitrationError ==>
              && result == Failed(ValueError) && pendingTx == old(pendingTx)
              && tasks == old(tasks)[i := t.(ended := true)] && sent == old(sent))
        && (a == Send || a == SendAndClear ==>
              && pendingTx == (if a == SendAndClear then old(pendingTx)[t.pgn := false] else old(pendingTx))
              && (!bus ==>
                    && result == Failed(AttributeError) && sent == old(sent)
                    && tasks == old(tasks)[i := t.(data := packed, ended := true)])
              && (bus && sendFails ==>
                    && result == Failed(CanOperationError) && sent == old(sent)
                    && tasks == old(tasks)[i := t.(data := packed, ended := true)])
              && (bus && !sendFails ==>
                    && result == Transmitted && sent == old(sent) + [Frame(t.canId, true, packed)]
                    && tasks == old(tasks)[i := t.(data := packed)]))
    {
      var t := tasks[i];
      var a := Arbitrate(mode, continuous, pendingTx[t.pgn]);
      match a {
        case Send =>
        case SendAndClear =>
          pendingTx := pendingTx[t.pgn := false];
        case Skip =>
          return Skipped;
        case ArbitrationError =>
          tasks := tasks[i := t.(ended := true)];
          return Failed(ValueError);
      }
      var data := PackSpns(t.data, catalog[t.pgn], t.spns, values, "");
      if !bus || sendFails {
        tasks := tasks[i := t.(data := data, ended := true)];
        return if bus then Failed(CanOperationError) else Failed(AttributeError);
      }
      tasks := tasks[i := t.(data := data)];
      sent := sent + [Frame(t.canId, true, data)];
      result := Transmitted;
    }
  }
}
