/**
 * The periodic transmitter of `transmitter.py`: a global transmit mode and,
 * per registered parameter group, an entry keyed by its CAN identifier with
 * a local mode, a period and the payload buffer. One iteration of the
 * per-entry send loop is the method `Tick`; the sleep before it, the thread
 * running it and the bus driver are outside the model.
 */
module TxScheduler {
  import opened Wrappers
  import opened Catalog
  import opened J1939Id
  import opened FramePacking

  /** The four mode constants; the global mode uses the first three, an entry all but `PerPgn`. */
  datatype TxMode = Stop | TxCont | PerPgn | TxOnce

  /** A key of the entry table: `(can_id, is_extended)`. */
  datatype CanKey = CanKey(canId: nat, isExtended: bool)

  /** One entry: local mode, period in milliseconds, payload. */
  datatype TxEntry = TxEntry(mode: TxMode, rateMs: nat, data: seq<bv8>)

  /** What one loop iteration decides for an entry. */
  datatype Decision = Transmit | TransmitAndDisarm | Hold

  /**
   * The decision of one iteration: a continuous global or local mode sends;
   * an armed one-shot entry under global STOP or PER_PGN sends and is
   * disarmed; anything else waits for the next period.
   */
  function Decide(global: TxMode, local: TxMode): (d: Decision)
    ensures d == TransmitAndDisarm ==> local == TxOnce && global != TxCont
  {
    if global == TxCont || local == TxCont then Transmit
    else if (global == Stop || global == PerPgn) && local == TxOnce then TransmitAndDisarm
    else Hold
  }

  /** The local mode after an iteration. */
  function NextMode(global: TxMode, local: TxMode): (m: TxMode)
  {
    if Decide(global, local) == TransmitAndDisarm then Stop else local
  }

  /**
   * The number of frames an entry sends over `n` iterations with no other
   * mode change in between, and its local mode afterwards.
   */
  function Run(global: TxMode, local: TxMode, n: nat): (r: (nat, TxMode))
    ensures r.0 <= n
    decreases n
  {
    if n == 0 then (0, local)
    else
      var rest := Run(global, NextMode(global, local), n - 1);
      ((if Decide(global, local) == Hold then 0 else 1) + rest.0, rest.1)
  }

  /** An iteration sends exactly in the cases the mode table lists. */
  lemma DecideSendsIff(global: TxMode, local: TxMode)
    ensures Decide(global, local) != Hold
        <==> global == TxCont || local == TxCont || (global in {Stop, PerPgn} && local == TxOnce)
  {
  }

  /** A one-shot entry under global STOP or PER_PGN sends exactly once and ends stopped. */
  lemma {:induction false} TxOnceSendsOnce(global: TxMode, n: nat)
    requires global == Stop || global == PerPgn
    requires n >= 1
    ensures Run(global, TxOnce, n) == (1, Stop)
  {
    StoppedStaysSilent(global, n - 1);
  }

  /** A stopped entry under global STOP or PER_PGN never sends. */
  lemma {:induction false} StoppedStaysSilent(global: TxMode, n: nat)
    requires global == Stop || global == PerPgn
    ensures Run(global, Stop, n) == (0, Stop)
  {
    if n > 0 {
      StoppedStaysSilent(global, n - 1);
    }
  }

  /** Under global TX_CONT every iteration sends and a one-shot entry stays armed. */
  lemma {:induction false} GlobalContinuousSendsEveryTick(local: TxMode, n: nat)
    ensures Run(TxCont, local, n) == (n, local)
  {
    if n > 0 {
      GlobalContinuousSendsEveryTick(local, n - 1);
    }
  }

  /** A continuous entry sends on every iteration whatever the global mode. */
  lemma {:induction false} LocalContinuousSendsEveryTick(global: TxMode, n: nat)
    ensures Run(global, TxCont, n) == (n, TxCont)
  {
    if n > 0 {
      LocalContinuousSendsEveryTick(global, n - 1);
    }
  }

  /** The PGN field of a key's identifier. */
  function PgnOf(key: CanKey): nat {
    key.canId / 0x100 % 0x4_0000
  }

  /** What happened in one iteration. */
  datatype TickOutcome = Held | Sent | NoBus | SendFailed

  class Transmitter {
    /** The protocol catalog, read only. */
    const catalog: Catalog
    /** Whether a bus is attached (`bus is not None`). */
    var bus: bool
    var globalTxMode: TxMode
    var txCanIds: map<CanKey, TxEntry>
    /** PGN to the key of its entry. */
    var j1939CanIds: map<nat, CanKey>
    /** The frames handed to the bus, oldest first. */
    ghost var sent: seq<Frame>

    /**
     * Every PGN's key carries that PGN in its identifier, and every entry's
     * payload has the data length of the PGN its identifier carries.
     */
    ghost predicate Valid()
      reads this
    {
      && (forall pgn :: pgn in j1939CanIds ==> PgnOf(j1939CanIds[pgn]) == pgn)
      && (forall k :: k in txCanIds ==>
            PgnOf(k) in catalog && |txCanIds[k].data| == catalog[PgnOf(k)].dataLength)
    }

    constructor(catalog: Catalog)
      ensures Valid()
      ensures this.catalog == catalog && !bus && globalTxMode == Stop
      ensures txCanIds == map[] && j1939CanIds == map[] && sent == []
    {
      this.catalog := catalog;
      bus := false;
      globalTxMode := Stop;
      txCanIds := map[];
      j1939CanIds := map[];
      sent := [];
    }

    /**
     * Registers a PGN: records its key, then creates its entry, stopped and
     * with a zero payload of the PGN's data length. A missing rate (`None`
     * in the source) raises `TypeError` and a PGN missing from the catalog
     * raises `KeyError`, both after the key has been recorded.
     */
    method RegisterTxPgn(pgn: nat, priority: nat, sourceAddress: nat, txRateMs: Option<nat>) returns (r: Result<()>)
      requires Valid() && IdFieldsInRange(priority, pgn, sourceAddress)
      modifies this
      ensures Valid()
      ensures var key := CanKey(CanId(priority, pgn, sourceAddress), true);
        && j1939CanIds == old(j1939CanIds)[pgn := key]
        && (txRateMs.None? ==> r == Raises(TypeError) && txCanIds == old(txCanIds))
        && (txRateMs.Some? && pgn in catalog ==>
              r == Ok(()) && txCanIds == old(txCanIds)[key := TxEntry(Stop, txRateMs.value, Zeros(catalog[pgn].dataLength))])
        && (txRateMs.Some? && pgn !in catalog ==> r == Raises(KeyError) && txCanIds == old(txCanIds))
      ensures globalTxMode == old(globalTxMode) && bus == old(bus) && sent == old(sent)
    {
      var canId := CanId(priority, pgn, sourceAddress);
      var key := CanKey(canId, true);
      j1939CanIds := j1939CanIds[pgn := key];
      if txRateMs.None? {
        return Raises(TypeError);
      }
      if pgn !in catalog {
        return Raises(KeyError);
      }
      txCanIds := txCanIds[key := TxEntry(Stop, txRateMs.value, Zeros(catalog[pgn].dataLength))];
      r := Ok(());
    }

    /**
     * One iteration of the send loop of the entry under `key`, after its
     * sleep. `sendFails` stands for the bus raising `CanOperationError`,
     * which is swallowed.
     */
    method Tick(key: CanKey, sendFails: bool) returns (outcome: TickOutcome)
      requires Valid() && key in txCanIds
      modifies this
      ensures Valid()
      ensures var d := Decide(old(globalTxMode), old(txCanIds[key].mode));
        && (outcome == Held <==> d == Hold)
        && txCanIds == old(txCanIds)[key := old(txCanIds[key]).(mode := NextMode(old(globalTxMode), old(txCanIds[key].mode)))]
        && (outcome == NoBus <==> d != Hold && !bus)
        && (outcome == Sent <==> d != Hold && bus && !sendFails)
        && sent == (if outcome == Sent then old(sent) + [Frame(key.canId, key.isExtended, old(txCanIds[key].data))] else old(sent))
      ensures globalTxMode == old(globalTxMode) && j1939CanIds == old(j1939CanIds) && bus == old(bus)
    {
      var spec := txCanIds[key];
      if globalTxMode == TxCont || spec.mode == TxCont {
      } else if (globalTxMode == Stop || globalTxMode == PerPgn) && spec.mode == TxOnce {
        txCanIds := txCanIds[key := spec.(mode := Stop)];
      } else {
        return Held;
      }
      if !bus {
        return NoBus;
      }
      if sendFails {
        return SendFailed;
      }
      sent := sent + [Frame(key.canId, key.isExtended, spec.data)];
      outcome := Sent;
    }

    /** Sets the local mode of `pgn`'s entry; `KeyError` if it has none. */
    method SetEntryMode(pgn: nat, mode: TxMode) returns (r: Result<()>)
      requires Valid()
      modifies this
      ensures Valid()
      ensures pgn in j1939CanIds && j1939CanIds[pgn] in old(txCanIds) ==>
        r == Ok(()) && txCanIds == old(txCanIds)[j1939CanIds[pgn] := old(txCanIds)[j1939CanIds[pgn]].(mode := mode)]
      ensures !(pgn in j1939CanIds && j1939CanIds[pgn] in old(txCanIds)) ==>
        r == Raises(KeyError) && txCanIds == old(txCanIds)
      ensures globalTxMode == old(globalTxMode) && j1939CanIds == old(j1939CanIds)
      ensures bus == old(bus) && sent == old(sent)
    {
      if pgn !in j1939CanIds || j1939CanIds[pgn] !in txCanIds {
        return Raises(KeyError);
      }
      var key := j1939CanIds[pgn];
      txCanIds := txCanIds[key := txCanIds[key].(mode := mode)];
      r := Ok(());
    }

    /** `set_tx_mode_stop`: the global mode with no PGN, else that PGN's entry. */
    method SetTxModeStop(pgn: Option<nat>) returns (r: Result<()>)
      requires Valid()
      modifies this
      ensures Valid()
      ensures pgn.None? ==> r == Ok(()) && globalTxMode == Stop && txCanIds == old(txCanIds)
      ensures pgn.Some? ==> (
        && globalTxMode == old(globalTxMode)
        && (r.Ok? <==> pgn.value in j1939CanIds && j1939CanIds[pgn.value] in old(txCanIds))
        && txCanIds == (if r.Ok? then old(txCanIds)[j1939CanIds[pgn.value] := old(txCanIds)[j1939CanIds[pgn.value]].(mode := Stop)] else old(txCanIds)))
      ensures j1939CanIds == old(j1939CanIds) && bus == old(bus) && sent == old(sent)
    {
      if pgn.None? {
        globalTxMode := Stop;
        r := Ok(());
      } else {
        r := SetEntryMode(pgn.value, Stop);
      }
    }

    /** `set_tx_mode_continuous`: the global mode with no PGN, else that PGN's entry. */
    method SetTxModeContinuous(pgn: Option<nat>) returns (r: Result<()>)
      requires Valid()
      modifies this
      ensures Valid()
      ensures pgn.None? ==> r == Ok(()) && globalTxMode == TxCont && txCanIds == old(txCanIds)
      ensures pgn.Some? ==> (
        && globalTxMode == old(globalTxMode)
        && (r.Ok? <==> pgn.value in j1939CanIds && j1939CanIds[pgn.value] in old(txCanIds))
        && txCanIds == (if r.Ok? then old(txCanIds)[j1939CanIds[pgn.value] := old(txCanIds)[j1939CanIds[pgn.value]].(mode := TxCont)] else old(txCanIds)))
      ensures j1939CanIds == old(j1939CanIds) && bus == old(bus) && sent == old(sent)
    {
      if pgn.None? {
        globalTxMode := TxCont;
        r := Ok(());
      } else {
        r := SetEntryMode(pgn.value, TxCont);
      }
    }

    /** `set_tx_mode_per_PGN`: only the global mode changes. */
    method SetTxModePerPgn()
      requires Valid()
      modifies this
      ensures Valid()
      ensures globalTxMode == PerPgn && txCanIds == old(txCanIds)
      ensures j1939CanIds == old(j1939CanIds) && bus == old(bus) && sent == old(sent)
    {
      globalTxMode := PerPgn;
    }

    /**
     * `set_tx_once`: with no PGN every entry is armed, else only that PGN's
     * entry. Rates and payloads do not change.
     */
    method SetTxOnce(pgn: Option<nat>) returns (r: Result<()>)
      requires Valid()
      modifies this
      ensures Valid()
      ensures pgn.None? ==> (
        && r == Ok(())
        && txCanIds == map k | k in old(txCanIds) :: old(txCanIds)[k].(mode := TxOnce))
      ensures pgn.Some? ==> (
        && (r.Ok? <==> pgn.value in j1939CanIds && j1939CanIds[pgn.value] in old(txCanIds))
        && txCanIds == (if r.Ok? then old(txCanIds)[j1939CanIds[pgn.value] := old(txCanIds)[j1939CanIds[pgn.value]].(mode := TxOnce)] else old(txCanIds)))
      ensures globalTxMode == old(globalTxMode) && j1939CanIds == old(j1939CanIds)
      ensures bus == old(bus) && sent == old(sent)
    {
      if pgn.Some? {
        r := SetEntryMode(pgn.value, TxOnce);
        return;
      }
      var todo := txCanIds.Keys;
      while todo != {}
        invariant todo <= old(txCanIds).Keys && txCanIds.Keys == old(txCanIds).Keys
        invariant forall k :: k in txCanIds ==>
          txCanIds[k] == if k in todo then old(txCanIds)[k] else old(txCanIds)[k].(mode := TxOnce)
        invariant globalTxMode == old(globalTxMode) && j1939CanIds == old(j1939CanIds)
        invariant bus == old(bus) && sent == old(sent)
        invariant Valid()
        decreases todo
      {
        var k :| k in todo;
        txCanIds := txCanIds[k := txCanIds[k].(mode := TxOnce)];
        todo := todo - {k};
      }
      r := Ok(());
    }

    /** `modify_pgn_tx_rate`: only the period of that PGN's entry changes. */
    method ModifyPgnTxRate(pgn: nat, txRateMs: nat) returns (r: Result<()>)
      requires Valid()
      modifies this
      ensures Valid()
      ensures (r.Ok? <==> pgn in j1939CanIds && j1939CanIds[pgn] in old(txCanIds))
      ensures txCanIds == (if r.Ok? then old(txCanIds)[j1939CanIds[pgn] := old(txCanIds)[j1939CanIds[pgn]].(rateMs := txRateMs)] else old(txCanIds))
      ensures r.Raises? ==> r.error == KeyError
      ensures globalTxMode == old(globalTxMode) && j1939CanIds == old(j1939CanIds)
      ensures bus == old(bus) && sent == old(sent)
    {
      if pgn !in j1939CanIds || j1939CanIds[pgn] !in txCanIds {
        return Raises(KeyError);
      }
      var key := j1939CanIds[pgn];
      txCanIds := txCanIds[key := txCanIds[key].(rateMs := txRateMs)];
      r := Ok(());
    }

    /**
     * `modify_pgn_data`: writes `rawValue` into the payload of `pgn`'s entry at
     * the SPN's position. `KeyError` when the PGN has no entry or the SPN is
     * not one of the PGN's; `TypeError` when the record lacks a position
     * field the write reads. The catalog must place the SPN inside the
     * payload and, for whole-byte lengths, the value must fit in its bytes.
     */
    method ModifyPgnData(pgn: nat, spn: nat, rawValue: int) returns (r: Result<()>)
      requires Valid()
      requires pgn in catalog && spn in catalog[pgn].spns && Positioned(catalog[pgn].spns[spn]) ==>
        Fits(LayoutOf(catalog[pgn].spns[spn]), catalog[pgn].dataLength)
        && RawFits(LayoutOf(catalog[pgn].spns[spn]), rawValue)
      modifies this
      ensures Valid()
      ensures r.Ok? <==> pgn in j1939CanIds && j1939CanIds[pgn] in old(txCanIds)
                         && pgn in catalog && spn in catalog[pgn].spns && Positioned(catalog[pgn].spns[spn])
      ensures r.Raises? ==> txCanIds == old(txCanIds)
      ensures r.Raises? ==>
        r.error == if pgn in j1939CanIds && j1939CanIds[pgn] in old(txCanIds) && pgn in catalog && spn in catalog[pgn].spns
                   then TypeError else KeyError
      ensures r.Ok? ==>
        var key := j1939CanIds[pgn];
        var l := LayoutOf(catalog[pgn].spns[spn]);
        Fits(l, |old(txCanIds)[key].data|)
        && txCanIds == old(txCanIds)[key := old(txCanIds)[key].(data := WriteSpn(old(txCanIds)[key].data, l, rawValue))]
      ensures globalTxMode == old(globalTxMode) && j1939CanIds == old(j1939CanIds)
      ensures bus == old(bus) && sent == old(sent)
    {
      if pgn !in j1939CanIds || j1939CanIds[pgn] !in txCanIds {
        return Raises(KeyError);
      }
      var key := j1939CanIds[pgn];
      if spn !in catalog[pgn].spns {
        return Raises(KeyError);
      }
      if !Positioned(catalog[pgn].spns[spn]) {
        return Raises(TypeError);
      }
      var data := txCanIds[key].data;
      var data' := PackSpn(data, LayoutOf(catalog[pgn].spns[spn]), rawValue);
      txCanIds := txCanIds[key := txCanIds[key].(data := data')];
      r := Ok(());
    }
  }

  /**
   * Registering EEC1 (PGN 61444, priority 3, source address 0) gives the
   * key 0x0CF00400; armed once under global STOP with a bus attached, the
   * entry sends one zero frame and then holds.
   */
  method OneShotScenario(catalog: Catalog) returns (first: TickOutcome, second: TickOutcome, key: CanKey)
    requires 61444 in catalog && catalog[61444].dataLength == 8
    ensures key == CanKey(0x0CF0_0400, true)
    ensures first == Sent && second == Held
  {
    var t := new Transmitter(catalog);
    var r := t.RegisterTxPgn(61444, 3, 0, Some(100));
    CanIdEec1();
    key := CanKey(0x0CF0_0400, true);
    t.bus := true;
    r := t.SetTxOnce(Some(61444));
    first := t.Tick(key, false);
    assert t.sent == [Frame(0x0CF0_0400, true, Zeros(8))];
    second := t.Tick(key, false);
  }
}
