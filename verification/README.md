# akrocansim J1939 core in Dafny

akrocansim is a CAN bus simulator for SAE J1939 electronic control units.
A user picks parameter groups (PGNs) and their signals (SPNs) from a catalog
built from the J1939 Digital Annex, sets signal values, and the simulator
transmits the frames periodically or on demand. It can also export the
chosen messages as a DBC file.

This project models the frame-building core of that system and proves
properties of the model:

- `TxScheduler` (`transmitter.dfy`): the periodic transmitter.
  - It holds a global transmit mode and one entry per registered PGN. An
    entry is keyed by its 29-bit identifier and holds a local mode, a period
    and a payload buffer.
  - `Transmitter.Tick` is one iteration of an entry's send loop. Frames
    handed to the bus are recorded in a `sent` log.
- `J1939Id` (`canid.dfy`): the 29-bit identifier of section 5.2 of SAE
  J1939-21. The priority is in bits 26 to 28, the PGN in bits 8 to 25 and
  the source address in bits 0 to 7.
- `FramePacking` (`framepacking.dfy`): writing one SPN value into a payload.
  - Sub-byte fields are written under a bit mask.
  - 8-, 16- and 32-bit fields are written as whole bytes, least significant
    first.
  - `ReadSpn` reads a field back and is the partner of every write.
- The three older transmit loops, kept apart as the code has them:
  - `LegacyTx` (`legacytx.dfy`) holds what they share word for word: the
    pending-flag update, the `(mode, continuous, pending)` decision table and
    the SPN packing loop.
  - `CanInterface.BusHandler` (`caninterface.dfy`), `CanNodes.Transmitter`
    (`cannodes.dfy`) and `CanBusTransmitter.Globals`
    (`canbustransmitter.dfy`) model their own state and their own send or
    print step.
- `SignalCodec` (`codec.dfy`): conversion between raw and engineering values
  with Python's round-half-to-even, label lookup and label search, raw
  bounds and the absolute start bit. The four copies of the codec in the
  repository share this one model.
- `Catalog` (`catalog.dfy`): the read-only protocol catalog and its
  insertion-ordered value tables.
- `Normalisers`, `TransmissionRates` and `Text` (`normalisers.dfy`,
  `rates.dfy`, `text.dfy`): the catalog builder's parsers for SPN position,
  length, units, transmission rate and discrete-value labels, over the
  Python `str` operations and `int()` they use.
- `Dbc` (`dbc.dfy`): the DBC export.
  - It computes frame ids and sanitised, truncated message and signal names.
  - It builds the `SG_` signal lines, start values and value tables.
  - It collects the five sections PGN by PGN and SPN by SPN, then joins them
    with the two fixed headers.
- `Wrappers` and `Bytes` (`wrappers.dfy`, `bytes.dfy`) hold `Option`, the
  `Result` type for Python exceptions, and a byte conversion fact.

A Python exception is modelled as a `Raises(e)` result. The result names the
exception class the source raises at that point.

## Model

| member | source | states |
|---|---|---|
| J1939Id.CanId | src/akrocansim/transmitter.py:31 | The identifier is below 2^29, and dividing it back yields the priority, the PGN and the source address. |
| J1939Id.CanIdInjective | src/akrocansim/transmitter.py:31 | Different (priority, PGN, source address) triples give different identifiers. |
| J1939Id.CanIdEec1 | src/akrocansim/transmitter.py:31 | Priority 3, PGN 61444 and source address 0 give 0x0CF00400. |
| TxScheduler.Decide | src/akrocansim/transmitter.py:46-52 | An entry is disarmed only when it is a one-shot entry and the global mode is not TX_CONT. |
| TxScheduler.DecideSendsIff | src/akrocansim/transmitter.py:46-52 | An iteration sends if and only if the global mode is TX_CONT, or the entry is TX_CONT, or the global mode is STOP or PER_PGN and the entry is TX_ONCE. |
| TxScheduler.Run | src/akrocansim/transmitter.py:44-52 | Over n iterations an entry sends at most n frames. |
| TxScheduler.TxOnceSendsOnce | src/akrocansim/transmitter.py:48-50 | Under global STOP or PER_PGN, a one-shot entry sends exactly once and ends stopped. |
| TxScheduler.StoppedStaysSilent | src/akrocansim/transmitter.py:46-52 | Under global STOP or PER_PGN, a stopped entry never sends. |
| TxScheduler.GlobalContinuousSendsEveryTick | src/akrocansim/transmitter.py:46-47 | Under global TX_CONT every iteration sends, and a one-shot entry stays TX_ONCE. |
| TxScheduler.LocalContinuousSendsEveryTick | src/akrocansim/transmitter.py:46-47 | A TX_CONT entry sends on every iteration, whatever the global mode. |
| TxScheduler.Transmitter.constructor | src/akrocansim/transmitter.py:16-28 | The global mode starts as STOP, and there is no bus, no entry and no PGN key. |
| TxScheduler.Transmitter.RegisterTxPgn | src/akrocansim/transmitter.py:30-38 | Records the PGN's key `(CanId(...), true)`, then creates a stopped entry with the given period and a zero payload of the PGN's data length. A missing period raises TypeError and a PGN missing from the catalog raises KeyError, both after the key is recorded and with the entries unchanged. |
| TxScheduler.Transmitter.Tick | src/akrocansim/transmitter.py:41-59 | Sends exactly when `Decide` does and a bus is attached. A send failure is swallowed. Only the entry's mode changes (a disarmed one-shot becomes STOP). The sent log grows by the entry's frame only on a successful send. |
| TxScheduler.Transmitter.SetEntryMode | src/akrocansim/transmitter.py:65 | Sets only that PGN's entry mode, or raises KeyError and changes nothing. |
| TxScheduler.Transmitter.SetTxModeStop | src/akrocansim/transmitter.py:61-65 | Without a PGN, only the global mode becomes STOP. With a PGN, only that entry becomes STOP, or KeyError is raised and nothing changes. |
| TxScheduler.Transmitter.SetTxModeContinuous | src/akrocansim/transmitter.py:67-71 | The same as SetTxModeStop, with TX_CONT. |
| TxScheduler.Transmitter.SetTxModePerPgn | src/akrocansim/transmitter.py:73-74 | Only the global mode changes, to PER_PGN. |
| TxScheduler.Transmitter.SetTxOnce | src/akrocansim/transmitter.py:76-81 | Without a PGN, every entry is armed TX_ONCE. With a PGN, only that entry is armed, or KeyError is raised. Rates and payloads are unchanged. |
| TxScheduler.Transmitter.ModifyPgnTxRate | src/akrocansim/transmitter.py:83-85 | Only that entry's period changes, or KeyError is raised and nothing changes. |
| TxScheduler.Transmitter.ModifyPgnData | src/akrocansim/transmitter.py:87-111 | Succeeds exactly when the PGN has an entry, the SPN is one of its SPNs and the record has the position fields the write reads; the payload then becomes `WriteSpn` of the old payload, and nothing else changes. Otherwise it raises KeyError for a missing key, or TypeError for a missing start byte or start bit, and changes nothing. |
| TxScheduler.OneShotScenario | src/akrocansim/transmitter.py:30-59 | Registering EEC1 and arming it once under global STOP with a bus sends one frame, keyed 0x0CF00400, then holds. |
| FramePacking.BuildMask | src/akrocansim/transmitter.py:96-98 | The mask-building loop yields `Mask(start, len)`. |
| FramePacking.MaskBit | src/akrocansim/transmitter.py:96-98 | Bit k of the mask is set exactly when start <= k < start + len. |
| FramePacking.Zeros | src/akrocansim/transmitter.py:37 | The initial payload has n bytes, all zero. |
| FramePacking.WriteSpn | src/akrocansim/transmitter.py:92-109 | The payload keeps its length, and every byte the layout does not touch is unchanged. Unlisted lengths touch no byte. |
| FramePacking.PackSpn | src/akrocansim/transmitter.py:92-109 | The step-by-step byte writes equal `WriteSpn`. |
| FramePacking.SubByteWriteByte | src/akrocansim/transmitter.py:99 | The written byte has the old bits outside the mask and the shifted value bits inside it. |
| FramePacking.SubByteKeepsOtherBits | src/akrocansim/transmitter.py:99 | A sub-byte write keeps every bit of its byte outside the mask. |
| FramePacking.ReadAfterSubByteWrite | src/akrocansim/transmitter.py:93-99 | The field bits of a sub-byte write, shifted down, read as raw mod 2^len. |
| FramePacking.ReadAfterWholeByteWrite | src/akrocansim/transmitter.py:100-109 | An 8-, 16- or 32-bit write, read back least significant byte first, gives the raw value. |
| FramePacking.ReadAfterWrite | src/akrocansim/transmitter.py:92-109 | Every supported write reads back as raw mod 2^len. |
| FramePacking.ReadSpnFrame | src/akrocansim/transmitter.py:92-109 | A field's value depends only on the bytes a write of it would touch. |
| FramePacking.SameByteWriteMasked | src/akrocansim/transmitter.py:99 | A sub-byte write leaves the bits of another field in the same byte unchanged. |
| FramePacking.WriteOtherField | src/akrocansim/transmitter.py:92-109 | Writing one field leaves every field it does not overlap reading as before. |
| LegacyTx.PendingAfter | src/akrocansim/caninterface.py:12-16 | 'all PGNs' sets every existing flag and adds no key. One PGN sets only its own flag, adding the key if new. |
| LegacyTx.Arbitrate | src/akrocansim/caninterface.py:30-41 | Clearing happens only when a request is pending, and a skip only when none is. |
| LegacyTx.ArbitrateSendSkipIff | src/akrocansim/caninterface.py:31-39 | It sends without clearing exactly for 'Tx All' and for 'Use PGN Settings' with the box checked. It skips exactly when nothing is pending and the mode is 'Stop All' or 'Use PGN Settings' with the box unchecked. |
| LegacyTx.ArbitrationErrorIff | src/akrocansim/caninterface.py:40-41 | The table raises ValueError exactly for an unknown mode with nothing pending. |
| LegacyTx.PendingAlwaysSends | src/akrocansim/caninterface.py:31-36 | A pending request always sends, whatever the mode. |
| LegacyTx.ClearsOnlyOneShot | src/akrocansim/caninterface.py:34-36 | The pending flag is cleared exactly when it was set and neither 'Tx All' nor a continuous 'Use PGN Settings' applies. |
| LegacyTx.StopAllOverridesContinuous | src/akrocansim/caninterface.py:37-39 | 'Stop All' skips every PGN with nothing pending, whether its continuous box is checked or not. |
| LegacyTx.PackAll | src/akrocansim/caninterface.py:43-64 | Packing the listed SPNs keeps the payload length. |
| LegacyTx.PackSpns | src/akrocansim/caninterface.py:43-64 | The packing loop equals `PackAll`, writing the SPNs in list order. |
| LegacyTx.PackAllUntouched | src/akrocansim/caninterface.py:43-64 | A byte that no listed SPN touches keeps its value. |
| LegacyTx.PackAllReadBack | src/akrocansim/caninterface.py:43-64 | A listed SPN that no later SPN overlaps reads back its tagged value mod 2^len. |
| CanInterface.BusHandler.constructor | src/akrocansim/caninterface.py:7-10 | The handler starts with no pending flag, no task and an empty sent log. |
| CanInterface.BusHandler.AddPendingTx | src/akrocansim/caninterface.py:12-16 | The flags become `PendingAfter` of the old flags. Tasks and the sent log are unchanged. |
| CanInterface.BusHandler.StartPgnTx | src/akrocansim/caninterface.py:18-24 | A missing period raises TypeError before anything changes. Otherwise clears the PGN's pending flag, then adds a task with `CanId(...)` and a zero payload of the data length. A PGN missing from the catalog raises KeyError with the flag already cleared. |
| CanInterface.BusHandler.TxPgn | src/akrocansim/caninterface.py:30-66 | Runs only on a task that has not ended. Skip changes nothing. The decision table's ValueError ends the task and changes nothing else. A send clears the flag exactly on SendAndClear and stores the packed payload. It then appends the frame to the sent log, or fails with CanOperationError and ends the task. The task is ended exactly when the iteration fails. |
| CanNodes.Transmitter.constructor | src/akrocansim/cannodes.py:7-10 | The transmitter keeps the given bus, and starts with no pending flag, no task and an empty sent log. |
| CanNodes.Transmitter.AddPendingTx | src/akrocansim/cannodes.py:12-16 | The flags become `PendingAfter` of the old flags. Tasks and the sent log are unchanged. |
| CanNodes.Transmitter.RegisterTxPgn | src/akrocansim/cannodes.py:18-24 | TypeError, with nothing changed, for a missing period. Otherwise clears the pending flag, then adds a task with `CanId(...)` and a zero payload; KeyError for an unknown PGN. |
| CanNodes.Transmitter.TxPgn | src/akrocansim/cannodes.py:30-66 | As BusHandler.TxPgn. With no bus, the send raises AttributeError, which also ends the task. |
| CanBusTransmitter.Globals.constructor | canbustransmitter.py:6-8 | The module starts with no bus, no pending flag, no task and empty sent and printed logs. |
| CanBusTransmitter.Globals.AddPendingTx | canbustransmitter.py:11-16 | The flags become `PendingAfter` of the old flags, and nothing else changes. |
| CanBusTransmitter.Globals.StartPgnTx | canbustransmitter.py:19-25 | TypeError, with nothing changed, for a missing period. Otherwise clears the pending flag, then adds a task with `CanId(...)` and a zero payload; KeyError for an unknown PGN. |
| CanBusTransmitter.Globals.TxPgn | canbustransmitter.py:31-70 | Values are read by the tag `<spn>_raw_value`. With a bus the frame is sent, or the send fails with CanOperationError and ends the task. With no bus the frame is appended to the printed log. The ValueError of the decision table ends the task. The task is ended exactly when the iteration fails. |
| SignalCodec.RoundHalfEven | src/akrocansim/J1939.py:652 | The result is within 1/2 of x, and a tie gives the even neighbour. |
| SignalCodec.RoundHalfEvenUnique | src/akrocansim/J1939.py:652 | Those two properties determine the result. |
| SignalCodec.Encode | src/akrocansim/signaltools.py:15-16 | The raw value is within 1/2 of `(decoded - offset) / scale`. |
| SignalCodec.EncodeDecode | src/akrocansim/signaltools.py:12-16 | `encode(decode(raw)) == raw` for every integer raw and non-zero scale. |
| SignalCodec.DecodeEncodeNearest | src/akrocansim/protocols/protocols.py:14-18 | With a positive scale, decoding an encoded value lands within half a scale step of it. |
| SignalCodec.DecodeEncodeVectors | tests/test_protocols.py:5-20 | The fourteen decode and encode assertions of the test suite hold. They are the same vectors as the root module's self-test. |
| SignalCodec.EncodeTiesToEven | J1939.py:6-7 | 0.5 encodes to 0, 1.5 to 2, 2.5 to 2, -0.5 to 0 and -1.5 to -2. |
| SignalCodec.RawMinValue | src/akrocansim/signaltools.py:4-6 | The raw minimum is `Encode` of the minimum, and it decodes to within half a step of it. |
| SignalCodec.RawMaxValue | src/akrocansim/signaltools.py:8-10 | The raw maximum is `Encode` of the maximum, and it decodes to within half a step of it. |
| SignalCodec.RawBoundsOrdered | src/akrocansim/J1939.py:640-646 | With a positive scale, the raw bounds keep the order of the engineering bounds. |
| SignalCodec.StartBit | src/akrocansim/signaltools.py:1-2 | Raises TypeError exactly when the start byte or the start bit is missing. Otherwise the index is start byte × 8 + start bit, which divides back into the two when the start bit is below 8. |
| SignalCodec.GetLabel | src/akrocansim/signaltools.py:18-22 | A key of the value table gives its stored label. A missing table or a missing key gives the empty label. |
| SignalCodec.FirstKeyWithLabel | src/akrocansim/signaltools.py:24-27 | Returns None exactly when no entry has the label; otherwise the key of the first such entry in insertion order. |
| SignalCodec.GetLabelValue | src/akrocansim/protocols/protocols.py:26-29 | Raises KeyError exactly when the SPN has no value table. Otherwise it returns None exactly when no entry carries the text. A value it returns is the key of the first entry, in insertion order, labelled with the text. |
| SignalCodec.GetLabelValueThenGetLabel | src/akrocansim/J1939.py:654-663 | A raw value found by the search is labelled with the searched text. |
| SignalCodec.GetLabelValueIsNotAnInverse | src/akrocansim/signaltools.py:24-27 | Two keys can share a label, so the search returns the first and is no inverse of `GetLabel`. |
| SignalCodec.CatalogGetLabel | J1939.py:9-13 | A missing PGN, SPN, table or value gives the empty label; otherwise `GetLabel` of the SPN. |
| SignalCodec.CatalogGetLabelValue | J1939.py:15-18 | A missing PGN, SPN or table raises KeyError. Otherwise the result is the first-match search `GetLabelValue` of that SPN. A value it finds is labelled with the text. |
| SignalCodec.ProtocolCatalog.constructor | src/akrocansim/protocols/protocols.py:5-8 | The object wraps the loaded catalog. |
| SignalCodec.ProtocolCatalog.GetItem | src/akrocansim/protocols/protocols.py:10-11 | Returns the PGN's record, or raises KeyError for a missing PGN, and changes nothing. |
| Catalog.Lookup | src/akrocansim/signaltools.py:20 | None exactly when the key is absent; otherwise a stored label of that key. |
| Catalog.LookupAt | src/akrocansim/signaltools.py:20 | In a table with distinct keys, a key's label is the one at its unique entry. |
| TransmissionRates.MapTransmissionRate | src/akrocansim/J1939.py:16-225 | None gives None, and every period found is at least 1 ms. |
| TransmissionRates.RateTablePositive | src/akrocansim/J1939.py:20-222 | Every case of the table has a positive period. |
| TransmissionRates.HundredMillisecondsInFirstCases | src/akrocansim/J1939.py:27-28 | "100 ms" is the fourth case and is given 10. |
| TransmissionRates.HundredMillisecondsQuirk | src/akrocansim/J1939.py:27-28 | `_map_transmission_rate('100 ms')` is 10, not 100. |
| Normalisers.MapSpnPosition | src/akrocansim/J1939.py:227-295 | Only `int()` failures raise, as ValueError; a missing byte has a missing bit. |
| Normalisers.OneBased | src/akrocansim/J1939.py:282-291 | One-based numbers become zero-based, and a failed parse is a ValueError. |
| Normalisers.PositionIsNumeric | src/akrocansim/J1939.py:232-281 | A text that matches no literal and is not a single letter goes to the general forms. |
| Normalisers.LiteralsAreNotNumeric | src/akrocansim/J1939.py:236-280 | No literal is made only of digits and '.' or only of digits and '-', so the literals never shadow a general form. |
| Normalisers.PositionOfByte | src/akrocansim/J1939.py:281-283 | "n" (one or two digits) gives (n - 1, 0). |
| Normalisers.ByteAndBitText | src/akrocansim/J1939.py:284-287 | Any digit texts "b.k" of three or four characters give (b - 1, k - 1). |
| Normalisers.PositionOfByteAndBit | src/akrocansim/J1939.py:284-287 | `str(b) + "." + str(k)` gives (b - 1, k - 1). |
| Normalisers.RangeText | src/akrocansim/J1939.py:288-291 | Any digit texts "a-b" of three to five characters give (a - 1, 0). |
| Normalisers.PositionOfByteRange | src/akrocansim/J1939.py:288-291 | `str(a) + "-" + str(b)` gives (a - 1, 0). |
| Normalisers.PositionExamples | src/akrocansim/J1939.py:227-244 | None and a single letter give (None, None). The literal '2.4-4' is checked first and gives (1, 3). |
| Normalisers.MapSpnLength | src/akrocansim/J1939.py:297-308 | None gives None. A text that does not split into two words, or whose second word is not bit, bits, byte or bytes, gives None. Otherwise the first word is read by `int()`: bits give that number and bytes give eight times it. A failed `int()` raises ValueError. |
| Normalisers.LengthOfWords | src/akrocansim/J1939.py:301-307 | A text that does not split into exactly two words has no length. |
| Normalisers.LengthOfNumberAndUnit | src/akrocansim/J1939.py:302-305 | n bit(s) is n, and n byte(s) is 8n. |
| Normalisers.SpnLengthOfText | src/akrocansim/J1939.py:297-305 | `str(n) + " bit"`, `" bits"`, `" byte"` and `" bytes"` give n, n, 8n and 8n. |
| Normalisers.SpnLengthVariable | src/akrocansim/J1939.py:306-307 | "Variable" has no length. |
| Normalisers.MapUnits | src/akrocansim/J1939.py:449-457 | None gives None. 'bit' and 'bit-mapped' give the empty text. Other units are returned unchanged. |
| Normalisers.MapUnitsIdempotent | src/akrocansim/J1939.py:449-457 | Normalising twice is normalising once. |
| Normalisers.ReadValue | src/akrocansim/J1939.py:481-491 | Raises ValueError exactly for a bad 0x token. A good 0x token reads as `int(val, 16)` and keeps the flag. The decimal flag never goes back to false, and it is set only by a numeric non-hex token. A non-hex token has a value exactly when it is numeric, and in decimal mode that value is its decimal value. |
| Normalisers.ReadBinary | src/akrocansim/J1939.py:484-486 | Before the switch, a binary token is read in base 2. |
| Normalisers.ReadSwitch | src/akrocansim/J1939.py:485-489 | Before the switch, a numeric token that is not binary is read in base 10 and sets the flag. |
| Normalisers.ReadDecimal | src/akrocansim/J1939.py:490-491 | After the switch, every numeric token is read in base 10. |
| Normalisers.NumberLine | src/akrocansim/J1939.py:472-479 | A line led by a number and a space has that number as its token. |
| Normalisers.BinaryLineCons | src/akrocansim/J1939.py:484-486 | Before the switch, a line led by a binary number adds its base-2 value. |
| Normalisers.SwitchLineCons | src/akrocansim/J1939.py:485-489 | Before the switch, a line led by a number that is not binary adds its decimal value and sets the flag. |
| Normalisers.DecimalLineCons | src/akrocansim/J1939.py:490-491 | After the switch, a line led by a number adds its decimal value. |
| Normalisers.DecimalIsSticky | src/akrocansim/J1939.py:470-491 | Once the flag is set, every later value is a hex token's value or its token's decimal value. |
| Normalisers.Extend | src/akrocansim/J1939.py:500-504 | A value seen again always holds a list of lines. |
| Normalisers.AddLineLookup | src/akrocansim/J1939.py:493-504 | A new value gets its line, a known one gets the line appended to its list, and other values keep their labels. |
| Normalisers.AddLineKeys | src/akrocansim/J1939.py:493-504 | Recording a line adds its value and no other key. |
| Normalisers.AddLineDistinct | src/akrocansim/J1939.py:493-504 | Recording a line keeps the keys distinct. |
| Normalisers.BuildLookup | src/akrocansim/J1939.py:493-504 | After recording pairs, a value's label is its old label extended by its lines, in order. |
| Normalisers.BuildGroupsLines | src/akrocansim/J1939.py:493-504 | A value with one line maps to that line, and one with several maps to the list of them in line order. A value with none is absent, and every key appears once. |
| Normalisers.ResumeStep | src/akrocansim/J1939.py:471-504 | Parsing a description is reading its first line's token, recording it, then parsing the rest. |
| Normalisers.ParseDiscreteValueLabel | src/akrocansim/J1939.py:468-506 | The loop's table equals the table built from the valued lines, and its keys are distinct. |
| Text.RemovePrefix | src/akrocansim/J1939.py:474 | A present prefix is removed exactly; otherwise the text is unchanged. |
| Text.RemoveSuffix | src/akrocansim/J1939.py:475 | A present suffix is removed exactly; otherwise the text is unchanged. |
| Text.LStripSpec | src/akrocansim/J1939.py:473 | `lstrip` removes exactly the leading run of whitespace. |
| Text.RStripSpec | src/akrocansim/J1939.py:482 | `rstrip`, used by `int()`, removes exactly the trailing run of whitespace. |
| Text.Split | src/akrocansim/J1939.py:232 | There is one more part than there are separators, and no part holds the separator. |
| Text.JoinSplit | src/akrocansim/J1939.py:285 | Joining the parts of a split gives back the text. |
| Text.BeforeFirstSpec | src/akrocansim/J1939.py:478 | The cut is a prefix, followed by the separator unless it is the whole text, with no earlier separator. |
| Text.SplitLines | src/akrocansim/J1939.py:471 | Only the empty text has no lines, and no line holds a line boundary. |
| Text.LineHead | src/akrocansim/J1939.py:471 | The first line is the longest prefix without a boundary. |
| Text.ParseInt | src/akrocansim/J1939.py:482-491 | A decimal digit string parses to its digits' value. |
| Text.ParseUnsigned | src/akrocansim/J1939.py:482-491 | An unsigned decimal digit string parses to its digits' value. |
| Text.UnsignedWithoutSpace | src/akrocansim/J1939.py:482-491 | A text without surrounding whitespace or sign parses as its unsigned part. |
| Text.ParseHexPrefixed | src/akrocansim/J1939.py:483-484 | In base 16, a "0x" or "0X" prefix followed by hexadecimal digits parses to the digits' base-16 value. |
| Text.ParseIntSeparators | src/akrocansim/J1939.py:483-484 | `_` separates digits: "0xFF_FF" in base 16 is 65535. |
| Text.ParseIntBadSeparators | src/akrocansim/J1939.py:486-491 | A doubled `_` ("1__0") and a trailing `_` ("1_") make a text no number. |
| Text.ParseDigitString | src/akrocansim/J1939.py:486-488 | A digit string parses in a base exactly when its digits belong to that base, and then to their value. |
| Text.NatToString | src/akrocansim/dbc.py:162 | `str(n)` is all digits, with no leading zero except for 0. |
| Text.IntToString | src/akrocansim/dbc.py:167 | `str(i)` is digits, preceded by '-' for a negative number. |
| Text.NatToStringValue | src/akrocansim/dbc.py:162 | The digits of `str(n)` have the value n. |
| Text.NatToStringParses | src/akrocansim/dbc.py:162 | `int(str(n)) == n`. |
| Text.FirstMatch | src/akrocansim/J1939.py:20-224 | None exactly when no case matches; otherwise the value of the first matching case. |
| Text.FirstMatchAppend | src/akrocansim/J1939.py:20-224 | The cases of a table split in two are tried first part first. |
| Dbc.FrameIdFields | src/akrocansim/dbc.py:148 | Bit 31 of the frame id is set and its low byte is 0. It carries the priority in bits 26 to 28 and the PGN in bits 8 to 25. |
| Dbc.FrameIdInjective | src/akrocansim/dbc.py:148 | Different (priority, PGN) pairs give different frame ids. |
| Dbc.SkipNonWord | src/akrocansim/dbc.py:149 | Skipping a run of non-word characters leaves a suffix that is empty or starts with a word character. |
| Dbc.SanitizeWords | src/akrocansim/dbc.py:149 | `re.sub('\W+', '_', s)` is made of word characters, is no longer than s, and is empty only for an empty s. |
| Dbc.SanitizeFixedPoint | src/akrocansim/dbc.py:149 | A text is left unchanged if and only if it is all word characters. |
| Dbc.SanitizeIdempotent | src/akrocansim/dbc.py:149 | Sanitising twice is sanitising once. |
| Dbc.SanitizeWordPrefix | src/akrocansim/dbc.py:149 | A prefix of word characters is kept as it is. |
| Dbc.PgnNameIsIdentifier | src/akrocansim/dbc.py:149-150 | The message name is non-empty, of word characters, at most 32 long, never starts with a digit, and is exactly 32 long when the sanitised text is. |
| Dbc.PgnNameStartsWithAcronym | src/akrocansim/dbc.py:149-150 | A word-character acronym that does not start with a digit and fits leads the name, followed by '_'. |
| Dbc.SpnNameIsIdentifier | src/akrocansim/dbc.py:157 | The signal name is non-empty, of word characters and at most 32 long. |
| Dbc.SpnNameStartsWithNumber | src/akrocansim/dbc.py:157 | The name starts with "SPN", the SPN number and '_' when they fit. |
| Dbc.SpnNameOfWords | src/akrocansim/dbc.py:157 | A word-character name that fits is used unchanged after "SPN<n>_". |
| Dbc.NumberFields | src/akrocansim/dbc.py:162 | The text of the start bit, a bar, the text of the length and `@` cut back into the two decimal texts. |
| Dbc.SignalLineFields | src/akrocansim/dbc.py:161-164 | For a record with start byte, start bit and length, an `SG_` line's fields read back as the absolute start bit, the length and `@1+ (`. |
| Dbc.TailStart | src/akrocansim/dbc.py:162-163 | The text after the length starts with `@1+ (`. |
| Dbc.EnumSignalScale | src/akrocansim/dbc.py:159-163 | The factor field of an enumerated signal is `1`. |
| Dbc.RawMin | src/akrocansim/dbc.py:167 | Succeeds exactly for a numeric SPN with a minimum, giving `RawMinValue`. Otherwise it raises ZeroDivisionError for a zero scale and TypeError for a tag scale or a missing value. |
| Dbc.Reverse | src/akrocansim/dbc.py:170-171 | Element i of the result is element n - 1 - i of the input. |
| Dbc.ValueLabelsReversed | src/akrocansim/dbc.py:169-171 | `value_label_strs` lists the table's entries in reverse iteration order. |
| Dbc.ValueLabelStrs | src/akrocansim/dbc.py:169-171 | The prepending loop computes `ValueLabels`. |
| Dbc.SpnPart | src/akrocansim/dbc.py:156-174 | A missing start byte or start bit raises TypeError first. Otherwise a numeric signal gets exactly one start value, equal to its raw minimum. An enumerated one gets exactly one value table and one value description. It raises exactly when the position, the raw minimum or the value table is missing; a missing table raises KeyError. |
| Dbc.AddSpnsRaisesOn | src/akrocansim/dbc.py:155-174 | Once an SPN has raised, the rest of the SPN loop does not run. |
| Dbc.CollectRaisesOn | src/akrocansim/dbc.py:146-176 | Once a PGN has raised, the rest of the PGN loop does not run. |
| Dbc.AddSpnsKeepsMessageAttributes | src/akrocansim/dbc.py:155-174 | The SPN loop adds no message attribute. |
| Dbc.AddPgnMessageAttributes | src/akrocansim/dbc.py:147-153 | A PGN that is added is in the catalog and adds exactly its one `VFrameFormat` attribute. |
| Dbc.CollectedPgnsKnown | src/akrocansim/dbc.py:146-147 | A successful export found every PGN in the catalog. |
| Dbc.OneFrameFormatPerPgn | src/akrocansim/dbc.py:142-153 | The message attributes are "\n\n" followed by one `VFrameFormat` line per PGN, in order. |
| Dbc.AddSpnsMessages | src/akrocansim/dbc.py:155-164 | The SPN loop appends the SPNs' `SG_` lines, in order, and nothing else, to the messages. |
| Dbc.AddPgnMessages | src/akrocansim/dbc.py:152-176 | A PGN appends its one message block to the messages: its `BO_` line, its `SG_` lines and a blank line. |
| Dbc.OneMessagePerPgn | src/akrocansim/dbc.py:146-176 | The messages section is "\n\n" followed by one `BO_` block per PGN, in order. |
| Dbc.CollectSections | src/akrocansim/dbc.py:141-176 | The PGN loop computes `Collect`, the sections the lemmas above describe. |
| Dbc.PgnSections | src/akrocansim/dbc.py:147-176 | One pass of the PGN loop computes `AddPgn`. |
| Dbc.SpnSections | src/akrocansim/dbc.py:156-174 | One pass of the SPN loop computes `AddOneSpn`. |
| Dbc.DbcText | src/akrocansim/dbc.py:146-178 | The export raises exactly when collecting the sections raises. |
| Dbc.J1939Dbc | src/akrocansim/dbc.py:141-178 | The imperative export equals `DbcText`. |
| Bytes.ByteRoundTrip | src/akrocansim/transmitter.py:111 | A value in 0..255 survives the conversion to a byte and back. |

## Left out

- Threads, `time.sleep` and the endless send loops are not modelled. Each loop iteration is one method call (`Tick`, `TxPgn`), and the tasks started by the older loops are a sequence of their captured state.
- python-can is not modelled: bus construction, `can.Message` and `bus.send`. A bus is a flag, a send failure is a `sendFails` parameter, and the frames handed to the bus form the `sent` log. The `print` of `canbustransmitter.py` forms the `printed` log.
- The GUI callback `get_value_fn` is not modelled as code. Its answers are the parameters `mode`, `continuous` and a map from value tags to integers.
- `tx_rate_ms / 1000` is not modelled, because it is floating point. Periods are kept in whole milliseconds.
- Scale, offset and bounds are modelled as exact `real` values, not binary floating point.
- `parse_J1939DA` is not modelled: it is workbook, JSON and pickle I/O. Its 'Variable' length rule and its operational-range override are not modelled either.
- The float parsers `_map_resolution`, `_map_offset`, `_map_data_range` and `_map_operational_range` are not modelled. The catalog holds their results: a `Scale` tag or a `real`.
- The debug block at the start of `_parse_discrete_value_label` is not modelled. It can never run, because its SPN test compares an integer with a string.
- Character classes are ASCII: `\w`, `isalpha`, `isnumeric`, the whitespace `int()` strips and the digits it reads do not cover other Unicode characters.
- Python's `str` rendering of floats, of `None` and of a label list is not modelled. It is a `Formats` parameter of the DBC export.
- Loading the catalog from its pickle file (`protocols.J1939.__init__`) and the file write of `dump_J1939_dbc` are not modelled.
- The four copies of the codec (`src/akrocansim/J1939.py`, `signaltools.py`, `protocols/protocols.py` and the root `J1939.py`) are identical up to argument names. They share one model.
- The dictionaries `PGNs_SPNs`, value tables and catalog records are modelled as sequences of pairs or as maps. A value table keeps Python's insertion order.
- `PGNs_pending_tx` in `transmitter.py` is never read there and is not modelled.
- Sanitize, PgnName, SpnName, FrameId, TxScheduler.PgnOf (the PGN field of a key, used by the transmitter's invariant), LStrip, RStrip, BeforeFirst and ValueToken are helper functions without contracts. Their facts are the lemmas listed above.
- J1939Id.CanId: requires the priority below 8, the PGN below 2^18 and the source address below 256. The bitwise or of out-of-range fields, where they overlap, is not modelled.
- Dbc.FrameIdFields: requires every catalog priority below 8 and every PGN below 2^18 (`IdsInRange` on the DBC members).
- TxScheduler.Transmitter.ModifyPgnData: requires that the SPN, when its position fields are present, lies inside the payload, that a sub-byte field stays within its byte, and that a whole-byte value fits its bytes. The source raises IndexError for a field outside the payload. For a sub-byte field it fails only when the masked raw bits land at bit 8 or above: it stores a value above 255 and raises ValueError when the list becomes a `bytearray`. A field that crosses its byte but whose raw value has no bits there is accepted by the source and excluded by this requires. Neither error path is modelled.
- TxScheduler.Transmitter.RegisterTxPgn: registering a PGN a second time replaces its entry, but the first sending thread keeps running on the entry it read when it started, so two loops then send under one key. Threads are not modelled, so this is not captured.
- Normalisers.MapSpnPosition: yields integers, and position text "0" gives start byte -1, but the catalog's `SpnSpec` keeps start bytes and start bits as naturals. The source would index the payload with -1 and so write its last byte; such a catalog record cannot be represented here.
- LegacyTx.PackAll: requires `Packable`: every listed SPN is the PGN's, has the position fields its write reads, lies inside the payload and has a value, and whole-byte values fit. The source's KeyError, TypeError, IndexError and the ValueError of `can.Message` on an out-of-range byte are not modelled.
- CanInterface.BusHandler.TxPgn: requires `Packable` for its task's SPNs. The packing loop's KeyError, TypeError and IndexError, and the ValueError of `can.Message` on an out-of-range byte, would end the task too; they are not modelled.
- CanNodes.Transmitter.TxPgn: requires `Packable` for its task's SPNs, with the same unmodelled exceptions as `CanInterface.BusHandler.TxPgn`.
- CanBusTransmitter.Globals.TxPgn: requires `Packable` for its task's SPNs, with the same unmodelled exceptions as `CanInterface.BusHandler.TxPgn`.
- SignalCodec.Encode: requires a non-zero scale. The ZeroDivisionError of a zero scale is modelled in `Dbc.RawMin`.
- SignalCodec.RawMinValue and SignalCodec.RawMaxValue: require a numeric scale, an offset and the bound. The TypeError otherwise raised is modelled in `Dbc.RawMin`.
- Dbc.DbcText: its contract states only when the export raises. The section order (`headers_1`, `VAL_TABLE_`, `BO_SG_`, `headers_2`, `BA_messages`, `BA_signals`, `VAL_`) is its definition through `Assemble`, and is not restated as a separate lemma.
- Dbc.SignalLineFields: states the start-bit and length fields as text. That `int()` reads them back as the numbers is `Text.NatToStringParses`.
- The `VAL_` lines have no line break between them, as in the source.
- TxScheduler.Run: states only the bound on frames sent. Its behaviour per mode is in the four lemmas that follow it.
