/**
 * The DBC export of the transmitted PGNs (`_J1939_dbc`): one `BO_` message
 * per PGN with one `SG_` signal per SPN, a cyclic-frame attribute per
 * message, a start-value attribute per numeric signal, and a value table
 * plus a value description per enumerated signal. The text is gathered in
 * five sections and joined with two fixed headers in a fixed order.
 */
module Dbc {
  import opened Wrappers
  import opened Text
  import opened Catalog
  import opened J1939Id
  import opened SignalCodec

  /**
   * How Python's `str` renders the catalog's numbers and a label made of
   * several lines (a list). Both are taken as given by the model.
   */
  datatype Formats = Formats(number: real -> string, labelList: seq<string> -> string)

  /** `headers_1` (lines 8 to 44): the version, the new-symbols list and the empty bit-timing and node sections. */
  const Header1: string :=
    "VERSION \"\"\n"
    + "\n"
    + "\n"
    + "NS_ : \n"
    + "\tNS_DESC_\n"
    + "\tCM_\n"
    + "\tBA_DEF_\n"
    + "\tBA_\n"
    + "\tVAL_\n"
    + "\tCAT_DEF_\n"
    + "\tCAT_\n"
    + "\tFILTER\n"
    + "\tBA_DEF_DEF_\n"
    + "\tEV_DATA_\n"
    + "\tENVVAR_DATA_\n"
    + "\tSGTYPE_\n"
    + "\tSGTYPE_VAL_\n"
    + "\tBA_DEF_SGTYPE_\n"
    + "\tBA_SGTYPE_\n"
    + "\tSIG_TYPE_REF_\n"
    + "\tVAL_TABLE_\n"
    + "\tSIG_GROUP_\n"
    + "\tSIG_VALTYPE_\n"
    + "\tSIGTYPE_VALTYPE_\n"
    + "\tBO_TX_BU_\n"
    + "\tBA_DEF_REL_\n"
    + "\tBA_REL_\n"
    + "\tBA_DEF_DEF_REL_\n"
    + "\tBU_SG_REL_\n"
    + "\tBU_EV_REL_\n"
    + "\tBU_BO_REL_\n"
    + "\tSG_MUL_VAL_\n"
    + "\n"
    + "BS_:\n"
    + "\n"
    + "BU_:\n"

  /** `headers_2` (lines 46 to 140): the attribute definitions, their defaults and the two database attributes. */
  const Header2: string :=
    "\n"
    + "\n"
    + "BA_DEF_ BO_  \"J1939FdTpADS\" INT 0 52;\n"
    + "BA_DEF_ BO_  \"J1939FdTpADT\" INT 0 255;\n"
    + "BA_DEF_ BO_  \"J1939PgAppearanceOnBus\" ENUM  \"Default\",\"CAN_Extended\",\"CANFD_Extended\";\n"
    + "BA_DEF_ BO_  \"J1939CPgSendTimeout\" INT -1 3600000;\n"
    + "BA_DEF_ BO_  \"J1939CPgTOS\" INT 0 7;\n"
    + "BA_DEF_ BO_  \"J1939CPgTF\" INT 0 7;\n"
    + "BA_DEF_ BU_  \"J1939MultiPgSendTimeout\" INT 0 3600000;\n"
    + "BA_DEF_ BU_  \"J1939MultiPgSizeThreshold\" INT 0 64;\n"
    + "BA_DEF_ BU_  \"J1939MultiPgBroadcastType\" ENUM  \"FBFF\",\"FEFF\";\n"
    + "BA_DEF_  \"DatabaseVersion\" STRING ;\n"
    + "BA_DEF_ BO_  \"FsJ1939UseCrcAndCounter\" STRING ;\n"
    + "BA_DEF_ BO_  \"FsJ1939NeedsSHM\" ENUM  \"No\",\"Yes\";\n"
    + "BA_DEF_ BO_  \"FsJ1939Delay\" INT 0 1000;\n"
    + "BA_DEF_ BO_  \"TpJ1939VarDlc\" ENUM  \"No\",\"Yes\";\n"
    + "BA_DEF_ SG_  \"SigType\" ENUM  \"Default\",\"Range\",\"RangeSigned\",\"ASCII\",\"Discrete\",\"Control\",\"ReferencePGN\",\"DTC\",\"StringDelimiter\",\"StringLength\",\"StringLengthControl\",\"MessageCounter\",\"MessageChecksum\";\n"
    + "BA_DEF_ SG_  \"GenSigILSupport\" ENUM  \"No\",\"Yes\";\n"
    + "BA_DEF_ SG_  \"GenSigSendType\" ENUM  \"Cyclic\",\"OnWrite\",\"OnWriteWithRepetition\",\"OnChange\",\"OnChangeWithRepetition\",\"IfActive\",\"IfActiveWithRepetition\",\"NoSigSendType\";\n"
    + "BA_DEF_ BO_  \"GenMsgFastOnStart\" INT 0 100000;\n"
    + "BA_DEF_ SG_  \"GenSigInactiveValue\" INT 0 0;\n"
    + "BA_DEF_ BO_  \"GenMsgCycleTimeFast\" INT 0 3600000;\n"
    + "BA_DEF_ BO_  \"GenMsgNrOfRepetition\" INT 0 1000000;\n"
    + "BA_DEF_ SG_  \"GenSigStartValue\" INT 0 2147483647;\n"
    + "BA_DEF_ BO_  \"GenMsgDelayTime\" INT 0 1000;\n"
    + "BA_DEF_ BO_  \"GenMsgILSupport\" ENUM  \"No\",\"Yes\";\n"
    + "BA_DEF_ BO_  \"GenMsgStartDelayTime\" INT 0 100000;\n"
    + "BA_DEF_ BU_  \"NodeLayerModules\" STRING ;\n"
    + "BA_DEF_ BU_  \"ECU\" STRING ;\n"
    + "BA_DEF_ BU_  \"NmJ1939SystemInstance\" INT 0 15;\n"
    + "BA_DEF_ BU_  \"NmJ1939System\" INT 0 127;\n"
    + "BA_DEF_ BU_  \"NmJ1939ManufacturerCode\" INT 0 2047;\n"
    + "BA_DEF_ BU_  \"NmJ1939IndustryGroup\" INT 0 7;\n"
    + "BA_DEF_ BU_  \"NmJ1939IdentityNumber\" INT 0 2097151;\n"
    + "BA_DEF_ BU_  \"NmJ1939FunctionInstance\" INT 0 7;\n"
    + "BA_DEF_ BU_  \"NmJ1939Function\" INT 0 255;\n"
    + "BA_DEF_ BU_  \"NmJ1939ECUInstance\" INT 0 7;\n"
    + "BA_DEF_ BU_  \"NmJ1939AAC\" INT 0 1;\n"
    + "BA_DEF_ BU_  \"NmStationAddress\" INT 0 255;\n"
    + "BA_DEF_ BO_  \"GenMsgSendType\" ENUM  \"cyclic\",\"NotUsed\",\"NotUsed\",\"NotUsed\",\"NotUsed\",\"NotUsed\",\"NotUsed\",\"IfActive\",\"noMsgSendType\";\n"
    + "BA_DEF_ BO_  \"GenMsgRequestable\" INT 0 1;\n"
    + "BA_DEF_ BO_  \"GenMsgCycleTime\" INT 0 3600000;\n"
    + "BA_DEF_ SG_  \"SPN\" INT 0 524287;\n"
    + "BA_DEF_  \"DBName\" STRING ;\n"
    + "BA_DEF_  \"BusType\" STRING ;\n"
    + "BA_DEF_  \"ProtocolType\" STRING ;\n"
    + "BA_DEF_ BO_  \"VFrameFormat\" ENUM  \"StandardCAN\",\"ExtendedCAN\",\"reserved\",\"J1939PG\",\"reserved\",\"reserved\",\"reserved\",\"reserved\",\"reserved\",\"reserved\",\"reserved\",\"reserved\",\"reserved\",\"reserved\",\"StandardCAN_FD\",\"ExtendedCAN_FD\";\n"
    + "BA_DEF_DEF_  \"J1939FdTpADS\" 0;\n"
    + "BA_DEF_DEF_  \"J1939FdTpADT\" 0;\n"
    + "BA_DEF_DEF_  \"J1939PgAppearanceOnBus\" \"Default\";\n"
    + "BA_DEF_DEF_  \"J1939CPgSendTimeout\" -1;\n"
    + "BA_DEF_DEF_  \"J1939CPgTOS\" 2;\n"
    + "BA_DEF_DEF_  \"J1939CPgTF\" 0;\n"
    + "BA_DEF_DEF_  \"J1939MultiPgSendTimeout\" 2;\n"
    + "BA_DEF_DEF_  \"J1939MultiPgSizeThreshold\" 56;\n"
    + "BA_DEF_DEF_  \"J1939MultiPgBroadcastType\" \"FBFF\";\n"
    + "BA_DEF_DEF_  \"DatabaseVersion\" \"\";\n"
    + "BA_DEF_DEF_  \"FsJ1939UseCrcAndCounter\" \"\";\n"
    + "BA_DEF_DEF_  \"FsJ1939NeedsSHM\" \"No\";\n"
    + "BA_DEF_DEF_  \"FsJ1939Delay\" 0;\n"
    + "BA_DEF_DEF_  \"TpJ1939VarDlc\" \"No\";\n"
    + "BA_DEF_DEF_  \"SigType\" \"Default\";\n"
    + "BA_DEF_DEF_  \"GenSigILSupport\" \"Yes\";\n"
    + "BA_DEF_DEF_  \"GenSigSendType\" \"NoSigSendType\";\n"
    + "BA_DEF_DEF_  \"GenMsgFastOnStart\" 0;\n"
    + "BA_DEF_DEF_  \"GenSigInactiveValue\" 0;\n"
    + "BA_DEF_DEF_  \"GenMsgCycleTimeFast\" 0;\n"
    + "BA_DEF_DEF_  \"GenMsgNrOfRepetition\" 0;\n"
    + "BA_DEF_DEF_  \"GenSigStartValue\" 0;\n"
    + "BA_DEF_DEF_  \"GenMsgDelayTime\" 0;\n"
    + "BA_DEF_DEF_  \"GenMsgILSupport\" \"Yes\";\n"
    + "BA_DEF_DEF_  \"GenMsgStartDelayTime\" 0;\n"
    + "BA_DEF_DEF_  \"NodeLayerModules\" \"\";\n"
    + "BA_DEF_DEF_  \"ECU\" \"\";\n"
    + "BA_DEF_DEF_  \"NmJ1939SystemInstance\" 0;\n"
    + "BA_DEF_DEF_  \"NmJ1939System\" 0;\n"
    + "BA_DEF_DEF_  \"NmJ1939ManufacturerCode\" 0;\n"
    + "BA_DEF_DEF_  \"NmJ1939IndustryGroup\" 0;\n"
    + "BA_DEF_DEF_  \"NmJ1939IdentityNumber\" 0;\n"
    + "BA_DEF_DEF_  \"NmJ1939FunctionInstance\" 0;\n"
    + "BA_DEF_DEF_  \"NmJ1939Function\" 0;\n"
    + "BA_DEF_DEF_  \"NmJ1939ECUInstance\" 0;\n"
    + "BA_DEF_DEF_  \"NmJ1939AAC\" 0;\n"
    + "BA_DEF_DEF_  \"NmStationAddress\" 254;\n"
    + "BA_DEF_DEF_  \"GenMsgSendType\" \"noMsgSendType\";\n"
    + "BA_DEF_DEF_  \"GenMsgRequestable\" 1;\n"
    + "BA_DEF_DEF_  \"GenMsgCycleTime\" 0;\n"
    + "BA_DEF_DEF_  \"SPN\" 0;\n"
    + "BA_DEF_DEF_  \"DBName\" \"\";\n"
    + "BA_DEF_DEF_  \"BusType\" \"CAN\";\n"
    + "BA_DEF_DEF_  \"ProtocolType\" \"J1939\";\n"
    + "BA_DEF_DEF_  \"VFrameFormat\" \"J1939PG\";\n"
    + "BA_ \"BusType\" \"CAN\";\n"
    + "BA_ \"DBName\" \"Tx_PGNs_SPNs\";\n"

  // ----- Frame identifier -----

  /** Bit 31 of a DBC message id: marks the id as a 29-bit extended one. */
  const ExtendedIdFlag: nat := 0x8000_0000

  /** Every PGN of the catalog has a priority and a number that fit their identifier fields. */
  predicate IdsInRange(catalog: Catalog) {
    forall pgn :: pgn in catalog ==> IdFieldsInRange(catalog[pgn].defaultPriority, pgn, 0)
  }

  /**
   * `1 << 31 | priority << 26 | pgn << 8 | 0`: the extended flag, then the
   * identifier with source address 0.
   */
  function FrameId(priority: nat, pgn: nat): nat
    requires IdFieldsInRange(priority, pgn, 0)
  {
    ExtendedIdFlag + CanId(priority, pgn, 0)
  }

  /**
   * A message id has the extended flag as its top bit, source address 0,
   * and the priority and the PGN in their fields below the flag.
   */
  lemma FrameIdFields(priority: nat, pgn: nat)
    requires IdFieldsInRange(priority, pgn, 0)
    ensures var id := FrameId(priority, pgn);
      id / ExtendedIdFlag == 1 && id % 0x100 == 0
      && id % ExtendedIdFlag / 0x400_0000 == priority
      && id % ExtendedIdFlag / 0x100 % 0x4_0000 == pgn
  {
  }

  /** Two PGNs, or two priorities, never share a message id. */
  lemma FrameIdInjective(p1: nat, g1: nat, p2: nat, g2: nat)
    requires IdFieldsInRange(p1, g1, 0) && IdFieldsInRange(p2, g2, 0)
    requires FrameId(p1, g1) == FrameId(p2, g2)
    ensures p1 == p2 && g1 == g2
  {
    CanIdInjective(p1, g1, 0, p2, g2, 0);
  }

  // ----- Identifiers -----

  /** The text after the leading run of non-word characters. */
  function SkipNonWord(s: string): (r: string)
    ensures |r| <= |s|
    ensures r == [] || IsWordChar(r[0])
  {
    if s != [] && !IsWordChar(s[0]) then SkipNonWord(s[1..]) else s
  }

  /** `re.sub(r'\W+', '_', s)`: every maximal run of non-word characters becomes one `_`. */
  function Sanitize(s: string): string
    decreases |s|
  {
    if s == [] then ""
    else if IsWordChar(s[0]) then [s[0]] + Sanitize(s[1..])
    else "_" + Sanitize(SkipNonWord(s[1..]))
  }

  predicate AllWordChars(s: string) {
    forall i :: 0 <= i < |s| ==> IsWordChar(s[i])
  }

  /** Sanitizing gives word characters only, never lengthens, and keeps a text non-empty. */
  lemma {:induction false} SanitizeWords(s: string)
    ensures |Sanitize(s)| <= |s|
    ensures |Sanitize(s)| == 0 <==> |s| == 0
    ensures AllWordChars(Sanitize(s))
    decreases |s|
  {
    if s != [] {
      var t := if IsWordChar(s[0]) then s[1..] else SkipNonWord(s[1..]);
      SanitizeWords(t);
      var r := Sanitize(s);
      assert r == [r[0]] + Sanitize(t);
      forall i | 1 <= i < |r| ensures IsWordChar(r[i]) {
        assert r[i] == Sanitize(t)[i - 1];
      }
    }
  }

  /** A text is left alone exactly when it is made of word characters only. */
  lemma {:induction false} SanitizeFixedPoint(s: string)
    ensures Sanitize(s) == s <==> AllWordChars(s)
  {
    SanitizeWords(s);
    if s != [] && IsWordChar(s[0]) {
      SanitizeFixedPoint(s[1..]);
      assert AllWordChars(s) <==> AllWordChars(s[1..]) by {
        forall i | 1 <= i < |s| ensures s[i] == s[1..][i - 1] {}
      }
      assert [s[0]] + s[1..] == s;
    } else if s != [] {
      assert !AllWordChars(s);
    }
  }

  /** Sanitizing twice is sanitizing once. */
  lemma SanitizeIdempotent(s: string)
    ensures Sanitize(Sanitize(s)) == Sanitize(s)
  {
    SanitizeWords(s);
    SanitizeFixedPoint(Sanitize(s));
  }

  /** A leading part made of word characters is kept as it is. */
  lemma {:induction false} SanitizeWordPrefix(a: string, b: string)
    requires AllWordChars(a)
    ensures Sanitize(a + b) == a + Sanitize(b)
  {
    if a != [] {
      assert (a + b)[0] == a[0];
      assert (a + b)[1..] == a[1..] + b;
      assert AllWordChars(a[1..]) by {
        forall i | 0 <= i < |a[1..]| ensures IsWordChar(a[1..][i]) {
          assert a[1..][i] == a[i + 1];
        }
      }
      SanitizeWordPrefix(a[1..], b);
      assert Sanitize(a + b) == [a[0]] + (a[1..] + Sanitize(b));
      AppendAssociative([a[0]], a[1..], Sanitize(b));
      assert [a[0]] + a[1..] == a;
    } else {
      assert a + b == b;
    }
  }

  /** A run of non-word characters before a word character, or the end, becomes a single `_`. */
  lemma SanitizeRun(run: string, b: string)
    requires run != [] && forall i :: 0 <= i < |run| ==> !IsWordChar(run[i])
    requires b == [] || IsWordChar(b[0])
    ensures Sanitize(run + b) == "_" + Sanitize(b)
  {
    var tail := run[1..];
    forall i | 0 <= i < |tail| ensures !IsWordChar(tail[i]) {
      assert tail[i] == run[i + 1];
    }
    SkipRun(tail, b);
    assert (run + b)[0] == run[0];
    assert (run + b)[1..] == tail + b;
  }

  lemma {:induction false} SkipRun(run: string, b: string)
    requires forall i :: 0 <= i < |run| ==> !IsWordChar(run[i])
    requires b == [] || IsWordChar(b[0])
    ensures SkipNonWord(run + b) == b
  {
    if run != [] {
      var tail := run[1..];
      forall i | 0 <= i < |tail| ensures !IsWordChar(tail[i]) {
        assert tail[i] == run[i + 1];
      }
      assert (run + b)[0] == run[0];
      assert (run + b)[1..] == tail + b;
      SkipRun(tail, b);
    } else {
      assert run + b == b;
    }
  }

  /** `s[:n]`. */
  function Take(s: string, n: nat): (r: string)
    ensures |r| == if |s| < n then |s| else n
    ensures r == s[..|r|]
  {
    if |s| <= n then s else s[..n]
  }

  /**
   * `pgn_name`: the acronym and the group label joined by `_` and
   * sanitized, cut to 32 characters; a name that would start with a digit
   * gets a leading `_` and keeps 31 characters.
   */
  function PgnName(acronym: string, groupLabel: string): string {
    var n := Sanitize(acronym + "_" + groupLabel);
    SanitizeWords(acronym + "_" + groupLabel);
    if IsDigit(n[0]) then "_" + Take(n, 31) else Take(n, 32)
  }

  /**
   * A PGN name is a non-empty identifier of word characters, at most 32
   * long (exactly 32 when the sanitized text is longer), that does not
   * start with a digit.
   */
  lemma PgnNameIsIdentifier(acronym: string, groupLabel: string)
    ensures var name := PgnName(acronym, groupLabel);
      0 < |name| <= 32 && !IsDigit(name[0]) && AllWordChars(name)
      && (|Sanitize(acronym + "_" + groupLabel)| >= 32 ==> |name| == 32)
  {
    var n := Sanitize(acronym + "_" + groupLabel);
    SanitizeWords(acronym + "_" + groupLabel);
    var name := PgnName(acronym, groupLabel);
    if IsDigit(n[0]) {
      assert name == "_" + Take(n, 31);
      forall i | 1 <= i < |name| ensures IsWordChar(name[i]) {
        assert name[i] == n[i - 1];
      }
    } else {
      assert name == Take(n, 32);
      assert name[0] == n[0];
      forall i | 0 <= i < |name| ensures IsWordChar(name[i]) {
        assert name[i] == n[i];
      }
    }
  }

  /** A short word-character acronym that does not start with a digit leads its PGN name. */
  lemma PgnNameStartsWithAcronym(acronym: string, groupLabel: string)
    requires AllWordChars(acronym) && 0 < |acronym| < 32 && !IsDigit(acronym[0])
    ensures StartsWith(PgnName(acronym, groupLabel), acronym + "_")
  {
    var a := acronym + "_";
    assert AllWordChars(a) by {
      forall i | 0 <= i < |a| ensures IsWordChar(a[i]) {
        if i < |acronym| { assert a[i] == acronym[i]; }
      }
    }
    assert acronym + "_" + groupLabel == a + groupLabel;
    SanitizeWordPrefix(a, groupLabel);
    var n := Sanitize(a + groupLabel);
    assert n[..|a|] == a;
    assert n[0] == acronym[0];
  }

  /** The digits of a number are word characters. */
  lemma DigitsAreWordChars(n: nat)
    ensures AllWordChars(NatToString(n))
  {
    var d := NatToString(n);
    forall i | 0 <= i < |d| ensures IsWordChar(d[i]) {
      assert IsDigit(d[i]);
    }
  }

  /** `spn_name`: `SPN<number>_<name>` sanitized and cut to 32 characters. */
  function SpnName(spn: nat, name: string): string {
    Take(Sanitize("SPN" + NatToString(spn) + "_" + name), 32)
  }

  /** A signal name is a non-empty identifier of word characters, at most 32 long. */
  lemma SpnNameIsIdentifier(spn: nat, name: string)
    ensures var r := SpnName(spn, name);
      0 < |r| <= 32 && AllWordChars(r)
  {
    var n := Sanitize("SPN" + NatToString(spn) + "_" + name);
    SanitizeWords("SPN" + NatToString(spn) + "_" + name);
    var r := SpnName(spn, name);
    forall i | 0 <= i < |r| ensures IsWordChar(r[i]) {
      assert r[i] == n[i];
    }
  }

  /** The signal name starts with `SPN`, the SPN number and `_` whenever those fit. */
  lemma SpnNameStartsWithNumber(spn: nat, name: string)
    ensures var p := "SPN" + NatToString(spn) + "_";
      |p| <= 32 ==> StartsWith(SpnName(spn, name), p)
  {
    var p := "SPN" + NatToString(spn) + "_";
    DigitsAreWordChars(spn);
    assert AllWordChars(p) by {
      var d := NatToString(spn);
      forall i | 0 <= i < |p| ensures IsWordChar(p[i]) {
        if 3 <= i < 3 + |d| { assert p[i] == d[i - 3]; }
      }
    }
    assert "SPN" + NatToString(spn) + "_" + name == p + name;
    SanitizeWordPrefix(p, name);
    var n := Sanitize(p + name);
    assert n[..|p|] == p;
  }

  /** A name of word characters that fits is used as it is. */
  lemma SpnNameOfWords(spn: nat, name: string)
    requires AllWordChars(name)
    requires |"SPN" + NatToString(spn) + "_" + name| <= 32
    ensures SpnName(spn, name) == "SPN" + NatToString(spn) + "_" + name
  {
    var s := "SPN" + NatToString(spn) + "_" + name;
    var d := NatToString(spn);
    DigitsAreWordChars(spn);
    assert AllWordChars(s) by {
      forall i | 0 <= i < |s| ensures IsWordChar(s[i]) {
        if 3 <= i < 3 + |d| { assert s[i] == d[i - 3]; }
        else if i > 3 + |d| { assert s[i] == name[i - 4 - |d|]; }
      }
    }
    SanitizeFixedPoint(s);
  }

  // ----- Signal lines -----

  /** `str` of an optional number: `None` or the number's text. */
  function OptionalNumber(x: Option<real>, fmt: Formats): string {
    if x.None? then "None" else fmt.number(x.value)
  }

  /** `str` of an optional whole number. */
  function OptionalNat(x: Option<nat>): string {
    if x.None? then "None" else NatToString(x.value)
  }

  /** `str` of an optional text. */
  function OptionalText(x: Option<string>): string {
    if x.None? then "None" else x.value
  }

  /** The factor field of an `SG_` line: `1` for an enumerated signal, else `str(scale)`. */
  function ScaleText(scale: Scale, fmt: Formats): string {
    match scale
    case Factor(f) => fmt.number(f)
    case Enum => "1"
    case Ascii => "ASCII"
    case Binary => "BINARY"
    case BitMapped => "BIT_MAPPED"
    case Unknown => "None"
  }

  /** The part of an `SG_` line before its start bit. */
  function SignalHead(name: string): string {
    " SG_ " + name + " : "
  }

  /**
   * ` SG_ <name> : <start bit>|<length>@1+ (<scale>,<offset>) [<min>|<max>] "<unit>" Vector__XXX`:
   * a little-endian unsigned signal at its absolute start bit.
   */
  function SignalLine(name: string, spec: SpnSpec, fmt: Formats): string
    requires StartBit(spec).Ok?
  {
    SignalHead(name) + NatToString(StartBit(spec).value) + "|" + OptionalNat(spec.lengthBits) + SignalTail(spec, fmt)
  }

  /** The part of an `SG_` line from its byte order on. */
  function SignalTail(spec: SpnSpec, fmt: Formats): string {
    "@1+ (" + ScaleText(spec.scale, fmt) + SignalRest(spec, fmt)
  }

  /** The part of an `SG_` line after its factor. */
  function SignalRest(spec: SpnSpec, fmt: Formats): string {
    "," + OptionalNumber(spec.offset, fmt) + ") ["
    + OptionalNumber(spec.minValue, fmt) + "|" + OptionalNumber(spec.maxValue, fmt) + "] \""
    + OptionalText(spec.unit) + "\" Vector__XXX\n"
  }

  lemma StartsWithJoin(p: string, x: string)
    ensures StartsWith(p + x, p)
  {
    assert (p + x)[..|p|] == p;
  }

  /** A number's decimal text followed by a non-digit separator is cut back to that text. */
  lemma FieldBefore(n: nat, c: char, tail: string)
    requires !IsDigit(c)
    ensures BeforeFirst(NatToString(n) + [c] + tail, [c]) == NatToString(n)
  {
    var d := NatToString(n);
    forall i | 0 <= i < |d| ensures d[i] != c { assert IsDigit(d[i]); }
    BeforeFirstAt(d, c, tail);
  }

  /** `<bit>|<length><tail>` cut back into its two numbers. */
  lemma NumberFields(bit: nat, len: nat, tail: string)
    requires tail != [] && tail[0] == '@'
    ensures var rest := NatToString(bit) + ['|'] + (NatToString(len) + tail);
      BeforeFirst(rest, "|") == NatToString(bit)
      && var afterBar := rest[|NatToString(bit)| + 1..];
      BeforeFirst(afterBar, "@") == NatToString(len)
      && afterBar[|NatToString(len)|..] == tail
  {
    var b, l := NatToString(bit), NatToString(len);
    var rest := b + ['|'] + (l + tail);
    FieldBefore(bit, '|', l + tail);
    DropPrefix(b + ['|'], l + tail);
    assert rest[|b| + 1..] == l + tail;
    assert tail == ['@'] + tail[1..];
    AppendAssociative(l, ['@'], tail[1..]);
    FieldBefore(len, '@', tail[1..]);
    assert BeforeFirst(l + tail, "@") == l;
    DropPrefix(l, tail);
  }

  lemma Regroup(h: string, a: string, b: string, t: string)
    ensures h + a + "|" + b + t == h + (a + ['|'] + (b + t))
  {
  }

  lemma DropPrefix<T>(p: seq<T>, x: seq<T>)
    ensures (p + x)[|p|..] == x
  {
  }

  /**
   * Reading an `SG_` line back: the field before the first `|` is the
   * decimal text of the absolute start bit `start_byte * 8 + start_bit`
   * (which `int()` reads back, `NatToStringParses`), the field up to `@` is
   * the length's, and the byte order and sign are `1+`.
   */
  lemma SignalLineFields(name: string, spec: SpnSpec, fmt: Formats)
    requires spec.startByte.Some? && spec.startBit.Some? && spec.lengthBits.Some?
    ensures StartBit(spec).Ok?
    ensures var rest := SignalLine(name, spec, fmt)[|SignalHead(name)|..];
      BeforeFirst(rest, "|") == NatToString(spec.startByte.value * 8 + spec.startBit.value)
      && var afterBar := rest[|NatToString(StartBit(spec).value)| + 1..];
      BeforeFirst(afterBar, "@") == NatToString(spec.lengthBits.value)
      && StartsWith(afterBar[|NatToString(spec.lengthBits.value)|..], "@1+ (")
  {
    var head, tail := SignalHead(name), SignalTail(spec, fmt);
    var bit := StartBit(spec).value;
    var len := NatToString(spec.lengthBits.value);
    var rest := NatToString(bit) + ['|'] + (len + tail);
    assert OptionalNat(spec.lengthBits) == len;
    Regroup(head, NatToString(bit), len, tail);
    DropPrefix(head, rest);
    TailStart(spec, fmt);
    NumberFields(bit, spec.lengthBits.value, tail);
  }

  lemma TailStart(spec: SpnSpec, fmt: Formats)
    ensures StartsWith(SignalTail(spec, fmt), "@1+ (")
  {
    StartsWithJoin("@1+ (", ScaleText(spec.scale, fmt) + SignalRest(spec, fmt));
    assert SignalTail(spec, fmt) == "@1+ (" + (ScaleText(spec.scale, fmt) + SignalRest(spec, fmt));
  }

  /** The factor field of an enumerated signal's line reads `1`. */
  lemma EnumSignalScale(spec: SpnSpec, fmt: Formats)
    requires spec.scale.Enum?
    ensures StartsWith(SignalTail(spec, fmt), "@1+ (1,")
  {
    StartsWithJoin("@1+ (1,", SignalRest(spec, fmt)[1..]);
    assert SignalTail(spec, fmt) == "@1+ (1," + SignalRest(spec, fmt)[1..];
  }

  // ----- Attribute and value lines -----

  /** `signaltools.raw_min_value`, with the exceptions Python raises for a tag scale or a missing bound. */
  function RawMin(spec: SpnSpec): (r: Result<int>)
    ensures r.Ok? <==> NumericSpn(spec) && spec.minValue.Some?
    ensures r.Ok? ==> r.value == RawMinValue(spec)
    ensures r.Raises? ==> r.error == (if spec.scale.Factor? && spec.offset.Some? && spec.minValue.Some? then ZeroDivisionError else TypeError)
  {
    if !spec.scale.Factor? || spec.offset.None? || spec.minValue.None? then Raises(TypeError)
    else if spec.scale.factor == 0.0 then Raises(ZeroDivisionError)
    else Ok(RawMinValue(spec))
  }

  function MessageLine(frameId: nat, name: string, dataLength: nat): string {
    "BO_ " + NatToString(frameId) + " " + name + ": " + NatToString(dataLength) + " Vector__XXX\n"
  }

  /** The message attribute that marks a frame as a J1939 parameter group (enumerator 3). */
  function FrameFormatLine(frameId: nat): string {
    "BA_ \"VFrameFormat\" BO_ " + NatToString(frameId) + " 3;\n"
  }

  function StartValueLine(frameId: nat, name: string, raw: int): string {
    "BA_ \"GenSigStartValue\" SG_ " + NatToString(frameId) + " " + name + " " + IntToString(raw) + ";\n"
  }

  function ValueTableLine(spn: nat, labels: string): string {
    "VAL_TABLE_ SPN_" + NatToString(spn) + "_value_labels " + labels + ";\n"
  }

  /** A value description; the source ends it with `;` and no line break. */
  function ValueDescriptionLine(frameId: nat, name: string, labels: string): string {
    "VAL_ " + NatToString(frameId) + " " + name + " " + labels + ";"
  }

  // ----- Value labels -----

  function LabelText(l: Label, fmt: Formats): string {
    match l
    case Line(text) => text
    case Lines(items) => fmt.labelList(items)
  }

  /** `<value> "<label>" `. */
  function LabelEntry(entry: (int, Label), fmt: Formats): string {
    IntToString(entry.0) + " \"" + LabelText(entry.1, fmt) + "\" "
  }

  /** `value_label_strs` after the loop over the first `|t|` items: each entry is put in front. */
  function ValueLabels(t: ValueTable, fmt: Formats): string {
    if t == [] then "" else LabelEntry(t[|t| - 1], fmt) + ValueLabels(t[..|t| - 1], fmt)
  }

  /** The entries of a table, first item first. */
  function EntriesInOrder(t: ValueTable, fmt: Formats): string {
    if t == [] then "" else LabelEntry(t[0], fmt) + EntriesInOrder(t[1..], fmt)
  }

  function Reverse<T>(s: seq<T>): (r: seq<T>)
    ensures |r| == |s| && forall i :: 0 <= i < |s| ==> r[i] == s[|s| - 1 - i]
  {
    if s == [] then [] else [s[|s| - 1]] + Reverse(s[..|s| - 1])
  }

  /** The value labels list the table's entries in reverse iteration order. */
  lemma {:induction false} ValueLabelsReversed(t: ValueTable, fmt: Formats)
    ensures ValueLabels(t, fmt) == EntriesInOrder(Reverse(t), fmt)
  {
    if t != [] {
      var r := Reverse(t);
      ValueLabelsReversed(t[..|t| - 1], fmt);
      assert r[0] == t[|t| - 1];
      assert r[1..] == Reverse(t[..|t| - 1]);
    }
  }

  /** The loop of lines 169 to 171. */
  method ValueLabelStrs(t: ValueTable, fmt: Formats) returns (s: string)
    ensures s == ValueLabels(t, fmt)
  {
    s := "";
    var i := 0;
    while i < |t|
      invariant 0 <= i <= |t|
      invariant s == ValueLabels(t[..i], fmt)
    {
      assert t[..i + 1][..i] == t[..i];
      s := LabelEntry(t[i], fmt) + s;
      i := i + 1;
    }
    assert t[..|t|] == t;
  }

  // ----- One SPN -----

  /** What one SPN adds to the sections: its signal line and, by its kind, attribute or value lines. */
  datatype SpnEntries = SpnEntries(
    signal: string,
    startValue: Option<string>,
    valueTable: Option<string>,
    valueDescription: Option<string>)

  /**
   * The entries of one SPN: a numeric signal gets exactly one start-value
   * attribute holding its raw minimum; an enumerated signal gets exactly one
   * value table and one value description instead.
   */
  function SpnPart(frameId: nat, spn: nat, spec: SpnSpec, fmt: Formats): (r: Result<SpnEntries>)
    ensures r.Raises? <==> (StartBit(spec).Raises? ||
      if spec.scale.Enum? then spec.discreteValues.None? else !(NumericSpn(spec) && spec.minValue.Some?))
    ensures r.Raises? && StartBit(spec).Raises? ==> r.error == TypeError
    ensures r.Raises? && StartBit(spec).Ok? && spec.scale.Enum? ==> r.error == KeyError
    ensures r.Ok? ==> StartBit(spec).Ok? && r.value.signal == SignalLine(SpnName(spn, spec.name), spec, fmt)
    ensures r.Ok? ==> (r.value.startValue.Some? <==> !spec.scale.Enum?)
    ensures r.Ok? ==> (r.value.valueTable.Some? <==> spec.scale.Enum?)
    ensures r.Ok? ==> (r.value.valueDescription.Some? <==> spec.scale.Enum?)
    ensures r.Ok? && !spec.scale.Enum? ==>
      r.value.startValue == Some(StartValueLine(frameId, SpnName(spn, spec.name), RawMinValue(spec)))
  {
    if StartBit(spec).Raises? then Raises(TypeError)
    else
    var name := SpnName(spn, spec.name);
    var signal := SignalLine(name, spec, fmt);
    if !spec.scale.Enum? then
      match RawMin(spec)
      case Raises(e) => Raises(e)
      case Ok(raw) => Ok(SpnEntries(signal, Some(StartValueLine(frameId, name, raw)), None, None))
    else if spec.discreteValues.None? then Raises(KeyError)
    else
      var labels := ValueLabels(spec.discreteValues.value, fmt);
      Ok(SpnEntries(signal, None, Some(ValueTableLine(spn, labels)), Some(ValueDescriptionLine(frameId, name, labels))))
  }

  // ----- Sections -----

  /** The five accumulated sections: `VAL_TABLE_`, `BO_SG_`, `BA_messages`, `BA_signals`, `VAL_`. */
  datatype Sections = Sections(
    valueTables: string,
    messages: string,
    messageAttributes: string,
    signalAttributes: string,
    valueDescriptions: string)

  const Initial: Sections := Sections("", "\n\n", "\n\n", "", "")

  function OptionalLine(x: Option<string>): string {
    if x.None? then "" else x.value
  }

  function AddSpn(s: Sections, e: SpnEntries): Sections {
    Sections(
      s.valueTables + OptionalLine(e.valueTable),
      s.messages + e.signal,
      s.messageAttributes,
      s.signalAttributes + OptionalLine(e.startValue),
      s.valueDescriptions + OptionalLine(e.valueDescription))
  }

  /** The sections after the SPNs `spns` of one PGN are added, or the first exception. */
  function AddSpns(s: Sections, frameId: nat, spec: PgnSpec, spns: seq<nat>, fmt: Formats): Result<Sections>
    decreases |spns|
  {
    if spns == [] then Ok(s)
    else
      match AddSpns(s, frameId, spec, spns[..|spns| - 1], fmt)
      case Raises(e) => Raises(e)
      case Ok(before) => AddOneSpn(before, frameId, spec, spns[|spns| - 1], fmt)
  }

  /** The sections after one SPN of a PGN is added, or its exception. */
  function AddOneSpn(s: Sections, frameId: nat, spec: PgnSpec, spn: nat, fmt: Formats): Result<Sections> {
    if spn !in spec.spns then Raises(KeyError)
    else
      match SpnPart(frameId, spn, spec.spns[spn], fmt)
      case Raises(e) => Raises(e)
      case Ok(entries) => Ok(AddSpn(s, entries))
  }

  /** The sections after one PGN and its SPNs are added, or the first exception. */
  function AddPgn(s: Sections, catalog: Catalog, pgn: nat, spns: seq<nat>, fmt: Formats): Result<Sections>
    requires IdsInRange(catalog)
  {
    if pgn !in catalog then Raises(KeyError)
    else
      var spec := catalog[pgn];
      var frameId := FrameId(spec.defaultPriority, pgn);
      match AddSpns(Started(s, spec, frameId), frameId, spec, spns, fmt)
      case Raises(e) => Raises(e)
      case Ok(closed) => Ok(closed.(messages := closed.messages + "\n"))
  }

  /** The sections once the `BO_` line and the `VFrameFormat` attribute of a PGN are added. */
  function Started(s: Sections, spec: PgnSpec, frameId: nat): Sections {
    s.(messages := s.messages + MessageLine(frameId, PgnName(spec.acronym, spec.groupLabel), spec.dataLength),
       messageAttributes := s.messageAttributes + FrameFormatLine(frameId))
  }

  /** The sections after the PGNs `pgns` are added, in order, or the first exception. */
  function Collect(catalog: Catalog, pgns: seq<(nat, seq<nat>)>, fmt: Formats): Result<Sections>
    requires IdsInRange(catalog)
    decreases |pgns|
  {
    if pgns == [] then Ok(Initial)
    else
      match Collect(catalog, pgns[..|pgns| - 1], fmt)
      case Raises(e) => Raises(e)
      case Ok(s) => AddPgn(s, catalog, pgns[|pgns| - 1].0, pgns[|pgns| - 1].1, fmt)
  }

  /** Once an SPN has raised, adding more SPNs raises the same exception. */
  lemma {:induction false} AddSpnsRaisesOn(s: Sections, frameId: nat, spec: PgnSpec, spns: seq<nat>, k: nat, fmt: Formats)
    requires k <= |spns| && AddSpns(s, frameId, spec, spns[..k], fmt).Raises?
    ensures AddSpns(s, frameId, spec, spns, fmt) == AddSpns(s, frameId, spec, spns[..k], fmt)
    decreases |spns|
  {
    if k < |spns| {
      assert spns[..|spns| - 1][..k] == spns[..k];
      AddSpnsRaisesOn(s, frameId, spec, spns[..|spns| - 1], k, fmt);
    } else {
      assert spns[..k] == spns;
    }
  }

  /** Once a PGN has raised, adding more PGNs raises the same exception. */
  lemma {:induction false} CollectRaisesOn(catalog: Catalog, pgns: seq<(nat, seq<nat>)>, k: nat, fmt: Formats)
    requires IdsInRange(catalog)
    requires k <= |pgns| && Collect(catalog, pgns[..k], fmt).Raises?
    ensures Collect(catalog, pgns, fmt) == Collect(catalog, pgns[..k], fmt)
    decreases |pgns|
  {
    if k < |pgns| {
      assert pgns[..|pgns| - 1][..k] == pgns[..k];
      CollectRaisesOn(catalog, pgns[..|pgns| - 1], k, fmt);
    } else {
      assert pgns[..k] == pgns;
    }
  }

  /** Adding SPNs leaves the message attributes as they are. */
  lemma {:induction false} AddSpnsKeepsMessageAttributes(s: Sections, frameId: nat, spec: PgnSpec, spns: seq<nat>, fmt: Formats)
    requires AddSpns(s, frameId, spec, spns, fmt).Ok?
    ensures AddSpns(s, frameId, spec, spns, fmt).value.messageAttributes == s.messageAttributes
    decreases |spns|
  {
    if spns != [] {
      AddSpnsKeepsMessageAttributes(s, frameId, spec, spns[..|spns| - 1], fmt);
    }
  }

  /** One `VFrameFormat` attribute per PGN, first PGN first. */
  function FrameFormatLines(catalog: Catalog, pgns: seq<(nat, seq<nat>)>): string
    requires IdsInRange(catalog)
    requires forall k :: 0 <= k < |pgns| ==> pgns[k].0 in catalog
  {
    if pgns == [] then ""
    else FrameFormatLine(FrameId(catalog[pgns[0].0].defaultPriority, pgns[0].0)) + FrameFormatLines(catalog, pgns[1..])
  }

  lemma SplitLast<T>(s: seq<T>)
    requires s != []
    ensures s[..|s| - 1] + [s[|s| - 1]] == s
  {
  }

  lemma KnownAppend(catalog: Catalog, pgns: seq<(nat, seq<nat>)>, last: (nat, seq<nat>))
    requires forall k :: 0 <= k < |pgns| ==> pgns[k].0 in catalog
    requires last.0 in catalog
    ensures forall k :: 0 <= k < |pgns + [last]| ==> (pgns + [last])[k].0 in catalog
  {
    forall k | 0 <= k < |pgns + [last]| ensures (pgns + [last])[k].0 in catalog {
      if k < |pgns| { assert (pgns + [last])[k] == pgns[k]; }
    }
  }

  lemma {:induction false} FrameFormatLinesAppend(catalog: Catalog, pgns: seq<(nat, seq<nat>)>, last: (nat, seq<nat>))
    requires IdsInRange(catalog)
    requires forall k :: 0 <= k < |pgns| ==> pgns[k].0 in catalog
    requires last.0 in catalog
    ensures forall k :: 0 <= k < |pgns + [last]| ==> (pgns + [last])[k].0 in catalog
    ensures FrameFormatLines(catalog, pgns + [last])
      == FrameFormatLines(catalog, pgns) + FrameFormatLine(FrameId(catalog[last.0].defaultPriority, last.0))
  {
    if pgns != [] {
      assert (pgns + [last])[1..] == pgns[1..] + [last];
      FrameFormatLinesAppend(catalog, pgns[1..], last);
    }
  }

  /** A DBC export that succeeds has found every PGN it was given in the catalog. */
  lemma {:induction false} CollectedPgnsKnown(catalog: Catalog, pgns: seq<(nat, seq<nat>)>, fmt: Formats)
    requires IdsInRange(catalog) && Collect(catalog, pgns, fmt).Ok?
    ensures forall k :: 0 <= k < |pgns| ==> pgns[k].0 in catalog
    decreases |pgns|
  {
    if pgns != [] {
      var init, last := pgns[..|pgns| - 1], pgns[|pgns| - 1];
      CollectedPgnsKnown(catalog, init, fmt);
      AddPgnMessageAttributes(Collect(catalog, init, fmt).value, catalog, last.0, last.1, fmt);
      KnownAppend(catalog, init, last);
      SplitLast(pgns);
    }
  }

  /**
   * The message attributes of a DBC export that succeeds are exactly one
   * `VFrameFormat` line per PGN, in order.
   */
  lemma {:induction false} OneFrameFormatPerPgn(catalog: Catalog, pgns: seq<(nat, seq<nat>)>, fmt: Formats)
    requires IdsInRange(catalog) && Collect(catalog, pgns, fmt).Ok?
    ensures forall k :: 0 <= k < |pgns| ==> pgns[k].0 in catalog
    ensures Collect(catalog, pgns, fmt).value.messageAttributes == "\n\n" + FrameFormatLines(catalog, pgns)
    decreases |pgns|
  {
    CollectedPgnsKnown(catalog, pgns, fmt);
    if pgns != [] {
      var init, last := pgns[..|pgns| - 1], pgns[|pgns| - 1];
      OneFrameFormatPerPgn(catalog, init, fmt);
      var s := Collect(catalog, init, fmt).value;
      AddPgnMessageAttributes(s, catalog, last.0, last.1, fmt);
      SplitLast(pgns);
      FrameFormatStep(catalog, init, last, s.messageAttributes, Collect(catalog, pgns, fmt).value.messageAttributes);
    }
  }

  lemma FrameFormatStep(catalog: Catalog, init: seq<(nat, seq<nat>)>, last: (nat, seq<nat>), before: string, after: string)
    requires IdsInRange(catalog)
    requires forall k :: 0 <= k < |init| ==> init[k].0 in catalog
    requires last.0 in catalog
    requires before == "\n\n" + FrameFormatLines(catalog, init)
    requires after == before + FrameFormatLine(FrameId(catalog[last.0].defaultPriority, last.0))
    ensures forall k :: 0 <= k < |init + [last]| ==> (init + [last])[k].0 in catalog
    ensures after == "\n\n" + FrameFormatLines(catalog, init + [last])
  {
    FrameFormatLinesAppend(catalog, init, last);
    AppendAssociative("\n\n", FrameFormatLines(catalog, init), FrameFormatLine(FrameId(catalog[last.0].defaultPriority, last.0)));
  }

  lemma AppendAssociative<T>(a: seq<T>, b: seq<T>, c: seq<T>)
    ensures (a + b) + c == a + (b + c)
  {
  }

  /** A PGN that is added adds its one `VFrameFormat` attribute and nothing else to the message attributes. */
  lemma AddPgnMessageAttributes(s: Sections, catalog: Catalog, pgn: nat, spns: seq<nat>, fmt: Formats)
    requires IdsInRange(catalog) && AddPgn(s, catalog, pgn, spns, fmt).Ok?
    ensures pgn in catalog
    ensures AddPgn(s, catalog, pgn, spns, fmt).value.messageAttributes
      == s.messageAttributes + FrameFormatLine(FrameId(catalog[pgn].defaultPriority, pgn))
  {
    var spec := catalog[pgn];
    var frameId := FrameId(spec.defaultPriority, pgn);
    AddSpnsKeepsMessageAttributes(Started(s, spec, frameId), frameId, spec, spns, fmt);
  }

  /** The `SG_` lines of the listed SPNs of one PGN, in list order. */
  function SignalLines(spec: PgnSpec, spns: seq<nat>, fmt: Formats): string
    decreases |spns|
  {
    if spns == [] then ""
    else
      var spn := spns[|spns| - 1];
      SignalLines(spec, spns[..|spns| - 1], fmt)
      + (if spn in spec.spns && StartBit(spec.spns[spn]).Ok? then SignalLine(SpnName(spn, spec.spns[spn].name), spec.spns[spn], fmt) else "")
  }

  /** The block of one PGN in the messages section: its `BO_` line, its `SG_` lines and a blank line. */
  function MessageBlock(catalog: Catalog, pgn: nat, spns: seq<nat>, fmt: Formats): string
    requires IdsInRange(catalog) && pgn in catalog
  {
    var spec := catalog[pgn];
    MessageLine(FrameId(spec.defaultPriority, pgn), PgnName(spec.acronym, spec.groupLabel), spec.dataLength)
    + SignalLines(spec, spns, fmt) + "\n"
  }

  /** One message block per PGN, first PGN first. */
  function MessageBlocks(catalog: Catalog, pgns: seq<(nat, seq<nat>)>, fmt: Formats): string
    requires IdsInRange(catalog)
    requires forall k :: 0 <= k < |pgns| ==> pgns[k].0 in catalog
  {
    if pgns == [] then ""
    else MessageBlock(catalog, pgns[0].0, pgns[0].1, fmt) + MessageBlocks(catalog, pgns[1..], fmt)
  }

  lemma {:induction false} MessageBlocksAppend(catalog: Catalog, pgns: seq<(nat, seq<nat>)>, last: (nat, seq<nat>), fmt: Formats)
    requires IdsInRange(catalog)
    requires forall k :: 0 <= k < |pgns| ==> pgns[k].0 in catalog
    requires last.0 in catalog
    ensures forall k :: 0 <= k < |pgns + [last]| ==> (pgns + [last])[k].0 in catalog
    ensures MessageBlocks(catalog, pgns + [last], fmt)
      == MessageBlocks(catalog, pgns, fmt) + MessageBlock(catalog, last.0, last.1, fmt)
  {
    KnownAppend(catalog, pgns, last);
    if pgns != [] {
      assert (pgns + [last])[1..] == pgns[1..] + [last];
      MessageBlocksAppend(catalog, pgns[1..], last, fmt);
      AppendAssociative(MessageBlock(catalog, pgns[0].0, pgns[0].1, fmt), MessageBlocks(catalog, pgns[1..], fmt),
        MessageBlock(catalog, last.0, last.1, fmt));
    }
  }

  /** An SPN that is added adds exactly its `SG_` line to the messages. */
  lemma AddOneSpnMessages(s: Sections, frameId: nat, spec: PgnSpec, spn: nat, fmt: Formats)
    requires AddOneSpn(s, frameId, spec, spn, fmt).Ok?
    ensures spn in spec.spns && StartBit(spec.spns[spn]).Ok?
    ensures AddOneSpn(s, frameId, spec, spn, fmt).value.messages
      == s.messages + SignalLine(SpnName(spn, spec.spns[spn].name), spec.spns[spn], fmt)
  {
  }

  /** The SPNs of a PGN add their `SG_` lines, in order, and nothing else to the messages. */
  lemma {:induction false} AddSpnsMessages(s: Sections, frameId: nat, spec: PgnSpec, spns: seq<nat>, fmt: Formats)
    requires AddSpns(s, frameId, spec, spns, fmt).Ok?
    ensures AddSpns(s, frameId, spec, spns, fmt).value.messages == s.messages + SignalLines(spec, spns, fmt)
    decreases |spns|
  {
    if spns != [] {
      var init, spn := spns[..|spns| - 1], spns[|spns| - 1];
      AddSpnsMessages(s, frameId, spec, init, fmt);
      var before := AddSpns(s, frameId, spec, init, fmt).value;
      AddOneSpnMessages(before, frameId, spec, spn, fmt);
      AppendAssociative(s.messages, SignalLines(spec, init, fmt),
        SignalLine(SpnName(spn, spec.spns[spn].name), spec.spns[spn], fmt));
    }
  }

  /** A PGN that is added appends its one message block to the messages. */
  lemma AddPgnMessages(s: Sections, catalog: Catalog, pgn: nat, spns: seq<nat>, fmt: Formats)
    requires IdsInRange(catalog) && AddPgn(s, catalog, pgn, spns, fmt).Ok?
    ensures pgn in catalog
    ensures AddPgn(s, catalog, pgn, spns, fmt).value.messages == s.messages + MessageBlock(catalog, pgn, spns, fmt)
  {
    var spec := catalog[pgn];
    var frameId := FrameId(spec.defaultPriority, pgn);
    var bo := MessageLine(frameId, PgnName(spec.acronym, spec.groupLabel), spec.dataLength);
    AddSpnsMessages(Started(s, spec, frameId), frameId, spec, spns, fmt);
    var sg := SignalLines(spec, spns, fmt);
    AppendAssociative(s.messages, bo, sg);
    AppendAssociative(s.messages, bo + sg, "\n");
  }

  lemma MessageStep(catalog: Catalog, init: seq<(nat, seq<nat>)>, last: (nat, seq<nat>), before: string, after: string, fmt: Formats)
    requires IdsInRange(catalog)
    requires forall k :: 0 <= k < |init| ==> init[k].0 in catalog
    requires last.0 in catalog
    requires before == "\n\n" + MessageBlocks(catalog, init, fmt)
    requires after == before + MessageBlock(catalog, last.0, last.1, fmt)
    ensures forall k :: 0 <= k < |init + [last]| ==> (init + [last])[k].0 in catalog
    ensures after == "\n\n" + MessageBlocks(catalog, init + [last], fmt)
  {
    MessageBlocksAppend(catalog, init, last, fmt);
    AppendAssociative("\n\n", MessageBlocks(catalog, init, fmt), MessageBlock(catalog, last.0, last.1, fmt));
  }

  /**
   * The messages section of a DBC export that succeeds is exactly one block
   * per PGN, in order, each opened by the PGN's one `BO_` line.
   */
  lemma {:induction false} OneMessagePerPgn(catalog: Catalog, pgns: seq<(nat, seq<nat>)>, fmt: Formats)
    requires IdsInRange(catalog) && Collect(catalog, pgns, fmt).Ok?
    ensures forall k :: 0 <= k < |pgns| ==> pgns[k].0 in catalog
    ensures Collect(catalog, pgns, fmt).value.messages == "\n\n" + MessageBlocks(catalog, pgns, fmt)
    decreases |pgns|
  {
    CollectedPgnsKnown(catalog, pgns, fmt);
    if pgns != [] {
      var init, last := pgns[..|pgns| - 1], pgns[|pgns| - 1];
      OneMessagePerPgn(catalog, init, fmt);
      var s := Collect(catalog, init, fmt).value;
      AddPgnMessages(s, catalog, last.0, last.1, fmt);
      SplitLast(pgns);
      MessageStep(catalog, init, last, s.messages, Collect(catalog, pgns, fmt).value.messages, fmt);
    }
  }

  // ----- The export -----

  /**
   * The loops of lines 146 to 176: the five sections, PGN by PGN and SPN by
   * SPN, or the first exception.
   */
  method CollectSections(catalog: Catalog, pgnsSpns: seq<(nat, seq<nat>)>, fmt: Formats) returns (r: Result<Sections>)
    requires IdsInRange(catalog)
    ensures r == Collect(catalog, pgnsSpns, fmt)
  {
    var acc := Initial;
    var i := 0;
    while i < |pgnsSpns|
      invariant 0 <= i <= |pgnsSpns|
      invariant Collect(catalog, pgnsSpns[..i], fmt) == Ok(acc)
    {
      assert pgnsSpns[..i + 1][..i] == pgnsSpns[..i];
      var next := PgnSections(acc, catalog, pgnsSpns[i].0, pgnsSpns[i].1, fmt);
      if next.Raises? {
        CollectRaisesOn(catalog, pgnsSpns, i + 1, fmt);
        return next;
      }
      acc := next.value;
      i := i + 1;
    }
    assert pgnsSpns[..|pgnsSpns|] == pgnsSpns;
    r := Ok(acc);
  }

  /** One pass of the PGN loop: the `BO_` line, the `VFrameFormat` attribute, then the SPN loop. */
  method PgnSections(s: Sections, catalog: Catalog, pgn: nat, spns: seq<nat>, fmt: Formats) returns (r: Result<Sections>)
    requires IdsInRange(catalog)
    ensures r == AddPgn(s, catalog, pgn, spns, fmt)
  {
    if pgn !in catalog {
      return Raises(KeyError);
    }
    var spec := catalog[pgn];
    var frameId := FrameId(spec.defaultPriority, pgn);
    var started := Started(s, spec, frameId);
    var acc := started;
    var j := 0;
    while j < |spns|
      invariant 0 <= j <= |spns|
      invariant AddSpns(started, frameId, spec, spns[..j], fmt) == Ok(acc)
    {
      assert spns[..j + 1][..j] == spns[..j];
      var next := SpnSections(acc, frameId, spec, spns[j], fmt);
      if next.Raises? {
        AddSpnsRaisesOn(started, frameId, spec, spns, j + 1, fmt);
        return next;
      }
      acc := next.value;
      j := j + 1;
    }
    assert spns[..|spns|] == spns;
    r := Ok(acc.(messages := acc.messages + "\n"));
  }

  /** One pass of the SPN loop: the `SG_` line, then the start value or the value table and descriptions. */
  method SpnSections(s: Sections, frameId: nat, spec: PgnSpec, spn: nat, fmt: Formats) returns (r: Result<Sections>)
    ensures r == AddOneSpn(s, frameId, spec, spn, fmt)
  {
    if spn !in spec.spns {
      return Raises(KeyError);
    }
    var spnSpec := spec.spns[spn];
    if StartBit(spnSpec).Raises? {
      return Raises(TypeError);
    }
    var spnName := SpnName(spn, spnSpec.name);
    var valueTables, messages, signalAttributes, valueDescriptions := s.valueTables, s.messages, s.signalAttributes, s.valueDescriptions;
    messages := messages + SignalLine(spnName, spnSpec, fmt);
    if !spnSpec.scale.Enum? {
      var raw := RawMin(spnSpec);
      if raw.Raises? {
        return Raises(raw.error);
      }
      assert SpnPart(frameId, spn, spnSpec, fmt)
        == Ok(SpnEntries(SignalLine(spnName, spnSpec, fmt), Some(StartValueLine(frameId, spnName, raw.value)), None, None));
      assert valueTables + OptionalLine(None) == valueTables;
      assert valueDescriptions + OptionalLine(None) == valueDescriptions;
      signalAttributes := signalAttributes + StartValueLine(frameId, spnName, raw.value);
    } else {
      if spnSpec.discreteValues.None? {
        return Raises(KeyError);
      }
      var labels := ValueLabelStrs(spnSpec.discreteValues.value, fmt);
      assert SpnPart(frameId, spn, spnSpec, fmt)
        == Ok(SpnEntries(SignalLine(spnName, spnSpec, fmt), None, Some(ValueTableLine(spn, labels)), Some(ValueDescriptionLine(frameId, spnName, labels))));
      assert signalAttributes + OptionalLine(None) == signalAttributes;
      valueTables := valueTables + ValueTableLine(spn, labels);
      valueDescriptions := valueDescriptions + ValueDescriptionLine(frameId, spnName, labels);
    }
    r := Ok(Sections(valueTables, messages, s.messageAttributes, signalAttributes, valueDescriptions));
  }

  /** The text of line 178: the sections and headers in their fixed order. */
  function Assemble(s: Sections): string {
    Header1 + s.valueTables + s.messages + Header2 + s.messageAttributes + s.signalAttributes + s.valueDescriptions
  }

  /** `_J1939_dbc(J1939DA, PGNs_SPNs)`: the DBC text, or the exception it raises. */
  function DbcText(catalog: Catalog, pgnsSpns: seq<(nat, seq<nat>)>, fmt: Formats): (r: Result<string>)
    requires IdsInRange(catalog)
    ensures r.Raises? <==> Collect(catalog, pgnsSpns, fmt).Raises?
  {
    match Collect(catalog, pgnsSpns, fmt)
    case Raises(e) => Raises(e)
    case Ok(s) => Ok(Assemble(s))
  }

  method J1939Dbc(catalog: Catalog, pgnsSpns: seq<(nat, seq<nat>)>, fmt: Formats) returns (r: Result<string>)
    requires IdsInRange(catalog)
    ensures r == DbcText(catalog, pgnsSpns, fmt)
  {
    var s := CollectSections(catalog, pgnsSpns, fmt);
    if s.Raises? {
      return Raises(s.error);
    }
    r := Ok(Assemble(s.value));
  }
}
