/**
 * The catalog builder's normalisers in `src/akrocansim/J1939.py`: the
 * parsers that turn Digital Annex cell texts into SPN positions, lengths,
 * units and discrete-value tables. `int()` failures surface as `ValueError`.
 */
module Normalisers {
  import opened Wrappers
  import opened Text
  import opened Catalog

  // ---- _map_spn_position ----

  /** The literal position texts matched before the general forms, with their (byte, bit). */
  const PositionLiterals: seq<(string, (int, int))> := [
    ("1-2.1", (0, 0)),
    ("1.7-2", (0, 7)),
    ("1.7-2.1", (0, 7)),
    ("2.4-4", (1, 3)),
    ("2.8-3.1", (1, 7)),
    ("3.7-4", (2, 6)),
    ("4.7-5.1", (3, 6)),
    ("5.7-6", (4, 6)),
    ("5.8-6.1", (4, 7)),
    ("6,7.1", (5, 0)),
    ("7.6-8.1", (6, 5)),
    ("7.7-8.1", (6, 6)),
    ("1-N", (0, 0)),
    ("2-n", (1, 0)),
    ("2-N", (1, 0)),
    ("2 to n", (1, 0)),
    ("4 to n", (3, 0)),
    ("5 to A", (4, 0))
  ]

  /** A zero-based (start byte, start bit) pair, each possibly `None`. */
  type Position = (Option<int>, Option<int>)

  /**
   * `_map_spn_position`, its `match` on the text, its length and the number
   * of pieces it splits into at '.' and at '-':
   * a single letter has no position; the literals give their fixed pair;
   * one or two characters with no '.' or '-' are a one-based byte;
   * three or four characters with one '.' are one-based "byte.bit";
   * three, four, five or seven characters with one '-' are a one-based byte range;
   * anything else has no position.
   */
  function MapSpnPosition(pos: Option<string>): (r: Result<Position>)
    ensures r.Raises? ==> r.error == ValueError
    ensures r.Ok? && r.value.0.None? ==> r.value.1.None?
  {
    if pos.None? then Ok((None, None))
    else
      PositionOfText(pos.value, FirstMatch(PositionLiterals, pos.value))
  }

  /** A position text, given the literal it matches, if any. */
  function PositionOfText(p: string, literal: Option<(int, int)>): (r: Result<Position>)
    ensures r.Raises? ==> r.error == ValueError
    ensures r.Ok? && r.value.0.None? ==> r.value.1.None?
  {
    // A single letter holds no '.' or '-', so its split counts are 1.
    if |p| == 1 && IsAlpha(p[0]) then Ok((None, None))
    else if literal.Some? then Ok((Some(literal.value.0), Some(literal.value.1)))
    else NumericPosition(p)
  }

  /** The general forms of a position, after the literals: one-based numbers. */
  function NumericPosition(p: string): (r: Result<Position>)
    ensures r.Raises? ==> r.error == ValueError
    ensures r.Ok? && r.value.0.None? ==> r.value.1.None?
  {
    var dots := Split(p, '.');
    var dashes := Split(p, '-');
    if (|p| == 1 || |p| == 2) && |dots| == 1 && |dashes| == 1 then BytePosition(p)
    else if (|p| == 3 || |p| == 4) && |dots| == 2 && |dashes| == 1 then ByteBitPosition(dots[0], dots[1])
    else if (|p| == 3 || |p| == 4 || |p| == 5 || |p| == 7) && |dots| == 1 && |dashes| == 2 then BytePosition(dashes[0])
    else Ok((None, None))
  }

  /** A one-based byte number, at bit 0. */
  function BytePosition(byte: string): (r: Result<Position>)
    ensures r.Raises? ==> r.error == ValueError
    ensures r.Ok? ==> r.value.0.Some? && r.value.1 == Some(0)
  {
    OneBased(ParseInt(byte, 10), Some(1))
  }

  /** A one-based byte number and a one-based bit number. */
  function ByteBitPosition(byte: string, bit: string): (r: Result<Position>)
    ensures r.Raises? ==> r.error == ValueError
    ensures r.Ok? ==> r.value.0.Some? && r.value.1.Some?
  {
    OneBased(ParseInt(byte, 10), ParseInt(bit, 10))
  }

  /** Zero-based byte and bit from parsed one-based numbers; a failed parse is a `ValueError`. */
  function OneBased(byte: Option<int>, bit: Option<int>): (r: Result<Position>)
    ensures r.Raises? <==> byte.None? || bit.None?
    ensures r.Ok? ==> r.value == (Some(byte.value - 1), Some(bit.value - 1))
  {
    if byte.None? || bit.None? then Raises(ValueError)
    else Ok((Some(byte.value - 1), Some(bit.value - 1)))
  }

  /** A text that no literal matches and that is not a single letter goes to the general forms. */
  lemma PositionIsNumeric(p: string)
    requires FirstMatch(PositionLiterals, p).None?
    requires |p| != 1 || !IsAlpha(p[0])
    ensures MapSpnPosition(Some(p)) == NumericPosition(p)
  {
    assert MapSpnPosition(Some(p)) == PositionOfText(p, None);
  }

  /** `s` is made of digits and the character `c` only. */
  predicate DigitsAnd(s: string, c: char) {
    forall i :: 0 <= i < |s| ==> IsDigit(s[i]) || s[i] == c
  }

  /** Every literal has a character other than a digit and '.', and one other than a digit and '-'. */
  lemma LiteralsAreNotNumeric(i: nat)
    requires i < |PositionLiterals|
    ensures !DigitsAnd(PositionLiterals[i].0, '.') && !DigitsAnd(PositionLiterals[i].0, '-')
  {
    var k := PositionLiterals[i].0;
    if i < 9 || i == 10 || i == 11 {
      assert k[1] == '.' || k[1] == '-';
      assert k[3] == '-' || k[1] == '-';
    } else if i == 9 {
      assert k[1] == ',';
    } else if i < 15 {
      assert k[2] == 'N' || k[2] == 'n';
    } else {
      assert k[1] == ' ';
    }
  }

  lemma NoLiteralMatches(s: string, c: char)
    requires c == '.' || c == '-'
    requires DigitsAnd(s, c)
    ensures FirstMatch(PositionLiterals, s).None?
  {
    forall i | 0 <= i < |PositionLiterals|
      ensures PositionLiterals[i].0 != s
    {
      LiteralsAreNotNumeric(i);
    }
  }

  lemma {:induction false} SplitWithout(s: string, sep: char)
    requires forall i :: 0 <= i < |s| ==> s[i] != sep
    ensures Split(s, sep) == [s]
  {
    if s != [] {
      SplitWithout(s[1..], sep);
      assert [s[0]] + s[1..] == s;
    }
  }

  /** Splitting `a sep b` where `a` has no separator. */
  lemma {:induction false} SplitAfter(a: string, b: string, sep: char)
    requires forall i :: 0 <= i < |a| ==> a[i] != sep
    ensures Split(a + [sep] + b, sep) == [a] + Split(b, sep)
  {
    if a == [] {
      assert a + [sep] + b == [sep] + b;
      assert ([sep] + b)[1..] == b;
    } else {
      assert (a + [sep] + b)[0] == a[0];
      assert (a + [sep] + b)[1..] == a[1..] + [sep] + b;
      SplitAfter(a[1..], b, sep);
      assert [a[0]] + a[1..] == a;
    }
  }

  lemma DecimalDigitsOnly(n: nat, c: char)
    requires !IsDigit(c)
    ensures forall i :: 0 <= i < |NatToString(n)| ==> NatToString(n)[i] != c
  {
  }

  lemma {:induction false} NatToStringLength(n: nat)
    ensures n < 10 ==> |NatToString(n)| == 1
    ensures 10 <= n < 100 ==> |NatToString(n)| == 2
  {
  }

  /** Digits joined by `c` are digits and `c` only, and hold no other non-digit. */
  lemma DigitsJoined(x: string, y: string, c: char, d: char)
    requires IsNumeric(x) && IsNumeric(y) && !IsDigit(d) && d != c
    ensures DigitsAnd(x + [c] + y, c)
    ensures forall i :: 0 <= i < |x + [c] + y| ==> (x + [c] + y)[i] != d
  {
    var s := x + [c] + y;
    assert forall i :: 0 <= i < |s| ==> s[i] == if i < |x| then x[i] else if i == |x| then c else y[i - |x| - 1];
  }

  lemma ByteBranch(s: string)
    requires |s| == 1 || |s| == 2
    requires Split(s, '.') == [s] && Split(s, '-') == [s]
    ensures NumericPosition(s) == BytePosition(s)
  {
  }

  lemma ByteBitBranch(s: string, bs: string, ks: string)
    requires |s| == 3 || |s| == 4
    requires Split(s, '.') == [bs, ks] && Split(s, '-') == [s]
    ensures NumericPosition(s) == ByteBitPosition(bs, ks)
  {
  }

  lemma RangeBranch(s: string, as_: string, bs: string)
    requires |s| == 3 || |s| == 4 || |s| == 5
    requires Split(s, '.') == [s] && Split(s, '-') == [as_, bs]
    ensures NumericPosition(s) == BytePosition(as_)
  {
  }

  /** A one-based byte number "n" is byte n - 1, bit 0. */
  lemma PositionOfByte(n: nat)
    requires n < 100
    ensures MapSpnPosition(Some(NatToString(n))) == Ok((Some(n - 1), Some(0)))
  {
    var s := NatToString(n);
    NatToStringLength(n);
    DecimalDigitsOnly(n, '.');
    DecimalDigitsOnly(n, '-');
    SplitWithout(s, '.');
    SplitWithout(s, '-');
    assert DigitsAnd(s, '.');
    NoLiteralMatches(s, '.');
    NatToStringParses(n);
    ByteBranch(s);
    PositionIsNumeric(s);
  }

  lemma ByteBitValue(bs: string, ks: string, b: int, k: int)
    requires ParseInt(bs, 10) == Some(b) && ParseInt(ks, 10) == Some(k)
    ensures ByteBitPosition(bs, ks) == Ok((Some(b - 1), Some(k - 1)))
  {
    var pb, pk := ParseInt(bs, 10), ParseInt(ks, 10);
    assert ByteBitPosition(bs, ks) == OneBased(pb, pk);
    assert OneBased(Some(b), Some(k)) == Ok((Some(b - 1), Some(k - 1)));
  }

  lemma ByteValue(bs: string, b: int)
    requires ParseInt(bs, 10) == Some(b)
    ensures BytePosition(bs) == Ok((Some(b - 1), Some(0)))
  {
  }

  /** Digit texts joined by `c` split at `c` into the two texts, and have no other separator. */
  lemma SplitJoined(x: string, y: string, c: char, d: char)
    requires IsNumeric(x) && IsNumeric(y) && !IsDigit(c) && !IsDigit(d) && c != d
    ensures Split(x + [c] + y, c) == [x, y]
    ensures Split(x + [c] + y, d) == [x + [c] + y]
    ensures DigitsAnd(x + [c] + y, c)
  {
    assert forall i :: 0 <= i < |x| ==> x[i] != c;
    assert forall i :: 0 <= i < |y| ==> y[i] != c;
    SplitAfter(x, y, c);
    SplitWithout(y, c);
    DigitsJoined(x, y, c, d);
    SplitWithout(x + [c] + y, d);
  }

  lemma ByteAndBitText(bs: string, ks: string, b: int, k: int)
    requires IsNumeric(bs) && IsNumeric(ks) && (|bs| + |ks| == 2 || |bs| + |ks| == 3)
    requires ParseInt(bs, 10) == Some(b) && ParseInt(ks, 10) == Some(k)
    ensures MapSpnPosition(Some(bs + ['.'] + ks)) == Ok((Some(b - 1), Some(k - 1)))
  {
    var s := bs + ['.'] + ks;
    SplitJoined(bs, ks, '.', '-');
    NoLiteralMatches(s, '.');
    PositionIsNumeric(s);
    ByteBitBranch(s, bs, ks);
    ByteBitValue(bs, ks, b, k);
  }

  lemma RangeText(as_: string, bs: string, a: int)
    requires IsNumeric(as_) && IsNumeric(bs) && 2 <= |as_| + |bs| <= 4
    requires ParseInt(as_, 10) == Some(a)
    ensures MapSpnPosition(Some(as_ + ['-'] + bs)) == Ok((Some(a - 1), Some(0)))
  {
    var s := as_ + ['-'] + bs;
    SplitJoined(as_, bs, '-', '.');
    NoLiteralMatches(s, '-');
    PositionIsNumeric(s);
    RangeBranch(s, as_, bs);
    ByteValue(as_, a);
  }

  /** A one-based "byte.bit" text gives byte - 1 and bit - 1. */
  lemma PositionOfByteAndBit(b: nat, k: nat)
    requires b < 100 && k < 10
    ensures MapSpnPosition(Some(NatToString(b) + "." + NatToString(k))) == Ok((Some(b - 1), Some(k - 1)))
  {
    NatToStringLength(b);
    NatToStringLength(k);
    NatToStringParses(b);
    NatToStringParses(k);
    ByteAndBitText(NatToString(b), NatToString(k), b, k);
  }

  /** A one-based byte range "a-b" starts at byte a - 1, bit 0. */
  lemma PositionOfByteRange(a: nat, b: nat)
    requires a < 100 && b < 100
    ensures MapSpnPosition(Some(NatToString(a) + "-" + NatToString(b))) == Ok((Some(a - 1), Some(0)))
  {
    NatToStringLength(a);
    NatToStringLength(b);
    NatToStringParses(a);
    RangeText(NatToString(a), NatToString(b), a);
  }

  /** No text and a single letter have no position; a literal is checked before the general forms. */
  lemma PositionExamples(c: char)
    requires IsAlpha(c)
    ensures MapSpnPosition(None) == Ok((None, None))
    ensures MapSpnPosition(Some([c])) == Ok((None, None))
    ensures MapSpnPosition(Some("2.4-4")) == Ok((Some(1), Some(3)))
  {
    SplitWithout([c], '.');
    SplitWithout([c], '-');
    assert PositionLiterals[3] == ("2.4-4", (1, 3));
    assert forall i :: 0 <= i < 3 ==> PositionLiterals[i].0 != "2.4-4";
  }

  // ---- _map_spn_length ----

  /**
   * `_map_spn_length`: "n bit"/"n bits" is n bits, "n byte"/"n bytes" is
   * 8n bits, anything else (or no text) has no length.
   */
  function MapSpnLength(length: Option<string>): (r: Result<Option<int>>)
    ensures r.Raises? ==> r.error == ValueError
    ensures length.None? ==> r == Ok(None)
    ensures length.Some? ==>
      var words := Split(length.value, ' ');
      && (|words| != 2 || words[1] !in {"bit", "bits", "byte", "bytes"} ==> r == Ok(None))
      && (|words| == 2 && words[1] in {"bit", "bits", "byte", "bytes"} ==>
            var factor := if words[1] in {"bit", "bits"} then 1 else 8;
            && (r.Raises? <==> ParseInt(words[0], 10).None?)
            && (r.Ok? ==> r.value == Some(ParseInt(words[0], 10).value * factor)))
  {
    if length.None? then Ok(None) else LengthOfWords(Split(length.value, ' '))
  }

  /** The length stated by the words of a length text. */
  function LengthOfWords(words: seq<string>): (r: Result<Option<int>>)
    ensures r.Raises? ==> r.error == ValueError
    ensures |words| != 2 ==> r == Ok(None)
  {
    if |words| == 2 && (words[1] == "bit" || words[1] == "bits") then
      match ParseInt(words[0], 10)
      case Some(n) => Ok(Some(n))
      case None => Raises(ValueError)
    else if |words| == 2 && (words[1] == "byte" || words[1] == "bytes") then
      match ParseInt(words[0], 10)
      case Some(n) => Ok(Some(n * 8))
      case None => Raises(ValueError)
    else Ok(None)
  }

  lemma LengthOfNumberAndUnit(ns: string, n: int, unit: string)
    requires unit in {"bit", "bits", "byte", "bytes"}
    requires ParseInt(ns, 10) == Some(n)
    ensures LengthOfWords([ns, unit]) == Ok(Some(if unit == "bit" || unit == "bits" then n else 8 * n))
  {
  }

  /** A number and a word joined by a space split into the two. */
  lemma SplitWords(ns: string, word: string)
    requires IsNumeric(ns)
    requires forall i :: 0 <= i < |word| ==> word[i] != ' '
    ensures Split(ns + " " + word, ' ') == [ns, word]
  {
    assert forall i :: 0 <= i < |ns| ==> ns[i] != ' ';
    SplitAfter(ns, word, ' ');
    SplitWithout(word, ' ');
    assert ns + " " + word == ns + [' '] + word;
  }

  /** The length texts the Digital Annex uses are read back as the number of bits they state. */
  lemma SpnLengthOfText(n: nat, unit: string)
    requires unit in {"bit", "bits", "byte", "bytes"}
    ensures MapSpnLength(Some(NatToString(n) + " " + unit))
         == Ok(Some(if unit == "bit" || unit == "bits" then n else 8 * n))
  {
    var ns := NatToString(n);
    SplitWords(ns, unit);
    NatToStringParses(n);
    LengthOfNumberAndUnit(ns, n, unit);
  }

  /** A text without a unit word, such as "Variable", has no length. */
  lemma SpnLengthVariable()
    ensures MapSpnLength(Some("Variable")) == Ok(None)
  {
    SplitWithout("Variable", ' ');
  }

  // ---- _map_units ----

  /** `_map_units`: 'bit' and 'bit-mapped' have no unit text; others are kept. */
  function MapUnits(unit: Option<string>): (r: Option<string>)
    ensures r.None? <==> unit.None?
    ensures unit.Some? && (unit.value == "bit" || unit.value == "bit-mapped") ==> r == Some("")
    ensures unit.Some? && unit.value != "bit" && unit.value != "bit-mapped" ==> r == unit
  {
    if unit.None? then None
    else if unit.value == "bit" || unit.value == "bit-mapped" then Some("")
    else unit
  }

  /** Normalising a unit twice changes nothing more. */
  lemma MapUnitsIdempotent(unit: Option<string>)
    ensures MapUnits(MapUnits(unit)) == MapUnits(unit)
  {
    if unit.Some? && (unit.value == "bit" || unit.value == "bit-mapped") {
      assert MapUnits(unit) == Some("");
      assert "" != "bit" && "" != "bit-mapped";
    }
  }

  // ---- _parse_discrete_value_label ----

  /** A description line after `lstrip()`, `removeprefix('13 preprogrammed')` and `removesuffix('_x000D_')`. */
  function CleanLine(raw: string): string {
    RemoveSuffix(RemovePrefix(LStrip(raw), "13 preprogrammed"), "_x000D_")
  }

  /**
   * The value token of a line: the text before the first ' ', '-', '…' and
   * '..', less one trailing 'b' and then one trailing ':'.
   */
  function ValueToken(line: string): string {
    var head := BeforeFirst(BeforeFirst(BeforeFirst(BeforeFirst(line, " "), "-"), "…"), "..");
    RemoveSuffix(RemoveSuffix(head, "b"), ":")
  }

  /** The value a token stands for, if any, and the `is_decimal` flag afterwards. */
  datatype Reading = Reading(value: Option<int>, isDecimal: bool)

  /** `val[:2] in ['0x', '0X']` */
  predicate IsHexToken(val: string) { StartsWith(val, "0x") || StartsWith(val, "0X") }

  /**
   * Reading a token: a "0x"/"0X" token is base 16 (a bad one raises);
   * another all-digit token is base 2 until a token is not valid base 2,
   * which is read as decimal and sets the flag for good; anything else has
   * no value.
   */
  function ReadValue(val: string, isDecimal: bool): (r: Result<Reading>)
    ensures r.Raises? <==> IsHexToken(val) && ParseInt(val, 16).None?
    ensures r.Raises? ==> r.error == ValueError
    ensures r.Ok? && IsHexToken(val) ==> r.value == Reading(ParseInt(val, 16), isDecimal)
    ensures r.Ok? && isDecimal ==> r.value.isDecimal
    ensures r.Ok? && r.value.isDecimal && !isDecimal ==> IsNumeric(val) && !IsHexToken(val)
    ensures r.Ok? && !IsHexToken(val) ==>
      (r.value.value.Some? <==> IsNumeric(val))
      && (r.value.isDecimal && IsNumeric(val) ==> r.value.value == Some(DigitsValue(val, 10) as int))
  {
    if IsHexToken(val) then
      match ParseInt(val, 16)
      case Some(n) => Ok(Reading(Some(n), isDecimal))
      case None => Raises(ValueError)
    else if IsNumeric(val) then
      if !isDecimal then
        match ParseInt(RemoveSuffix(val, "b"), 2)
        case Some(n) => Ok(Reading(Some(n), false))
        case None => Ok(Reading(Some(DigitsValue(val, 10)), true))
      else
        Ok(Reading(Some(DigitsValue(val, 10)), true))
    else
      Ok(Reading(None, isDecimal))
  }

  /**
   * The (value, line) pairs of the lines that carry a value, in line order,
   * reading from `isDecimal`; `ValueError` if a hexadecimal token is bad.
   */
  function Valued(lines: seq<string>, isDecimal: bool): Result<seq<(int, string)>>
    decreases |lines|
  {
    if lines == [] then Ok([])
    else
      var line := CleanLine(lines[0]);
      match ReadValue(ValueToken(line), isDecimal)
      case Raises(e) => Raises(e)
      case Ok(reading) =>
        match Valued(lines[1..], reading.isDecimal)
        case Raises(e) => Raises(e)
        case Ok(rest) => Ok(if reading.value.Some? then [(reading.value.value, line)] + rest else rest)
  }

  /** The label of a value seen again: a list of its lines. */
  function Extend(old_: Label, line: string): (r: Label)
    ensures r.Lines?
  {
    match old_
    case Line(text) => Lines([text, line])
    case Lines(items) => Lines(items + [line])
  }

  /** Recording one valued line in the table: a new value is added at the end. */
  function AddLine(t: ValueTable, v: int, line: string): ValueTable
  {
    if t == [] then [(v, Line(line))]
    else if t[0].0 == v then [(v, Extend(t[0].1, line))] + t[1..]
    else [t[0]] + AddLine(t[1..], v, line)
  }

  /** The label stored under each value after recording a line. */
  lemma {:induction false} AddLineLookup(t: ValueTable, v: int, line: string, w: int)
    ensures Lookup(AddLine(t, v, line), w) ==
      if w != v then Lookup(t, w)
      else if Lookup(t, v).None? then Some(Line(line))
      else Some(Extend(Lookup(t, v).value, line))
  {
    if t != [] && t[0].0 != v {
      AddLineLookup(t[1..], v, line, w);
    }
  }

  /** Recording a line adds its value to the table's values and no other. */
  lemma AddLineKeys(t: ValueTable, v: int, line: string, w: int)
    ensures HasKey(AddLine(t, v, line), w) <==> HasKey(t, w) || w == v
  {
    AddLineLookup(t, v, line, w);
  }

  lemma ConsDistinct(x: (int, Label), rest: ValueTable)
    requires DistinctKeys(rest) && !HasKey(rest, x.0)
    ensures DistinctKeys([x] + rest)
  {
    var t := [x] + rest;
    forall i, j | 0 <= i < j < |t| ensures t[i].0 != t[j].0 {
      if i == 0 {
        assert t[j] == rest[j - 1];
      } else {
        assert t[i] == rest[i - 1] && t[j] == rest[j - 1];
      }
    }
  }

  lemma {:induction false} AddLineDistinct(t: ValueTable, v: int, line: string)
    requires DistinctKeys(t)
    ensures DistinctKeys(AddLine(t, v, line))
  {
    if t == [] {
    } else if t[0].0 == v {
      var r := AddLine(t, v, line);
      forall i, j | 0 <= i < j < |r| ensures r[i].0 != r[j].0 {
        assert r[i].0 == t[i].0 && r[j].0 == t[j].0;
      }
    } else {
      var rest := t[1..];
      assert DistinctKeys(rest) by {
        forall i, j | 0 <= i < j < |rest| ensures rest[i].0 != rest[j].0 {
          assert rest[i] == t[i + 1] && rest[j] == t[j + 1];
        }
      }
      AddLineDistinct(rest, v, line);
      assert !HasKey(rest, t[0].0) by {
        forall i | 0 <= i < |rest| ensures rest[i].0 != t[0].0 {
          assert rest[i] == t[i + 1];
        }
      }
      AddLineKeys(rest, v, line, t[0].0);
      ConsDistinct(t[0], AddLine(rest, v, line));
    }
  }

  /** The table built by recording the pairs in order. */
  function Build(t: ValueTable, pairs: seq<(int, string)>): ValueTable
    decreases |pairs|
  {
    if pairs == [] then t else Build(AddLine(t, pairs[0].0, pairs[0].1), pairs[1..])
  }

  /** The lines paired with `v`, in order. */
  function LinesOf(pairs: seq<(int, string)>, v: int): seq<string>
  {
    if pairs == [] then []
    else (if pairs[0].0 == v then [pairs[0].1] else []) + LinesOf(pairs[1..], v)
  }

  /** A label, if any, receiving more lines one at a time. */
  function ExtendAll(l: Option<Label>, lines: seq<string>): Option<Label>
    decreases |lines|
  {
    if lines == [] then l
    else ExtendAll(Some(if l.None? then Line(lines[0]) else Extend(l.value, lines[0])), lines[1..])
  }

  lemma {:induction false} ExtendAllCons(l: Option<Label>, line: string, lines: seq<string>)
    ensures ExtendAll(l, [line] + lines) == ExtendAll(Some(if l.None? then Line(line) else Extend(l.value, line)), lines)
  {
    assert ([line] + lines)[0] == line;
    assert ([line] + lines)[1..] == lines;
  }

  lemma {:induction false} BuildLookup(t: ValueTable, pairs: seq<(int, string)>, v: int)
    ensures Lookup(Build(t, pairs), v) == ExtendAll(Lookup(t, v), LinesOf(pairs, v))
    decreases |pairs|
  {
    if pairs != [] {
      var t' := AddLine(t, pairs[0].0, pairs[0].1);
      assert Build(t, pairs) == Build(t', pairs[1..]);
      AddLineLookup(t, pairs[0].0, pairs[0].1, v);
      BuildLookup(t', pairs[1..], v);
      if pairs[0].0 == v {
        assert LinesOf(pairs, v) == [pairs[0].1] + LinesOf(pairs[1..], v);
        ExtendAllCons(Lookup(t, v), pairs[0].1, LinesOf(pairs[1..], v));
      } else {
        assert LinesOf(pairs, v) == LinesOf(pairs[1..], v);
      }
    }
  }

  lemma {:induction false} ExtendAllLines(items: seq<string>, lines: seq<string>)
    ensures ExtendAll(Some(Lines(items)), lines) == Some(Lines(items + lines))
    decreases |lines|
  {
    if lines == [] {
      assert items + lines == items;
    } else {
      assert ExtendAll(Some(Lines(items)), lines) == ExtendAll(Some(Lines(items + [lines[0]])), lines[1..]);
      ExtendAllLines(items + [lines[0]], lines[1..]);
      assert items + [lines[0]] + lines[1..] == items + lines;
    }
  }

  /** The label of one line alone, of several lines the list of them. */
  function AsLabel(lines: seq<string>): Label
    requires lines != []
  {
    if |lines| == 1 then Line(lines[0]) else Lines(lines)
  }

  lemma ExtendAllFromNothing(lines: seq<string>)
    ensures ExtendAll(None, lines) == if lines == [] then None else Some(AsLabel(lines))
  {
    if |lines| > 1 {
      assert ExtendAll(None, lines) == ExtendAll(Some(Line(lines[0])), lines[1..]);
      var rest := lines[2..];
      assert ExtendAll(Some(Line(lines[0])), lines[1..]) == ExtendAll(Some(Lines([lines[0], lines[1]])), rest);
      ExtendAllLines([lines[0], lines[1]], rest);
      assert [lines[0], lines[1]] + rest == lines;
    }
  }

  lemma {:induction false} BuildDistinct(t: ValueTable, pairs: seq<(int, string)>)
    requires DistinctKeys(t)
    ensures DistinctKeys(Build(t, pairs))
    decreases |pairs|
  {
    if pairs != [] {
      AddLineDistinct(t, pairs[0].0, pairs[0].1);
      BuildDistinct(AddLine(t, pairs[0].0, pairs[0].1), pairs[1..]);
    }
  }

  /**
   * Grouping: in the table built from the valued lines, a value with one
   * line maps to that line, a value with several to the list of them in
   * line order, a value with none is absent, and every value appears once.
   */
  lemma BuildGroupsLines(pairs: seq<(int, string)>, v: int)
    ensures DistinctKeys(Build([], pairs))
    ensures Lookup(Build([], pairs), v) == if LinesOf(pairs, v) == [] then None else Some(AsLabel(LinesOf(pairs, v)))
  {
    BuildDistinct([], pairs);
    BuildLookup([], pairs, v);
    ExtendAllFromNothing(LinesOf(pairs, v));
  }

  /** The table parsed from the remaining lines, continuing from a flag and a table. */
  function Resume(lines: seq<string>, isDecimal: bool, table: ValueTable): Result<ValueTable> {
    match Valued(lines, isDecimal)
    case Raises(e) => Raises(e)
    case Ok(pairs) => Ok(Build(table, pairs))
  }

  /** The result of parsing a whole description. */
  function ParsedTable(description: string): Result<ValueTable> {
    Resume(SplitLines(description), false, [])
  }

  /** Continuing after reading the token of `line`. */
  function ResumeAfter(line: string, read: Result<Reading>, lines: seq<string>, table: ValueTable): Result<ValueTable> {
    match read
    case Raises(e) => Raises(e)
    case Ok(rd) => Resume(lines, rd.isDecimal, if rd.value.Some? then AddLine(table, rd.value.value, line) else table)
  }

  /** Parsing one more line. */
  lemma ResumeStep(lines: seq<string>, isDecimal: bool, table: ValueTable)
    requires lines != []
    ensures Resume(lines, isDecimal, table)
         == ResumeAfter(CleanLine(lines[0]), ReadValue(ValueToken(CleanLine(lines[0])), isDecimal), lines[1..], table)
  {
    var line := CleanLine(lines[0]);
    var rd := ReadValue(ValueToken(line), isDecimal);
    if rd.Ok? && rd.value.value.Some? {
      var rest := Valued(lines[1..], rd.value.isDecimal);
      if rest.Ok? {
        var pairs := [(rd.value.value.value, line)] + rest.value;
        assert pairs[1..] == rest.value;
      }
    }
  }

  /**
   * `_parse_discrete_value_label`: walks the description's lines, keeping
   * the `is_decimal` flag and the value table as it goes.
   */
  method ParseDiscreteValueLabel(description: string) returns (r: Result<ValueTable>)
    ensures r == ParsedTable(description)
    ensures r.Ok? ==> DistinctKeys(r.value)
  {
    var lines := SplitLines(description);
    var table: ValueTable := [];
    var isDecimal := false;
    var i := 0;
    while i < |lines|
      invariant 0 <= i <= |lines|
      invariant DistinctKeys(table)
      invariant ParsedTable(description) == Resume(lines[i..], isDecimal, table)
    {
      var line := CleanLine(lines[i]);
      var reading := ReadValue(ValueToken(line), isDecimal);
      ResumeStep(lines[i..], isDecimal, table);
      assert lines[i..][0] == lines[i] && lines[i..][1..] == lines[i + 1..];
      if reading.Raises? {
        return Raises(reading.error);
      }
      isDecimal := reading.value.isDecimal;
      if reading.value.value.Some? {
        AddLineDistinct(table, reading.value.value.value, line);
        table := AddLine(table, reading.value.value.value, line);
      }
      i := i + 1;
    }
    assert lines[i..] == [];
    r := Ok(table);
  }

  /**
   * Once a token has been read as decimal, every later numeric token is
   * read as decimal too: from then on each value is a hexadecimal token's
   * or its token's decimal value.
   */
  lemma {:induction false} DecimalIsSticky(lines: seq<string>, pairs: seq<(int, string)>)
    requires Valued(lines, true) == Ok(pairs)
    ensures forall k :: 0 <= k < |pairs| ==> DecimalPair(pairs[k])
  {
    DecimalPairs(lines, pairs);
    forall k | 0 <= k < |pairs| ensures DecimalPair(pairs[k]) {
      EveryAt(pairs, DecimalPair, k);
    }
  }

  /** Every element of `s` satisfies `ok`, stated element by element from the front. */
  predicate Every<T>(s: seq<T>, ok: T -> bool) {
    s == [] || (ok(s[0]) && Every(s[1..], ok))
  }

  lemma {:induction false} EveryAt<T>(s: seq<T>, ok: T -> bool, k: nat)
    requires Every(s, ok) && k < |s|
    ensures ok(s[k])
  {
    if k > 0 {
      EveryAt(s[1..], ok, k - 1);
    }
  }

  lemma {:induction false} DecimalPairs(lines: seq<string>, pairs: seq<(int, string)>)
    requires Valued(lines, true) == Ok(pairs)
    ensures Every(pairs, DecimalPair)
    decreases |lines|
  {
    if lines != [] {
      var line := CleanLine(lines[0]);
      var r := ReadValue(ValueToken(line), true);
      ValuedHead(lines, true, pairs);
      var rest := Valued(lines[1..], true).value;
      DecimalPairs(lines[1..], rest);
      if r.value.value.Some? {
        DecimalHead(line, r);
        assert pairs[1..] == rest;
      }
    }
  }

  /** The first line of a successful reading, and what the rest contributes. */
  lemma ValuedHead(lines: seq<string>, flag: bool, pairs: seq<(int, string)>)
    requires lines != [] && Valued(lines, flag) == Ok(pairs)
    ensures
      var line := CleanLine(lines[0]);
      var r := ReadValue(ValueToken(line), flag);
      r.Ok? && (flag ==> r.value.isDecimal) && Valued(lines[1..], r.value.isDecimal).Ok?
      && pairs == (if r.value.value.Some? then [(r.value.value.value, line)] + Valued(lines[1..], r.value.isDecimal).value
                   else Valued(lines[1..], r.value.isDecimal).value)
  {
  }

  /** A value read in decimal mode is a hexadecimal token's or the token's decimal value. */
  lemma DecimalHead(line: string, r: Result<Reading>)
    requires r == ReadValue(ValueToken(line), true) && r.Ok? && r.value.value.Some?
    ensures DecimalPair((r.value.value.value, line))
  {
  }

  /** A pair read in decimal mode: a hexadecimal token's, or its token's decimal value. */
  predicate DecimalPair(p: (int, string)) {
    var val := ValueToken(p.1);
    IsHexToken(val) || (IsNumeric(val) && p.0 == DigitsValue(val, 10) as int)
  }

  /** A line that starts with a number and a space: its token is the number. */
  lemma NumberLine(d: string, rest: string, line: string)
    requires IsNumeric(d) && d != "13" && line == d + " " + rest
    requires !EndsWith(rest, "_x000D_")
    ensures CleanLine(line) == line && ValueToken(line) == d
  {
    assert !IsSpace(line[0]);
    assert LStrip(line) == line;
    assert line[|d|] == ' ';
    assert !StartsWith(line, "13 preprogrammed") by {
      if |d| == 1 {
        assert line[1] == ' ';
      } else if |d| == 2 {
        assert line[..2] == d;
      } else {
        assert line[2] == d[2];
      }
    }
    assert !EndsWith(line, "_x000D_") by {
      var m := |line| - 7;
      if |rest| >= 7 {
        assert line[m..] == rest[|rest| - 7..];
      } else if m >= 0 {
        assert line[m..][|d| - m] == ' ';
      }
    }
    assert line == d + [' '] + rest;
    BeforeFirstAt(d, ' ', rest);
    BeforeFirstAbsent(d, "-");
    BeforeFirstAbsent(d, "…");
    BeforeFirstAbsent(d, "..");
    assert !EndsWith(d, "b") && !EndsWith(d, ":") by {
      assert d[|d| - 1..][0] == d[|d| - 1];
    }
  }

  lemma NotHex(d: string)
    requires IsNumeric(d)
    ensures !IsHexToken(d)
  {
    if |d| >= 2 {
      assert d[..2][1] == d[1];
    }
  }

  /** Before the switch, a binary token is read in base 2. */
  lemma ReadBinary(d: string)
    requires IsNumeric(d) && AllDigitsIn(d, 2)
    ensures ReadValue(d, false) == Ok(Reading(Some(DigitsValue(d, 2) as int), false))
  {
    NotHex(d);
    ParseDigitString(d, 2);
  }

  /** Before the switch, a token that is not binary is read in base 10 and sets the flag. */
  lemma ReadSwitch(d: string)
    requires IsNumeric(d) && !AllDigitsIn(d, 2)
    ensures ReadValue(d, false) == Ok(Reading(Some(DigitsValue(d, 10) as int), true))
  {
    NotHex(d);
    ParseDigitString(d, 2);
  }

  /** After the switch, every numeric token is read in base 10. */
  lemma ReadDecimal(d: string)
    requires IsNumeric(d)
    ensures ReadValue(d, true) == Ok(Reading(Some(DigitsValue(d, 10) as int), true))
  {
    NotHex(d);
  }

  /** One more valued line in front. */
  lemma ValuedCons(lines: seq<string>, d: string, flag: bool, v: int, flag': bool, pairs: seq<(int, string)>)
    requires lines != [] && CleanLine(lines[0]) == lines[0] && ValueToken(lines[0]) == d
    requires ReadValue(d, flag) == Ok(Reading(Some(v), flag'))
    requires Valued(lines[1..], flag') == Ok(pairs)
    ensures Valued(lines, flag) == Ok([(v, lines[0])] + pairs)
  {
  }

  /** Before the switch, a line led by a binary number contributes its base-2 value. */
  lemma BinaryLineCons(d: string, rest: string, tail: seq<string>, pairs: seq<(int, string)>)
    requires IsNumeric(d) && d != "13" && AllDigitsIn(d, 2) && !EndsWith(rest, "_x000D_")
    requires Valued(tail, false) == Ok(pairs)
    ensures Valued([d + " " + rest] + tail, false) == Ok([(DigitsValue(d, 2) as int, d + " " + rest)] + pairs)
  {
    var lines := [d + " " + rest] + tail;
    assert lines[1..] == tail;
    NumberLine(d, rest, lines[0]);
    ReadBinary(d);
    ValuedCons(lines, d, false, DigitsValue(d, 2), false, pairs);
  }

  /** Before the switch, a line led by a number that is not binary contributes its decimal value and sets the flag. */
  lemma SwitchLineCons(d: string, rest: string, tail: seq<string>, pairs: seq<(int, string)>)
    requires IsNumeric(d) && d != "13" && !AllDigitsIn(d, 2) && !EndsWith(rest, "_x000D_")
    requires Valued(tail, true) == Ok(pairs)
    ensures Valued([d + " " + rest] + tail, false) == Ok([(DigitsValue(d, 10) as int, d + " " + rest)] + pairs)
  {
    var lines := [d + " " + rest] + tail;
    assert lines[1..] == tail;
    NumberLine(d, rest, lines[0]);
    ReadSwitch(d);
    ValuedCons(lines, d, false, DigitsValue(d, 10), true, pairs);
  }

  /** After the switch, a line led by a number contributes its decimal value. */
  lemma DecimalLineCons(d: string, rest: string, tail: seq<string>, pairs: seq<(int, string)>)
    requires IsNumeric(d) && d != "13" && !EndsWith(rest, "_x000D_")
    requires Valued(tail, true) == Ok(pairs)
    ensures Valued([d + " " + rest] + tail, true) == Ok([(DigitsValue(d, 10) as int, d + " " + rest)] + pairs)
  {
    var lines := [d + " " + rest] + tail;
    assert lines[1..] == tail;
    NumberLine(d, rest, lines[0]);
    ReadDecimal(d);
    ValuedCons(lines, d, true, DigitsValue(d, 10), true, pairs);
  }
}
