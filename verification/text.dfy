/**
 * The handful of Python `str` operations and the `int()` parser that the
 * catalog normalisers and the DBC writer rely on, over `seq<char>`.
 * Character classes are ASCII, plus Python's full whitespace set.
 */
module Text {
  import opened Wrappers

  predicate IsDigit(c: char) { '0' <= c <= '9' }

  predicate IsHexDigit(c: char) { IsDigit(c) || 'a' <= c <= 'f' || 'A' <= c <= 'F' }

  /** `str.isalpha()` for one character (ASCII letters). */
  predicate IsAlpha(c: char) { 'a' <= c <= 'z' || 'A' <= c <= 'Z' }

  /** A character of the regular-expression class `\w`. */
  predicate IsWordChar(c: char) { IsDigit(c) || IsAlpha(c) || c == '_' }

  /** `str.isspace()` for one character. */
  predicate IsSpace(c: char) {
    || c == ' ' || '\t' <= c <= '\r' || '\U{1C}' <= c <= '\U{1F}'
    || c == '\U{85}' || c == '\U{A0}' || c == '\U{1680}'
    || '\U{2000}' <= c <= '\U{200A}' || c == '\U{2028}' || c == '\U{2029}'
    || c == '\U{202F}' || c == '\U{205F}' || c == '\U{3000}'
  }

  /** `str.isnumeric()`: non-empty and made of digits only. */
  predicate IsNumeric(s: string) { |s| > 0 && forall i :: 0 <= i < |s| ==> IsDigit(s[i]) }

  predicate StartsWith(s: string, p: string) { |p| <= |s| && s[..|p|] == p }

  predicate EndsWith(s: string, p: string) { |p| <= |s| && s[|s| - |p|..] == p }

  /** `s.removeprefix(p)` */
  function RemovePrefix(s: string, p: string): (r: string)
    ensures StartsWith(s, p) ==> p + r == s
    ensures !StartsWith(s, p) ==> r == s
  {
    if StartsWith(s, p) then s[|p|..] else s
  }

  /** `s.removesuffix(p)` */
  function RemoveSuffix(s: string, p: string): (r: string)
    ensures EndsWith(s, p) ==> r + p == s
    ensures !EndsWith(s, p) ==> r == s
  {
    if EndsWith(s, p) then s[..|s| - |p|] else s
  }

  /** `s.lstrip()`: drops the leading whitespace. */
  function LStrip(s: string): string
  {
    if s != [] && IsSpace(s[0]) then LStrip(s[1..]) else s
  }

  /** `s.rstrip()`: drops the trailing whitespace. */
  function RStrip(s: string): string
  {
    if s != [] && IsSpace(s[|s| - 1]) then RStrip(s[..|s| - 1]) else s
  }

  /** `lstrip` removes exactly the leading run of whitespace. */
  lemma {:induction false} LStripSpec(s: string)
    ensures |LStrip(s)| <= |s| && LStrip(s) == s[|s| - |LStrip(s)|..]
    ensures forall i :: 0 <= i < |s| - |LStrip(s)| ==> IsSpace(s[i])
    ensures LStrip(s) == [] || !IsSpace(LStrip(s)[0])
  {
    if s != [] && IsSpace(s[0]) {
      var t := s[1..];
      LStripSpec(t);
      assert LStrip(s) == LStrip(t);
      assert t[|t| - |LStrip(t)|..] == s[|s| - |LStrip(s)|..];
      forall i | 1 <= i < |s| - |LStrip(s)| ensures IsSpace(s[i]) {
        assert s[i] == t[i - 1];
      }
    }
  }

  /** `rstrip` removes exactly the trailing run of whitespace. */
  lemma {:induction false} RStripSpec(s: string)
    ensures |RStrip(s)| <= |s| && RStrip(s) == s[..|RStrip(s)|]
    ensures forall i :: |RStrip(s)| <= i < |s| ==> IsSpace(s[i])
    ensures RStrip(s) == [] || !IsSpace(RStrip(s)[|RStrip(s)| - 1])
  {
    if s != [] && IsSpace(s[|s| - 1]) {
      var t := s[..|s| - 1];
      RStripSpec(t);
      assert RStrip(s) == RStrip(t);
      assert t[..|RStrip(t)|] == s[..|RStrip(s)|];
      forall i | |RStrip(s)| <= i < |s| - 1 ensures IsSpace(s[i]) {
        assert s[i] == t[i];
      }
    }
  }

  /** Number of occurrences of `c` in `s`. */
  function Count(s: string, c: char): nat
  {
    if s == [] then 0 else (if s[0] == c then 1 else 0) + Count(s[1..], c)
  }

  /** `s.split(sep)` for a one-character separator. */
  function Split(s: string, sep: char): (parts: seq<string>)
    ensures |parts| == Count(s, sep) + 1
    ensures forall i, j :: 0 <= i < |parts| && 0 <= j < |parts[i]| ==> parts[i][j] != sep
  {
    if s == [] then [""]
    else if s[0] == sep then [""] + Split(s[1..], sep)
    else
      var rest := Split(s[1..], sep);
      [[s[0]] + rest[0]] + rest[1..]
  }

  /** `sep.join(parts)` for a one-character separator. */
  function Join(parts: seq<string>, sep: char): string
    requires |parts| > 0
  {
    if |parts| == 1 then parts[0] else parts[0] + [sep] + Join(parts[1..], sep)
  }

  /** Joining the pieces of a split gives back the original text. */
  lemma {:induction false} JoinSplit(s: string, sep: char)
    ensures Join(Split(s, sep), sep) == s
  {
    if s == [] {
    } else if s[0] == sep {
      JoinSplit(s[1..], sep);
      assert Split(s, sep)[1..] == Split(s[1..], sep);
    } else {
      var rest := Split(s[1..], sep);
      JoinSplit(s[1..], sep);
      if |rest| == 1 {
      } else {
        assert Split(s, sep)[1..] == rest[1..];
        assert Join(rest, sep) == rest[0] + [sep] + Join(rest[1..], sep);
      }
    }
  }

  /** `s.split(sep, 1)[0]`: the text before the first occurrence of `sep`. */
  function BeforeFirst(s: string, sep: string): string
    requires sep != []
  {
    if |s| < |sep| then s
    else if s[..|sep|] == sep then ""
    else [s[0]] + BeforeFirst(s[1..], sep)
  }

  /**
   * The cut is a prefix of `s`, is followed by `sep` unless it is all of
   * `s`, and holds no earlier occurrence of `sep`.
   */
  lemma {:induction false} BeforeFirstSpec(s: string, sep: string)
    requires sep != []
    ensures StartsWith(s, BeforeFirst(s, sep))
    ensures BeforeFirst(s, sep) == s || StartsWith(s[|BeforeFirst(s, sep)|..], sep)
    ensures forall i :: 0 <= i < |BeforeFirst(s, sep)| ==> !StartsWith(s[i..], sep)
  {
    if |s| >= |sep| && s[..|sep|] != sep {
      BeforeFirstSpec(s[1..], sep);
      assert forall i :: 1 <= i <= |s| ==> s[i..] == s[1..][i - 1..];
    }
  }

  /** Characters at which `str.splitlines()` ends a line. */
  predicate IsLineBoundary(c: char) {
    c == '\n' || c == '\r' || c == '\U{0B}' || c == '\U{0C}' || '\U{1C}' <= c <= '\U{1E}'
    || c == '\U{85}' || c == '\U{2028}' || c == '\U{2029}'
  }

  /**
   * `s.splitlines()`: lines without their terminators; "\r\n" ends one line,
   * and a terminator at the very end does not start an extra empty line.
   */
  function SplitLines(s: string): (lines: seq<string>)
    ensures s == [] <==> lines == []
    ensures forall i, j :: 0 <= i < |lines| && 0 <= j < |lines[i]| ==> !IsLineBoundary(lines[i][j])
    decreases |s|
  {
    if s == [] then []
    else
      var first := LineHead(s);
      var rest := s[|first|..];
      if rest == [] then [first]
      else
        var skip := if |rest| >= 2 && rest[0] == '\r' && rest[1] == '\n' then 2 else 1;
        [first] + SplitLines(rest[skip..])
  }

  /** The longest prefix of `s` without a line boundary. */
  function LineHead(s: string): (r: string)
    ensures StartsWith(s, r)
    ensures forall j :: 0 <= j < |r| ==> !IsLineBoundary(r[j])
    ensures r == s || IsLineBoundary(s[|r|])
  {
    if s == [] || IsLineBoundary(s[0]) then "" else [s[0]] + LineHead(s[1..])
  }

  function DigitValue(c: char): nat
    requires IsHexDigit(c)
  {
    if IsDigit(c) then c as nat - '0' as nat
    else if 'a' <= c <= 'f' then c as nat - 'a' as nat + 10
    else c as nat - 'A' as nat + 10
  }

  predicate AllDigitsIn(s: string, base: nat)
    requires base in {2, 10, 16}
  {
    forall i :: 0 <= i < |s| ==> IsHexDigit(s[i]) && DigitValue(s[i]) < base
  }

  /** The value of a string of digits in the given base, most significant first. */
  function DigitsValue(s: string, base: nat): nat
    requires base in {2, 10, 16} && AllDigitsIn(s, base)
  {
    if s == [] then 0 else DigitsValue(s[..|s| - 1], base) * base + DigitValue(s[|s| - 1])
  }

  /** The text with every `_` removed. */
  function WithoutUnderscores(s: string): string {
    if s == [] then [] else (if s[0] == '_' then [] else [s[0]]) + WithoutUnderscores(s[1..])
  }

  /** A text without `_` is left as it is. */
  lemma {:induction false} WithoutUnderscoresIdentity(s: string)
    requires forall i :: 0 <= i < |s| ==> s[i] != '_'
    ensures WithoutUnderscores(s) == s
  {
    if s != [] {
      WithoutUnderscoresIdentity(s[1..]);
      assert [s[0]] + s[1..] == s;
    }
  }

  /** A text that neither starts nor ends with whitespace is not stripped. */
  lemma StripsNothing(s: string)
    requires s != [] && !IsSpace(s[0]) && !IsSpace(s[|s| - 1])
    ensures LStrip(RStrip(s)) == s
  {
  }

  /**
   * The digit part of an `int()` text uses `_` only as a single separator:
   * never last, never twice in a row, and first only right after a base
   * prefix.
   */
  predicate UnderscoresSeparate(d: string, prefixed: bool) {
    && d != []
    && d[|d| - 1] != '_'
    && (d[0] == '_' ==> prefixed)
    && forall i :: 0 <= i < |d| - 1 && d[i] == '_' ==> d[i + 1] != '_'
  }

  /**
   * `int(s, base)` for base 2, 10 or 16: surrounding whitespace, an optional
   * sign, an optional "0x"/"0X" prefix in base 16 or "0b"/"0B" prefix in
   * base 2, then at least one digit, with single `_` separators allowed.
   */
  function ParseInt(s: string, base: nat): (r: Option<int>)
    requires base in {2, 10, 16}
    ensures r.Some? && IsNumeric(s) && base == 10 ==> r.value == DigitsValue(s, 10)
  {
    var t := LStrip(RStrip(s));
    var neg := t != [] && t[0] == '-';
    var u := if t != [] && (t[0] == '-' || t[0] == '+') then t[1..] else t;
    assert IsNumeric(s) ==> u == s by {
      if IsNumeric(s) {
        assert !IsSpace(s[0]) && !IsSpace(s[|s| - 1]);
        StripsNothing(s);
      }
    }
    match ParseUnsigned(u, base)
    case Some(n) => Some(if neg then -(n as int) else n)
    case None => None
  }

  /** The unsigned part of an `int(s, base)` text: an optional base prefix, then the digits. */
  function ParseUnsigned(u: string, base: nat): (r: Option<nat>)
    requires base in {2, 10, 16}
    ensures r.Some? && IsNumeric(u) && base == 10 ==> r.value == DigitsValue(u, 10)
  {
    var prefixed := (base == 16 && (StartsWith(u, "0x") || StartsWith(u, "0X")))
                    || (base == 2 && (StartsWith(u, "0b") || StartsWith(u, "0B")));
    var d := if prefixed then u[2..] else u;
    var digits := WithoutUnderscores(d);
    assert IsNumeric(u) && base == 10 ==> digits == u by {
      if IsNumeric(u) && base == 10 {
        WithoutUnderscoresIdentity(u);
      }
    }
    if UnderscoresSeparate(d, prefixed) && AllDigitsIn(digits, base) then Some(DigitsValue(digits, base))
    else None
  }

  /** A string of decimal digits is parsed, in any base, exactly when its digits are digits of that base. */
  lemma ParseDigitString(d: string, base: nat)
    requires base in {2, 10, 16} && IsNumeric(d)
    ensures AllDigitsIn(d, base) ==> ParseInt(d, base) == Some(DigitsValue(d, base) as int)
    ensures !AllDigitsIn(d, base) ==> ParseInt(d, base).None?
  {
    assert !IsSpace(d[|d| - 1]) && !IsSpace(d[0]);
    assert RStrip(d) == d;
    assert LStrip(d) == d;
    assert d[0] != '-' && d[0] != '+';
    assert |d| >= 2 ==> d[1] != 'x' && d[1] != 'X' && d[1] != 'b' && d[1] != 'B';
    assert !StartsWith(d, "0x") && !StartsWith(d, "0X") && !StartsWith(d, "0b") && !StartsWith(d, "0B") by {
      if |d| >= 2 {
        assert d[..2][1] == d[1];
      }
    }
    WithoutUnderscoresIdentity(d);
  }

  /**
   * In base 16 a "0x" or "0X" prefix is skipped and the hexadecimal digits
   * after it are read, most significant first.
   */
  lemma ParseHexPrefixed(p: string, d: string)
    requires p == "0x" || p == "0X"
    requires d != [] && forall i :: 0 <= i < |d| ==> IsHexDigit(d[i])
    ensures AllDigitsIn(d, 16)
    ensures ParseInt(p + d, 16) == Some(DigitsValue(d, 16) as int)
  {
    assert AllDigitsIn(d, 16) by {
      forall i | 0 <= i < |d| ensures DigitValue(d[i]) < 16 {
      }
    }
    var s := p + d;
    assert s[0] == '0' && s[|s| - 1] == d[|d| - 1];
    UnsignedWithoutSpace(s, 16);
    HexPrefixedDigits(p, d);
  }

  /** A text with no surrounding whitespace and no sign is parsed by its unsigned part alone. */
  lemma UnsignedWithoutSpace(s: string, base: nat)
    requires base in {2, 10, 16}
    requires s != [] && !IsSpace(s[0]) && !IsSpace(s[|s| - 1]) && s[0] != '-' && s[0] != '+'
    ensures ParseInt(s, base) == if ParseUnsigned(s, base).Some? then Some(ParseUnsigned(s, base).value as int) else None
  {
    StripsNothing(s);
  }

  lemma HexPrefixedDigits(p: string, d: string)
    requires p == "0x" || p == "0X"
    requires d != [] && AllDigitsIn(d, 16)
    ensures ParseUnsigned(p + d, 16) == Some(DigitsValue(d, 16))
  {
    var s := p + d;
    assert StartsWith(s, p) by { assert s[..2] == p; }
    assert s[2..] == d;
    assert forall i :: 0 <= i < |d| ==> d[i] != '_';
    WithoutUnderscoresIdentity(d);
  }

  /** `_` separates digits: "0xFF_FF" in base 16 is 65535. */
  lemma ParseIntSeparators()
    ensures ParseInt("0xFF_FF", 16) == Some(65535)
  {
    UnsignedWithoutSpace("0xFF_FF", 16);
    HexSeparated();
  }

  /** A doubled or a trailing `_` makes a text no number. */
  lemma ParseIntBadSeparators()
    ensures ParseInt("1__0", 10).None? && ParseInt("1_", 10).None?
  {
    UnsignedWithoutSpace("1__0", 10);
    DoubledSeparator();
    UnsignedWithoutSpace("1_", 10);
    TrailingSeparator();
  }

  lemma DoubledSeparator()
    ensures ParseUnsigned("1__0", 10).None?
  {
    assert "1__0"[1] == '_' && "1__0"[2] == '_';
  }

  lemma TrailingSeparator()
    ensures ParseUnsigned("1_", 10).None?
  {
  }

  lemma HexSeparated()
    ensures ParseUnsigned("0xFF_FF", 16) == Some(65535)
  {
    var s := "0xFF_FF";
    assert StartsWith(s, "0x") by { assert s[..2] == "0x"; }
    assert s[2..] == "FF_FF";
    FourHexDigits();
  }

  lemma FourHexDigits()
    ensures WithoutUnderscores("FF_FF") == "FFFF" && AllDigitsIn("FFFF", 16)
    ensures DigitsValue("FFFF", 16) == 65535
  {
    SeparatorRemoved();
    HexValues();
  }

  lemma SeparatorRemoved()
    ensures WithoutUnderscores("FF_FF") == "FFFF"
  {
    WithoutUnderscoresIdentity("FF");
    assert "_FF"[1..] == "FF";
    assert "F_FF"[1..] == "_FF";
    assert "FF_FF"[1..] == "F_FF";
  }

  lemma HexValues()
    ensures AllDigitsIn("FFFF", 16) && DigitsValue("FFFF", 16) == 65535
  {
    assert DigitsValue("F", 16) == 15 by { assert "F"[..0] == ""; }
    assert DigitsValue("FF", 16) == 255 by { assert "FF"[..1] == "F"; }
    assert DigitsValue("FFF", 16) == 4095 by { assert "FFF"[..2] == "FF"; }
    assert "FFFF"[..3] == "FFF";
  }

  /** Cutting at a separator that does not occur leaves the text whole. */
  lemma {:induction false} BeforeFirstAbsent(s: string, sep: string)
    requires sep != []
    requires forall i :: 0 <= i < |s| ==> s[i] != sep[0]
    ensures BeforeFirst(s, sep) == s
  {
    if |s| >= |sep| {
      assert s[..|sep|][0] == s[0];
      BeforeFirstAbsent(s[1..], sep);
      assert [s[0]] + s[1..] == s;
    }
  }

  /** Cutting `a sep b` at `sep`, where `a` has no separator character, gives `a`. */
  lemma {:induction false} BeforeFirstAt(a: string, c: char, b: string)
    requires forall i :: 0 <= i < |a| ==> a[i] != c
    ensures BeforeFirst(a + [c] + b, [c]) == a
  {
    var s := a + [c] + b;
    if a == [] {
      assert s[..1] == [c];
    } else {
      assert s[..1][0] == a[0];
      assert s[1..] == a[1..] + [c] + b;
      BeforeFirstAt(a[1..], c, b);
      assert [a[0]] + a[1..] == a;
    }
  }

  /** Decimal text of a natural number, as `str(n)`. */
  function NatToString(n: nat): (s: string)
    ensures IsNumeric(s)
    ensures s[0] == '0' ==> n == 0
  {
    var d := ['0' + (n % 10) as char];
    if n < 10 then d else NatToString(n / 10) + d
  }

  /** Decimal text of an integer, as `str(i)`. */
  function IntToString(i: int): (s: string)
    ensures i >= 0 ==> IsNumeric(s)
    ensures i < 0 ==> |s| > 1 && s[0] == '-' && IsNumeric(s[1..])
  {
    if i >= 0 then NatToString(i) else "-" + NatToString(-i)
  }

  /** Reading back the decimal text of `n` gives `n`. */
  lemma {:induction false} NatToStringValue(n: nat)
    ensures DigitsValue(NatToString(n), 10) == n
  {
    var s := NatToString(n);
    assert s[..|s| - 1] == if n < 10 then "" else NatToString(n / 10);
    if n >= 10 {
      NatToStringValue(n / 10);
    }
  }

  /** `int(str(n)) == n`: the decimal writer and the decimal parser are inverse. */
  lemma NatToStringParses(n: nat)
    ensures ParseInt(NatToString(n), 10) == Some(n)
  {
    var s := NatToString(n);
    assert !IsSpace(s[|s| - 1]) && !IsSpace(s[0]);
    StripsNothing(s);
    assert s[0] != '-' && s[0] != '+';
    assert forall i :: 0 <= i < |s| ==> s[i] != '_';
    WithoutUnderscoresIdentity(s);
    assert AllDigitsIn(s, 10) by {
      forall i | 0 <= i < |s| ensures IsHexDigit(s[i]) && DigitValue(s[i]) < 10 {
        assert IsDigit(s[i]);
      }
    }
    NatToStringValue(n);
  }

  /**
   * A `match` on a string against literal cases, first case first: the
   * value of the first entry whose key is `s`, if any.
   */
  function FirstMatch<V(==)>(t: seq<(string, V)>, s: string): (r: Option<V>)
    ensures r.None? <==> forall i :: 0 <= i < |t| ==> t[i].0 != s
    ensures r.Some? ==> exists i :: 0 <= i < |t| && t[i] == (s, r.value) && forall j :: 0 <= j < i ==> t[j].0 != s
  {
    if t == [] then None
    else if t[0].0 == s then Some(t[0].1)
    else
      var r := FirstMatch(t[1..], s);
      assert forall i :: 1 <= i < |t| ==> t[i] == t[1..][i - 1];
      if r.Some? then
        var i :| 0 <= i < |t[1..]| && t[1..][i] == (s, r.value) && forall j :: 0 <= j < i ==> t[1..][j].0 != s;
        assert t[i + 1] == (s, r.value) && forall j :: 0 <= j < i + 1 ==> t[j].0 != s;
        r
      else r
  }

  /** Matching against a table split in two: the first part's cases come first. */
  lemma {:induction false} FirstMatchAppend<V>(a: seq<(string, V)>, b: seq<(string, V)>, s: string)
    ensures FirstMatch(a + b, s) == if FirstMatch(a, s).Some? then FirstMatch(a, s) else FirstMatch(b, s)
  {
    if a == [] {
      assert a + b == b;
    } else {
      assert (a + b)[0] == a[0];
      assert (a + b)[1..] == a[1..] + b;
      FirstMatchAppend(a[1..], b, s);
    }
  }
}
