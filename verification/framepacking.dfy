/**
 * Writing one signal (SPN) value into a J1939 frame payload at a bit
 * position: sub-byte fields (1 to 7 bits) are merged into one byte under a
 * mask, 8-, 16- and 32-bit fields are written whole bytes, least
 * significant byte first, and any other length leaves the payload as it is.
 * The same packing code appears in the transmitter's `modify_pgn_data`
 * and in the `tx_pgn` loops of the three older transmit modules.
 */
module FramePacking {
  import opened Wrappers
  import opened Catalog
  import opened Bytes

  function Pow2(n: nat): (p: nat)
    ensures p >= 1
  {
    if n == 0 then 1 else 2 * Pow2(n - 1)
  }

  lemma Pow2Values()
    ensures Pow2(0) == 1 && Pow2(1) == 2 && Pow2(2) == 4 && Pow2(3) == 8
    ensures Pow2(4) == 16 && Pow2(5) == 32 && Pow2(6) == 64 && Pow2(7) == 128
    ensures Pow2(8) == 256 && Pow2(16) == 0x1_0000 && Pow2(24) == 0x100_0000
    ensures Pow2(32) == 0x1_0000_0000
  {
  }

  /** The low eight bits of a Python integer, as `value & 0xFF` gives them (also for negative values). */
  function Low(raw: int): bv8 {
    (raw % 256) as bv8
  }

  /** `len` one-bits at the bottom of a byte. */
  function LowMask(len: nat): bv8
    requires len < 8
  {
    ((1 as bv8) << len) - 1
  }

  /** The bits `start..start+len-1` of a byte. */
  function Mask(start: nat, len: nat): bv8
    requires start + len <= 8 && len < 8
  {
    LowMask(len) << start
  }

  /** Bit `k` of `Mask(start, len)` is set exactly when `start <= k < start + len`. */
  lemma MaskBit(start: nat, len: nat, k: nat)
    requires start + len <= 8 && len < 8 && k < 8
    ensures (Mask(start, len) >> k) & 1 == if start <= k < start + len then 1 else 0
  {
  }

  /** The mask-building loop: one bit `1 << start + i` per step. */
  method BuildMask(start: nat, len: nat) returns (mask: bv8)
    requires start + len <= 8 && len < 8
    ensures mask == Mask(start, len)
  {
    mask := 0x00;
    for i := 0 to len
      invariant mask == LowMask(i) << start
    {
      MaskStep(start, i);
      mask := mask | ((1 as bv8) << (start + i));
    }
  }

  /** Adding bit `start + i` extends the mask by one bit. */
  lemma MaskStep(start: nat, i: nat)
    requires start + i < 8 && i + 1 < 8
    ensures (LowMask(i) << start) | ((1 as bv8) << (start + i)) == LowMask(i + 1) << start
  {
  }

  /** A frame handed to the bus: identifier, extended-identifier flag, payload. */
  datatype Frame = Frame(canId: nat, isExtended: bool, data: seq<bv8>)

  /** An all-zero payload of `n` bytes (`[0 for _ in range(n)]`). */
  function Zeros(n: nat): (z: seq<bv8>)
    ensures |z| == n && forall i :: 0 <= i < n ==> z[i] == 0
  {
    seq(n, _ => 0)
  }

  /** Where a signal sits in the payload, as the catalog gives it. */
  datatype Layout = Layout(startByte: nat, startBit: nat, lengthBits: nat)

  function OrZero(x: Option<nat>): nat {
    if x.None? then 0 else x.value
  }

  /**
   * The layout of an SPN as its catalog record gives it. A missing length
   * becomes 0, which no case of the write matches, as no case matches
   * `None`; a missing start field only matters when `Positioned` fails.
   */
  function LayoutOf(spec: SpnSpec): Layout {
    Layout(OrZero(spec.startByte), OrZero(spec.startBit), OrZero(spec.lengthBits))
  }

  predicate IsSubByte(len: nat) { 1 <= len <= 7 }

  /** Lengths written as whole bytes. */
  predicate IsWholeBytes(len: nat) { len == 8 || len == 16 || len == 32 }

  /**
   * The write of an SPN finds the position fields it reads: a start byte
   * for every written length and a start bit for a sub-byte one. Otherwise
   * indexing or shifting by `None` raises `TypeError` before any byte is
   * written.
   */
  predicate Positioned(spec: SpnSpec) {
    var len := OrZero(spec.lengthBits);
    && (IsSubByte(len) || IsWholeBytes(len) ==> spec.startByte.Some?)
    && (IsSubByte(len) ==> spec.startBit.Some?)
  }

  /** The payload bytes a write of this layout may change. */
  predicate Touches(l: Layout, i: nat) {
    if IsSubByte(l.lengthBits) then i == l.startByte
    else if IsWholeBytes(l.lengthBits) then l.startByte <= i < l.startByte + l.lengthBits / 8
    else false
  }

  /** The layout lies inside a payload of `n` bytes (no `IndexError`). */
  predicate Fits(l: Layout, n: nat) {
    if IsSubByte(l.lengthBits) then l.startByte < n && l.startBit + l.lengthBits <= 8
    else if IsWholeBytes(l.lengthBits) then l.startByte + l.lengthBits / 8 <= n
    else true
  }

  /**
   * Every byte written is in 0..255. Sub-byte writes are masked, so any
   * value fits; whole-byte writes need `0 <= raw < 2^len`.
   */
  predicate RawFits(l: Layout, raw: int) {
    IsWholeBytes(l.lengthBits) ==> 0 <= raw < Pow2(l.lengthBits)
  }

  /** The payload after writing `raw` at `l`. */
  function WriteSpn(data: seq<bv8>, l: Layout, raw: int): (r: seq<bv8>)
    requires Fits(l, |data|) && RawFits(l, raw)
    ensures |r| == |data|
    ensures forall i :: 0 <= i < |data| && !Touches(l, i) ==> r[i] == data[i]
  {
    var b := l.startByte;
    if IsSubByte(l.lengthBits) then
      var m := Mask(l.startBit, l.lengthBits);
      data[b := (data[b] & !m) | ((Low(raw) << l.startBit) & m)]
    else if l.lengthBits == 8 then
      data[b := Low(raw)]
    else if l.lengthBits == 16 then
      data[b := Low(raw)][b + 1 := Low(raw / 0x100)]
    else if l.lengthBits == 32 then
      data[b := Low(raw)][b + 1 := Low(raw / 0x100)][b + 2 := Low(raw / 0x1_0000)][b + 3 := Low(raw / 0x100_0000)]
    else
      data
  }

  /** The value of the signal at `l`, reading bytes least significant first. */
  function ReadSpn(data: seq<bv8>, l: Layout): nat
    requires Fits(l, |data|) && (IsSubByte(l.lengthBits) || IsWholeBytes(l.lengthBits))
  {
    var b := l.startByte;
    if IsSubByte(l.lengthBits) then
      ((data[b] & Mask(l.startBit, l.lengthBits)) >> l.startBit) as nat
    else if l.lengthBits == 8 then
      data[b] as nat
    else if l.lengthBits == 16 then
      data[b] as nat + 0x100 * data[b + 1] as nat
    else
      data[b] as nat + 0x100 * data[b + 1] as nat + 0x1_0000 * data[b + 2] as nat
        + 0x100_0000 * data[b + 3] as nat
  }

  /** The bytes a write changes, computed step by step as the source does. */
  method PackSpn(data: seq<bv8>, l: Layout, raw: int) returns (r: seq<bv8>)
    requires Fits(l, |data|) && RawFits(l, raw)
    ensures r == WriteSpn(data, l, raw)
  {
    r := data;
    var b := l.startByte;
    if 1 <= l.lengthBits <= 7 {
      var mask := BuildMask(l.startBit, l.lengthBits);
      r := r[b := (r[b] & !mask) | ((Low(raw) << l.startBit) & mask)];
    } else if l.lengthBits == 8 {
      r := r[b := Low(raw)];
    } else if l.lengthBits == 16 {
      r := r[b := Low(raw)];
      r := r[b + 1 := Low(raw / 0x100)];
    } else if l.lengthBits == 32 {
      r := r[b := Low(raw)];
      r := r[b + 1 := Low(raw / 0x100)];
      r := r[b + 2 := Low(raw / 0x1_0000)];
      r := r[b + 3 := Low(raw / 0x100_0000)];
    }
  }

  // ---- arithmetic helpers ----

  lemma SmallMultiple(m: int, p: int)
    requires p > 0 && -p < m * p < p
    ensures m == 0
  {
  }

  lemma ModUnique(x: int, p: int, d: int, r: int)
    requires p > 0 && 0 <= r < p && x == d * p + r
    ensures x % p == r
  {
    assert x == (x / p) * p + x % p;
    assert (d - x / p) * p == x % p - r;
    SmallMultiple(d - x / p, p);
  }

  lemma ModOfMultiple(raw: int, p: int, q: int)
    requires p > 0 && q > 0
    ensures raw % (p * q) % p == raw % p
  {
    var n := p * q;
    var k := raw / n;
    var r := raw % n;
    assert raw == k * n + r;
    var s := r % p;
    assert r == (r / p) * p + s;
    assert raw == (k * q + r / p) * p + s;
    ModUnique(raw, p, k * q + r / p, s);
  }

  lemma LowMask1(v: bv8) ensures (v & 1) as nat == v as nat % 2 {}
  lemma LowMask2(v: bv8) ensures (v & 3) as nat == v as nat % 4 {}
  lemma LowMask3(v: bv8) ensures (v & 7) as nat == v as nat % 8 {}
  lemma LowMask4(v: bv8) ensures (v & 15) as nat == v as nat % 16 {}
  lemma LowMask5(v: bv8) ensures (v & 31) as nat == v as nat % 32 {}
  lemma LowMask6(v: bv8) ensures (v & 63) as nat == v as nat % 64 {}
  lemma LowMask7(v: bv8) ensures (v & 127) as nat == v as nat % 128 {}

  /** Keeping the low `len` bits of a byte is taking it modulo `2^len`. */
  lemma LowMaskIsMod(v: bv8, len: nat)
    requires len < 8
    ensures (v & LowMask(len)) as nat == v as nat % Pow2(len)
  {
    Pow2Values();
    assert LowMask(0) == 0 && LowMask(1) == 1 && LowMask(2) == 3 && LowMask(3) == 7;
    assert LowMask(4) == 15 && LowMask(5) == 31 && LowMask(6) == 63 && LowMask(7) == 127;
    if len == 1 { LowMask1(v); }
    else if len == 2 { LowMask2(v); }
    else if len == 3 { LowMask3(v); }
    else if len == 4 { LowMask4(v); }
    else if len == 5 { LowMask5(v); }
    else if len == 6 { LowMask6(v); }
    else if len == 7 { LowMask7(v); }
  }

  /** The field bits of a sub-byte write hold the low `len` bits of the value. */
  lemma SubByteField(b: bv8, r: bv8, start: nat, len: nat)
    requires start + len <= 8 && len < 8
    ensures var m := Mask(start, len);
      ((((b & !m) | ((r << start) & m)) & m) >> start) == r & LowMask(len)
  {
  }

  /** Bits outside the mask keep their old values. */
  lemma SubByteOutside(b: bv8, r: bv8, start: nat, len: nat)
    requires start + len <= 8 && len < 8
    ensures var m := Mask(start, len);
      ((b & !m) | ((r << start) & m)) & !m == b & !m
  {
  }

  lemma {:induction false} Pow2Mul(m: nat, n: nat)
    ensures Pow2(m) * Pow2(n) == Pow2(m + n)
  {
    if m > 0 {
      Pow2Mul(m - 1, n);
    }
  }

  lemma SubByteReadBits(data: seq<bv8>, l: Layout, raw: int)
    requires Fits(l, |data|) && IsSubByte(l.lengthBits)
    ensures ReadSpn(WriteSpn(data, l, raw), l) == (Low(raw) & LowMask(l.lengthBits)) as nat
  {
    var m := Mask(l.startBit, l.lengthBits);
    assert WriteSpn(data, l, raw)[l.startByte] == (data[l.startByte] & !m) | ((Low(raw) << l.startBit) & m);
    SubByteField(data[l.startByte], Low(raw), l.startBit, l.lengthBits);
  }

  /** The low `len` bits of a Python integer are its value modulo `2^len`. */
  lemma LowBitsMod(raw: int, len: nat)
    requires len < 8
    ensures (Low(raw) & LowMask(len)) as nat == raw % Pow2(len)
  {
    assert (Low(raw) & LowMask(len)) as nat == raw % 256 % Pow2(len) by {
      LowMaskIsMod(Low(raw), len);
      LowValue(raw);
    }
    Pow2Mul(len, 8 - len);
    Pow2Values();
    ModOfMultiple(raw, Pow2(len), Pow2(8 - len));
  }

  lemma ReadAfterSubByteWrite(data: seq<bv8>, l: Layout, raw: int)
    requires Fits(l, |data|) && IsSubByte(l.lengthBits)
    ensures ReadSpn(WriteSpn(data, l, raw), l) == raw % Pow2(l.lengthBits)
  {
    SubByteReadBits(data, l, raw);
    LowBitsMod(raw, l.lengthBits);
  }

  lemma LowValue(x: int)
    ensures Low(x) as nat == x % 256
  {
    ByteRoundTrip(x % 256);
  }

  /** Little-endian digits of a 16-bit value. */
  lemma Digits16(raw: nat)
    requires raw < 0x1_0000
    ensures raw % 0x100 + 0x100 * (raw / 0x100 % 0x100) == raw
  {
  }

  /** Little-endian digits of a 32-bit value. */
  lemma Digits32(raw: nat)
    requires raw < 0x1_0000_0000
    ensures raw % 0x100 + 0x100 * (raw / 0x100 % 0x100) + 0x1_0000 * (raw / 0x1_0000 % 0x100)
      + 0x100_0000 * (raw / 0x100_0000 % 0x100) == raw
  {
    var h := raw / 0x100;
    assert raw == raw % 0x100 + 0x100 * h;
    assert raw / 0x1_0000 == h / 0x100;
    assert raw / 0x100_0000 == h / 0x1_0000;
    Digits24(h);
  }

  lemma Digits24(h: nat)
    requires h < 0x100_0000
    ensures h % 0x100 + 0x100 * (h / 0x100 % 0x100) + 0x1_0000 * (h / 0x1_0000 % 0x100) == h
  {
    var g := h / 0x100;
    assert h == h % 0x100 + 0x100 * g;
    assert h / 0x1_0000 == g / 0x100;
    Digits16(g);
  }

  lemma ReadAfterWholeByteWrite(data: seq<bv8>, l: Layout, raw: int)
    requires Fits(l, |data|) && RawFits(l, raw) && IsWholeBytes(l.lengthBits)
    ensures ReadSpn(WriteSpn(data, l, raw), l) == raw % Pow2(l.lengthBits)
  {
    var w := WriteSpn(data, l, raw);
    var b := l.startByte;
    Pow2Values();
    ModUnique(raw, Pow2(l.lengthBits), 0, raw);
    LowValue(raw);
    LowValue(raw / 0x100);
    if l.lengthBits == 8 {
    } else if l.lengthBits == 16 {
      Digits16(raw);
    } else {
      LowValue(raw / 0x1_0000);
      LowValue(raw / 0x100_0000);
      Digits32(raw);
    }
  }

  /** Reading the field back gives the value modulo `2^len` (the value itself for whole bytes). */
  lemma ReadAfterWrite(data: seq<bv8>, l: Layout, raw: int)
    requires Fits(l, |data|) && RawFits(l, raw)
    requires IsSubByte(l.lengthBits) || IsWholeBytes(l.lengthBits)
    ensures ReadSpn(WriteSpn(data, l, raw), l) == raw % Pow2(l.lengthBits)
  {
    if IsSubByte(l.lengthBits) {
      ReadAfterSubByteWrite(data, l, raw);
    } else {
      ReadAfterWholeByteWrite(data, l, raw);
    }
  }

  /** The bit positions (counted over the whole payload) a field occupies. */
  function FirstBit(l: Layout): nat {
    if IsSubByte(l.lengthBits) then l.startByte * 8 + l.startBit else l.startByte * 8
  }

  predicate Disjoint(l1: Layout, l2: Layout) {
    FirstBit(l1) + l1.lengthBits <= FirstBit(l2) || FirstBit(l2) + l2.lengthBits <= FirstBit(l1)
  }

  lemma MasksDisjoint(s1: nat, n1: nat, s2: nat, n2: nat)
    requires s1 + n1 <= 8 && n1 < 8 && s2 + n2 <= 8 && n2 < 8
    requires s1 + n1 <= s2 || s2 + n2 <= s1
    ensures Mask(s1, n1) & Mask(s2, n2) == 0
  {
  }

  lemma SubByteOtherField(b: bv8, r: bv8, m1: bv8, s2: nat, m2: bv8)
    requires s2 < 8 && m1 & m2 == 0
    ensures ((b & !m2) | ((r << s2) & m2)) & m1 == b & m1
  {
  }

  /** A field's value depends only on the bytes a write of it would touch. */
  lemma ReadSpnFrame(d1: seq<bv8>, d2: seq<bv8>, l: Layout)
    requires |d1| == |d2| && Fits(l, |d1|) && (IsSubByte(l.lengthBits) || IsWholeBytes(l.lengthBits))
    requires forall i :: 0 <= i < |d1| && Touches(l, i) ==> d1[i] == d2[i]
    ensures ReadSpn(d1, l) == ReadSpn(d2, l)
  {
    var b := l.startByte;
    assert Touches(l, b);
    if l.lengthBits == 16 || l.lengthBits == 32 {
      assert Touches(l, b + 1);
    }
    if l.lengthBits == 32 {
      assert Touches(l, b + 2) && Touches(l, b + 3);
    }
  }

  /** Non-overlapping fields in different bytes share no byte. */
  lemma DisjointBytes(l1: Layout, l2: Layout, n: nat, i: nat)
    requires Fits(l1, n) && Fits(l2, n) && Disjoint(l1, l2)
    requires !(IsSubByte(l1.lengthBits) && IsSubByte(l2.lengthBits) && l1.startByte == l2.startByte)
    requires Touches(l1, i)
    ensures !Touches(l2, i)
  {
  }

  lemma SubByteReadMasked(d1: seq<bv8>, d2: seq<bv8>, l: Layout)
    requires |d1| == |d2| && Fits(l, |d1|) && IsSubByte(l.lengthBits)
    requires var m := Mask(l.startBit, l.lengthBits); d1[l.startByte] & m == d2[l.startByte] & m
    ensures ReadSpn(d1, l) == ReadSpn(d2, l)
  {
  }

  /** The byte a sub-byte write changes: old bits outside the mask, value bits inside. */
  lemma SubByteWriteByte(data: seq<bv8>, l: Layout, raw: int)
    requires Fits(l, |data|) && IsSubByte(l.lengthBits)
    ensures var m := Mask(l.startBit, l.lengthBits);
      WriteSpn(data, l, raw)[l.startByte] == (data[l.startByte] & !m) | ((Low(raw) << l.startBit) & m)
  {
  }

  /** A sub-byte write keeps every bit of its byte outside the mask. */
  lemma SubByteKeepsOtherBits(data: seq<bv8>, l: Layout, raw: int)
    requires Fits(l, |data|) && IsSubByte(l.lengthBits)
    ensures var m := Mask(l.startBit, l.lengthBits);
      WriteSpn(data, l, raw)[l.startByte] & !m == data[l.startByte] & !m
  {
    SubByteWriteByte(data, l, raw);
    SubByteOutside(data[l.startByte], Low(raw), l.startBit, l.lengthBits);
  }

  lemma SameByteWriteMasked(data: seq<bv8>, l1: Layout, l2: Layout, raw: int)
    requires Fits(l1, |data|) && Fits(l2, |data|) && Disjoint(l1, l2)
    requires IsSubByte(l1.lengthBits) && IsSubByte(l2.lengthBits) && l1.startByte == l2.startByte
    ensures var m1 := Mask(l1.startBit, l1.lengthBits);
      WriteSpn(data, l2, raw)[l1.startByte] & m1 == data[l1.startByte] & m1
  {
    SubByteWriteByte(data, l2, raw);
    MasksDisjoint(l1.startBit, l1.lengthBits, l2.startBit, l2.lengthBits);
    SubByteOtherField(data[l1.startByte], Low(raw), Mask(l1.startBit, l1.lengthBits),
      l2.startBit, Mask(l2.startBit, l2.lengthBits));
  }

  /** Writing one field leaves every field it does not overlap reading as before. */
  lemma WriteOtherField(data: seq<bv8>, l1: Layout, l2: Layout, raw: int)
    requires Fits(l1, |data|) && (IsSubByte(l1.lengthBits) || IsWholeBytes(l1.lengthBits))
    requires Fits(l2, |data|) && RawFits(l2, raw)
    requires Disjoint(l1, l2)
    ensures ReadSpn(WriteSpn(data, l2, raw), l1) == ReadSpn(data, l1)
  {
    if IsSubByte(l1.lengthBits) && IsSubByte(l2.lengthBits) && l1.startByte == l2.startByte {
      SameByteWriteMasked(data, l1, l2, raw);
      SubByteReadMasked(WriteSpn(data, l2, raw), data, l1);
    } else {
      var w := WriteSpn(data, l2, raw);
      forall i | 0 <= i < |data| && Touches(l1, i)
        ensures data[i] == w[i]
      {
        DisjointBytes(l1, l2, |data|, i);
      }
      ReadSpnFrame(data, w, l1);
    }
  }
}
