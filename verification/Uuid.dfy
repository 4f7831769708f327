// RFC 4122 identifiers: one 128-bit integer, seen as six fields, sixteen bytes, or text.
module Uuid {
  import opened Wrappers
  import opened Bits

  // ---- The six fields ----

  /** In range: 32, 16, 16, 8, 8 and 48 bits. */
  predicate InRange(f: seq<int>) {
    && |f| == 6
    && 0 <= f[0] < 0x1_0000_0000 && 0 <= f[1] < 0x1_0000 && 0 <= f[2] < 0x1_0000
    && 0 <= f[3] < 0x100 && 0 <= f[4] < 0x100 && 0 <= f[5] < 0x1_0000_0000_0000
  }

  predicate Is128(x: int) {
    0 <= x < 0x1_0000_0000_0000_0000_0000_0000_0000_0000
  }

  function ClockSeqOf(hi: int, low: nat): int {
    Bitwise(Or, Shl(hi, 8), low)
  }

  function TimeHalf(low: int, mid: nat, hi: nat): int {
    Bitwise(Or, Bitwise(Or, Shl(low, 96), Shl(mid, 80)), Shl(hi, 64))
  }

  function Pack(f: seq<int>): int
    requires InRange(f)
  {
    Bitwise(Or, Bitwise(Or, TimeHalf(f[0], f[1], f[2]), Shl(ClockSeqOf(f[3], f[4]), 48)), f[5])
  }

  function TimeLow(x: nat): nat { Shr(x, 96) }

  function TimeMid(x: nat): nat { Bitwise(And, Shr(x, 80), 0xffff) }

  function TimeHiVersion(x: nat): nat { Bitwise(And, Shr(x, 64), 0xffff) }

  function ClockSeqHiVariant(x: nat): nat { Bitwise(And, Shr(x, 56), 0xff) }

  function ClockSeqLow(x: nat): nat { Bitwise(And, Shr(x, 48), 0xff) }

  function Node(x: nat): nat { Bitwise(And, x, 0xffff_ffff_ffff) }

  function FieldsOf(x: nat): seq<int> {
    [TimeLow(x), TimeMid(x), TimeHiVersion(x), ClockSeqHiVariant(x), ClockSeqLow(x), Node(x)]
  }

  /** The sum that a tuple of fields stands for. */
  function Sum(f: seq<int>): nat
    requires InRange(f)
  {
    ((f[0] * 0x1_0000 + f[1]) * 0x1_0000 + f[2]) * 0x1_0000_0000_0000_0000
    + (f[3] * 0x100 + f[4]) * 0x1_0000_0000_0000 + f[5]
  }

  /** The slices of an integer at the field boundaries. */
  function Slices(x: nat): seq<int> {
    [x / 0x1_0000_0000_0000_0000_0000_0000,
     x / 0x1_0000_0000_0000_0000_0000 % 0x1_0000,
     x / 0x1_0000_0000_0000_0000 % 0x1_0000,
     x / 0x100_0000_0000_0000 % 0x100,
     x / 0x1_0000_0000_0000 % 0x100,
     x % 0x1_0000_0000_0000]
  }

  lemma SlicesOfSum(f: seq<int>)
    requires InRange(f)
    ensures Slices(Sum(f)) == f && Is128(Sum(f))
  {
    var x := Sum(f);
    var clockSeq := f[3] * 0x100 + f[4];
    var time := (f[0] * 0x1_0000 + f[1]) * 0x1_0000 + f[2];
    var tail := clockSeq * 0x1_0000_0000_0000 + f[5];
    QuotientIs(x, 0x1_0000_0000_0000_0000_0000_0000, f[0], (f[1] * 0x1_0000 + f[2]) * 0x1_0000_0000_0000_0000 + tail);
    QuotientIs(x, 0x1_0000_0000_0000_0000_0000, f[0] * 0x1_0000 + f[1], f[2] * 0x1_0000_0000_0000_0000 + tail);
    QuotientIs(f[0] * 0x1_0000 + f[1], 0x1_0000, f[0], f[1]);
    QuotientIs(x, 0x1_0000_0000_0000_0000, time, tail);
    QuotientIs(time, 0x1_0000, f[0] * 0x1_0000 + f[1], f[2]);
    QuotientIs(x, 0x100_0000_0000_0000, time * 0x100 + f[3], f[4] * 0x1_0000_0000_0000 + f[5]);
    QuotientIs(time * 0x100 + f[3], 0x100, time, f[3]);
    QuotientIs(x, 0x1_0000_0000_0000, time * 0x1_0000 + clockSeq, f[5]);
    QuotientIs(time * 0x1_0000 + clockSeq, 0x100, time * 0x100 + f[3], f[4]);
  }

  lemma SumOfSlices(x: int)
    requires Is128(x)
    ensures InRange(Slices(x)) && Sum(Slices(x)) == x
  {
    var node, x5 := x % 0x1_0000_0000_0000, x / 0x1_0000_0000_0000;
    var csl, x4 := x5 % 0x100, x5 / 0x100;
    var csh, x3 := x4 % 0x100, x4 / 0x100;
    var thv, x2 := x3 % 0x1_0000, x3 / 0x1_0000;
    var f := [x2 / 0x1_0000, x2 % 0x1_0000, thv, csh, csl, node];
    assert Sum(f) == x;
    SlicesOfSum(f);
  }

  lemma FieldsAreSlices(x: nat)
    ensures FieldsOf(x) == Slices(x)
  {
    hide Bitwise, Shl, Shr, Pow2;
    Pow2Values();
    ShrIsDiv(x, 96);
    Slice(x, 80, 16, 0x1_0000_0000_0000_0000_0000, 0xffff);
    Slice(x, 64, 16, 0x1_0000_0000_0000_0000, 0xffff);
    Slice(x, 56, 8, 0x100_0000_0000_0000, 0xff);
    Slice(x, 48, 8, 0x1_0000_0000_0000, 0xff);
    MaskIsMod(x, 48);
  }

  lemma TimeHalfIsSum(low: nat, mid: nat, hi: nat)
    requires mid < 0x1_0000 && hi < 0x1_0000
    ensures TimeHalf(low, mid, hi) == ((low * 0x1_0000 + mid) * 0x1_0000 + hi) * 0x1_0000_0000_0000_0000
  {
    hide Bitwise, Shl, Shr, Pow2;
    Pow2Values();
    ShlIsTimes(low, 96);
    ShlIsTimes(mid, 80);
    ShlIsTimes(hi, 64);
    Joins(low, mid * 0x1_0000_0000_0000_0000_0000, 96, 0x1_0000_0000_0000_0000_0000_0000);
    Joins(low * 0x1_0000 + mid, hi * 0x1_0000_0000_0000_0000, 80, 0x1_0000_0000_0000_0000_0000);
  }

  lemma ClockSeqIsSum(hi: nat, low: nat)
    requires low < 0x100
    ensures Shl(ClockSeqOf(hi, low), 48) == (hi * 0x100 + low) * 0x1_0000_0000_0000
  {
    hide Bitwise, Shl, Shr, Pow2;
    Pow2Values();
    Joins(hi, low, 8, 0x100);
    ShlIsTimes(hi * 0x100 + low, 48);
  }

  lemma PackIsSum(f: seq<int>)
    requires InRange(f)
    ensures Pack(f) == Sum(f)
  {
    hide Bitwise, Shl, Shr, Pow2;
    Pow2Values();
    TimeHalfIsSum(f[0], f[1], f[2]);
    ClockSeqIsSum(f[3], f[4]);
    var time := (f[0] * 0x1_0000 + f[1]) * 0x1_0000 + f[2];
    var clockSeq := f[3] * 0x100 + f[4];
    Joins(time, clockSeq * 0x1_0000_0000_0000, 64, 0x1_0000_0000_0000_0000);
    Joins(time * 0x1_0000 + clockSeq, f[5], 48, 0x1_0000_0000_0000);
  }

  /** Packing in-range fields and unpacking gives them back, and the integer has 128 bits. */
  lemma PackThenUnpack(f: seq<int>)
    requires InRange(f)
    ensures Is128(Pack(f)) && FieldsOf(Pack(f)) == f
  {
    hide *;
    SlicesOfSum(f);
    PackIsSum(f);
    FieldsAreSlices(Pack(f));
  }

  /** Unpacking any 128-bit integer gives in-range fields that pack to it: with the above, a bijection. */
  lemma UnpackThenPack(x: int)
    requires Is128(x)
    ensures InRange(FieldsOf(x)) && Pack(FieldsOf(x)) == x
  {
    hide *;
    SumOfSlices(x);
    FieldsAreSlices(x);
    PackIsSum(FieldsOf(x));
  }

  // ---- Variant and version ----

  datatype Variant = RESERVED_NCS | RFC_4122 | RESERVED_MICROSOFT | RESERVED_FUTURE

  function GetVariant(x: nat): Variant {
    if Bitwise(And, x, Shl(0x8000, 48)) == 0 then RESERVED_NCS
    else if Bitwise(And, x, Shl(0x4000, 48)) == 0 then RFC_4122
    else if Bitwise(And, x, Shl(0x2000, 48)) == 0 then RESERVED_MICROSOFT
    else RESERVED_FUTURE
  }

  function GetVersion(x: nat): Option<int> {
    if GetVariant(x) == RFC_4122 then Some(Bitwise(And, Shr(x, 76), 0xf)) else None
  }

  /** Setting the variant, then the version number. */
  function Stamp(x: nat, version: nat): nat {
    var cleared := Bitwise(AndNot, x, Shl(0xc000, 48));
    var marked := Bitwise(Or, cleared, Shl(0x8000, 48));
    Bitwise(Or, Bitwise(AndNot, marked, Shl(0xf000, 64)), Shl(version, 76))
  }

  /** A 128-bit layout with the version and variant bits apart: 48, 4, 12, 2, 14 and 48 bits. */
  datatype Layout = Layout(high: nat, version: nat, mid: nat, variant: nat, seq14: nat, node: nat) {
    predicate Valid() {
      high < 0x1_0000_0000_0000 && version < 16 && mid < 0x1000 && variant < 4 && seq14 < 0x4000
      && node < 0x1_0000_0000_0000
    }

    function Value(): nat {
      ((((high * 16 + version) * 0x1000 + mid) * 4 + variant) * 0x4000 + seq14) * 0x1_0000_0000_0000 + node
    }
  }

  function LayoutOf(x: nat): Layout {
    Layout(x / 0x1_0000_0000_0000_0000_0000,
           x / 0x1000_0000_0000_0000_0000 % 16,
           x / 0x1_0000_0000_0000_0000 % 0x1000,
           x / 0x4000_0000_0000_0000 % 4,
           x / 0x1_0000_0000_0000 % 0x4000,
           x % 0x1_0000_0000_0000)
  }

  lemma LayoutOfValue(l: Layout)
    requires l.Valid()
    ensures LayoutOf(l.Value()) == l && Is128(l.Value())
  {
    var x := l.Value();
    var a := l.high * 16 + l.version;
    var b := a * 0x1000 + l.mid;
    var c := b * 4 + l.variant;
    var r := l.seq14 * 0x1_0000_0000_0000 + l.node;
    QuotientIs(x, 0x1_0000_0000_0000, c * 0x4000 + l.seq14, l.node);
    QuotientIs(c * 0x4000 + l.seq14, 0x4000, c, l.seq14);
    QuotientIs(x, 0x4000_0000_0000_0000, c, r);
    QuotientIs(c, 4, b, l.variant);
    QuotientIs(x, 0x1_0000_0000_0000_0000, b, l.variant * 0x4000_0000_0000_0000 + r);
    QuotientIs(b, 0x1000, a, l.mid);
    var s := (l.mid * 4 + l.variant) * 0x4000_0000_0000_0000 + r;
    QuotientIs(x, 0x1000_0000_0000_0000_0000, a, s);
    QuotientIs(a, 16, l.high, l.version);
    QuotientIs(x, 0x1_0000_0000_0000_0000_0000, l.high, l.version * 0x1000_0000_0000_0000_0000 + s);
  }

  lemma ValueOfLayout(x: nat)
    requires Is128(x)
    ensures LayoutOf(x).Valid() && LayoutOf(x).Value() == x
  {
    var c14 := x / 0x1_0000_0000_0000;
    var c := c14 / 0x4000;
    var b := c / 4;
    var a := b / 0x1000;
    var l := Layout(a / 16, a % 16, b % 0x1000, c % 4, c14 % 0x4000, x % 0x1_0000_0000_0000);
    assert l.Value() == x;
    LayoutOfValue(l);
  }

  lemma StampReplaces(l: Layout, version: nat)
    requires l.Valid() && version < 16
    ensures Stamp(l.Value(), version) == l.(version := version, variant := 2).Value()
  {
    hide Bitwise, Shl, Pow2;
    Pow2Values();
    ShlIsTimes(0xc000, 48);
    ShlIsTimes(3, 62);
    ShlIsTimes(0x8000, 48);
    ShlIsTimes(2, 62);
    ShlIsTimes(0xf000, 64);
    ShlIsTimes(15, 76);
    var b := (l.high * 16 + l.version) * 0x1000 + l.mid;
    var r := l.seq14 * 0x1_0000_0000_0000 + l.node;
    ShlIsTimes(b, 2);
    ShlIsTimes(b * 4 + l.variant, 62);
    ShlIsTimes(b * 4 + 2, 62);
    Overwrite(b, l.variant, r, 62, 2, 2);
    var s := (l.mid * 4 + 2) * 0x4000_0000_0000_0000 + r;
    ShlIsTimes(l.high, 4);
    ShlIsTimes(l.high * 16 + l.version, 76);
    ShlIsTimes(l.high * 16 + version, 76);
    Overwrite(l.high, l.version, s, 76, 4, version);
  }

  lemma TopBits(x: nat)
    ensures var b := x / 0x2000_0000_0000_0000;
            x / 0x4000_0000_0000_0000 == b / 2 && x / 0x8000_0000_0000_0000 == b / 4
  {
    var b, r := x / 0x2000_0000_0000_0000, x % 0x2000_0000_0000_0000;
    QuotientIs(x, 0x4000_0000_0000_0000, b / 2, b % 2 * 0x2000_0000_0000_0000 + r);
    QuotientIs(x, 0x8000_0000_0000_0000, b / 4, b % 4 * 0x2000_0000_0000_0000 + r);
  }

  lemma ThreeBits(b: nat)
    ensures b % 8 < 4 <==> b / 4 % 2 == 0
    ensures b % 8 < 6 <==> b / 4 % 2 == 0 || b / 2 % 2 == 0
    ensures b % 8 == 6 <==> b / 4 % 2 == 1 && b / 2 % 2 == 1 && b % 2 == 0
    ensures b / 2 % 4 == 2 ==> 4 <= b % 8 < 6
  {
    var q, r := b / 8, b % 8;
    var x, y, z := r / 4, r / 2 % 2, r % 2;
    assert r == 4 * x + 2 * y + z && x < 2;
    QuotientIs(b, 4, 2 * q + x, 2 * y + z);
    QuotientIs(b, 2, 4 * q + 2 * x + y, z);
    QuotientIs(2 * q + x, 2, q, x);
    QuotientIs(4 * q + 2 * x + y, 2, 2 * q + x, y);
    QuotientIs(4 * q + 2 * x + y, 4, q, 2 * x + y);
  }

  /** The variant is read off the three highest bits of the clock sequence. */
  lemma VariantTable(x: nat)
    ensures var b := x / 0x2000_0000_0000_0000 % 8;
            GetVariant(x) == if b < 4 then RESERVED_NCS else if b < 6 then RFC_4122
                             else if b == 6 then RESERVED_MICROSOFT else RESERVED_FUTURE
  {
    hide Bitwise, Shl, Pow2;
    Pow2Values();
    ShlIsTimes(0x8000, 48);
    ShlIsTimes(1, 63);
    TestBit(x, 63);
    ShlIsTimes(0x4000, 48);
    ShlIsTimes(1, 62);
    TestBit(x, 62);
    ShlIsTimes(0x2000, 48);
    ShlIsTimes(1, 61);
    TestBit(x, 61);
    TopBits(x);
    ThreeBits(x / 0x2000_0000_0000_0000);
  }

  lemma MarkedVariant(x: nat)
    requires x / 0x4000_0000_0000_0000 % 4 == 2
    ensures GetVariant(x) == RFC_4122
  {
    hide *;
    TopBits(x);
    ThreeBits(x / 0x2000_0000_0000_0000);
    VariantTable(x);
  }

  lemma VersionNibble(x: nat)
    ensures Bitwise(And, Shr(x, 76), 0xf) == x / 0x1000_0000_0000_0000_0000 % 16
  {
    hide *;
    Pow2Values();
    Slice(x, 76, 4, 0x1000_0000_0000_0000_0000, 0xf);
  }

  /** Only that variant has a version: the four highest bits of the third field. */
  lemma VersionTable(x: nat)
    ensures GetVersion(x)
            == if x / 0x4000_0000_0000_0000 % 4 == 2 then Some(x / 0x1000_0000_0000_0000_0000 % 16) else None
  {
    hide Bitwise, Shr, GetVariant;
    VariantTable(x);
    VersionNibble(x);
    TopBits(x);
    Halves(x / 0x2000_0000_0000_0000);
  }

  lemma Halves(b: nat)
    ensures 4 <= b % 8 < 6 <==> b / 2 % 4 == 2
  {
  }

  lemma VariantBits(l: Layout)
    requires l.Valid() && l.variant == 2
    ensures GetVariant(l.Value()) == RFC_4122 && GetVersion(l.Value()) == Some(l.version)
  {
    hide Bitwise, Shr, GetVariant, Layout.Value;
    LayoutOfValue(l);
    MarkedVariant(l.Value());
    VersionNibble(l.Value());
  }

  /** Stamping makes the variant RFC 4122 and the version the given one, keeps 128 bits, and leaves the other 48 + 12
      + 14 + 48 bits as they were. */
  lemma StampSets(x: nat, version: nat)
    requires Is128(x) && 1 <= version <= 5
    ensures var y := Stamp(x, version);
            Is128(y) && GetVariant(y) == RFC_4122 && GetVersion(y) == Some(version)
            && LayoutOf(y) == LayoutOf(x).(version := version, variant := 2)
  {
    hide Stamp, LayoutOf, Layout.Value, GetVariant, GetVersion;
    ValueOfLayout(x);
    var l := LayoutOf(x);
    StampReplaces(l, version);
    var m := l.(version := version, variant := 2);
    LayoutOfValue(m);
    VariantBits(m);
  }

  /** The last stamp wins; stamping again changes nothing. */
  lemma LastStampWins(x: nat, v: nat, w: nat)
    requires Is128(x) && 1 <= v <= 5 && 1 <= w <= 5
    ensures Stamp(Stamp(x, v), w) == Stamp(x, w)
  {
    hide Stamp, Layout.Value, LayoutOf;
    ValueOfLayout(x);
    var l := LayoutOf(x);
    StampReplaces(l, v);
    StampReplaces(l, w);
    StampReplaces(l.(version := v, variant := 2), w);
  }
}
