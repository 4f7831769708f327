// Construction of UUIDs: the constructor with its error cases, and the portable time-based generator.
module UuidMake {
  import opened Wrappers
  import opened Bits
  import Text
  import opened Uuid
  import opened UuidText

  datatype Error =
    | NeedJustOne
    | BadText(why: HexError)
    | NotSixteenBytes
    | NotSixFields
    | FieldOutOfRange(index: nat)
    | IntOutOfRange
    | IllegalVersion

  /** The arguments of the constructor, each present or not. */
  datatype Args = Args(hex: Option<string>, bytes: Option<seq<Byte>>, fields: Option<seq<int>>, number: Option<int>,
                       version: Option<int>)
  {
    function Count(): nat {
      (if hex.Some? then 1 else 0) + (if bytes.Some? then 1 else 0) + (if fields.Some? then 1 else 0)
      + (if number.Some? then 1 else 0)
    }
  }

  const LIMITS: seq<int> := [0x1_0000_0000, 0x1_0000, 0x1_0000, 0x100, 0x100, 0x1_0000_0000_0000]

  /** The first field out of range, counted from one; zero if there is none. */
  function BadField(f: seq<int>): (k: nat)
    requires |f| == 6
    ensures k == 0 <==> InRange(f)
    ensures k > 0 ==> k <= 6 && !(0 <= f[k - 1] < LIMITS[k - 1])
    ensures forall j :: 0 <= j < k - 1 ==> 0 <= f[j] < LIMITS[j]
  {
    if !(0 <= f[0] < LIMITS[0]) then 1
    else if !(0 <= f[1] < LIMITS[1]) then 2
    else if !(0 <= f[2] < LIMITS[2]) then 3
    else if !(0 <= f[3] < LIMITS[3]) then 4
    else if !(0 <= f[4] < LIMITS[4]) then 5
    else if !(0 <= f[5] < LIMITS[5]) then 6
    else 0
  }

  /** The integer that the one given form stands for. */
  function Denoted(a: Args): Result<int, Error> {
    if a.Count() != 1 then Err(NeedJustOne)
    else if a.hex.Some? then
      match ParseHex(a.hex.value) { case Ok(x) => Ok(x) case Err(e) => Err(BadText(e)) }
    else if a.bytes.Some? then
      if |a.bytes.value| != 16 then Err(NotSixteenBytes) else Ok(BytesValue(a.bytes.value))
    else if a.fields.Some? then
      if |a.fields.value| != 6 then Err(NotSixFields)
      else if BadField(a.fields.value) != 0 then Err(FieldOutOfRange(BadField(a.fields.value)))
      else Ok(Pack(a.fields.value))
    else Ok(a.number.value)
  }

  function Make(a: Args): Result<int, Error> {
    match Denoted(a)
    case Err(e) => Err(e)
    case Ok(x) =>
      if !Is128(x) then Err(IntOutOfRange)
      else if a.version.None? then Ok(x)
      else if !(1 <= a.version.value <= 5) then Err(IllegalVersion)
      else Ok(Stamp(x, a.version.value))
  }

  /** The range checks, one field after another. */
  method FirstBadField(f: seq<int>) returns (bad: nat)
    requires |f| == 6
    ensures bad == BadField(f)
  {
    var k := 0;
    while k < 6
      invariant 0 <= k <= 6
      invariant forall j :: 0 <= j < k ==> 0 <= f[j] < LIMITS[j]
    {
      if !(0 <= f[k] < LIMITS[k]) {
        return k + 1;
      }
      k := k + 1;
    }
    bad := 0;
  }

  /** The constructor, which narrows one integer down step by step. */
  method Init(a: Args) returns (r: Result<int, Error>)
    ensures r == Make(a)
  {
    if a.Count() != 1 {
      return Err(NeedJustOne);
    }
    var x := 0;
    if a.number.Some? {
      x := a.number.value;
    }
    if a.hex.Some? {
      match ParseHex(a.hex.value) {
        case Err(e) => return Err(BadText(e));
        case Ok(v) => x := v;
      }
    }
    if a.bytes.Some? {
      if |a.bytes.value| != 16 {
        return Err(NotSixteenBytes);
      }
      BytesParse(a.bytes.value);
      x := LongHex(HexOfBytes(a.bytes.value)).value;
    }
    if a.fields.Some? {
      var f := a.fields.value;
      if |f| != 6 {
        return Err(NotSixFields);
      }
      var bad := FirstBadField(f);
      if bad != 0 {
        return Err(FieldOutOfRange(bad));
      }
      x := Bitwise(Or, Bitwise(Or, TimeHalf(f[0], f[1], f[2]), Shl(ClockSeqOf(f[3], f[4]), 48)), f[5]);
    }
    if !Is128(x) {
      return Err(IntOutOfRange);
    }
    if a.version.Some? {
      if !(1 <= a.version.value <= 5) {
        return Err(IllegalVersion);
      }
      var y: nat := x;
      y := Bitwise(AndNot, y, Shl(0xc000, 48));
      y := Bitwise(Or, y, Shl(0x8000, 48));
      y := Bitwise(AndNot, y, Shl(0xf000, 64));
      y := Bitwise(Or, y, Shl(a.version.value, 76));
      x := y;
    }
    return Ok(x);
  }

  lemma BytesParse(bytes: seq<Byte>)
    requires |bytes| == 16
    ensures LongHex(HexOfBytes(bytes)) == Some(BytesValue(bytes))
  {
    LongHexDigits(HexOfBytes(bytes));
    HexOfBytesValue(bytes);
  }

  function OfBytes(bytes: seq<Byte>): Args { Args(None, Some(bytes), None, None, None) }

  function OfText(text: string): Args { Args(Some(text), None, None, None, None) }

  function OfFields(fields: seq<int>, version: Option<int>): Args { Args(None, None, Some(fields), None, version) }

  /** Every 16-byte string survives the constructor and the bytes accessor. */
  lemma BytesSurvive(bytes: seq<Byte>)
    requires |bytes| == 16
    ensures Make(OfBytes(bytes)).Ok? && BytesOf(Make(OfBytes(bytes)).value, 16) == bytes
  {
    hide Bitwise, BytesOf;
    BytesOfValue(bytes);
    BytesBound(bytes);
    Pow2Values();
  }

  lemma {:induction false} BytesBound(bytes: seq<Byte>)
    ensures BytesValue(bytes) < Pow2(8 * |bytes|)
  {
    if bytes != [] {
      BytesBound(bytes[..|bytes| - 1]);
      Pow2Step(8 * (|bytes| - 1));
    }
  }

  /** Every 128-bit value survives its bytes and each of its texts. */
  lemma ValueSurvives(x: nat, canonical: bool, urn: bool, braces: bool)
    requires Is128(x)
    ensures Make(OfBytes(BytesOf(x, 16))) == Ok(x)
    ensures Make(OfText(Dressed(if canonical then Str(x) else PrintHex(x, 32), urn, braces))) == Ok(x)
  {
    hide Bitwise, BytesOf, ParseHex, PrintHex, Dressed, Str;
    Pow2Values();
    ValueOfBytes(x, 16);
    TextRoundTrip(x, canonical, urn, braces);
  }

  // ---- What the constructor accepts, and what it makes ----

  lemma {:induction false} HexBound(s: string)
    requires AllHex(s)
    ensures HexValue(s) < Pow2(4 * |s|)
  {
    if s != [] {
      var n := |s| - 1;
      HexBound(s[..n]);
      Pow2Step4(4 * n);
    }
  }

  lemma Pow2Step4(k: nat)
    ensures Pow2(k + 4) == 16 * Pow2(k)
  {
    Pow2Next(k);
    Pow2Next(k + 1);
    Pow2Next(k + 2);
    Pow2Next(k + 3);
  }

  lemma {:induction false} Pow2Grows(j: nat, k: nat)
    requires j <= k
    ensures Pow2(j) <= Pow2(k)
    decreases k - j
  {
    if j < k {
      Pow2Next(k - 1);
      Pow2Grows(j, k - 1);
    }
  }

  lemma LongHexBound(s: string)
    requires |s| == 32 && LongHex(s).Some?
    ensures LongHex(s).value < Pow2(128)
  {
    var t := Text.DropBlank(s);
    var u := if t != [] && t[0] == '+' then Text.DropBlank(t[1..]) else t;
    var v := if |u| >= 2 && u[0] == '0' && (u[1] == 'x' || u[1] == 'X') then u[2..] else u;
    var n := HexLength(v);
    hide Pow2, HexValue;
    HexBound(v[..n]);
    Pow2Grows(4 * n, 128);
  }

  /** Text that parses has at most 32 digits, so that its value has at most 128 bits. */
  lemma ParsedBound(text: string)
    requires ParseHex(text).Ok?
    ensures Is128(ParseHex(text).value)
  {
    hide Pow2;
    var digits := Undress(text);
    LongHexBound(digits);
    Pow2Values();
  }

  /** Exactly one form, well-formed and in range, and a version from one to five if any. */
  predicate Acceptable(a: Args) {
    && a.Count() == 1
    && (a.hex.Some? ==> ParseHex(a.hex.value).Ok?)
    && (a.bytes.Some? ==> |a.bytes.value| == 16)
    && (a.fields.Some? ==> InRange(a.fields.value))
    && (a.number.Some? ==> Is128(a.number.value))
    && (a.version.Some? ==> 1 <= a.version.value <= 5)
  }

  /** The constructor succeeds exactly on acceptable arguments. */
  lemma MakeIff(a: Args)
    ensures Make(a).Ok? <==> Acceptable(a)
  {
    hide ParseHex, Pack, Stamp, BytesValue, Is128;
    DenotedInRange(a);
    if a.fields.Some? && |a.fields.value| == 6 {
      assert BadField(a.fields.value) == 0 <==> InRange(a.fields.value);
    }
  }

  lemma DenotedInRange(a: Args)
    ensures a.Count() == 1 && a.number.None? && Denoted(a).Ok? ==> Is128(Denoted(a).value)
  {
    if a.Count() == 1 && a.number.None? && Denoted(a).Ok? {
      hide ParseHex, Pack, BytesValue, Is128;
      if a.hex.Some? {
        ParsedBound(a.hex.value);
      } else if a.bytes.Some? {
        SixteenBytesBound(a.bytes.value);
      } else {
        PackThenUnpack(a.fields.value);
      }
    }
  }

  lemma SixteenBytesBound(bytes: seq<Byte>)
    requires |bytes| == 16
    ensures Is128(BytesValue(bytes))
  {
    hide Pow2;
    BytesBound(bytes);
    Pow2Values();
  }

  /** Which complaint comes first. */
  lemma Complaints(a: Args)
    ensures Make(a) == Err(NeedJustOne) <==> a.Count() != 1
    ensures a.Count() == 1 && a.bytes.Some? ==> (Make(a) == Err(NotSixteenBytes) <==> |a.bytes.value| != 16)
    ensures a.Count() == 1 && a.fields.Some? ==> (Make(a) == Err(NotSixFields) <==> |a.fields.value| != 6)
    ensures a.Count() == 1 && a.number.Some? ==> (Make(a) == Err(IntOutOfRange) <==> !Is128(a.number.value))
    ensures a.Count() == 1 && a.hex.Some? ==>
              forall e :: Make(a) == Err(BadText(e)) <==> ParseHex(a.hex.value) == Err(e)
    ensures Make(a) == Err(IllegalVersion) <==>
              Make(a.(version := None)).Ok? && a.version.Some? && !(1 <= a.version.value <= 5)
  {
    hide ParseHex, Pack, Stamp, BytesValue, Is128;
  }

  /** Without a version each form comes back as what was given: the fields, the number, the bytes, the text's value. */
  lemma FormsSurvive(a: Args)
    requires Acceptable(a) && a.version.None?
    ensures Make(a).Ok?
    ensures a.fields.Some? ==> FieldsOf(Make(a).value) == a.fields.value
    ensures a.number.Some? ==> Make(a).value == a.number.value
    ensures a.bytes.Some? ==> BytesOf(Make(a).value, 16) == a.bytes.value
    ensures a.hex.Some? ==> ParseHex(a.hex.value) == Ok(Make(a).value)
  {
    MakeIff(a);
    hide ParseHex, Pack, BytesValue, BytesOf, FieldsOf, Is128;
    if a.fields.Some? {
      PackThenUnpack(a.fields.value);
    }
    if a.bytes.Some? {
      BytesOfValue(a.bytes.value);
    }
  }

  /** A requested version is set, with the variant, and the other 122 bits are those that the arguments give without
      it. */
  lemma VersionIsSet(a: Args)
    requires Acceptable(a) && a.version.Some?
    ensures Make(a).Ok? && Make(a.(version := None)).Ok?
    ensures var u, plain := Make(a).value, Make(a.(version := None)).value;
            && Is128(u) && Is128(plain)
            && GetVariant(u) == RFC_4122 && GetVersion(u) == a.version
            && LayoutOf(u) == LayoutOf(plain).(version := a.version.value, variant := 2)
  {
    hide ParseHex, Pack, BytesValue, Stamp, GetVariant, GetVersion, LayoutOf;
    MakeIff(a);
    MakeIff(a.(version := None));
    StampSets(Make(a.(version := None)).value, a.version.value);
  }

  /** The first sixteen bytes of a digest as a version 3 or 5 UUID, and random bytes as a version 4 one. */
  function FromBytes(bytes: seq<Byte>, version: int): Result<int, Error> {
    Make(Args(None, Some(bytes), None, None, Some(version)))
  }

  function Uuid3(md5: seq<Byte>): Result<int, Error>
    requires |md5| == 16
  {
    FromBytes(md5[..16], 3)
  }

  function Uuid4(random: seq<Byte>): Result<int, Error> {
    FromBytes(random, 4)
  }

  function Uuid5(sha: seq<Byte>): Result<int, Error>
    requires |sha| == 20
  {
    FromBytes(sha[..16], 5)
  }

  /** Each says its version, and keeps all bits of the bytes it is made of but those of version and variant. */
  lemma DerivedVersions(md5: seq<Byte>, random: seq<Byte>, sha: seq<Byte>)
    requires |md5| == 16 && |random| == 16 && |sha| == 20
    ensures Uuid3(md5).Ok? && SaysVersion(Uuid3(md5).value, md5, 3)
    ensures Uuid4(random).Ok? && SaysVersion(Uuid4(random).value, random, 4)
    ensures Uuid5(sha).Ok? && SaysVersion(Uuid5(sha).value, sha[..16], 5)
  {
    hide SaysVersion, FromBytes;
    assert md5[..16] == md5;
    BytesWithVersion(md5, 3);
    BytesWithVersion(random, 4);
    BytesWithVersion(sha[..16], 5);
  }

  predicate SaysVersion(u: int, bytes: seq<Byte>, version: int) {
    && Is128(u) && GetVersion(u) == Some(version) && GetVariant(u) == RFC_4122
    && version >= 0 && LayoutOf(u) == LayoutOf(BytesValue(bytes)).(version := version, variant := 2)
  }

  lemma BytesWithVersion(bytes: seq<Byte>, version: int)
    requires |bytes| == 16 && 1 <= version <= 5
    ensures FromBytes(bytes, version).Ok? && SaysVersion(FromBytes(bytes, version).value, bytes, version)
  {
    hide Make, GetVariant, GetVersion, LayoutOf, Is128, BytesValue;
    var a := Args(None, Some(bytes), None, None, Some(version));
    VersionIsSet(a);
    PlainBytes(bytes);
  }

  lemma PlainBytes(bytes: seq<Byte>)
    requires |bytes| == 16
    ensures Make(OfBytes(bytes)) == Ok(BytesValue(bytes))
  {
    hide BytesValue, Is128;
    SixteenBytesBound(bytes);
  }

  // ---- Time-based UUIDs ----

  /** The 60-bit timestamp. */
  function GetTime(x: nat): int {
    Bitwise(Or, Bitwise(Or, Shl(Bitwise(And, TimeHiVersion(x), 0x0fff), 48), Shl(TimeMid(x), 32)), TimeLow(x))
  }

  /** The 14-bit clock sequence. */
  function GetClockSeq(x: nat): int {
    Bitwise(Or, Shl(Bitwise(And, ClockSeqHiVariant(x), 0x3f), 8), ClockSeqLow(x))
  }

  /** The fields that the portable generator takes from a timestamp, a sequence number and a hardware address. */
  function TimeFields(timestamp: int, clockSeq: int, node: int): seq<int> {
    [Bitwise(And, timestamp, 0xffff_ffff),
     Bitwise(And, Shr(timestamp, 32), 0xffff),
     Bitwise(And, Shr(timestamp, 48), 0x0fff),
     Bitwise(And, Shr(clockSeq, 8), 0x3f),
     Bitwise(And, clockSeq, 0xff),
     node]
  }

  function Uuid1(timestamp: int, clockSeq: int, node: int): Result<int, Error> {
    Make(OfFields(TimeFields(timestamp, clockSeq, node), Some(1)))
  }

  function TimeSlices(timestamp: int, clockSeq: int, node: int): seq<int> {
    [timestamp % 0x1_0000_0000, timestamp / 0x1_0000_0000 % 0x1_0000, timestamp / 0x1_0000_0000_0000 % 0x1000,
     clockSeq / 0x100 % 0x40, clockSeq % 0x100, node]
  }

  lemma TimeFieldsAreSlices(timestamp: int, clockSeq: int, node: int)
    ensures TimeFields(timestamp, clockSeq, node) == TimeSlices(timestamp, clockSeq, node)
  {
    hide Bitwise, Shr, Pow2;
    SmallPowers();
    MaskIsMod(timestamp, 32);
    Slice(timestamp, 32, 16, 0x1_0000_0000, 0xffff);
    Slice(timestamp, 48, 12, 0x1_0000_0000_0000, 0x0fff);
    Slice(clockSeq, 8, 6, 0x100, 0x3f);
    MaskIsMod(clockSeq, 8);
  }

  lemma SlicesAddUp(timestamp: int, clockSeq: int)
    ensures var f := TimeSlices(timestamp, clockSeq, 0);
            (f[2] * 0x1_0000 + f[1]) * 0x1_0000_0000 + f[0] == timestamp % 0x1000_0000_0000_0000
            && f[3] * 0x100 + f[4] == clockSeq % 0x4000
  {
    var f := TimeSlices(timestamp, clockSeq, 0);
    var t := timestamp / 0x1_0000_0000;
    var h := t / 0x1_0000;
    QuotientIs(timestamp, 0x1_0000_0000_0000, h, t % 0x1_0000 * 0x1_0000_0000 + f[0]);
    QuotientIs(timestamp, 0x1000_0000_0000_0000, h / 0x1000, (f[2] * 0x1_0000 + f[1]) * 0x1_0000_0000 + f[0]);
    var c := clockSeq / 0x100;
    QuotientIs(clockSeq, 0x4000, c / 0x40, f[3] * 0x100 + f[4]);
  }

  lemma ReadTime(x: nat, f: seq<int>)
    requires InRange(f) && FieldsOf(x) == f
    ensures GetTime(x) == (f[2] % 0x1000 * 0x1_0000 + f[1]) * 0x1_0000_0000 + f[0]
    ensures GetClockSeq(x) == f[3] % 0x40 * 0x100 + f[4]
    ensures Node(x) == f[5]
  {
    hide Bitwise, Shl, Pow2, TimeLow, TimeMid, TimeHiVersion, ClockSeqHiVariant, ClockSeqLow, Node;
    SmallPowers();
    var hi := f[2] % 0x1000;
    MaskIsMod(f[2], 12);
    MaskIsMod(f[3], 6);
    ShlIsTimes(f[1], 32);
    Joins(hi, f[1] * 0x1_0000_0000, 48, 0x1_0000_0000_0000);
    Joins(hi * 0x1_0000 + f[1], f[0], 32, 0x1_0000_0000);
    Joins(f[3] % 0x40, f[4], 8, 0x100);
  }

  /** Packing reduced fields and stamping version one only adds the version and variant bits. */
  lemma StampedFields(f: seq<int>)
    requires InRange(f) && f[2] < 0x1000 && f[3] < 0x40
    ensures Is128(Pack(f)) && FieldsOf(Stamp(Pack(f), 1)) == f[2 := f[2] + 0x1000][3 := f[3] + 0x80]
  {
    hide Pack, Stamp, FieldsOf, Slices;
    var l := Layout(f[0] * 0x1_0000 + f[1], 0, f[2], 0, f[3] * 0x100 + f[4], f[5]);
    PackIsSum(f);
    SlicesOfSum(f);
    StampReplaces(l, 1);
    var g := f[2 := f[2] + 0x1000][3 := f[3] + 0x80];
    SlicesOfSum(g);
    FieldsAreSlices(Sum(g));
  }

  /** A time-based UUID reads back the 60-bit timestamp, the 14-bit sequence number and the node it was made of. */
  lemma TimeBasedReadsBack(timestamp: int, clockSeq: int, node: int)
    requires 0 <= node < 0x1_0000_0000_0000
    ensures var u := Uuid1(timestamp, clockSeq, node);
            u.Ok? && Is128(u.value) && GetTime(u.value) == timestamp % 0x1000_0000_0000_0000
            && GetClockSeq(u.value) == clockSeq % 0x4000 && Node(u.value) == node
            && GetVariant(u.value) == RFC_4122 && GetVersion(u.value) == Some(1)
  {
    hide Pack, Stamp, FieldsOf, GetTime, GetClockSeq, Node, GetVariant, GetVersion, TimeFields, LayoutOf;
    var f := TimeSlices(timestamp, clockSeq, node);
    TimeFieldsAreSlices(timestamp, clockSeq, node);
    StampedFields(f);
    StampSets(Pack(f), 1);
    ReadTime(Stamp(Pack(f), 1), f[2 := f[2] + 0x1000][3 := f[3] + 0x80]);
    SlicesAddUp(timestamp, clockSeq);
  }

  /** So two of them are equal only when the reduced timestamps, the reduced sequence numbers and the nodes are. */
  lemma TimeBasedNeverCollide(t1: int, c1: int, n1: int, t2: int, c2: int, n2: int)
    requires 0 <= n1 < 0x1_0000_0000_0000 && 0 <= n2 < 0x1_0000_0000_0000
    ensures Uuid1(t1, c1, n1) == Uuid1(t2, c2, n2)
            <==> t1 % 0x1000_0000_0000_0000 == t2 % 0x1000_0000_0000_0000 && c1 % 0x4000 == c2 % 0x4000 && n1 == n2
  {
    hide GetTime, GetClockSeq, Node, GetVariant, GetVersion, Make, TimeFields;
    TimeBasedReadsBack(t1, c1, n1);
    TimeBasedReadsBack(t2, c2, n2);
    TimeFieldsAreSlices(t1, c1, n1);
    TimeFieldsAreSlices(t2, c2, n2);
    SlicesAddUp(t1, c1);
    SlicesAddUp(t2, c2);
    var f, g := TimeSlices(t1, c1, n1), TimeSlices(t2, c2, n2);
    if (f[2] * 0x1_0000 + f[1]) * 0x1_0000_0000 + f[0] == (g[2] * 0x1_0000 + g[1]) * 0x1_0000_0000 + g[0] {
      DigitsUnique(f[2] * 0x1_0000 + f[1], f[0], g[2] * 0x1_0000 + g[1], g[0], 0x1_0000_0000);
      DigitsUnique(f[2], f[1], g[2], g[1], 0x1_0000);
    }
    if f[3] * 0x100 + f[4] == g[3] * 0x100 + g[4] {
      DigitsUnique(f[3], f[4], g[3], g[4], 0x100);
    }
  }

  lemma DigitsUnique(a: int, b: int, c: int, d: int, base: nat)
    requires 0 <= b < base && 0 <= d < base && a * base + b == c * base + d
    ensures a == c && b == d
  {
    QuotientIs(a * base + b, base, a, b);
    QuotientIs(c * base + d, base, c, d);
  }
}
