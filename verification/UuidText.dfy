// The textual and byte forms of a UUID.
module UuidText {
  import opened Wrappers
  import opened Text
  import opened Bits

  // ---- Hexadecimal digits ----

  function HexDigit(c: char): Option<nat> {
    if '0' <= c <= '9' then Some(c as int - '0' as int)
    else if 'a' <= c <= 'f' then Some(c as int - 'a' as int + 10)
    else if 'A' <= c <= 'F' then Some(c as int - 'A' as int + 10)
    else None
  }

  function HexChar(d: nat): (c: char)
    requires d < 16
    ensures HexDigit(c) == Some(d)
  {
    if d < 10 then ('0' as int + d) as char else ('a' as int + (d - 10)) as char
  }

  /** The sixteen digits, printed in lower case and read in either. */
  lemma DigitsSpelt(d: nat)
    requires d < 16
    ensures HexChar(d) == "0123456789abcdef"[d]
    ensures HexDigit("0123456789abcdef"[d]) == HexDigit("0123456789ABCDEF"[d]) == Some(d)
  {
  }

  predicate AllHex(s: string) {
    forall i :: 0 <= i < |s| ==> HexDigit(s[i]).Some?
  }

  function HexValue(s: string): nat
    requires AllHex(s)
  {
    if s == [] then 0 else 16 * HexValue(s[..|s| - 1]) + HexDigit(s[|s| - 1]).value
  }

  /** `'%0nx' % x` for an `x` of at most `n` digits. */
  function PrintHex(x: nat, n: nat): (s: string)
    ensures |s| == n && AllHex(s)
    decreases n
  {
    if n == 0 then "" else PrintHex(x / 16, n - 1) + [HexChar(x % 16)]
  }

  lemma {:induction false} PrintHexValue(x: nat, n: nat)
    requires x < Pow2(4 * n)
    ensures HexValue(PrintHex(x, n)) == x
    decreases n
  {
    if n > 0 {
      assert Pow2(4 * n) == 4 * Pow2(4 * n - 2) && Pow2(4 * n - 2) == 4 * Pow2(4 * (n - 1));
      PrintHexValue(x / 16, n - 1);
      var s := PrintHex(x, n);
      assert s[..n - 1] == PrintHex(x / 16, n - 1);
    }
  }

  function HexLength(s: string): (n: nat)
    ensures n <= |s| && AllHex(s[..n])
  {
    if s == [] || HexDigit(s[0]).None? then 0
    else
      var n := HexLength(s[1..]);
      assert s[..n + 1] == [s[0]] + s[1..][..n];
      n + 1
  }

  function Unprefixed(u: string): string {
    if |u| >= 2 && u[0] == '0' && (u[1] == 'x' || u[1] == 'X') then u[2..] else u
  }

  /** The leading digits, with nothing behind them but a final L and blanks. */
  function Digits(v: string): Option<nat> {
    var n := HexLength(v);
    var rest := if n < |v| && (v[n] == 'l' || v[n] == 'L') then v[n + 1..] else v[n..];
    if n > 0 && DropBlank(rest) == [] then Some(HexValue(v[..n])) else None
  }

  /** `long(s, 16)` on text without a minus sign: blanks around, a plus sign, a 0x prefix and a final L are tolerated.
      */
  function LongHex(s: string): Option<nat> {
    var t := DropBlank(s);
    Digits(Unprefixed(if t != [] && t[0] == '+' then DropBlank(t[1..]) else t))
  }

  lemma LongHexDigits(s: string)
    requires s != [] && AllHex(s)
    ensures LongHex(s) == Some(HexValue(s))
  {
    assert !IsBlank(s[0]);
    HexLengthAll(s);
    assert s[..|s|] == s;
    assert |s| >= 2 ==> HexDigit(s[1]).Some?;
  }

  lemma {:induction false} HexLengthAll(s: string)
    requires AllHex(s)
    ensures HexLength(s) == |s|
  {
    if s != [] { HexLengthAll(s[1..]); }
  }

  // ---- What reads as a number ----

  predicate AllBlank(s: string) {
    forall i :: 0 <= i < |s| ==> IsBlank(s[i])
  }

  /** A hexadecimal number in its parts: blanks, a sign and more blanks, a prefix, the digits, a suffix, blanks. */
  datatype Numeral = Numeral(before: string, sign: string, gap: string, prefix: string, digits: string,
                             suffix: string, after: string)
  {
    predicate Valid() {
      && AllBlank(before) && AllBlank(gap) && AllBlank(after)
      && sign in ["", "+"] && (sign == "" ==> gap == "")
      && prefix in ["", "0x", "0X"] && suffix in ["", "l", "L"]
      && digits != "" && AllHex(digits)
    }

    function Text(): string {
      before + (sign + (gap + (prefix + (digits + (suffix + after)))))
    }
  }

  lemma {:induction false} BlanksDropped(blanks: string, s: string)
    requires AllBlank(blanks) && (s == "" || !IsBlank(s[0]))
    ensures DropBlank(blanks + s) == s
  {
    if blanks == "" {
      assert blanks + s == s;
    } else {
      assert (blanks + s)[1..] == blanks[1..] + s;
      BlanksDropped(blanks[1..], s);
    }
  }

  lemma {:induction false} BlanksBefore(s: string) returns (blanks: string)
    ensures AllBlank(blanks) && s == blanks + DropBlank(s)
  {
    blanks := "";
    if s != "" && IsBlank(s[0]) {
      var more := BlanksBefore(s[1..]);
      blanks := [s[0]] + more;
      assert s == [s[0]] + s[1..];
    }
  }

  lemma {:induction false} HexEnds(digits: string, rest: string)
    requires AllHex(digits) && (rest == "" || HexDigit(rest[0]).None?)
    ensures HexLength(digits + rest) == |digits|
  {
    if digits == "" {
      assert digits + rest == rest;
    } else {
      assert (digits + rest)[1..] == digits[1..] + rest;
      HexEnds(digits[1..], rest);
    }
  }

  lemma {:induction false} LongestDigits(v: string)
    ensures HexLength(v) < |v| ==> HexDigit(v[HexLength(v)]).None?
  {
    if v != "" && HexDigit(v[0]).Some? { LongestDigits(v[1..]); }
  }

  lemma DigitsOf(digits: string, suffix: string, after: string)
    requires digits != "" && AllHex(digits) && suffix in ["", "l", "L"] && AllBlank(after)
    ensures Digits(digits + (suffix + after)) == Some(HexValue(digits))
  {
    var rest := suffix + after;
    HexEnds(digits, rest);
    BlanksDropped(after, "");
    assert after + "" == after;
    assert (digits + rest)[..|digits|] == digits && (digits + rest)[|digits|..] == rest;
    if suffix == "" {
      assert rest == after;
    } else {
      assert (digits + rest)[|digits|] == suffix[0];
      assert (digits + rest)[|digits| + 1..] == after;
    }
  }

  lemma PrefixSkipped(prefix: string, digits: string, suffix: string, after: string)
    requires digits != "" && AllHex(digits) && suffix in ["", "l", "L"] && AllBlank(after)
    requires prefix in ["", "0x", "0X"]
    ensures Unprefixed(prefix + (digits + (suffix + after))) == digits + (suffix + after)
  {
    var v := digits + (suffix + after);
    if prefix == "" {
      assert prefix + v == v;
      assert |v| >= 2 ==> v[1] == if |digits| > 1 then digits[1] else (suffix + after)[0];
    } else {
      assert (prefix + v)[2..] == v;
    }
  }

  lemma NumeralStarts(n: Numeral)
    requires n.Valid()
    ensures var v := n.prefix + (n.digits + (n.suffix + n.after));
            v != "" && !IsBlank(v[0]) && v[0] != '+'
  {
    assert HexDigit(n.digits[0]).Some?;
  }

  /** Every number so written is read, as the value of its digits. */
  lemma NumeralParses(n: Numeral)
    requires n.Valid()
    ensures LongHex(n.Text()) == Some(HexValue(n.digits))
  {
    hide Unprefixed, Digits, HexDigit, HexValue, DropBlank;
    var v := n.prefix + (n.digits + (n.suffix + n.after));
    NumeralStarts(n);
    PrefixSkipped(n.prefix, n.digits, n.suffix, n.after);
    DigitsOf(n.digits, n.suffix, n.after);
    BlanksDropped(n.gap, v);
    if n.sign == "" {
      assert n.gap + v == v && n.sign + v == v;
      BlanksDropped(n.before, v);
      assert DropBlank(n.Text()) == v by { assert n.Text() == n.before + v; }
      assert LongHex(n.Text()) == Digits(Unprefixed(v));
    } else {
      var t := n.sign + (n.gap + v);
      assert t[0] == '+' && t[1..] == n.gap + v;
      BlanksDropped(n.before, t);
      assert DropBlank(n.Text()) == t by { assert n.Text() == n.before + t; }
      assert LongHex(n.Text()) == Digits(Unprefixed(v));
    }
    assert Digits(Unprefixed(v)) == Some(HexValue(n.digits));
  }

  /** What is read as digits, a suffix and blanks is that. */
  lemma DigitsAre(v: string) returns (digits: string, suffix: string, after: string)
    requires Digits(v).Some?
    ensures digits != "" && AllHex(digits) && suffix in ["", "l", "L"] && AllBlank(after)
    ensures v == digits + (suffix + after)
  {
    var n := HexLength(v);
    digits, suffix := v[..n], "";
    if n < |v| && (v[n] == 'l' || v[n] == 'L') {
      suffix := if v[n] == 'l' then "l" else "L";
      after := BlanksBefore(v[n + 1..]);
    } else {
      after := BlanksBefore(v[n..]);
    }
    assert after + "" == after;
    assert v[n..] == suffix + after;
  }

  lemma PrefixIs(u: string) returns (prefix: string)
    ensures prefix in ["", "0x", "0X"] && u == prefix + Unprefixed(u)
  {
    prefix := if |u| >= 2 && u[0] == '0' && (u[1] == 'x' || u[1] == 'X') then u[..2] else "";
    assert |prefix| == 2 ==> prefix == [u[0], u[1]];
  }

  /** Nothing else is read. */
  lemma ParsesAsNumeral(s: string) returns (n: Numeral)
    requires LongHex(s).Some?
    ensures n.Valid() && n.Text() == s
  {
    hide Unprefixed, Digits, AllHex;
    var t := DropBlank(s);
    var before := BlanksBefore(s);
    var sign, gap, u := "", "", t;
    if t != "" && t[0] == '+' {
      sign, u := "+", DropBlank(t[1..]);
      gap := BlanksBefore(t[1..]);
      assert t == "+" + t[1..];
    } else {
    }
    var prefix := PrefixIs(u);
    var digits, suffix, after := DigitsAre(Unprefixed(u));
    n := Numeral(before, sign, gap, prefix, digits, suffix, after);
    assert gap + u == if sign == "" then t else t[1..];
  }

  /** Exactly the texts that are such a number in its parts are read, each as the value of its digits. */
  lemma LongHexIff(s: string, value: nat)
    ensures LongHex(s) == Some(value)
            <==> exists n: Numeral :: n.Valid() && n.Text() == s && HexValue(n.digits) == value
  {
    hide LongHex;
    if LongHex(s).Some? {
      var n := ParsesAsNumeral(s);
      NumeralParses(n);
    }
    forall n: Numeral | n.Valid() && n.Text() == s ensures LongHex(s) == Some(HexValue(n.digits)) {
      NumeralParses(n);
    }
  }

  // ---- Undressing ----

  /** `s.replace(pat, '')`. */
  function Remove(s: string, pat: string): string
    requires pat != []
  {
    if |s| < |pat| then s
    else if s[..|pat|] == pat then Remove(s[|pat|..], pat)
    else [s[0]] + Remove(s[1..], pat)
  }

  predicate IsBrace(c: char) {
    c == '{' || c == '}'
  }

  function StripLeft(s: string): string {
    if s != [] && IsBrace(s[0]) then StripLeft(s[1..]) else s
  }

  function StripRight(s: string): string {
    if s != [] && IsBrace(s[|s| - 1]) then StripRight(s[..|s| - 1]) else s
  }

  /** What is left of the `hex` argument once prefixes, braces and hyphens are gone. */
  function Undress(s: string): string {
    Remove(StripRight(StripLeft(Remove(Remove(s, "urn:"), "uuid:"))), "-")
  }

  datatype HexError = BadLength | NotHex

  function ParseHex(s: string): Result<nat, HexError> {
    var digits := Undress(s);
    if |digits| != 32 then Err(BadLength)
    else match LongHex(digits)
      case Some(x) => Ok(x)
      case None => Err(NotHex)
  }

  lemma {:induction false} RemoveNone(s: string, pat: string, c: char)
    requires c in pat && c !in s
    ensures Remove(s, pat) == s
  {
    if |s| >= |pat| {
      assert s[..|pat|] != pat by {
        assert forall d :: d in s[..|pat|] ==> d in s;
      }
      RemoveNone(s[1..], pat, c);
      assert [s[0]] + s[1..] == s;
    }
  }

  lemma RemoveFirst(pat: string, s: string)
    requires pat != []
    ensures Remove(pat + s, pat) == Remove(s, pat)
  {
    assert (pat + s)[..|pat|] == pat && (pat + s)[|pat|..] == s;
  }

  lemma {:induction false} RemoveHyphensConcat(a: string, b: string)
    ensures Remove(a + b, "-") == Remove(a, "-") + Remove(b, "-")
  {
    if a == [] {
      assert a + b == b;
    } else {
      RemoveHyphensConcat(a[1..], b);
      assert (a + b)[1..] == a[1..] + b;
      assert (a + b)[..1] == a[..1];
    }
  }

  /** Hexadecimal digits with hyphens anywhere. */
  predicate Hyphenated(t: string) {
    forall i :: 0 <= i < |t| ==> t[i] == '-' || HexDigit(t[i]).Some?
  }

  lemma {:induction false} HyphenatedDigits(t: string)
    requires Hyphenated(t)
    ensures AllHex(Remove(t, "-"))
  {
    if t != [] { HyphenatedDigits(t[1..]); }
  }

  /** A text in any of the forms the constructor documents. */
  function Dressed(t: string, urn: bool, braces: bool): string {
    (if urn then "urn:" + ("uuid:" + Braced(t, braces)) else Braced(t, braces))
  }

  function Braced(t: string, braces: bool): string {
    if braces then "{" + t + "}" else t
  }

  lemma StripBraced(t: string, braces: bool)
    requires Hyphenated(t) && t != []
    ensures StripRight(StripLeft(Braced(t, braces))) == t
  {
    assert !IsBrace(t[0]) && !IsBrace(t[|t| - 1]);
    if braces {
      assert ("{" + t + "}")[1..] == t + "}";
      assert (t + "}")[..|t|] == t;
    }
  }

  lemma BracedChars(t: string, braces: bool)
    requires Hyphenated(t)
    ensures 'r' !in Braced(t, braces) && ':' !in Braced(t, braces)
  {
  }

  lemma UndressDressed(t: string, urn: bool, braces: bool)
    requires Hyphenated(t) && t != []
    ensures Undress(Dressed(t, urn, braces)) == Remove(t, "-")
  {
    var body := Braced(t, braces);
    BracedChars(t, braces);
    StripBraced(t, braces);
    hide Remove, StripLeft, StripRight, Hyphenated, HexDigit;
    if urn {
      RemoveFirst("urn:", "uuid:" + body);
      RemoveNone("uuid:" + body, "urn:", 'r');
      RemoveFirst("uuid:", body);
    } else {
      RemoveNone(body, "urn:", 'r');
    }
    RemoveNone(body, "uuid:", ':');
  }

  /** Braces, hyphens and a URN prefix are all optional: only the 32 digits count. */
  lemma AnyFormParses(t: string, urn: bool, braces: bool)
    requires Hyphenated(t) && |Remove(t, "-")| == 32
    ensures AllHex(Remove(t, "-"))
    ensures ParseHex(Dressed(t, urn, braces)) == Ok(HexValue(Remove(t, "-")))
  {
    UndressDressed(t, urn, braces);
    HyphenatedDigits(t);
    LongHexDigits(Remove(t, "-"));
  }

  /** What each complaint means: some number of characters other than 32, or 32 that are not a number. */
  lemma ParseHexIff(s: string)
    ensures ParseHex(s) == Err(BadLength) <==> |Undress(s)| != 32
    ensures forall value ::
              ParseHex(s) == Ok(value)
              <==> |Undress(s)| == 32
                   && exists n: Numeral :: n.Valid() && n.Text() == Undress(s) && HexValue(n.digits) == value
  {
    hide Undress, LongHex, HexValue, AllHex, AllBlank, Numeral.Text;
    forall value
      ensures ParseHex(s) == Ok(value)
              <==> |Undress(s)| == 32
                   && exists n: Numeral :: n.Valid() && n.Text() == Undress(s) && HexValue(n.digits) == value
    {
      LongHexIff(Undress(s), value);
    }
  }

  // ---- The canonical form ----

  function Str(x: nat): string {
    var hex := PrintHex(x, 32);
    hex[..8] + "-" + hex[8..12] + "-" + hex[12..16] + "-" + hex[16..20] + "-" + hex[20..]
  }

  lemma StrDigits(x: nat)
    ensures Hyphenated(Str(x)) && Remove(Str(x), "-") == PrintHex(x, 32)
  {
    hide Remove, PrintHex;
    var hex := PrintHex(x, 32);
    var a, b, c, d, e := hex[..8], hex[8..12], hex[12..16], hex[16..20], hex[20..];
    HyphensVanish(a, b);
    HyphensVanish(a + "-" + b, c);
    HyphensVanish(a + "-" + b + "-" + c, d);
    HyphensVanish(a + "-" + b + "-" + c + "-" + d, e);
    RemoveNone(a, "-", '-');
    assert a + b + c + d + e == hex;
  }

  lemma HyphensVanish(a: string, b: string)
    requires AllHex(b)
    ensures Remove(a + "-" + b, "-") == Remove(a, "-") + b
  {
    hide Remove;
    RemoveHyphensConcat(a + "-", b);
    RemoveHyphensConcat(a, "-");
    RemoveFirst("-", "");
    assert "-" + "" == "-";
    RemoveNone("", "-", '-');
    RemoveNone(b, "-", '-');
    assert Remove(a, "-") + "" == Remove(a, "-");
  }

  predicate IsLowerHex(c: char) {
    '0' <= c <= '9' || 'a' <= c <= 'f'
  }

  /** The canonical form: 36 characters, hyphens at 8, 13, 18 and 23, and lower-case digits everywhere else. */
  lemma CanonicalForm(x: nat)
    ensures var s := Str(x);
            && |s| == 36
            && forall i :: 0 <= i < 36 ==> if i in {8, 13, 18, 23} then s[i] == '-' else IsLowerHex(s[i])
  {
    hide PrintHex;
    var hex := PrintHex(x, 32);
    forall k | 0 <= k < 32 ensures IsLowerHex(hex[k]) { PrintsLower(x, 32, k); }
    var s := Str(x);
    forall i | 0 <= i < 36
      ensures s[i] == if i in {8, 13, 18, 23} then '-' else if i < 8 then hex[i] else if i < 13 then hex[i - 1]
                      else if i < 18 then hex[i - 2] else if i < 23 then hex[i - 3] else hex[i - 4]
    {
    }
  }

  lemma {:induction false} PrintsLower(x: nat, n: nat, k: nat)
    requires k < n
    ensures IsLowerHex(PrintHex(x, n)[k])
    decreases n
  {
    if k < n - 1 { PrintsLower(x / 16, n - 1, k); }
  }

  /** Every 128-bit value survives printing and parsing: plain hexadecimal or canonical, bare, braced or as a URN. */
  lemma TextRoundTrip(x: nat, canonical: bool, urn: bool, braces: bool)
    requires x < Pow2(128)
    ensures ParseHex(Dressed(if canonical then Str(x) else PrintHex(x, 32), urn, braces)) == Ok(x)
  {
    hide Str, PrintHex, ParseHex, Dressed, Remove, HexValue;
    var t := if canonical then Str(x) else PrintHex(x, 32);
    StrDigits(x);
    RemoveNone(PrintHex(x, 32), "-", '-');
    AnyFormParses(t, urn, braces);
    PrintHexValue(x, 32);
  }

  // ---- Bytes ----

  type Byte = b: nat | b < 256 witness 0

  /** The big-endian value of a byte string. */
  function BytesValue(bytes: seq<Byte>): nat {
    if bytes == [] then 0 else 256 * BytesValue(bytes[..|bytes| - 1]) + bytes[|bytes| - 1]
  }

  /** The last `n` bytes of `x`, most significant first. */
  function BytesOf(x: nat, n: nat): (b: seq<Byte>)
    ensures |b| == n
    decreases n
  {
    if n == 0 then [] else BytesOf(x / 256, n - 1) + [x % 256]
  }

  /** Two hexadecimal digits a byte. */
  function HexOfBytes(bytes: seq<Byte>): (s: string)
    ensures |s| == 2 * |bytes| && AllHex(s)
  {
    if bytes == [] then "" else HexOfBytes(bytes[..|bytes| - 1]) + PrintHex(bytes[|bytes| - 1], 2)
  }

  lemma HexValueSnoc(s: string, d: nat)
    requires AllHex(s) && d < 16
    ensures AllHex(s + [HexChar(d)]) && HexValue(s + [HexChar(d)]) == 16 * HexValue(s) + d
  {
    assert (s + [HexChar(d)])[..|s|] == s;
  }

  lemma TwoDigits(b: Byte)
    ensures PrintHex(b, 2) == [HexChar(b / 16), HexChar(b % 16)]
  {
    var h := b / 16;
    assert h < 16 && h % 16 == h;
    assert PrintHex(h, 1) == [HexChar(h)] by { assert PrintHex(h / 16, 0) == ""; }
  }

  lemma {:induction false} HexOfBytesValue(bytes: seq<Byte>)
    ensures HexValue(HexOfBytes(bytes)) == BytesValue(bytes)
  {
    if bytes != [] {
      hide HexValue, PrintHex, HexChar;
      var front, b := bytes[..|bytes| - 1], bytes[|bytes| - 1];
      HexOfBytesValue(front);
      TwoDigits(b);
      var s := HexOfBytes(front);
      HexValueSnoc(s, b / 16);
      HexValueSnoc(s + [HexChar(b / 16)], b % 16);
      assert s + [HexChar(b / 16)] + [HexChar(b % 16)] == HexOfBytes(bytes);
    } else {
      assert HexOfBytes(bytes) == "";
    }
  }

  lemma {:induction false} BytesOfValue(bytes: seq<Byte>)
    ensures BytesOf(BytesValue(bytes), |bytes|) == bytes
  {
    if bytes != [] {
      BytesOfValue(bytes[..|bytes| - 1]);
    }
  }

  lemma {:induction false} ValueOfBytes(x: nat, n: nat)
    requires x < Pow2(8 * n)
    ensures BytesValue(BytesOf(x, n)) == x
    decreases n
  {
    if n > 0 {
      Pow2Step(8 * (n - 1));
      ValueOfBytes(x / 256, n - 1);
      assert BytesOf(x, n)[..n - 1] == BytesOf(x / 256, n - 1);
    }
  }

  lemma {:induction false} FrontByte(x: nat, n: nat)
    ensures BytesOf(x, n + 1) == [Shr(x, 8 * n) % 256] + BytesOf(x, n)
    decreases n
  {
    if n > 0 {
      FrontByte(x / 256, n - 1);
      ShrByte(x, n);
    }
  }

  lemma ShrByte(x: nat, n: nat)
    requires n > 0
    ensures Shr(x, 8 * n) == Shr(x / 256, 8 * (n - 1))
  {
    hide Shr, Pow2;
    ShrAdd(x, 8, 8 * (n - 1));
    ShrIsDiv(x, 8);
    SmallPowers();
  }

  lemma NextByte(x: nat, n: nat)
    ensures var b := Bitwise(And, Shr(x, 8 * n), 0xff); 0 <= b < 256 && [b] + BytesOf(x, n) == BytesOf(x, n + 1)
  {
    hide Bitwise, Shr;
    FrontByte(x, n);
    SmallPowers();
    MaskIsMod(Shr(x, 8 * n), 8);
  }

  /** The accessor builds the sixteen bytes from the least significant one. */
  method GetBytes(x: nat) returns (bytes: seq<Byte>)
    ensures bytes == BytesOf(x, 16)
  {
    bytes := [];
    assert bytes == BytesOf(x, 0);
    hide Bitwise, Shr, BytesOf;
    var shift := 0;
    ghost var n := 0;
    while shift < 128
      invariant n <= 16 && shift == 8 * n
      invariant bytes == BytesOf(x, n)
    {
      NextByte(x, n);
      bytes := [Bitwise(And, Shr(x, shift), 0xff)] + bytes;
      shift, n := shift + 8, n + 1;
    }
  }
}
