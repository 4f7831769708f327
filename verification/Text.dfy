// Text as the programs of this repository read and write it: lines, blank-separated words, decimal numbers.
module Text {
  import opened Wrappers

  predicate IsBlank(c: char) {
    c == ' ' || '\t' <= c <= '\r'
  }

  /** The six characters that separate words. */
  lemma Blanks(c: char)
    ensures IsBlank(c) <==> c in [' ', '\t', '\n', '\U{0b}', '\U{0c}', '\r']
  {
  }

  /** A non-empty run of non-blank characters: what splitting on blanks yields. */
  predicate IsWord(w: string) {
    w != [] && forall i :: 0 <= i < |w| ==> !IsBlank(w[i])
  }

  function DropBlank(s: string): (r: string)
    ensures |r| <= |s|
    ensures r != [] ==> !IsBlank(r[0])
  {
    if s != [] && IsBlank(s[0]) then DropBlank(s[1..]) else s
  }

  /** The number of characters before the first blank. */
  function WordLength(s: string): (n: nat)
    ensures n <= |s|
    ensures forall i :: 0 <= i < n ==> !IsBlank(s[i])
    ensures n < |s| ==> IsBlank(s[n])
  {
    if s == [] || IsBlank(s[0]) then 0 else 1 + WordLength(s[1..])
  }

  /** The blank-separated words of a text: `split` without arguments. */
  function Split(s: string): seq<string>
    decreases |s|
  {
    var t := DropBlank(s);
    if t == [] then [] else
      var n := WordLength(t);
      [t[..n]] + Split(t[n..])
  }

  function WordAt(words: seq<string>, i: nat): string {
    if i < |words| then words[i] else ""
  }

  lemma SplitWord(w: string, rest: string)
    requires IsWord(w)
    requires rest == [] || IsBlank(rest[0])
    ensures Split(w + rest) == [w] + Split(rest)
  {
    var t := w + rest;
    assert DropBlank(t) == t;
    var n := WordLength(t);
    assert n <= |w| by {
      assert |w| < |t| ==> t[|w|] == rest[0];
    }
    assert forall i :: 0 <= i < |w| ==> t[i] == w[i];
    assert t[..n] == w && t[n..] == rest;
  }

  lemma SplitBlank(c: char, s: string)
    requires IsBlank(c)
    ensures Split([c] + s) == Split(s)
  {
    assert ([c] + s)[1..] == s;
  }

  /** A word, a blank, and more text. */
  lemma SplitCons(w: string, c: char, rest: string)
    requires IsWord(w) && IsBlank(c)
    ensures Split(w + [c] + rest) == [w] + Split(rest)
  {
    assert w + [c] + rest == w + ([c] + rest);
    SplitWord(w, [c] + rest);
    SplitBlank(c, rest);
  }

  lemma SplitOne(w: string)
    requires IsWord(w)
    ensures Split(w) == [w]
  {
    SplitWord(w, "");
    assert w + "" == w;
  }

  /** Two words, and perhaps a final newline. */
  lemma SplitTwo(a: string, b: string, tail: string)
    requires IsWord(a) && IsWord(b) && tail in ["", "\n"]
    ensures Split(a + [' '] + b + tail) == [a, b]
  {
    assert a + [' '] + b + tail == a + [' '] + (b + tail);
    SplitCons(a, ' ', b + tail);
    if tail == "" {
      assert b + tail == b;
      SplitOne(b);
    } else {
      assert b + tail == b + ['\n'] + "";
      SplitCons(b, '\n', "");
    }
  }

  // ---- Lines ----

  /** The length of the first line, its newline included. */
  function LineLength(s: string): (n: nat)
    ensures n <= |s|
    ensures s != [] ==> 0 < n
    ensures forall i :: 0 <= i < n - 1 ==> s[i] != '\n'
    ensures n < |s| ==> s[n - 1] == '\n'
  {
    if s == [] then 0
    else if s[0] == '\n' then 1
    else 1 + LineLength(s[1..])
  }

  lemma FirstLine(line: string, rest: string)
    requires '\n' !in line
    ensures LineLength(line + "\n" + rest) == |line| + 1
    ensures (line + "\n" + rest)[..|line| + 1] == line + "\n"
    ensures (line + "\n" + rest)[|line| + 1..] == rest
  {
    var s := line + "\n" + rest;
    var n := LineLength(s);
    assert s[|line|] == '\n';
    assert forall i :: 0 <= i < |line| ==> s[i] == line[i];
  }

  // ---- Decimal numbers ----

  predicate IsDigit(c: char) {
    '0' <= c <= '9'
  }

  predicate AllDigits(s: string) {
    forall i :: 0 <= i < |s| ==> IsDigit(s[i])
  }

  function DigitChar(d: nat): (c: char)
    requires d < 10
    ensures IsDigit(c)
  {
    ('0' as int + d) as char
  }

  function DigitValue(c: char): (d: nat)
    requires IsDigit(c)
    ensures d < 10
  {
    c as int - '0' as int
  }

  function PrintNat(n: nat): (s: string)
    ensures s != [] && AllDigits(s)
  {
    if n < 10 then [DigitChar(n)] else PrintNat(n / 10) + [DigitChar(n % 10)]
  }

  function NatValue(s: string): nat
    requires AllDigits(s)
  {
    if s == [] then 0 else 10 * NatValue(s[..|s| - 1]) + DigitValue(s[|s| - 1])
  }

  lemma {:induction false} NatRoundTrip(n: nat)
    ensures NatValue(PrintNat(n)) == n
  {
    var s := PrintNat(n);
    if 10 <= n {
      NatRoundTrip(n / 10);
      assert s[..|s| - 1] == PrintNat(n / 10);
    } else {
      assert s[..|s| - 1] == "";
    }
  }

  function PrintInt(i: int): string {
    if i < 0 then "-" + PrintNat(-i) else PrintNat(i)
  }

  /** Numbers are printed in decimal, without leading zeros. */
  lemma {:induction false} NoLeadingZero(n: nat)
    requires n > 0
    ensures PrintNat(n)[0] != '0'
  {
    if n >= 10 { NoLeadingZero(n / 10); }
  }

  lemma PrintedNumbers()
    ensures PrintInt(0) == "0" && PrintInt(7) == "7" && PrintInt(120) == "120" && PrintInt(-45) == "-45"
  {
    assert PrintNat(1) == "1" && PrintNat(4) == "4";
    assert PrintNat(12) == "12" && PrintNat(45) == "45";
  }

  /** `int(word)`: an optional sign and at least one digit, or nothing. */
  function ParseInt(s: string): Option<int> {
    var signed := s != [] && (s[0] == '-' || s[0] == '+');
    var digits := if signed then s[1..] else s;
    if digits == [] || !AllDigits(digits) then None else
      var value: int := NatValue(digits);
      Some(if signed && s[0] == '-' then -value else value)
  }

  lemma IntRoundTrip(i: int)
    ensures ParseInt(PrintInt(i)) == Some(i)
    ensures IsWord(PrintInt(i))
  {
    var m := if i < 0 then -i else i;
    NatRoundTrip(m);
    var s := PrintNat(m);
    assert IsDigit(s[0]);
    assert forall k :: 0 <= k < |s| ==> IsDigit(s[k]) ==> !IsBlank(s[k]);
    if i < 0 {
      assert ("-" + s)[1..] == s;
    }
  }

  /** A plus sign makes no difference. */
  lemma PlusSign(n: nat)
    ensures ParseInt("+" + PrintInt(n)) == Some(n) && Number("+" + PrintInt(n)) == n
  {
    NatRoundTrip(n);
    var s := PrintNat(n);
    DigitsEnd(s, "");
    assert ("+" + s)[1..] == s && s + "" == s && s[..|s|] == s;
  }

  /** The number that a word denotes in arithmetic: its leading integer, or zero. */
  function Number(s: string): int {
    var signed := s != [] && (s[0] == '-' || s[0] == '+');
    var digits := if signed then s[1..] else s;
    var value: int := NatValue(digits[..DigitsLength(digits)]);
    if signed && s[0] == '-' then -value else value
  }

  function DigitsLength(s: string): (n: nat)
    ensures n <= |s| && AllDigits(s[..n])
  {
    if s == [] || !IsDigit(s[0]) then 0
    else
      var n := DigitsLength(s[1..]);
      assert s[..n + 1] == [s[0]] + s[1..][..n];
      n + 1
  }

  lemma NumberOfPrint(i: int)
    ensures Number(PrintInt(i)) == i
  {
    NumberLeads(i, "");
    assert PrintInt(i) + "" == PrintInt(i);
  }

  /** Only the number that a word starts with counts. */
  lemma NumberLeads(i: int, rest: string)
    requires rest == "" || !IsDigit(rest[0])
    ensures Number(PrintInt(i) + rest) == i
  {
    var s := PrintNat(if i < 0 then -i else i);
    NatRoundTrip(if i < 0 then -i else i);
    DigitsEnd(s, rest);
    assert (s + rest)[..|s|] == s;
    assert IsDigit(s[0]);
    assert ("-" + s + rest)[1..] == s + rest;
  }

  lemma NoNumber(s: string)
    requires s == "" || !(IsDigit(s[0]) || s[0] == '-' || s[0] == '+')
    ensures Number(s) == 0
  {
  }

  lemma {:induction false} DigitsEnd(s: string, rest: string)
    requires AllDigits(s) && (rest == "" || !IsDigit(rest[0]))
    ensures DigitsLength(s + rest) == |s|
  {
    if s == "" {
      assert s + rest == rest;
    } else {
      assert (s + rest)[1..] == s[1..] + rest;
      DigitsEnd(s[1..], rest);
    }
  }
}
