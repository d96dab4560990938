/** The string operations that key names and key paths are built and taken apart with. */
module Strings {
  import opened Wrappers

  const I64_MIN := -0x8000_0000_0000_0000
  const I64_MAX := 0x7FFF_FFFF_FFFF_FFFF

  function IndexOf(s: string, c: char): (r: Option<nat>)
    ensures r.None? ==> c !in s
    ensures r.Some? ==> r.value < |s| && s[r.value] == c && c !in s[..r.value]
  {
    if s == "" then None
    else if s[0] == c then Some(0)
    else
      match IndexOf(s[1..], c)
      case None => None
      case Some(i) =>
        assert s[..i + 1] == [s[0]] + s[1..][..i];
        Some(i + 1)
  }

  function LastIndexOf(s: string, c: char): (r: Option<nat>)
    ensures r.None? ==> c !in s
    ensures r.Some? ==> r.value < |s| && s[r.value] == c && c !in s[r.value + 1..]
  {
    if s == "" then None
    else if s[|s| - 1] == c then Some(|s| - 1)
    else
      var init := s[..|s| - 1];
      match LastIndexOf(init, c)
      case None => assert s == init + [s[|s| - 1]]; None
      case Some(i) => assert s[i + 1..] == init[i + 1..] + [s[|s| - 1]]; Some(i)
  }

  lemma IndexOfIs(s: string, c: char, i: nat)
    requires i < |s| && s[i] == c && c !in s[..i]
    ensures IndexOf(s, c) == Some(i)
  {}

  lemma LastIndexOfIs(s: string, c: char, i: nat)
    requires i < |s| && s[i] == c && c !in s[i + 1..]
    ensures LastIndexOf(s, c) == Some(i)
  {}

  function Split(s: string, c: char): (parts: seq<string>)
    ensures |parts| > 0
    decreases |s|
  {
    match IndexOf(s, c)
    case None => [s]
    case Some(i) => [s[..i]] + Split(s[i + 1..], c)
  }

  // ---------------------------------------------------------------- decimal numbers

  predicate IsDigit(c: char) {
    '0' <= c <= '9'
  }

  function Digit(d: nat): (c: char)
    requires d < 10
    ensures IsDigit(c) && c as int - '0' as int == d
  {
    '0' + d as char
  }

  function PrintNat(n: nat): (s: string)
    ensures s != "" && forall i | 0 <= i < |s| :: IsDigit(s[i])
    ensures if n == 0 then s == "0" else s[0] != '0'
  {
    if n < 10 then [Digit(n)] else PrintNat(n / 10) + [Digit(n % 10)]
  }

  function PrintInt(n: int): (s: string)
    ensures '@' !in s && ':' !in s
  {
    if n < 0 then "-" + PrintNat(-n) else PrintNat(n)
  }

  function ParseNat(s: string): (r: Option<nat>) {
    if s == "" then None
    else if !IsDigit(s[|s| - 1]) then None
    else
      var d: nat := s[|s| - 1] as int - '0' as int;
      if |s| == 1 then Some(d)
      else
        match ParseNat(s[..|s| - 1])
        case None => None
        case Some(n) => Some(10 * n + d)
  }

  /** Parsing a signed 64-bit number: an optional sign, digits only, no overflow. */
  function ParseI64(s: string): (r: Option<int>)
    ensures r.Some? ==> I64_MIN <= r.value <= I64_MAX
  {
    if s == "" then None
    else
      var digits := if s[0] == '-' || s[0] == '+' then s[1..] else s;
      match ParseNat(digits)
      case None => None
      case Some(n) =>
        var v := if s[0] == '-' then -(n as int) else n as int;
        if I64_MIN <= v <= I64_MAX then Some(v) else None
  }

  lemma {:induction false} ParsePrintNat(n: nat)
    ensures ParseNat(PrintNat(n)) == Some(n)
  {
    if n >= 10 {
      ParsePrintNat(n / 10);
      var s := PrintNat(n);
      assert s[..|s| - 1] == PrintNat(n / 10);
    }
  }

  /** Digits are what is parsed, and nothing else; a plus sign before them changes nothing. */
  lemma {:induction false} ParsesDigits(s: string)
    ensures ParseNat(s).Some? <==> s != "" && forall i | 0 <= i < |s| :: IsDigit(s[i])
  {
    if |s| > 1 {
      var init := s[..|s| - 1];
      ParsesDigits(init);
      assert s == init + [s[|s| - 1]];
    }
  }

  lemma PlusChangesNothing(s: string)
    requires s != "" && IsDigit(s[0])
    ensures ParseI64("+" + s) == ParseI64(s)
  {
    assert ("+" + s)[1..] == s;
  }

  /** Printing is decimal: one more digit is what it takes to be ten times as large and the digit more. */
  lemma PrintsDecimal(n: nat, d: nat)
    requires d < 10
    ensures PrintInt(d) == ["0123456789"[d]]
    ensures n > 0 ==> PrintInt(10 * n + d) == PrintInt(n) + ["0123456789"[d]]
    ensures n > 0 ==> PrintInt(-(n as int)) == "-" + PrintInt(n)
  {
    assert "0123456789"[d] == Digit(d);
  }

  /** Digits without a leading zero are what the number that they parse to prints as. */
  lemma {:induction false} CanonicalIsPrinted(s: string)
    requires s != "" && (forall i | 0 <= i < |s| :: IsDigit(s[i])) && (|s| > 1 ==> s[0] != '0')
    ensures ParseNat(s).Some? && PrintNat(ParseNat(s).value) == s
  {
    if |s| > 1 {
      var init, c := s[..|s| - 1], s[|s| - 1];
      CanonicalIsPrinted(init);
      LastDigit(ParseNat(init).value, c);
      assert s == init + [c];
    }
  }

  lemma LastDigit(n: nat, c: char)
    requires IsDigit(c) && PrintNat(n)[0] != '0'
    ensures PrintNat(10 * n + (c as int - '0' as int)) == PrintNat(n) + [c]
  {}

  lemma PrintedParts(n: int)
    ensures var s := PrintInt(n);
            && s != ""
            && if n < 0 then s[0] == '-' && ParseNat(s[1..]) == Some(-n)
               else IsDigit(s[0]) && ParseNat(s) == Some(n)
  {
    if n < 0 {
      ParsePrintNat(-n);
      assert PrintInt(n)[1..] == PrintNat(-n);
    } else {
      ParsePrintNat(n);
      assert IsDigit(PrintNat(n)[0]);
    }
  }

  /** A printed number that fits the 64 bits parses back to itself. */
  lemma ParsePrintInt(n: int)
    requires -9223372036854775808 <= n <= 9223372036854775807
    ensures ParseI64(PrintInt(n)) == Some(n)
  {
    hide PrintInt, ParseNat;
    PrintedParts(n);
  }

  lemma PrintIntInjective(n: int, m: int)
    requires PrintInt(n) == PrintInt(m)
    ensures n == m
  {
    hide PrintInt, ParseNat;
    PrintedParts(n);
    PrintedParts(m);
  }
}
