/** Printing an amount with two decimals and reading a decimal text back. */
module Decimal {
  import opened Text

  /** To the nearest integer, ties to even. */
  function RoundHalfEven(x: real): int {
    var below := x.Floor;
    var rest := x - below as real;
    if rest < 0.5 || (rest == 0.5 && below % 2 == 0) then below else below + 1
  }

  function Kopecks(amount: real): int {
    RoundHalfEven(amount * 100.0)
  }

  function Rounded(amount: real): real {
    Kopecks(amount) as real / 100.0
  }

  /** Rounding moves an amount by at most half a kopeck and a second rounding does nothing. */
  lemma RoundedIsNearest(amount: real)
    ensures amount - 0.005 <= Rounded(amount) <= amount + 0.005
    ensures Rounded(Rounded(amount)) == Rounded(amount)
  {
    KopecksOfKopecks(Kopecks(amount));
  }

  lemma KopecksOfKopecks(k: int)
    ensures Kopecks(k as real / 100.0) == k
  {
    assert k as real / 100.0 * 100.0 == k as real;
  }

  /** An amount half way between two kopecks goes to the even one. */
  lemma TiesGoToEven(k: int)
    ensures Kopecks((k as real + 0.5) / 100.0) == if k % 2 == 0 then k else k + 1
  {
    assert (k as real + 0.5) / 100.0 * 100.0 == k as real + 0.5;
    assert (k as real + 0.5).Floor == k;
  }

  // ---------- Digits ----------

  function DigitChar(d: nat): char
    requires d < 10
  {
    '0' + d as char
  }

  function NatText(n: nat): (s: string)
    ensures s != ""
  {
    if n < 10 then [DigitChar(n)] else NatText(n / 10) + [DigitChar(n % 10)]
  }

  /** The number written by a string of digits. */
  function Value(s: string): nat {
    if s == "" then 0
    else 10 * Value(s[..|s| - 1]) + if IsDigit(s[|s| - 1]) then (s[|s| - 1] as int - '0' as int) else 0
  }

  function Pow10(n: nat): nat {
    if n == 0 then 1 else 10 * Pow10(n - 1)
  }

  lemma {:induction false} PowPositive(n: nat)
    ensures Pow10(n) > 0
  {
    if n > 0 { PowPositive(n - 1); }
  }

  lemma {:induction false} NatTextReads(n: nat)
    ensures AllDigits(NatText(n)) && Value(NatText(n)) == n
  {
    if n >= 10 {
      NatTextReads(n / 10);
      assert NatText(n)[..|NatText(n)| - 1] == NatText(n / 10);
    }
  }

  // ---------- Printing and parsing ----------

  function PrintNat(n: nat): string {
    NatText(n / 100) + "." + [DigitChar(n % 100 / 10), DigitChar(n % 10)]
  }

  function Print(kopecks: int): string {
    if kopecks < 0 then "-" + PrintNat(-kopecks) else PrintNat(kopecks)
  }

  /** `fmt.Sprintf("%.2f", amount)` */
  function FormatAmount(amount: real): string {
    Print(Kopecks(amount))
  }

  function DotIndex(s: string): (i: nat)
    ensures i <= |s|
  {
    if s == "" || s[0] == '.' then 0 else 1 + DotIndex(s[1..])
  }

  /** Digits with at most one dot. */
  function ParseUnsigned(s: string): Option<real> {
    var dot := DotIndex(s);
    var whole, fraction := s[..dot], if dot < |s| then s[dot + 1..] else "";
    if whole + fraction == "" || !AllDigits(whole) || !AllDigits(fraction) then None
    else
      PowPositive(|fraction|);
      Some(Value(whole + fraction) as real / Pow10(|fraction|) as real)
  }

  /** Decimal notation with an optional sign. */
  function ParseDecimal(s: string): Option<real> {
    if s != "" && s[0] == '-' then
      match ParseUnsigned(s[1..]) case Some(x) => Some(-x) case None => None
    else if s != "" && s[0] == '+' then ParseUnsigned(s[1..])
    else ParseUnsigned(s)
  }

  lemma {:induction false} DotAfterDigits(digits: string, rest: string)
    requires AllDigits(digits)
    ensures DotIndex(digits + "." + rest) == |digits|
  {
    if digits != "" {
      DotAfterDigits(digits[1..], rest);
      assert (digits + "." + rest)[1..] == digits[1..] + "." + rest;
    }
  }

  lemma ParseParts(whole: string, fraction: string)
    requires AllDigits(whole) && AllDigits(fraction) && |fraction| == 2
    ensures ParseUnsigned(whole + "." + fraction) == Some(Value(whole + fraction) as real / 100.0)
  {
    hide Value;
    var s := whole + "." + fraction;
    DotAfterDigits(whole, fraction);
    assert s[..|whole|] == whole && s[|whole| + 1..] == fraction;
    assert Pow10(2) == 10 * Pow10(1) == 100;
  }

  lemma ValueAppend(s: string, digit: char)
    requires IsDigit(digit)
    ensures Value(s + [digit]) == 10 * Value(s) + (digit as int - '0' as int)
  {
    assert (s + [digit])[..|s|] == s;
  }

  lemma AppendTwo(s: string, a: char, b: char)
    ensures s + [a, b] == s + [a] + [b]
  {
  }

  lemma DigitValue(d: nat)
    requires d < 10
    ensures IsDigit(DigitChar(d)) && DigitChar(d) as int - '0' as int == d
  {
  }

  lemma LastTwoDigits(n: nat)
    ensures Value(NatText(n / 100) + [DigitChar(n % 100 / 10), DigitChar(n % 10)]) == n
  {
    hide Value, NatText, DigitChar, IsDigit;
    var whole, tens, units := NatText(n / 100), DigitChar(n % 100 / 10), DigitChar(n % 10);
    NatTextReads(n / 100);
    DigitValue(n % 100 / 10);
    DigitValue(n % 10);
    ValueAppend(whole, tens);
    ValueAppend(whole + [tens], units);
    AppendTwo(whole, tens, units);
  }

  lemma ParsePrintNat(n: nat)
    ensures ParseUnsigned(PrintNat(n)) == Some(n as real / 100.0)
    ensures IsDigit(PrintNat(n)[0])
  {
    hide ParseUnsigned, NatText, Value;
    NatTextReads(n / 100);
    DigitValue(n % 100 / 10);
    DigitValue(n % 10);
    ParseParts(NatText(n / 100), [DigitChar(n % 100 / 10), DigitChar(n % 10)]);
    LastTwoDigits(n);
    assert PrintNat(n)[0] == NatText(n / 100)[0];
  }

  lemma NegatedKopecks(k: int)
    ensures -((-k) as real / 100.0) == k as real / 100.0
  {
  }

  /** Reading a printed amount gives the amount of kopecks back, and printing it again the same text. */
  lemma ParsePrint(kopecks: int)
    ensures ParseDecimal(Print(kopecks)) == Some(kopecks as real / 100.0)
    ensures FormatAmount(kopecks as real / 100.0) == Print(kopecks)
  {
    hide ParseUnsigned, PrintNat, Kopecks;
    KopecksOfKopecks(kopecks);
    if kopecks < 0 {
      ParsePrintNat(-kopecks);
      assert Print(kopecks)[1..] == PrintNat(-kopecks);
      NegatedKopecks(kopecks);
    } else {
      ParsePrintNat(kopecks);
    }
  }

  /** For any amount at all: what is read back is the amount rounded to kopecks. */
  lemma ParseFormat(amount: real)
    ensures ParseDecimal(FormatAmount(amount)) == Some(Rounded(amount))
    ensures FormatAmount(Rounded(amount)) == FormatAmount(amount)
  {
    hide ParseDecimal, Print, Kopecks;
    ParsePrint(Kopecks(amount));
  }

  lemma PrintIsTrimmed(kopecks: int)
    ensures Trimmed(Print(kopecks))
  {
    hide NatText, ParseUnsigned, DigitChar;
    var n := if kopecks < 0 then -kopecks else kopecks;
    ParsePrintNat(n);
    DigitValue(n % 10);
    var s := Print(kopecks);
    assert s[|s| - 1] == DigitChar(n % 10);
  }
}
