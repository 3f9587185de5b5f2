/** The Luhn check of the validator and its copy in the log masker.
    ISO/IEC 7812-1, Annex B. */
module Luhn {
  import opened Text

  /** `int(number[i] - '0')`: a byte subtraction, which wraps below '0'. */
  function DigitOf(c: char): (d: nat)
    ensures d < 256
    ensures IsDigit(c) ==> d <= 9 && c as int == 48 + d
  {
    (c as int - '0' as int) % 256
  }

  /** Of a byte, what lies from '0' on counts from 0, and what lies below wraps to the top. */
  lemma DigitOfByte(c: char)
    requires c as int < 256
    ensures DigitOf(c) == if c >= '0' then c as int - 48 else c as int + 208
  {
  }

  function Weight(c: char, double: bool): nat {
    var d := DigitOf(c);
    if !double then d else if 2 * d > 9 then 2 * d - 9 else 2 * d
  }

  /** The weighted sum, the rightmost character being doubled when `double` holds. */
  function WeightedSum(number: string, double: bool): nat {
    if number == "" then 0
    else Weight(number[|number| - 1], double) + WeightedSum(number[..|number| - 1], !double)
  }

  predicate Accepts(number: string) {
    WeightedSum(number, false) % 10 == 0
  }

  /** Whether the character at index `i` of a number of length `n` is doubled. */
  predicate Doubled(n: nat, i: nat)
    requires i < n
  {
    (n - 1 - i) % 2 == 1
  }

  /** Replacing one character moves the sum by the difference of two weights. */
  lemma {:induction false} SumAfterChange(number: string, double: bool, i: nat, c: char)
    requires i < |number|
    ensures var parity := Doubled(|number|, i) != double;
            WeightedSum(number[i := c], double) - WeightedSum(number, double)
            == Weight(c, parity) - Weight(number[i], parity)
  {
    var last := |number| - 1;
    var changed := number[i := c];
    if i == last {
      assert changed[..last] == number[..last];
    } else {
      assert changed[..last] == number[..last][i := c] && changed[last] == number[last];
      assert Doubled(last, i) == !Doubled(|number|, i);
      SumAfterChange(number[..last], !double, i, c);
    }
  }

  /** Weights of two different digits never agree modulo 10, doubled or not. */
  lemma WeightsDiffer(a: char, b: char, parity: bool)
    requires IsDigit(a) && IsDigit(b) && a != b
    ensures 1 <= Weight(a, parity) - Weight(b, parity) <= 9 || -9 <= Weight(a, parity) - Weight(b, parity) <= -1
  {
  }

  /** Every accepted number is rejected after any change of one digit. */
  lemma SingleDigitErrorDetected(number: string, i: nat, c: char)
    requires AllDigits(number) && Accepts(number)
    requires i < |number| && IsDigit(c) && c != number[i]
    ensures !Accepts(number[i := c])
  {
    var parity := Doubled(|number|, i);
    SumAfterChange(number, false, i, c);
    WeightsDiffer(c, number[i], parity);
    SmallShift(WeightedSum(number, false), WeightedSum(number[i := c], false));
  }

  lemma SmallShift(a: nat, b: nat)
    requires a % 10 == 0 && (1 <= b - a <= 9 || -9 <= b - a <= -1)
    ensures b % 10 != 0
  {
  }

  /** Swapping two neighbouring digits of an accepted number goes unnoticed exactly
      when they are equal or are 0 and 9. */
  lemma AdjacentSwapDetected(number: string, i: nat)
    requires AllDigits(number) && Accepts(number)
    requires i + 1 < |number|
    ensures Accepts(number[i := number[i + 1]][i + 1 := number[i]])
            <==> number[i] == number[i + 1]
                 || (number[i] == '0' && number[i + 1] == '9')
                 || (number[i] == '9' && number[i + 1] == '0')
  {
    var a, b := number[i], number[i + 1];
    var once := number[i := b];
    var parity := Doubled(|number|, i);
    assert Doubled(|number|, i + 1) == !parity;
    SumAfterChange(number, false, i, b);
    SumAfterChange(once, false, i + 1, a);
    SwapResidue(a, b, parity, WeightedSum(number, false), WeightedSum(once[i + 1 := a], false));
  }

  /** The standard's own count, from the right: every second digit is doubled and its digits added up. */
  function IsoSum(number: string, fromRight: nat): nat
    requires fromRight <= |number|
    decreases |number| - fromRight
  {
    if fromRight == |number| then 0
    else
      var d := DigitOf(number[|number| - 1 - fromRight]);
      IsoSum(number, fromRight + 1) + if fromRight % 2 == 0 then d else 2 * d / 10 + 2 * d % 10
  }

  lemma WeightIsIso(c: char)
    requires IsDigit(c)
    ensures Weight(c, false) == DigitOf(c) && Weight(c, true) == 2 * DigitOf(c) / 10 + 2 * DigitOf(c) % 10
  {
  }

  lemma WeightedNext(number: string, fromRight: nat)
    requires fromRight < |number|
    ensures WeightedSum(number[..|number| - fromRight], fromRight % 2 == 1)
            == Weight(number[|number| - 1 - fromRight], fromRight % 2 == 1)
               + WeightedSum(number[..|number| - (fromRight + 1)], (fromRight + 1) % 2 == 1)
  {
    hide Weight;
    var rest := number[..|number| - fromRight];
    assert rest[..|rest| - 1] == number[..|number| - (fromRight + 1)];
  }

  lemma {:induction false} WeightedIsIso(number: string, fromRight: nat)
    requires AllDigits(number) && fromRight <= |number|
    ensures WeightedSum(number[..|number| - fromRight], fromRight % 2 == 1) == IsoSum(number, fromRight)
    decreases |number| - fromRight
  {
    if fromRight < |number| {
      hide Weight, DigitOf, WeightedSum;
      WeightedIsIso(number, fromRight + 1);
      WeightedNext(number, fromRight);
      WeightIsIso(number[|number| - 1 - fromRight]);
    }
  }

  /** A digit string is accepted exactly when that count is a multiple of ten. */
  lemma AcceptsByTheStandard(number: string)
    requires AllDigits(number)
    ensures Accepts(number) <==> IsoSum(number, 0) % 10 == 0
  {
    WeightedIsIso(number, 0);
    assert number[..|number|] == number;
  }

  /** What doubling adds to a digit: different for different digits, but for 0 and 9. */
  lemma DoublingGains(a: char, b: char)
    requires IsDigit(a) && IsDigit(b)
    ensures var d := (Weight(b, true) - Weight(b, false)) - (Weight(a, true) - Weight(a, false));
            -9 <= d <= 9 && (d == 0 <==> a == b || (a == '0' && b == '9') || (a == '9' && b == '0'))
  {
  }

  lemma ZeroResidue(before: nat, after: nat)
    requires before % 10 == 0 && -9 <= after - before <= 9
    ensures after % 10 == 0 <==> after == before
  {
  }

  lemma SwapResidue(a: char, b: char, parity: bool, before: nat, after: nat)
    requires IsDigit(a) && IsDigit(b) && before % 10 == 0
    requires after - before == (Weight(b, parity) - Weight(a, parity)) + (Weight(a, !parity) - Weight(b, !parity))
    ensures after % 10 == 0 <==> a == b || (a == '0' && b == '9') || (a == '9' && b == '0')
  {
    hide Weight;
    DoublingGains(a, b);
    ZeroResidue(before, after);
  }

  /** internal/subsystems/validator/payment_data_validator.go */
  method LuhnValid(number: string) returns (valid: bool)
    ensures valid == Accepts(number)
  {
    var sum := 0;
    var double := false;
    var i := |number| - 1;
    assert number[..i + 1] == number;
    while i >= 0
      invariant -1 <= i < |number|
      invariant sum + WeightedSum(number[..i + 1], double) == WeightedSum(number, false)
    {
      var digit := DigitOf(number[i]);
      if double {
        digit := digit * 2;
        if digit > 9 {
          digit := digit - 9;
        }
      }
      sum := sum + digit;
      assert number[..i + 1][..i] == number[..i];
      double := !double;
      i := i - 1;
    }
    valid := sum % 10 == 0;
  }

  /** The log masker's own copy (internal/subsystems/logging/masking.go). */
  method LoggedLuhnValid(number: string) returns (valid: bool)
    ensures valid == Accepts(number)
  {
    var sum := 0;
    var double := false;
    var i := |number| - 1;
    assert number[..i + 1] == number;
    while i >= 0
      invariant -1 <= i < |number|
      invariant sum + WeightedSum(number[..i + 1], double) == WeightedSum(number, false)
    {
      var digit := DigitOf(number[i]);
      if double {
        digit := digit * 2;
        if digit > 9 {
          digit := digit - 9;
        }
      }
      sum := sum + digit;
      assert number[..i + 1][..i] == number[..i];
      double := !double;
      i := i - 1;
    }
    valid := sum % 10 == 0;
  }
}
