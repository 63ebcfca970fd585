/**
 * The weighted modulo-11 check digit appended to every generated barcode. Walking the
 * string from its last character to its first, the characters' numeric values are
 * weighted 2, 3, 4, 5, 6, 7, 2, 3, ... and summed; a remainder of 0 or 1 modulo 11
 * gives the digit 0 and any other remainder r gives 11 - r.
 */
module CheckDigitCalculator {
  import opened Common

  /**
   * `Character.getNumericValue` on the characters a barcode can hold: decimal digits
   * are worth 0..9, Latin letters of either case 10..35, anything else -1.
   */
  function NumericValue(c: char): (v: int)
    ensures -1 <= v <= 35
    ensures '0' <= c <= '9' ==> v == c as int - '0' as int
    ensures v >= 0 <==> IsAlphanumeric(c)
  {
    if '0' <= c <= '9' then c as int - '0' as int
    else if 'a' <= c <= 'z' then c as int - 'a' as int + 10
    else if 'A' <= c <= 'Z' then c as int - 'A' as int + 10
    else -1
  }

  predicate IsAlphanumeric(c: char)
  {
    '0' <= c <= '9' || 'a' <= c <= 'z' || 'A' <= c <= 'Z'
  }

  predicate AllDigits(s: string)
  {
    forall i :: 0 <= i < |s| ==> '0' <= s[i] <= '9'
  }

  predicate AllAlphanumeric(s: string)
  {
    forall i :: 0 <= i < |s| ==> IsAlphanumeric(s[i])
  }

  /** The weight of the character `i` places from the right end: 2, 3, ..., 7, 2, ... */
  function Weight(i: nat): (w: int)
    ensures 2 <= w <= 7
  {
    2 + i % 6
  }

  /**
   * The weighted sum of `s`: each character's numeric value times the weight of its
   * distance from the right end of `s`.
   */
  function WeightedSum(s: string): int
  {
    if s == [] then 0 else NumericValue(s[0]) * Weight(|s| - 1) + WeightedSum(s[1..])
  }

  /** The digit for a weighted sum, from Java's (truncating) remainder modulo 11. */
  function DigitForSum(sum: int): (d: int)
    ensures sum >= 0 ==> 0 <= d <= 9
    ensures sum >= 0 ==> (d == 0 <==> sum % 11 <= 1)
    ensures sum >= 0 && d != 0 ==> (sum + d) % 11 == 0
  {
    var remainder := JavaRem(sum, 11);
    if remainder == 0 || remainder == 1 then 0 else 11 - remainder
  }

  /** The check digit of `s`. */
  function CheckDigit(s: string): (d: int)
    ensures AllAlphanumeric(s) ==> 0 <= d <= 9
  {
    WeightedSumNonNegative(s);
    DigitForSum(WeightedSum(s))
  }

  lemma {:induction false} WeightedSumNonNegative(s: string)
    ensures AllAlphanumeric(s) ==> WeightedSum(s) >= 0
  {
    if s != [] && AllAlphanumeric(s) {
      WeightedSumNonNegative(s[1..]);
      assert NumericValue(s[0]) >= 0;
    }
  }

  /** `calculateCheckDigit`: the right-to-left loop with a weight that wraps after 7. */
  method CalculateCheckDigit(number: string) returns (digit: int)
    ensures digit == CheckDigit(number)
    ensures AllDigits(number) ==> 0 <= digit <= 9
  {
    var sum := 0;
    var weight := 2;
    var i := |number| - 1;
    while i >= 0
      invariant -1 <= i < |number|
      invariant weight == Weight(|number| - 1 - i)
      invariant sum == WeightedSum(number[i + 1..])
    {
      assert number[i..][1..] == number[i + 1..];
      var value := NumericValue(number[i]);
      sum := sum + value * weight;
      weight := weight + 1;
      if weight > 7 {
        weight := 2;
      }
      i := i - 1;
    }
    assert number[0..] == number;
    var remainder := JavaRem(sum, 11);
    digit := if remainder == 0 || remainder == 1 then 0 else 11 - remainder;
  }

  function Zeros(k: nat): (z: string)
    ensures |z| == k && AllDigits(z)
  {
    seq(k, _ => '0')
  }

  /** Zero digits in front of a string add nothing to its weighted sum. */
  lemma {:induction false} LeadingZerosWeighNothing(k: nat, s: string)
    ensures WeightedSum(Zeros(k) + s) == WeightedSum(s)
    decreases k
  {
    if k > 0 {
      assert (Zeros(k) + s)[0] == '0';
      assert (Zeros(k) + s)[1..] == Zeros(k - 1) + s;
      assert NumericValue('0') == 0;
      LeadingZerosWeighNothing(k - 1, s);
    } else {
      assert Zeros(k) + s == s;
    }
  }

  /** Leading zeros never change the check digit. */
  lemma LeadingZerosKeepCheckDigit(k: nat, s: string)
    ensures CheckDigit(Zeros(k) + s) == CheckDigit(s)
  {
    LeadingZerosWeighNothing(k, s);
  }

  /**
   * Weights restart every six places: a character's weight depends only on its
   * distance from the right end modulo 6.
   */
  lemma {:induction false} WeightedSumOfBlock(s: string, t: string)
    requires |t| % 6 == 0
    ensures WeightedSum(s + t) == WeightedSum(s) + WeightedSum(t)
    decreases |s|
  {
    if s == [] {
      assert s + t == t;
    } else {
      assert (s + t)[0] == s[0];
      assert (s + t)[1..] == s[1..] + t;
      assert Weight(|s + t| - 1) == Weight(|s| - 1);
      WeightedSumOfBlock(s[1..], t);
    }
  }

  /** The unit example: "1234567" has check digit 4 (weighted sum 106, remainder 7). */
  lemma CheckDigitExample()
    ensures CheckDigit("1234567") == 4
  {
    var s := "1234567";
    assert s[1..] == "234567" && s[2..] == "34567" && s[3..] == "4567";
    assert s[4..] == "567" && s[5..] == "67" && s[6..] == "7";
    assert WeightedSum("7") == 14;
    assert WeightedSum("67") == 6 * 3 + 14;
    assert WeightedSum("567") == 5 * 4 + 32;
    assert WeightedSum("4567") == 4 * 5 + 52;
    assert WeightedSum("34567") == 3 * 6 + 72;
    assert WeightedSum("234567") == 2 * 7 + 90;
    assert WeightedSum(s) == 106;
  }
}
