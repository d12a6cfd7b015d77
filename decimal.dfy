/**
 * Decimal digit strings: the `\d` character class of JavaScript regular
 * expressions, the value `parseInt` gives a run of such digits, and the
 * text that the Arduino `Serial.println` prints for a non-negative int.
 */
module Decimal {

  /** JavaScript `\d`: ASCII digits only. */
  predicate IsDigit(c: char) {
    '0' <= c <= '9'
  }

  predicate AllDigits(s: string) {
    forall i :: 0 <= i < |s| ==> IsDigit(s[i])
  }

  function DigitValue(c: char): (d: nat)
    requires IsDigit(c)
    ensures d < 10
  {
    c as int - '0' as int
  }

  function DigitChar(d: nat): (c: char)
    requires d < 10
    ensures IsDigit(c) && DigitValue(c) == d
  {
    ('0' as int + d) as char
  }

  /** The value `parseInt` gives a string of decimal digits (leading zeros allowed). */
  function Value(s: string): nat
    requires AllDigits(s)
  {
    if s == [] then 0 else Value(s[..|s| - 1]) * 10 + DigitValue(s[|s| - 1])
  }

  /** The decimal text of `n`, without sign or leading zeros, as `Serial.println(int)` prints it. */
  function ToDecimal(n: nat): (s: string)
    ensures |s| > 0 && AllDigits(s)
    ensures |s| > 1 ==> s[0] != '0'
  {
    if n < 10 then [DigitChar(n)] else ToDecimal(n / 10) + [DigitChar(n % 10)]
  }

  /** Reading back the printed text gives the printed number. */
  lemma {:induction false} ValueOfToDecimal(n: nat)
    ensures Value(ToDecimal(n)) == n
  {
    if n >= 10 {
      var s := ToDecimal(n);
      assert s[..|s| - 1] == ToDecimal(n / 10);
      ValueOfToDecimal(n / 10);
    }
  }

  /**
   * The end of the maximal run of digits that starts at `j`: the greedy `\d*`
   * (and `\d+` when at least one digit is there).
   */
  function DigitRunEnd(s: string, j: nat): (k: nat)
    requires j <= |s|
    ensures j <= k <= |s|
    ensures forall m :: j <= m < k ==> IsDigit(s[m])
    ensures k == |s| || !IsDigit(s[k])
    decreases |s| - j
  {
    if j < |s| && IsDigit(s[j]) then DigitRunEnd(s, j + 1) else j
  }

  /** The maximal digit run from `j` is determined by its two defining properties. */
  lemma DigitRunEndUnique(s: string, j: nat, k: nat)
    requires j <= k <= |s|
    requires forall m :: j <= m < k ==> IsDigit(s[m])
    requires k == |s| || !IsDigit(s[k])
    ensures DigitRunEnd(s, j) == k
  {
  }

  /** A digit string whose first digit is not 0 has a positive value. */
  lemma {:induction false} ValuePositive(s: string)
    requires |s| > 0 && AllDigits(s) && s[0] != '0'
    ensures Value(s) >= 1
    decreases |s|
  {
    var p := s[..|s| - 1];
    assert AllDigits(p) by {
      forall i | 0 <= i < |p| ensures IsDigit(p[i]) {
        assert p[i] == s[i];
      }
    }
    if |p| > 0 {
      assert p[0] == s[0];
      ValuePositive(p);
    } else {
      assert s[|s| - 1] == s[0];
    }
  }

  /** Cutting digits off the end divides the value by at least ten. */
  lemma {:induction false} ValuePrefix(s: string, c: nat)
    requires AllDigits(s) && c < |s|
    ensures AllDigits(s[..c]) && Value(s[..c]) * 10 <= Value(s)
    decreases |s|
  {
    var p := s[..|s| - 1];
    assert AllDigits(p) by {
      forall i | 0 <= i < |p| ensures IsDigit(p[i]) {
        assert p[i] == s[i];
      }
    }
    if c < |p| {
      ValuePrefix(p, c);
      assert p[..c] == s[..c];
    } else {
      assert p == s[..c];
    }
  }
}
