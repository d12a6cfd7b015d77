/**
 * The older parser of real_serial.js (`parseBPM`): the first run of digits
 * anywhere in the chunk (`/\d+/`), read as a decimal number and dispatched
 * without any label or range check.
 */
module LegacySerial {
  import opened Wrappers
  import opened Decimal

  /** `[i, k)` is the leftmost maximal run of digits of `s`. */
  ghost predicate IsFirstRun(s: string, i: nat, k: nat) {
    && i < k <= |s|
    && (forall m :: 0 <= m < i ==> !IsDigit(s[m]))
    && (forall m :: i <= m < k ==> IsDigit(s[m]))
    && (k == |s| || !IsDigit(s[k]))
  }

  /** The position of the first digit at or after `from`. */
  function FirstDigit(s: string, from: nat): (r: Option<nat>)
    requires from <= |s|
    ensures r.Some? ==> from <= r.value < |s| && IsDigit(s[r.value])
    ensures r.Some? ==> forall m :: from <= m < r.value ==> !IsDigit(s[m])
    ensures r.None? ==> forall m :: from <= m < |s| ==> !IsDigit(s[m])
    decreases |s| - from
  {
    if from == |s| then None
    else if IsDigit(s[from]) then Some(from)
    else FirstDigit(s, from + 1)
  }

  /** `parseBPM` of real_serial.js: the event value, if any. */
  function ParseBpmLegacy(data: string): (r: Option<nat>)
    ensures r.None? <==> forall m :: 0 <= m < |data| ==> !IsDigit(data[m])
    ensures r.Some? ==> exists i: nat, k: nat :: IsFirstRun(data, i, k) && r.value == Value(data[i..k])
  {
    match FirstDigit(data, 0)
    case None => None
    case Some(i) =>
      var k := DigitRunEnd(data, i);
      assert IsFirstRun(data, i, k);
      Some(Value(data[i..k]))
  }

  /** Whatever the first digit run is, its value is emitted: no range filter, 0 included. */
  lemma {:induction false} ParseBpmLegacyFirstRun(data: string, i: nat, k: nat)
    requires IsFirstRun(data, i, k)
    ensures ParseBpmLegacy(data) == Some(Value(data[i..k]))
  {
    var f := FirstDigit(data, 0);
    assert IsDigit(data[i]);
    assert f.Some?;
    assert f.value == i;
    DigitRunEndUnique(data, i, k);
  }

  /** A bare printed number reads back as itself, whatever its size. */
  lemma ParseBpmLegacyBareNumber(n: nat)
    ensures ParseBpmLegacy(ToDecimal(n)) == Some(n)
  {
    var s := ToDecimal(n);
    ParseBpmLegacyFirstRun(s, 0, |s|);
    assert s[0..|s|] == s;
    ValueOfToDecimal(n);
  }
}
