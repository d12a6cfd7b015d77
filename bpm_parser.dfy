/**
 * The chunk parser of js/serial.js (`parseBPM`): find the leftmost match of
 * the case-insensitive regular expression `BPM:\s*(\d+)`, read the captured
 * digits as a decimal number and classify it against the normal band
 * 30..250. The browser event it dispatches is the `Some` result.
 */
module BpmParser {
  import opened Wrappers
  import opened Decimal

  /** The normal heart-rate band; values outside it are still emitted, with a warning. */
  const NormalLow: nat := 30
  const NormalHigh: nat := 250

  /** One `bpmUpdate` event; `outOfRange` is the console warning that accompanies it. */
  datatype Reading = Reading(bpm: nat, outOfRange: bool)

  /** Where a match lies: the label starts at `at`, the captured digits are `[start, end)`. */
  datatype Span = Span(at: nat, start: nat, end: nat)

  /** JavaScript `\s`: the ECMAScript white-space and line-terminator characters. */
  predicate IsSpace(c: char) {
    || c == '\t' || c == '\n' || c == '\U{B}' || c == '\U{C}' || c == '\r' || c == ' '
    || c == '\U{A0}' || c == '\U{1680}' || '\U{2000}' <= c <= '\U{200A}'
    || c == '\U{2028}' || c == '\U{2029}' || c == '\U{202F}' || c == '\U{205F}'
    || c == '\U{3000}' || c == '\U{FEFF}'
  }

  /** `BPM:` at position `i`, letters compared without regard to case (flag `i`). */
  predicate LabelAt(s: string, i: nat) {
    && i + 4 <= |s|
    && (s[i] == 'B' || s[i] == 'b')
    && (s[i + 1] == 'P' || s[i + 1] == 'p')
    && (s[i + 2] == 'M' || s[i + 2] == 'm')
    && s[i + 3] == ':'
  }

  /** A match of the whole expression that starts at `i` and captures `[j, k)`. */
  ghost predicate IsMatch(s: string, i: nat, j: nat, k: nat) {
    && LabelAt(s, i)
    && i + 4 <= j < k <= |s|
    && (forall m :: i + 4 <= m < j ==> IsSpace(s[m]))
    && (forall m :: j <= m < k ==> IsDigit(s[m]))
    && (k == |s| || !IsDigit(s[k]))
  }

  ghost predicate MatchesAt(s: string, i: nat) {
    exists j, k :: IsMatch(s, i, j, k)
  }

  /** The match that `String.prototype.match` returns: no match starts further left. */
  ghost predicate IsLeftmostMatch(s: string, i: nat, j: nat, k: nat) {
    IsMatch(s, i, j, k) && forall i' :: 0 <= i' < i ==> !MatchesAt(s, i')
  }

  /** The greedy `\s*` from `j`. */
  function SpaceRunEnd(s: string, j: nat): (k: nat)
    requires j <= |s|
    ensures j <= k <= |s|
    ensures forall m :: j <= m < k ==> IsSpace(s[m])
    ensures k == |s| || !IsSpace(s[k])
    decreases |s| - j
  {
    if j < |s| && IsSpace(s[j]) then SpaceRunEnd(s, j + 1) else j
  }

  /** An attempt to match at `i` alone. */
  function MatchAt(s: string, i: nat): (r: Option<Span>)
    ensures r.Some? ==> r.value.at == i && IsMatch(s, i, r.value.start, r.value.end)
  {
    if !LabelAt(s, i) then None
    else
      var j := SpaceRunEnd(s, i + 4);
      var k := DigitRunEnd(s, j);
      if j == k then None else Some(Span(i, j, k))
  }

  /**
   * Backtracking cannot find another match at `i`: `\s` and `\d` are
   * disjoint, so the digits must start where the spaces end.
   */
  lemma MatchAtComplete(s: string, i: nat, j: nat, k: nat)
    requires IsMatch(s, i, j, k)
    ensures MatchAt(s, i) == Some(Span(i, j, k))
  {
    assert !IsSpace(s[j]);
    DigitRunEndUnique(s, j, k);
  }

  lemma MatchAtNone(s: string, i: nat)
    requires MatchAt(s, i).None?
    ensures !MatchesAt(s, i)
  {
    if MatchesAt(s, i) {
      var j, k :| IsMatch(s, i, j, k);
      MatchAtComplete(s, i, j, k);
    }
  }

  /** The regular-expression search: try each start position from left to right. */
  function Search(s: string, from: nat): (r: Option<Span>)
    requires from <= |s|
    ensures r.Some? ==> from <= r.value.at && IsMatch(s, r.value.at, r.value.start, r.value.end)
    ensures r.Some? ==> forall i :: from <= i < r.value.at ==> !MatchesAt(s, i)
    ensures r.None? ==> forall i :: from <= i <= |s| ==> !MatchesAt(s, i)
    decreases |s| - from
  {
    match MatchAt(s, from)
    case Some(sp) => Some(sp)
    case None =>
      MatchAtNone(s, from);
      if from == |s| then None else Search(s, from + 1)
  }

  /** The range check on the parsed value: an event for every positive value, flagged outside 30..250. */
  function Classify(v: nat): (r: Option<Reading>)
    ensures r.Some? <==> v > 0
    ensures r.Some? ==> r.value.bpm == v
    ensures r.Some? ==> (r.value.outOfRange <==> v < NormalLow || NormalHigh < v)
  {
    if NormalLow <= v <= NormalHigh then Some(Reading(v, false))
    else if v > 0 then Some(Reading(v, true))
    else None
  }

  /** `parseBPM`: empty input, no match and the value 0 give no event. */
  function ParseBpm(data: string): (r: Option<Reading>)
    ensures data == [] ==> r.None?
    ensures r.Some? ==> exists i: nat, j: nat, k: nat :: IsLeftmostMatch(data, i, j, k) && r.value.bpm == Value(data[j..k])
    ensures r.Some? ==> 0 < r.value.bpm && (r.value.outOfRange <==> r.value.bpm < NormalLow || NormalHigh < r.value.bpm)
  {
    if data == [] then None
    else
      match Search(data, 0)
      case None => None
      case Some(sp) =>
        assert IsLeftmostMatch(data, sp.at, sp.start, sp.end);
        Classify(Value(data[sp.start..sp.end]))
  }

  /** The reading is the leftmost match's captured number, classified. */
  lemma {:induction false} ParseBpmLeftmost(data: string, i: nat, j: nat, k: nat)
    requires IsLeftmostMatch(data, i, j, k)
    ensures ParseBpm(data) == Classify(Value(data[j..k]))
  {
    var r := Search(data, 0);
    assert MatchesAt(data, i);
    var sp := r.value;
    assert MatchesAt(data, sp.at);
    assert sp.at == i;
    MatchAtComplete(data, i, j, k);
    MatchAtComplete(data, i, sp.start, sp.end);
  }

  /** Without a `BPM:<digits>` match anywhere, no event. */
  lemma {:induction false} ParseBpmNoMatch(data: string)
    requires forall i :: 0 <= i < |data| ==> !MatchesAt(data, i)
    ensures ParseBpm(data) == None
  {
    if data != [] {
      var r := Search(data, 0);
      assert r.Some? ==> MatchesAt(data, r.value.at);
    }
  }
}
