/**
 * The Arduino sketch (sensors.c++) prints, once per loop, a raw-signal line
 * and a BPM line. When both lines arrive in one decoded chunk, the labelled
 * parser of js/serial.js reads the BPM value, while the bare-number parser
 * of real_serial.js reads the signal value.
 */
module SensorFormat {
  import opened Wrappers
  import opened Decimal
  import opened BpmParser
  import opened LegacySerial

  const SignalPrefix: string := "Signal: "
  const BpmPrefix: string := "BPM: "
  const LineEnd: string := "\r\n"

  /** One loop of the sketch: `Signal: `, the signal, a line end, `BPM: `, the BPM, a line end. */
  function SensorChunk(signal: nat, bpm: nat): string {
    SignalPrefix + ToDecimal(signal) + LineEnd + BpmPrefix + ToDecimal(bpm) + LineEnd
  }

  /** Where the `BPM: ` line starts in the chunk. */
  function BpmLineStart(signal: nat): nat {
    |SignalPrefix| + |ToDecimal(signal)| + |LineEnd|
  }

  /** No `BPM:` label starts before the BPM line: the only colon there belongs to `Signal:`. */
  lemma NoLabelBeforeBpmLine(signal: nat, bpm: nat, i: nat)
    requires i < BpmLineStart(signal)
    ensures !LabelAt(SensorChunk(signal, bpm), i)
  {
    var c := SensorChunk(signal, bpm);
    var d := ToDecimal(signal);
    var tail := LineEnd + BpmPrefix + ToDecimal(bpm) + LineEnd;
    assert c == SignalPrefix + d + tail;
    var t := i + 3;
    if t < |SignalPrefix| {
      assert c[t] == SignalPrefix[t];
    } else if t < |SignalPrefix| + |d| {
      assert c[t] == d[t - |SignalPrefix|];
    } else {
      assert c[t] == tail[t - |SignalPrefix| - |d|];
    }
  }

  /** Round trip: the labelled parser reads exactly the printed BPM, classified by its range. */
  lemma {:induction false} ParseSensorChunk(signal: nat, bpm: nat)
    ensures ParseBpm(SensorChunk(signal, bpm)) == Classify(bpm)
  {
    var c := SensorChunk(signal, bpm);
    var d := ToDecimal(bpm);
    var at := BpmLineStart(signal);
    var head := SignalPrefix + ToDecimal(signal) + LineEnd;
    assert c == head + BpmPrefix + d + LineEnd;
    assert |head| == at;
    var j, k := at + 5, at + 5 + |d|;
    assert c[j..k] == d;
    assert c[k] == '\r';
    forall m | j <= m < k ensures IsDigit(c[m]) {
      assert c[m] == d[m - j];
    }
    assert IsMatch(c, at, j, k);
    forall i' | 0 <= i' < at ensures !MatchesAt(c, i') {
      NoLabelBeforeBpmLine(signal, bpm, i');
    }
    ParseBpmLeftmost(c, at, j, k);
    ValueOfToDecimal(bpm);
  }

  /** The head of a BPM line cut inside its number: the label and some digits, nothing after. */
  lemma CutLineHead(h: string)
    requires h != [] && AllDigits(h)
    ensures ParseBpm(BpmPrefix + h) == Classify(Value(h))
  {
    var c := BpmPrefix + h;
    var j, k := 5, 5 + |h|;
    assert c[j..k] == h;
    forall m | j <= m < k ensures IsDigit(c[m]) {
      assert c[m] == h[m - j];
    }
    assert c[4] == ' ';
    assert IsMatch(c, 0, j, k);
    ParseBpmLeftmost(c, 0, j, k);
  }

  /** The tail of a BPM line cut inside its number: digits, leading zeros included, and the line end. */
  lemma CutLineTail(t: string)
    requires AllDigits(t)
    ensures ParseBpm(t + LineEnd) == None
  {
    var c := t + LineEnd;
    forall i | 0 <= i < |c| ensures !MatchesAt(c, i) {
      if i < |t| {
        assert c[i] == t[i];
      } else {
        assert c[i] == LineEnd[i - |t|];
      }
    }
    ParseBpmNoMatch(c);
  }

  /** With a positive BPM the chunk yields exactly one event, carrying that BPM. */
  lemma SensorChunkEvent(signal: nat, bpm: nat)
    requires bpm >= 1
    ensures ParseBpm(SensorChunk(signal, bpm)) == Some(Reading(bpm, bpm < NormalLow || NormalHigh < bpm))
  {
    ParseSensorChunk(signal, bpm);
  }

  /** The bare-number parser reads the raw signal value instead. */
  lemma {:induction false} LegacyReadsSignal(signal: nat, bpm: nat)
    ensures ParseBpmLegacy(SensorChunk(signal, bpm)) == Some(signal)
  {
    var c := SensorChunk(signal, bpm);
    var d := ToDecimal(signal);
    var tail := LineEnd + BpmPrefix + ToDecimal(bpm) + LineEnd;
    assert c == SignalPrefix + d + tail;
    var i, k := |SignalPrefix|, |SignalPrefix| + |d|;
    assert c[i..k] == d;
    assert c[k] == '\r';
    forall m | i <= m < k ensures IsDigit(c[m]) {
      assert c[m] == d[m - i];
    }
    forall m | 0 <= m < i ensures !IsDigit(c[m]) {
      assert c[m] == SignalPrefix[m];
    }
    ParseBpmLegacyFirstRun(c, i, k);
    ValueOfToDecimal(signal);
  }

  /** So on the sensor's output the two parsers disagree whenever signal and BPM differ. */
  lemma ParsersDisagree(signal: nat, bpm: nat)
    requires bpm >= 1 && signal != bpm
    ensures ParseBpm(SensorChunk(signal, bpm)).Some? && ParseBpmLegacy(SensorChunk(signal, bpm)).Some?
    ensures ParseBpm(SensorChunk(signal, bpm)).value.bpm != ParseBpmLegacy(SensorChunk(signal, bpm)).value
  {
    SensorChunkEvent(signal, bpm);
    LegacyReadsSignal(signal, bpm);
  }
}
