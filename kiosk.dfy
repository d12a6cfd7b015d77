/**
 * The two halves wired together as the browser wires them: every
 * `bpmUpdate` event that js/serial.js dispatches is handled at once by the
 * listener of js/battle.js; the "Connection Lost" notice only shows a dialog.
 */
module Kiosk {
  import opened Wrappers
  import opened Decimal
  import opened BpmParser
  import opened SerialLink
  import opened SensorFormat
  import opened Battle

  /** The match after it has handled the link's events, in order. */
  function Deliver(s: Match, evs: seq<LinkEvent>): Match
    decreases |evs|
  {
    if evs == [] then s
    else match evs[0]
      case BpmUpdate(r) => Deliver(OnBpm(s, r.bpm), evs[1..])
      case ConnectionLost => Deliver(s, evs[1..])
  }

  /** Handling two lists of events in turn is handling them joined. */
  lemma {:induction false} DeliverAppend(s: Match, a: seq<LinkEvent>, b: seq<LinkEvent>)
    ensures Deliver(s, a + b) == Deliver(Deliver(s, a), b)
    decreases |a|
  {
    if a == [] {
      assert a + b == b;
    } else {
      assert (a + b)[0] == a[0];
      assert (a + b)[1..] == a[1..] + b;
      match a[0]
      case BpmUpdate(r) => DeliverAppend(OnBpm(s, r.bpm), a[1..], b);
      case ConnectionLost => DeliverAppend(s, a[1..], b);
    }
  }

  /**
   * Losing the connection does not touch the match: whatever was read
   * before, the end of the stream or any read error leaves the match as the
   * chunks left it, so a turn in progress keeps recording and its countdown
   * keeps running.
   */
  lemma ConnectionLossLeavesMatch(s: Match, xs: seq<ReadResult>, e: JsError)
    requires !StopsIn(xs)
    ensures Deliver(s, LoopEvents(xs + [Done])) == Deliver(s, LoopEvents(xs))
    ensures Deliver(s, LoopEvents(xs + [Fault(e)])) == Deliver(s, LoopEvents(xs))
  {
    LoopEventsAppend(xs, [Done]);
    LoopEventsAppend(xs, [Fault(e)]);
    assert LoopEvents([Done]) == [ConnectionLost];
    assert LoopEvents([Fault(e)]) == [ConnectionLost];
    DeliverAppend(s, LoopEvents(xs), [ConnectionLost]);
    assert [ConnectionLost][1..] == [];
  }

  /**
   * A sensor chunk that arrives during a turn sets the active player's
   * score to the printed BPM (not the raw signal) when that BPM is positive.
   */
  lemma SensorChunkScores(s: Match, signal: nat, bpm: nat)
    requires s.isRecording && bpm >= 1
    ensures Score(Deliver(s, LoopEvents([Chunk(SensorChunk(signal, bpm))])), s.currentPlayer) == bpm
    ensures Score(Deliver(s, LoopEvents([Chunk(SensorChunk(signal, bpm))])), Other(s.currentPlayer)) == Score(s, Other(s.currentPlayer))
  {
    var c := SensorChunk(signal, bpm);
    SensorChunkEvent(signal, bpm);
    assert c != [];
    var r := Reading(bpm, bpm < NormalLow || NormalHigh < bpm);
    assert ChunkEvents(c) == [BpmUpdate(r)];
    assert [Chunk(c)][1..] == [];
    assert LoopEvents([Chunk(c)]) == [BpmUpdate(r)];
    assert [BpmUpdate(r)][1..] == [];
  }

  /**
   * Chunk boundaries fall wherever the stream puts them, and each chunk is
   * parsed on its own. When a boundary cuts the BPM line inside its number,
   * after the digits `h` and before the digits `t`, the first chunk yields
   * `h` as a reading (if it is not 0) and the second, which has no label,
   * yields nothing.
   */
  lemma SplitBpmLine(h: string, t: string)
    requires h != [] && AllDigits(h) && AllDigits(t)
    ensures LoopEvents([Chunk(BpmPrefix + h), Chunk(t + LineEnd)]) ==
      if Value(h) > 0 then [BpmUpdate(Classify(Value(h)).value)] else []
  {
    var d1 := BpmPrefix + h;
    var d2 := t + LineEnd;
    CutLineHead(h);
    CutLineTail(t);
    assert ChunkEvents(d2) == [];
    var rs := [Chunk(d1), Chunk(d2)];
    assert rs[1..] == [Chunk(d2)];
    assert [Chunk(d2)][1..] == [];
    assert LoopEvents([Chunk(d2)]) == [];
    assert LoopEvents(rs) == ChunkEvents(d1) + LoopEvents([Chunk(d2)]);
  }

  /**
   * A printed BPM `m` cut after its first `c` digits: the two chunks are the
   * printed line, and the one reading published is its leading digits, a
   * positive number at most a tenth of `m`.
   */
  lemma CutPrintedBpm(m: nat, c: nat)
    requires 0 < c < |ToDecimal(m)|
    ensures var d := ToDecimal(m);
      && (BpmPrefix + d[..c]) + (d[c..] + LineEnd) == BpmPrefix + d + LineEnd
      && AllDigits(d[..c]) && 1 <= Value(d[..c]) && Value(d[..c]) * 10 <= m
      && LoopEvents([Chunk(BpmPrefix + d[..c]), Chunk(d[c..] + LineEnd)]) == [BpmUpdate(Classify(Value(d[..c])).value)]
  {
    var d := ToDecimal(m);
    CutDecimal(m, c);
    assert (BpmPrefix + d[..c]) + (d[c..] + LineEnd) == BpmPrefix + (d[..c] + d[c..]) + LineEnd;
    SplitBpmLine(d[..c], d[c..]);
  }

  /** Both pieces of a printed number cut inside it are digit strings, and the head is a smaller positive number. */
  lemma CutDecimal(m: nat, c: nat)
    requires 0 < c < |ToDecimal(m)|
    ensures var d := ToDecimal(m);
      && d[..c] + d[c..] == d && AllDigits(d[..c]) && AllDigits(d[c..])
      && 1 <= Value(d[..c]) && Value(d[..c]) * 10 <= m
  {
    var d := ToDecimal(m);
    assert d == d[..c] + d[c..];
    ValuePrefix(d, c);
    ValueOfToDecimal(m);
    assert d[..c][0] == d[0];
    ValuePositive(d[..c]);
    assert AllDigits(d[c..]) by {
      forall i | 0 <= i < |d[c..]| ensures IsDigit(d[c..][i]) {
        assert d[c..][i] == d[c + i];
      }
    }
  }

  /** During a turn, a cut BPM line sets the active player's score to the cut-off number. */
  lemma SplitBpmLineScores(s: Match, h: string, t: string)
    requires s.isRecording && h != [] && AllDigits(h) && AllDigits(t)
    ensures Score(Deliver(s, LoopEvents([Chunk(BpmPrefix + h), Chunk(t + LineEnd)])), s.currentPlayer) ==
      if Value(h) > 0 then Value(h) else Score(s, s.currentPlayer)
    ensures Score(Deliver(s, LoopEvents([Chunk(BpmPrefix + h), Chunk(t + LineEnd)])), Other(s.currentPlayer)) ==
      Score(s, Other(s.currentPlayer))
  {
    SplitBpmLine(h, t);
    if Value(h) > 0 {
      var r := Classify(Value(h)).value;
      assert [BpmUpdate(r)][1..] == [];
    }
  }

  /**
   * "BPM: 75" arriving as "BPM: 7" and "5\r\n" is the reading 7; a winning
   * "BPM: 100" arriving as "BPM: 1" and "00\r\n" is the reading 1. Both are
   * flagged as out of range.
   */
  lemma SplitBpmLineExample()
    ensures LoopEvents([Chunk("BPM: 7"), Chunk("5\r\n")]) == [BpmUpdate(Reading(7, true))]
    ensures LoopEvents([Chunk("BPM: 1"), Chunk("00\r\n")]) == [BpmUpdate(Reading(1, true))]
  {
    assert AllDigits("7") && AllDigits("5") && AllDigits("1") && AllDigits("00");
    assert Value("7") == 7 && Value("1") == 1;
    SplitBpmLine("7", "5");
    SplitBpmLine("1", "00");
    assert BpmPrefix + "7" == "BPM: 7" && "5" + LineEnd == "5\r\n";
    assert BpmPrefix + "1" == "BPM: 1" && "00" + LineEnd == "00\r\n";
  }
}
