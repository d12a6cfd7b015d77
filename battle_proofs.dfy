/**
 * What the match controller of js/battle.js guarantees, proved about the
 * state machine of module Battle.
 */
module BattleProofs {
  import opened Wrappers
  import opened Battle

  lemma InitValid()
    ensures Valid(Init()) && PhaseOf(Init()) == Ready1
  {
  }

  /** Inputs concatenate: running `xs + ys` is running `xs`, then `ys`. */
  lemma {:induction false} RunAppend(s: Match, xs: seq<Input>, ys: seq<Input>)
    ensures Run(s, xs + ys) == Run(Run(s, xs), ys)
    decreases |xs|
  {
    if xs == [] {
      assert xs + ys == ys;
    } else {
      assert (xs + ys)[0] == xs[0];
      assert (xs + ys)[1..] == xs[1..] + ys;
      RunAppend(Step(s, xs[0]), xs[1..], ys);
    }
  }

  /**
   * Every input keeps the page in a reachable state and moves the match at
   * most one stage forward: Ready1, Recording1, Ready2, Recording2, Over.
   */
  lemma StepValid(s: Match, input: Input)
    requires Valid(s)
    ensures Valid(Step(s, input))
    ensures PhaseOf(Step(s, input)) == PhaseOf(s) || Rank(PhaseOf(Step(s, input))) == Rank(PhaseOf(s)) + 1
  {
    match input
    case Bpm(v) =>
    case Click(p) =>
      if Enabled(s, p) {
        assert s.timers == map[];
        var t := Step(s, input);
        assert t.timers.Keys == {s.nextTimer};
      }
    case Tick(id) =>
      if id in s.timers {
        assert s.isRecording;
        var t := s.timers[id];
        if t - 1 > 0 {
          assert Step(s, input).timers.Keys == {id};
        } else {
          assert Step(s, input).timers == map[];
        }
      }
  }

  lemma {:induction false} RunValid(s: Match, inputs: seq<Input>)
    requires Valid(s)
    ensures Valid(Run(s, inputs))
    ensures Rank(PhaseOf(s)) <= Rank(PhaseOf(Run(s, inputs)))
    decreases |inputs|
  {
    if inputs != [] {
      StepValid(s, inputs[0]);
      RunValid(Step(s, inputs[0]), inputs[1..]);
    }
  }

  /**
   * What the buttons buy, given that `startTurn` checks nothing: the two
   * start buttons are never enabled together, neither is enabled while a
   * turn records, and at most one countdown interval is alive.
   */
  lemma ValidIsSafe(s: Match)
    requires Valid(s)
    ensures !(s.p1Enabled && s.p2Enabled)
    ensures s.isRecording ==> !s.p1Enabled && !s.p2Enabled
    ensures |s.timers| <= 1
    ensures s.isRecording <==> |s.timers| == 1
  {
    if OneTimer(s) {
      assert s.timers.Keys == {s.timerInterval.value};
      assert |s.timers.Keys| == 1;
    }
  }

  /** Never two turns at once, whatever the players click and whenever the sensor reports. */
  lemma NeverTwoTurnsAtOnce(inputs: seq<Input>)
    ensures !(Run(Init(), inputs).p1Enabled && Run(Init(), inputs).p2Enabled)
    ensures Run(Init(), inputs).isRecording ==> !Run(Init(), inputs).p1Enabled && !Run(Init(), inputs).p2Enabled
    ensures |Run(Init(), inputs).timers| <= 1
  {
    InitValid();
    RunValid(Init(), inputs);
    ValidIsSafe(Run(Init(), inputs));
  }

  /** A turn starts only from the matching ready stage: player 1 first, then player 2, once each. */
  lemma TurnOrder(s: Match, input: Input)
    requires Valid(s) && !s.isRecording && Step(s, input).isRecording
    ensures PhaseOf(s) == Ready1 ==> Step(s, input).currentPlayer == P1
    ensures PhaseOf(s) == Ready2 ==> Step(s, input).currentPlayer == P2
    ensures PhaseOf(s) == Ready1 || PhaseOf(s) == Ready2
  {
    StepValid(s, input);
  }

  /** While a turn records, clicks change nothing: a double click does not restart the timer. */
  lemma ClickWhileRecording(s: Match, p: Player)
    requires Valid(s) && s.isRecording
    ensures Step(s, Click(p)) == s
  {
  }

  /**
   * Readings touch only the graph and, while recording, the active
   * player's score, which always holds the latest reading.
   */
  lemma {:induction false} FeedReadings(s: Match, xs: seq<nat>)
    ensures Run(s, Bpms(xs)).graph == (s.graph + xs)[|xs|..]
    ensures Run(s, Bpms(xs)).(graph := s.graph, p1Score := s.p1Score, p2Score := s.p2Score) == s
    ensures !s.isRecording ==> Run(s, Bpms(xs)).p1Score == s.p1Score && Run(s, Bpms(xs)).p2Score == s.p2Score
    ensures s.isRecording ==> Score(Run(s, Bpms(xs)), Other(s.currentPlayer)) == Score(s, Other(s.currentPlayer))
    ensures s.isRecording && xs != [] ==> Score(Run(s, Bpms(xs)), s.currentPlayer) == xs[|xs| - 1]
    decreases |xs|
  {
    if xs == [] {
      assert (s.graph + xs)[|xs|..] == s.graph;
    } else {
      var t := Step(s, Bpm(xs[0]));
      assert Bpms(xs)[0] == Bpm(xs[0]);
      assert Bpms(xs)[1..] == Bpms(xs[1..]);
      FeedReadings(t, xs[1..]);
      assert t.graph + xs[1..] == (s.graph + xs)[1..];
    }
  }

  /** The graph is a window of the last 50 readings once 50 have arrived. */
  lemma GraphIsWindow(s: Match, xs: seq<nat>)
    requires |s.graph| == GraphWindow && |xs| >= GraphWindow
    ensures Run(s, Bpms(xs)).graph == xs[|xs| - GraphWindow..]
  {
    FeedReadings(s, xs);
    assert (s.graph + xs)[|xs|..] == xs[|xs| - GraphWindow..];
  }

  /** The seconds left on the running countdown. */
  function TimeLeft(s: Match): int
    requires s.timerInterval.Some? && s.timerInterval.value in s.timers
  {
    s.timers[s.timerInterval.value]
  }

  /** Each of the first `k` ticks before the last one takes one second off and keeps recording. */
  lemma {:induction false} Countdown(s: Match, k: nat)
    requires Valid(s) && s.isRecording
    requires s.timerInterval.Some? && s.timerInterval.value in s.timers && k < TimeLeft(s)
    ensures Valid(Run(s, Ticks(s.timerInterval.value, k)))
    ensures Run(s, Ticks(s.timerInterval.value, k)) == s.(timers := map[s.timerInterval.value := TimeLeft(s) - k])
  {
    var id := s.timerInterval.value;
    if k == 0 {
      assert Ticks(id, 0) == [];
      assert s.timers == map[id := TimeLeft(s)];
    } else {
      Countdown(s, k - 1);
      var before := Run(s, Ticks(id, k - 1));
      assert Ticks(id, k) == Ticks(id, k - 1) + [Tick(id)];
      RunAppend(s, Ticks(id, k - 1), [Tick(id)]);
      assert Run(before, [Tick(id)]) == Step(before, Tick(id));
      StepValid(before, Tick(id));
    }
  }

  /**
   * The tick that brings `timeLeft` to 0 ends the turn: recording stops,
   * the interval is gone (no later tick does anything) and the match moves
   * on one stage, with the scores left as they were.
   */
  lemma TurnExpires(s: Match)
    requires Valid(s) && s.isRecording
    requires s.timerInterval.Some? && s.timerInterval.value in s.timers
    ensures var r := Run(s, Ticks(s.timerInterval.value, TimeLeft(s)));
      && Valid(r) && !r.isRecording && r.timers == map[]
      && Rank(PhaseOf(r)) == Rank(PhaseOf(s)) + 1
      && r.p1Score == s.p1Score && r.p2Score == s.p2Score && r.graph == s.graph
      && r.currentPlayer == s.currentPlayer && r.nextTimer == s.nextTimer
      && Step(r, Tick(s.timerInterval.value)) == r
  {
    var id := s.timerInterval.value;
    var t := TimeLeft(s);
    Countdown(s, t - 1);
    var last := Run(s, Ticks(id, t - 1));
    assert Ticks(id, t) == Ticks(id, t - 1) + [Tick(id)];
    RunAppend(s, Ticks(id, t - 1), [Tick(id)]);
    assert Run(last, [Tick(id)]) == Step(last, Tick(id));
    StepValid(last, Tick(id));
  }

  /** Clicking an enabled start button gives a turn of exactly 20 ticks. */
  lemma TurnLastsTwentyTicks(s: Match, p: Player)
    requires Valid(s) && Enabled(s, p)
    ensures Valid(Step(s, Click(p))) && Step(s, Click(p)).isRecording
    ensures Run(Step(s, Click(p)), Ticks(s.nextTimer, TurnSeconds - 1)).isRecording
    ensures !Run(Step(s, Click(p)), Ticks(s.nextTimer, TurnSeconds)).isRecording
  {
    var t := Step(s, Click(p));
    StepValid(s, Click(p));
    Countdown(t, TurnSeconds - 1);
    TurnExpires(t);
  }

  /**
   * A whole match through the buttons: player 1 starts, readings `xs`
   * arrive, 20 seconds pass, player 2 starts, readings `ys` arrive, 20
   * seconds pass. Each score is that player's last reading (0, the initial
   * score, for a turn without readings) and the outcome is the threshold
   * rule applied to both.
   */
  lemma WholeMatch(xs: seq<nat>, ys: seq<nat>)
    ensures var r := Run(Init(), [Click(P1)] + Bpms(xs) + Ticks(0, TurnSeconds) + [Click(P2)] + Bpms(ys) + Ticks(1, TurnSeconds));
      var a := if xs == [] then 0 else xs[|xs| - 1];
      var b := if ys == [] then 0 else ys[|ys| - 1];
      && PhaseOf(r) == Over && Valid(r)
      && r.p1Score == a && r.p2Score == b
      && r.outcome == Some(DetermineWinner(a, b))
  {
    var s0 := Init();
    InitValid();
    var s1 := Step(s0, Click(P1));
    StepValid(s0, Click(P1));
    assert Run(s0, [Click(P1)]) == s1;
    var s2 := Run(s1, Bpms(xs));
    FeedReadings(s1, xs);
    RunValid(s1, Bpms(xs));
    var s3 := Run(s2, Ticks(0, TurnSeconds));
    TurnExpires(s2);
    var s4 := Step(s3, Click(P2));
    StepValid(s3, Click(P2));
    assert Run(s3, [Click(P2)]) == s4;
    var s5 := Run(s4, Bpms(ys));
    FeedReadings(s4, ys);
    RunValid(s4, Bpms(ys));
    var s6 := Run(s5, Ticks(1, TurnSeconds));
    TurnExpires(s5);
    RunAppend(s0, [Click(P1)], Bpms(xs));
    RunAppend(s0, [Click(P1)] + Bpms(xs), Ticks(0, TurnSeconds));
    RunAppend(s0, [Click(P1)] + Bpms(xs) + Ticks(0, TurnSeconds), [Click(P2)]);
    RunAppend(s0, [Click(P1)] + Bpms(xs) + Ticks(0, TurnSeconds) + [Click(P2)], Bpms(ys));
    RunAppend(s0, [Click(P1)] + Bpms(xs) + Ticks(0, TurnSeconds) + [Click(P2)] + Bpms(ys), Ticks(1, TurnSeconds));
  }

  /** Readings 72, 88, 95 during player 1's turn leave a final score of 95. */
  lemma LastSampleWinsExample()
    ensures Run(Init(), [Click(P1)] + Bpms([72, 88, 95]) + Ticks(0, TurnSeconds)).p1Score == 95
  {
    var s1 := Step(Init(), Click(P1));
    InitValid();
    StepValid(Init(), Click(P1));
    assert Run(Init(), [Click(P1)]) == s1;
    FeedReadings(s1, [72, 88, 95]);
    RunValid(s1, Bpms([72, 88, 95]));
    TurnExpires(Run(s1, Bpms([72, 88, 95])));
    RunAppend(Init(), [Click(P1)], Bpms([72, 88, 95]));
    RunAppend(Init(), [Click(P1)] + Bpms([72, 88, 95]), Ticks(0, TurnSeconds));
  }

  /** Both players can reach the goal: a double win, and the photobooth is offered. */
  lemma DoubleWin()
    ensures DetermineWinner(105, 110) == Outcome(Win, Win, true)
    ensures PhotoboothButton in ResultButtons(DetermineWinner(105, 110))
  {
  }

  /** The entries written carry the threshold status of each player, for every pair of scores. */
  lemma RecordsAgreeWithOutcome(pr1: Profile, pr2: Profile, p1Score: nat, p2Score: nat)
    ensures MatchRecords(pr1, pr2, p1Score, p2Score)[0].status == DetermineWinner(p1Score, p2Score).p1
    ensures MatchRecords(pr1, pr2, p1Score, p2Score)[1].status == DetermineWinner(p1Score, p2Score).p2
  {
  }

  /**
   * Without the buttons the guard is gone: calling `startTurn` twice
   * leaves both new intervals alive next to the older ones, and
   * `timerInterval` names only the newest, so nothing can stop the other.
   */
  lemma UnguardedStartTurnOverlaps(s: Match, p: Player, q: Player)
    requires FreshIds(s)
    ensures var r := StartTurn(StartTurn(s, p), q);
      && r.timers.Keys == s.timers.Keys + {s.nextTimer, s.nextTimer + 1}
      && |r.timers| == |s.timers| + 2
      && r.timers[s.nextTimer] == TurnSeconds
      && r.timerInterval == Some(s.nextTimer + 1)
  {
    var r1 := StartTurn(s, p);
    var r := StartTurn(r1, q);
    assert s.nextTimer !in s.timers.Keys;
    assert s.nextTimer + 1 !in r1.timers.Keys;
    assert |r1.timers.Keys| == |s.timers.Keys| + 1;
    assert |r.timers.Keys| == |r1.timers.Keys| + 1;
  }
}
