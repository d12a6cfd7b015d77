/**
 * The battle page of js/battle.js as an object: its module globals and the
 * start buttons' `disabled` flags are fields, `graphData` is a fixed
 * 50-slot array shifted in place, and each handler is a method whose
 * effect is the matching function of module Battle.
 */
module BattlePage {
  import opened Wrappers
  import opened Battle

  class BattleScreen {
    var currentPlayer: Player
    var p1Score: nat
    var p2Score: nat
    var isRecording: bool
    /** Live `setInterval` callbacks, by id, with the `timeLeft` each has captured. */
    var timers: map<nat, int>
    var timerInterval: Option<nat>
    var nextTimer: nat
    /** `!p1Btn.disabled`, `!p2Btn.disabled`. */
    var p1Enabled: bool
    var p2Enabled: bool
    var outcome: Option<Outcome>
    const graphData: array<nat>
    const p1: Profile
    const p2: Profile
    /**
     * The `disabled` flags of the Photobooth and Home buttons on the result
     * screen. The Photobooth button exists only after a win; without it
     * `photoDisabled` is set and cleared like the real flag but belongs to no button.
     */
    var photoDisabled: bool
    var homeDisabled: bool

    ghost predicate Valid()
      reads this
    {
      graphData.Length == GraphWindow
    }

    /** The page's state as a value of the state machine. */
    ghost function State(): Match
      reads this, graphData
    {
      Match(currentPlayer, p1Score, p2Score, isRecording, timers, timerInterval, nextTimer,
            p1Enabled, p2Enabled, graphData[..], outcome)
    }

    /** Page load: the player details come from `localStorage`, player 1's button is enabled. */
    constructor (p1Name: Option<string>, p1Section: Option<string>, p1Email: Option<string>,
                 p2Name: Option<string>, p2Section: Option<string>, p2Email: Option<string>)
      ensures Valid() && fresh(graphData) && State() == Init()
      ensures p1 == LoadProfile(p1Name, p1Section, p1Email, "Player 1")
      ensures p2 == LoadProfile(p2Name, p2Section, p2Email, "Player 2")
      ensures !photoDisabled && !homeDisabled
    {
      currentPlayer := P1;
      p1Score, p2Score := 0, 0;
      isRecording := false;
      timers, timerInterval, nextTimer := map[], None, 0;
      p1Enabled, p2Enabled := true, false;
      outcome := None;
      graphData := new nat[GraphWindow](_ => 0);
      p1 := LoadProfile(p1Name, p1Section, p1Email, "Player 1");
      p2 := LoadProfile(p2Name, p2Section, p2Email, "Player 2");
      photoDisabled, homeDisabled := false, false;
      new;
      assert graphData[..] == Init().graph;
    }

    /** `updateGraph`: every point moves one slot left and the reading enters at the end. */
    method UpdateGraph(bpm: nat)
      requires Valid()
      modifies graphData
      ensures graphData[..] == Shift(old(graphData[..]), bpm)
    {
      var i := 0;
      while i < graphData.Length - 1
        invariant 0 <= i <= graphData.Length - 1
        invariant forall k :: 0 <= k < i ==> graphData[k] == old(graphData[k + 1])
        invariant forall k :: i <= k < graphData.Length ==> graphData[k] == old(graphData[k])
      {
        graphData[i] := graphData[i + 1];
        i := i + 1;
      }
      graphData[graphData.Length - 1] := bpm;
    }

    /** The `bpmUpdate` listener. */
    method OnBpmUpdate(bpm: nat)
      requires Valid()
      modifies this, graphData
      ensures Valid() && State() == OnBpm(old(State()), bpm)
      ensures photoDisabled == old(photoDisabled) && homeDisabled == old(homeDisabled)
    {
      UpdateGraph(bpm);
      if isRecording {
        if currentPlayer == P1 {
          p1Score := bpm;
        } else {
          p2Score := bpm;
        }
      }
    }

    /** `startTurn(playerNum)`, which has no guard of its own. */
    method StartTurn(p: Player)
      modifies this
      ensures State() == Battle.StartTurn(old(State()), p)
      ensures photoDisabled == old(photoDisabled) && homeDisabled == old(homeDisabled)
    {
      currentPlayer := p;
      isRecording := true;
      p1Enabled, p2Enabled := false, false;
      timers := timers[nextTimer := TurnSeconds];
      timerInterval := Some(nextTimer);
      nextTimer := nextTimer + 1;
    }

    /**
     * A click on a start button, which the page markup wires to
     * `startTurn(1)` or `startTurn(2)`: a disabled button does not fire it.
     */
    method ClickStart(p: Player)
      modifies this
      ensures State() == Step(old(State()), Click(p))
      ensures photoDisabled == old(photoDisabled) && homeDisabled == old(homeDisabled)
    {
      if (p == P1 && p1Enabled) || (p == P2 && p2Enabled) {
        StartTurn(p);
      }
    }

    /** `clearInterval(timerInterval)`. */
    method ClearTimerInterval()
      modifies this
      ensures State() == ClearInterval(old(State()))
      ensures photoDisabled == old(photoDisabled) && homeDisabled == old(homeDisabled)
    {
      if timerInterval.Some? {
        timers := timers - {timerInterval.value};
      }
    }

    /** `endTurn`. */
    method EndTurn()
      modifies this
      ensures State() == Battle.EndTurn(old(State()))
      ensures photoDisabled == old(photoDisabled) && homeDisabled == old(homeDisabled)
    {
      isRecording := false;
      ClearTimerInterval();
      if currentPlayer == P1 {
        p2Enabled := true;
        p1Enabled := false;
      } else {
        outcome := Some(DetermineWinner(p1Score, p2Score));
      }
    }

    /** One run of the interval callback `id`; an interval that was cleared never runs. */
    method Tick(id: nat)
      modifies this
      ensures State() == Step(old(State()), Input.Tick(id))
      ensures photoDisabled == old(photoDisabled) && homeDisabled == old(homeDisabled)
    {
      if id in timers {
        var left := timers[id] - 1;
        timers := timers[id := left];
        if left <= 0 {
          ClearTimerInterval();
          EndTurn();
        }
      }
    }

    /**
     * `saveAndNavigate(targetUrl)`: with the store loaded, disable the
     * result buttons, write both entries, and go to `target` only if both
     * writes succeed; otherwise enable the buttons again and stay.
     */
    method SaveAndNavigate(target: Page, firebaseLoaded: bool, dbLoaded: bool, p1Saved: bool, p2Saved: bool)
      returns (result: SaveResult, written: seq<PlayerRecord>)
      modifies this`photoDisabled, this`homeDisabled
      ensures result == SaveOutcome(firebaseLoaded, dbLoaded, p1Saved, p2Saved, target)
      ensures written == if firebaseLoaded && dbLoaded then MatchRecords(p1, p2, p1Score, p2Score) else []
      ensures result == NotInitialised ==> photoDisabled == old(photoDisabled) && homeDisabled == old(homeDisabled)
      ensures result.Navigated? ==> photoDisabled && homeDisabled
      ensures result == SaveFailed ==> !photoDisabled && !homeDisabled
    {
      if !firebaseLoaded || !dbLoaded {
        return NotInitialised, [];
      }
      written := MatchRecords(p1, p2, p1Score, p2Score);
      photoDisabled, homeDisabled := true, true;
      if p1Saved && p2Saved {
        result := Navigated(target);
      } else {
        result := SaveFailed;
        photoDisabled, homeDisabled := false, false;
      }
    }
  }
}
