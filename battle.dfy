/**
 * The match controller of js/battle.js as a state machine over values: the
 * module globals, the two start buttons' `disabled` flags, the live
 * `setInterval` countdowns and the 50-point graph window. Each function
 * below is one handler of the page; the class in battle_page.dfy runs the
 * same handlers on mutable fields and is proved to agree with them.
 */
module Battle {
  import opened Wrappers

  /** `countdown`: the seconds of one turn. */
  const TurnSeconds: int := 20
  /** The number of points `graphData` holds. */
  const GraphWindow: nat := 50
  /** A final score of at least this many BPM is a win. */
  const WinThreshold: nat := 100

  datatype Player = P1 | P2

  datatype Status = Win | Lose

  /** What `determineWinner` decides: each player's status, and whether anyone won. */
  datatype Outcome = Outcome(p1: Status, p2: Status, anyWin: bool)

  /**
   * The page state. `timers` maps every live `setInterval` id to the
   * `timeLeft` its callback has captured; `timerInterval` is the global
   * that holds the id of the most recent one (it is never reset).
   */
  datatype Match = Match(
    currentPlayer: Player,
    p1Score: nat,
    p2Score: nat,
    isRecording: bool,
    timers: map<nat, int>,
    timerInterval: Option<nat>,
    nextTimer: nat,
    p1Enabled: bool,
    p2Enabled: bool,
    graph: seq<nat>,
    outcome: Option<Outcome>)

  /** What can happen on the page: a `bpmUpdate` event, a click on a start button, an interval firing. */
  datatype Input = Bpm(bpm: nat) | Click(player: Player) | Tick(timer: nat)

  /** The state when the page has loaded: player 1 may start, player 2 may not. */
  function Init(): (s: Match)
    ensures s.p1Enabled && !s.p2Enabled && !s.isRecording && s.timers == map[]
    ensures s.p1Score == 0 && s.p2Score == 0 && s.currentPlayer == P1 && s.outcome.None? && s.timerInterval.None?
    ensures |s.graph| == GraphWindow && forall i :: 0 <= i < |s.graph| ==> s.graph[i] == 0
  {
    Match(P1, 0, 0, false, map[], None, 0, true, false, seq(GraphWindow, _ => 0), None)
  }

  function Score(s: Match, p: Player): nat {
    if p == P1 then s.p1Score else s.p2Score
  }

  function Other(p: Player): Player {
    if p == P1 then P2 else P1
  }

  function Enabled(s: Match, p: Player): bool {
    if p == P1 then s.p1Enabled else s.p2Enabled
  }

  /** `updateGraph`: `graphData.push(bpm); graphData.shift();`. */
  function Shift(g: seq<nat>, bpm: nat): (r: seq<nat>)
    ensures |r| == |g|
    ensures |r| > 0 ==> r[|r| - 1] == bpm
    ensures forall i :: 0 <= i < |g| - 1 ==> r[i] == g[i + 1]
  {
    (g + [bpm])[1..]
  }

  /**
   * The `bpmUpdate` listener: the graph always moves; the active player's
   * score is overwritten only while recording.
   */
  function OnBpm(s: Match, bpm: nat): (r: Match)
    ensures r.graph == Shift(s.graph, bpm)
    ensures s.isRecording ==> Score(r, s.currentPlayer) == bpm && Score(r, Other(s.currentPlayer)) == Score(s, Other(s.currentPlayer))
    ensures !s.isRecording ==> r.p1Score == s.p1Score && r.p2Score == s.p2Score
    ensures r.(graph := s.graph, p1Score := s.p1Score, p2Score := s.p2Score) == s
  {
    var moved := s.(graph := Shift(s.graph, bpm));
    if !s.isRecording then moved
    else if s.currentPlayer == P1 then moved.(p1Score := bpm)
    else moved.(p2Score := bpm)
  }

  /** Every live interval has an id below `nextTimer`, so `nextTimer` names none of them. */
  predicate FreshIds(s: Match) {
    forall k :: k in s.timers ==> k < s.nextTimer
  }

  /**
   * `startTurn(n)`, which checks nothing: it disables both buttons and
   * starts a new interval, under an id no live interval has, with a fresh
   * `timeLeft`, leaving any older interval running.
   */
  function StartTurn(s: Match, p: Player): (r: Match)
    ensures r.currentPlayer == p && r.isRecording && !r.p1Enabled && !r.p2Enabled
    ensures r.timerInterval == Some(s.nextTimer) && r.timers == s.timers[s.nextTimer := TurnSeconds]
    ensures r.nextTimer == s.nextTimer + 1
    ensures s.nextTimer !in s.timers ==>
      r.timers.Keys == s.timers.Keys + {s.nextTimer} && forall k :: k in s.timers ==> r.timers[k] == s.timers[k]
    ensures FreshIds(s) ==> FreshIds(r) && s.nextTimer !in s.timers
    ensures r.p1Score == s.p1Score && r.p2Score == s.p2Score && r.graph == s.graph && r.outcome == s.outcome
  {
    s.(currentPlayer := p, isRecording := true, p1Enabled := false, p2Enabled := false,
       timers := s.timers[s.nextTimer := TurnSeconds], timerInterval := Some(s.nextTimer),
       nextTimer := s.nextTimer + 1)
  }

  /** `clearInterval(timerInterval)`: stops the most recent interval only. */
  function ClearInterval(s: Match): (r: Match)
    ensures r.timers == s.timers - (if s.timerInterval.Some? then {s.timerInterval.value} else {})
    ensures r.(timers := s.timers) == s
  {
    match s.timerInterval
    case None => s
    case Some(id) => s.(timers := s.timers - {id})
  }

  /** `determineWinner`: the threshold rule, applied to each player on their own. */
  function DetermineWinner(p1Score: nat, p2Score: nat): (o: Outcome)
    ensures o.p1 == Win <==> p1Score >= WinThreshold
    ensures o.p2 == Win <==> p2Score >= WinThreshold
    ensures o.anyWin <==> o.p1 == Win || o.p2 == Win
  {
    var p1Status :=
      if p1Score >= WinThreshold && p2Score >= WinThreshold then Win
      else if p1Score >= WinThreshold && p2Score < WinThreshold then Win
      else if p1Score < WinThreshold && p2Score >= WinThreshold then Lose
      else Lose;
    var p2Status :=
      if p1Score >= WinThreshold && p2Score >= WinThreshold then Win
      else if p1Score >= WinThreshold && p2Score < WinThreshold then Lose
      else if p1Score < WinThreshold && p2Score >= WinThreshold then Win
      else Lose;
    Outcome(p1Status, p2Status, p1Score >= WinThreshold || p2Score >= WinThreshold)
  }

  /**
   * `endTurn`: stop recording and the latest interval; after player 1 hand
   * the sensor over (only player 2 may start), after player 2 decide the
   * match. The score is the last one recorded (`currentBPM` is never a global).
   */
  function EndTurn(s: Match): (r: Match)
    ensures !r.isRecording && r.p1Score == s.p1Score && r.p2Score == s.p2Score && r.graph == s.graph
    ensures s.currentPlayer == P1 ==> !r.p1Enabled && r.p2Enabled && r.outcome == s.outcome
    ensures s.currentPlayer == P2 ==> r.p1Enabled == s.p1Enabled && r.p2Enabled == s.p2Enabled
    ensures s.currentPlayer == P2 ==> r.outcome == Some(DetermineWinner(s.p1Score, s.p2Score))
    ensures r.timers == ClearInterval(s).timers
    ensures r.(isRecording := s.isRecording, timers := s.timers, p1Enabled := s.p1Enabled, p2Enabled := s.p2Enabled, outcome := s.outcome) == s
  {
    var stopped := ClearInterval(s.(isRecording := false));
    if s.currentPlayer == P1 then stopped.(p2Enabled := true, p1Enabled := false)
    else stopped.(outcome := Some(DetermineWinner(s.p1Score, s.p2Score)))
  }

  /**
   * One run of the interval callback of timer `id`: count down, and at 0
   * clear `timerInterval` and end the turn.
   */
  function FireTimer(s: Match, id: nat): (r: Match)
    requires id in s.timers
    ensures s.timers[id] > 1 ==> r == s.(timers := s.timers[id := s.timers[id] - 1])
    ensures s.timers[id] <= 1 ==>
      r.timers == s.timers[id := s.timers[id] - 1] - (if s.timerInterval.Some? then {s.timerInterval.value} else {})
    ensures s.timers[id] <= 1 ==>
      (s.timerInterval.Some? ==> s.timerInterval.value !in r.timers) &&
      (s.timerInterval != Some(id) ==> id in r.timers && r.timers[id] == s.timers[id] - 1)
    ensures s.timers[id] <= 1 ==>
      !r.isRecording && r.p1Score == s.p1Score && r.p2Score == s.p2Score && r.graph == s.graph &&
      r.currentPlayer == s.currentPlayer && r.timerInterval == s.timerInterval && r.nextTimer == s.nextTimer
    ensures s.timers[id] <= 1 && s.currentPlayer == P1 ==> !r.p1Enabled && r.p2Enabled && r.outcome == s.outcome
    ensures s.timers[id] <= 1 && s.currentPlayer == P2 ==>
      r.p1Enabled == s.p1Enabled && r.p2Enabled == s.p2Enabled && r.outcome == Some(DetermineWinner(s.p1Score, s.p2Score))
  {
    var left := s.timers[id] - 1;
    var counted := s.(timers := s.timers[id := left]);
    if left <= 0 then EndTurn(ClearInterval(counted)) else counted
  }

  /** One input. A disabled button ignores clicks; a cleared interval never fires. */
  function Step(s: Match, input: Input): Match {
    match input
    case Bpm(v) => OnBpm(s, v)
    case Click(p) => if Enabled(s, p) then StartTurn(s, p) else s
    case Tick(id) => if id in s.timers then FireTimer(s, id) else s
  }

  function Run(s: Match, inputs: seq<Input>): Match
    decreases |inputs|
  {
    if inputs == [] then s else Run(Step(s, inputs[0]), inputs[1..])
  }

  /** `n` firings of the interval `id`. */
  function Ticks(id: nat, n: nat): (r: seq<Input>)
    ensures |r| == n && forall i :: 0 <= i < n ==> r[i] == Tick(id)
  {
    seq(n, _ => Tick(id))
  }

  /** A sequence of `bpmUpdate` events. */
  function Bpms(xs: seq<nat>): (r: seq<Input>)
    ensures |r| == |xs| && forall i :: 0 <= i < |xs| ==> r[i] == Bpm(xs[i])
  {
    seq(|xs|, i requires 0 <= i < |xs| => Bpm(xs[i]))
  }

  // ---------------------------------------------------------------------
  // The stage of the match, and the invariant the buttons maintain.

  datatype Phase = Ready1 | Recording1 | Ready2 | Recording2 | Over

  function Rank(ph: Phase): nat {
    match ph
    case Ready1 => 0
    case Recording1 => 1
    case Ready2 => 2
    case Recording2 => 3
    case Over => 4
  }

  function PhaseOf(s: Match): Phase {
    if s.outcome.Some? then Over
    else if s.isRecording then (if s.currentPlayer == P1 then Recording1 else Recording2)
    else if s.p2Enabled then Ready2
    else Ready1
  }

  /** Exactly one interval runs: the one `timerInterval` names, with 1 to 20 seconds left. */
  ghost predicate OneTimer(s: Match) {
    && s.timerInterval.Some?
    && s.timers.Keys == {s.timerInterval.value}
    && 1 <= s.timers[s.timerInterval.value] <= TurnSeconds
  }

  ghost predicate InPhase(s: Match, ph: Phase) {
    match ph
    case Ready1 =>
      s.currentPlayer == P1 && !s.isRecording && s.p1Enabled && !s.p2Enabled && s.timers == map[] && s.outcome.None?
    case Recording1 =>
      s.currentPlayer == P1 && s.isRecording && !s.p1Enabled && !s.p2Enabled && OneTimer(s) && s.outcome.None?
    case Ready2 =>
      s.currentPlayer == P1 && !s.isRecording && !s.p1Enabled && s.p2Enabled && s.timers == map[] && s.outcome.None?
    case Recording2 =>
      s.currentPlayer == P2 && s.isRecording && !s.p1Enabled && !s.p2Enabled && OneTimer(s) && s.outcome.None?
    case Over =>
      && s.currentPlayer == P2 && !s.isRecording && !s.p1Enabled && !s.p2Enabled && s.timers == map[]
      && s.outcome == Some(DetermineWinner(s.p1Score, s.p2Score))
  }

  /** The states the page can reach through its inputs. */
  ghost predicate Valid(s: Match) {
    |s.graph| == GraphWindow && InPhase(s, PhaseOf(s)) && FreshIds(s)
  }

  // ---------------------------------------------------------------------
  // End of the match: records and navigation (`saveAndNavigate`).

  /** One player's details as `battle.js` reads them from `localStorage`. */
  datatype Profile = Profile(name: string, section: string, email: string)

  /** `localStorage.getItem(key) || fallback`: a missing or empty entry gives the fallback. */
  function StoredOr(stored: Option<string>, fallback: string): (r: string)
    ensures stored.Some? && stored.value != "" ==> r == stored.value
    ensures stored.None? || stored.value == "" ==> r == fallback
  {
    if stored.Some? && stored.value != "" then stored.value else fallback
  }

  function LoadProfile(name: Option<string>, section: Option<string>, email: Option<string>, defaultName: string): (p: Profile)
    ensures p.name == StoredOr(name, defaultName) && p.section == StoredOr(section, "") && p.email == StoredOr(email, "")
  {
    Profile(StoredOr(name, defaultName), StoredOr(section, ""), StoredOr(email, ""))
  }

  /** One leaderboard entry; the server timestamp is not modelled. */
  datatype PlayerRecord = PlayerRecord(name: string, score: nat, section: string, email: string, status: Status, matchLabel: string)

  function StatusOf(score: nat): (st: Status)
    ensures st == Win <==> score >= WinThreshold
  {
    if score >= WinThreshold then Win else Lose
  }

  /** `${p1Name} & ${p2Name}`: both names, player 1 first, joined by " & ". */
  function MatchLabel(p1Name: string, p2Name: string): (m: string)
    ensures |m| == |p1Name| + 3 + |p2Name|
    ensures m[..|p1Name|] == p1Name && m[|p1Name|..|p1Name| + 3] == " & " && m[|p1Name| + 3..] == p2Name
  {
    p1Name + " & " + p2Name
  }

  /** The two entries `saveAndNavigate` writes, player 1 first. */
  function MatchRecords(pr1: Profile, pr2: Profile, p1Score: nat, p2Score: nat): (rs: seq<PlayerRecord>)
    ensures |rs| == 2
    ensures rs[0] == PlayerRecord(pr1.name, p1Score, pr1.section, pr1.email, StatusOf(p1Score), MatchLabel(pr1.name, pr2.name))
    ensures rs[1] == PlayerRecord(pr2.name, p2Score, pr2.section, pr2.email, StatusOf(p2Score), MatchLabel(pr1.name, pr2.name))
  {
    var matchLabel := MatchLabel(pr1.name, pr2.name);
    [ PlayerRecord(pr1.name, p1Score, pr1.section, pr1.email, StatusOf(p1Score), matchLabel),
      PlayerRecord(pr2.name, p2Score, pr2.section, pr2.email, StatusOf(p2Score), matchLabel) ]
  }

  datatype Page = PhotoPage | HomePage

  /** The buttons that replace the timer once the match is decided. */
  datatype ResultButton = PhotoboothButton | RetryButton | HomeButton

  /** What pressing a result button asks for: save then go to a page, or reload the battle. */
  datatype Action = SaveThenGo(page: Page) | Reload

  function ResultButtons(o: Outcome): (bs: seq<ResultButton>)
    ensures PhotoboothButton in bs <==> o.anyWin
    ensures RetryButton in bs <==> !o.anyWin
    ensures HomeButton in bs
  {
    if o.anyWin then [PhotoboothButton, HomeButton] else [RetryButton, HomeButton]
  }

  /** Photobooth and Home save the match before leaving; Retry reloads without saving. */
  function ActionOf(b: ResultButton): (a: Action)
    ensures a == Reload <==> b == RetryButton
    ensures a == SaveThenGo(PhotoPage) <==> b == PhotoboothButton
    ensures a == SaveThenGo(HomePage) <==> b == HomeButton
  {
    match b
    case PhotoboothButton => SaveThenGo(PhotoPage)
    case HomeButton => SaveThenGo(HomePage)
    case RetryButton => Reload
  }

  /** How `saveAndNavigate` ends. */
  datatype SaveResult = NotInitialised | Navigated(page: Page) | SaveFailed

  /**
   * The store must be loaded; both writes are issued together and the
   * page changes only once both have succeeded.
   */
  function SaveOutcome(firebaseLoaded: bool, dbLoaded: bool, p1Saved: bool, p2Saved: bool, target: Page): (r: SaveResult)
    ensures r == NotInitialised <==> !firebaseLoaded || !dbLoaded
    ensures r.Navigated? <==> firebaseLoaded && dbLoaded && p1Saved && p2Saved
    ensures r.Navigated? ==> r.page == target
  {
    if !firebaseLoaded || !dbLoaded then NotInitialised
    else if p1Saved && p2Saved then Navigated(target)
    else SaveFailed
  }
}
