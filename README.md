# Heartbeat battle: a Dafny model of the serial link and the match

The kiosk is a two-player game. A pulse sensor on an Arduino prints
readings over a serial line. The browser reads them through Web Serial,
pulls a heart rate out of every text chunk and raises a `bpmUpdate` event.
The battle page graphs every reading. During a 20-second turn it also
records the reading as the active player's score. After player 2's turn a
score of 100 or more wins, and the result is written to the leaderboard
before the browser moves to the next page.

The model covers:

- `SerialLink`: the serial link with its connection flags. The class
  `Link` stands in for the module globals of `js/serial.js`.
- `BpmParser`, `Decimal`: the heart-rate parser.
- `LegacySerial`: the older parser of `real_serial.js`.
- `SensorFormat`: the exact text the Arduino sketch prints.
- `Battle`: the match as a pure state machine over inputs. An input is a
  reading, a click on a start button or one firing of an interval.
- `BattleProofs`: the lemmas about that state machine.
- `BattlePage`: the battle page as a class with mutable fields and a
  50-slot graph array. Each method is proved equal to the `Battle`
  function it stands for: `OnBpm`, `StartTurn`, `ClearInterval`, `EndTurn`, a `Step`, or,
  for the graph array and the save, `Shift` and `SaveOutcome`/`MatchRecords`.
- `Kiosk`: the two halves joined, so that link events drive the match.

Files: `wrappers.dfy` (Option, Result), `decimal.dfy`, `bpm_parser.dfy`,
`legacy_serial.dfy`, `sensor_format.dfy`, `serial_link.dfy`, `battle.dfy`,
`battle_proofs.dfy`, `battle_page.dfy`, `kiosk.dfy`.

### How the environment is represented

- **Web Serial.** The port picker's answer is a `Result<Port, JsError>`
  and the error thrown by `open` is an `Option<JsError>`. The reader is
  the finite sequence of results it returns: `Chunk(text)`, `Done` or
  `Fault(error)`. The events the link raises (`BpmUpdate`,
  `ConnectionLost`) are appended to the `events` field.
- **`localStorage` and the store.** Each stored value is an
  `Option<string>`. Whether Firebase and Firestore are loaded, and whether
  each leaderboard write succeeds, are boolean parameters.
- **Timers.** `setInterval` is a map from timer id to the `timeLeft` that
  its callback captured. `timerInterval` holds the most recent id, and
  `clearInterval(timerInterval)` removes only that id. A tick is an
  explicit `Tick(id)` input. A new interval gets `nextTimer`, an id that no
  live interval has, as `setInterval` always returns an unused id.
- **Start buttons.** `js/battle.js` only sets the start buttons' initial
  `disabled` flags (`js/battle.js:165-168`). That a click on the player 1 or
  player 2 button calls `startTurn(1)` or `startTurn(2)` comes from the page
  markup, which is not part of this model; `Click(p)` stands for that call.
  A click on a disabled button does nothing.

### What the code does not do

- `startTurn` has no guard: it checks neither a running turn nor the
  connection (`js/battle.js:207-226`). Only the disabled buttons keep a
  second turn from starting. `BattleProofs.NeverTwoTurnsAtOnce` shows the
  buttons are enough, and `BattleProofs.UnguardedStartTurnOverlaps` shows
  that a direct second call leaves the first interval running.
- A lost connection does not end the turn. `handleDisconnection` only
  resets the link state, and the countdown runs on
  (`Kiosk.ConnectionLossLeavesMatch`).
- There is no reset. Retry reloads the page.
- Readings outside 30–250 are still sent to the page. The range check
  only chooses a console warning.
- An invalid port returns `false` without resetting the link state. Only
  a thrown error resets it.
- Chunks are not reassembled into lines. Each chunk is parsed on its own,
  so a BPM line that the stream cuts inside its number gives a reading of
  the leading digits only, at most a tenth of the real value
  (`Kiosk.CutPrintedBpm`). During a turn that cut-off number becomes the
  score (`Kiosk.SplitBpmLineScores`), so a winning 100 can be recorded as 1.

## Model

| member | source | states |
|---|---|---|
| Decimal.DigitValue | js/serial.js:224 | a digit character's value is below 10 |
| Decimal.DigitChar | sensors.c++:50 | the character printed for a digit is a digit whose value is that digit |
| Decimal.ToDecimal | sensors.c++:50 | `println(int)` gives a non-empty run of digits with no leading zero (except "0") |
| Decimal.ValueOfToDecimal | js/serial.js:224 | `parseInt` of a number's printed decimal form gives the number back |
| Decimal.ValuePositive | js/serial.js:224 | `parseInt` of digits that do not start with 0 is positive |
| Decimal.ValuePrefix | js/serial.js:224 | `parseInt` of the leading digits of a longer run is at most a tenth of the whole run's value |
| Decimal.DigitRunEnd | js/serial.js:222 | the greedy `\d+` stops at the end of the run: every character up to `k` is a digit and the one at `k` is not |
| BpmParser.SpaceRunEnd | js/serial.js:222 | `\s*` consumes a maximal run of whitespace |
| BpmParser.MatchAt | js/serial.js:222 | a match reported at `i` is a real match of `BPM:\s*(\d+)` (case-insensitive label, maximal runs) |
| BpmParser.MatchAtComplete | js/serial.js:222 | any match of the pattern at `i` is the one `MatchAt` reports, so the match is unique |
| BpmParser.MatchAtNone | js/serial.js:222 | when `MatchAt` finds nothing, no match starts at `i` |
| BpmParser.Search | js/serial.js:222 | `String.match` finds the leftmost match at or after `from`, and finds nothing only when there is none |
| BpmParser.Classify | js/serial.js:224-238 | a value produces an event exactly when it is positive; the event carries the value, and it is flagged out of range exactly when it is below 30 or above 250 |
| BpmParser.ParseBpm | js/serial.js:213-242 | empty data gives no event; any event carries the captured digits of a leftmost match, read in base 10, and is positive |
| BpmParser.ParseBpmLeftmost | js/serial.js:222-238 | given the leftmost match, the parser's answer is the classification of its digits |
| BpmParser.ParseBpmNoMatch | js/serial.js:239-241 | data with no `BPM:` match produces no event |
| LegacySerial.FirstDigit | real_serial.js:29 | finds the first digit at or after `from`, or reports that there is none |
| LegacySerial.ParseBpmLegacy | real_serial.js:28-34 | no event exactly when the data has no digit; otherwise the value of the first digit run, zero included |
| LegacySerial.ParseBpmLegacyFirstRun | real_serial.js:29-32 | the legacy parser reads exactly the first maximal digit run |
| LegacySerial.ParseBpmLegacyBareNumber | real_serial.js:29-32 | a bare printed number is read back unchanged |
| SensorFormat.NoLabelBeforeBpmLine | sensors.c++:45-46 | the `Signal:` line contains no match of the BPM pattern |
| SensorFormat.ParseSensorChunk | sensors.c++:45-50 | the current parser reads the sketch's two lines as the BPM value, never the signal value |
| SensorFormat.CutLineHead | js/serial.js:222-238 | a chunk holding `BPM: ` and any non-empty run of digits is read as those digits, classified |
| SensorFormat.CutLineTail | js/serial.js:222-241 | a chunk holding only digits (leading zeros included) and the line end produces no event |
| SensorFormat.SensorChunkEvent | sensors.c++:48-50 | a positive BPM line produces exactly one event carrying that BPM and the correct range flag |
| SensorFormat.LegacyReadsSignal | real_serial.js:29-32 | the legacy parser reads the same chunk as the signal value |
| SensorFormat.ParsersDisagree | real_serial.js:28-34 | on the sketch's chunk the two parsers report different numbers whenever the signal and the positive BPM differ |
| SerialLink.IncludesFrom | js/serial.js:140 | `String.includes`: true exactly when the needle occurs at some position at or after `from` |
| SerialLink.ClassifyError | js/serial.js:139-170 | each error kind is chosen exactly when its test holds and no earlier test does |
| SerialLink.Attempt | js/serial.js:80-174 | connected exactly when a port was picked, has a non-zero vendor id and opens; invalid port exactly when the vendor id is missing or 0; any thrown error is classified |
| SerialLink.ChunkEvents | js/serial.js:195-198 | a chunk raises at most one event, and raises one exactly when the parser finds a reading |
| SerialLink.LostCountAppend | js/serial.js:187-199 | the number of connection-lost events adds up over concatenated event lists |
| SerialLink.LoopLosesConnectionOnce | js/serial.js:187-210 | the read loop announces a lost connection exactly once when the reader ends or throws and never otherwise; when it does, that is the last event |
| SerialLink.LoopEventsAppend | js/serial.js:187-199 | while the reader keeps delivering text, the loop's events over two stretches are the events of each joined |
| SerialLink.LoopEventsAfterStop | js/serial.js:189-193 | nothing the reader returns after `done` or a throw has any effect |
| SerialLink.StopsInAppend | js/serial.js:187-199 | the loop stops in a joined sequence exactly when it stops in one of the parts |
| SerialLink.Link.constructor | js/serial.js:46-49 | the page starts disconnected, with no port and no reader |
| SerialLink.Link.HandleDisconnection | js/serial.js:60-77 | clears the connected flag, the port and the reader, and announces the loss once |
| SerialLink.Link.ReadChunks | js/serial.js:187-199 | reads chunks until the first result that is not text, publishing each chunk's events in order |
| SerialLink.Link.AttachReader | js/serial.js:180-182 | the part of `startSerialReading` before its first `await` takes the reader and changes nothing else |
| SerialLink.Link.ReadLoop | js/serial.js:187-210 | publishes the loop's events for the reader's results; the state is kept until `done` or a read error, after which the link is disconnected |
| SerialLink.Link.StartSerialReading | js/serial.js:177-211 | takes the reader and runs the loop: the events of the whole loop are published, the reader is held and the state kept until `done` or a read error, after which the link is disconnected |
| SerialLink.Link.ConnectSerial | js/serial.js:80-174 | the outcome is `Attempt`'s and no event is published before it returns; an invalid port leaves the state alone; a thrown error resets it; success returns connected, with the port open and the reader taken, because the read loop is started without `await` |
| SerialLink.Link.ConnectAndRead | js/serial.js:103-211 | a whole connection attempt: `connectSerial` returns, then the loop it started goes through the reader's results; on success the events are the loop's, and the link ends disconnected exactly when the reader stops |
| Battle.Init | js/battle.js:12-17 | the page starts with player 1 current, both scores 0, no outcome, player 1's button enabled and player 2's disabled, nothing recording, no timers and a 50-slot graph of zeros |
| Battle.Shift | js/battle.js:190-194 | `push` then `shift` keeps the length, moves every sample one slot left and puts the new reading last |
| Battle.OnBpm | js/battle.js:171-187 | the graph always moves; while recording only the active player's score becomes the reading; nothing else changes |
| Battle.StartTurn | js/battle.js:207-226 | makes the player active, starts recording, disables both buttons and starts a 20-second interval under `nextTimer`, which then moves on; when that id is unused (always, once ids stay below `nextTimer`) every older interval stays alive with its count |
| Battle.ClearInterval | js/battle.js:222 | removes the interval that `timerInterval` names; every other interval keeps its count and nothing else changes |
| Battle.DetermineWinner | js/battle.js:262-286 | each player wins exactly when their own score is at least 100; `anyWin` exactly when someone wins |
| Battle.EndTurn | js/battle.js:228-260 | stops recording and the latest interval and keeps the scores; after player 1 only player 2 may start; after player 2 the match is decided from the two scores; the current player, `timerInterval`, the next timer id and the graph are kept |
| Battle.FireTimer | js/battle.js:218-225 | one tick counts the firing interval down and changes nothing else; at zero the interval named by `timerInterval` is cleared whichever interval fired (an older firing interval stays, with its count lowered), recording stops with the scores kept, and `endTurn` hands over to player 2 or decides the match |
| Battle.Ticks | js/battle.js:218 | `n` firings of one interval |
| Battle.Bpms | js/battle.js:171 | one `bpmUpdate` event for each reading, in order |
| Battle.StoredOr | js/battle.js:19-24 | `getItem(key) \|\| fallback`: a missing or empty entry gives the fallback, anything else is kept |
| Battle.LoadProfile | js/battle.js:19-24 | a player's name, section and email, each read with its own fallback |
| Battle.StatusOf | js/battle.js:57 | the stored status is WIN exactly when the score is at least 100 |
| Battle.MatchLabel | js/battle.js:49 | the match label is player 1's name, " & ", then player 2's name |
| Battle.MatchRecords | js/battle.js:51-68 | two leaderboard entries, player 1 first, each with that player's details, score, status and the shared label |
| Battle.ResultButtons | js/battle.js:344-355 | the Photobooth button appears exactly when someone won, Retry exactly when nobody did, Home always |
| Battle.ActionOf | js/battle.js:357-368 | Photobooth and Home save and then go to their page; Retry reloads without saving |
| Battle.SaveOutcome | js/battle.js:32-109 | nothing happens unless both Firebase and the database are loaded; the page changes, to the chosen target, exactly when both writes succeed |
| BattleProofs.InitValid | js/battle.js:164-168 | the initial state satisfies the match invariant and is in the "player 1 ready" phase |
| BattleProofs.RunAppend | js/battle.js:171-260 | running two input sequences one after the other is running their concatenation |
| BattleProofs.StepValid | js/battle.js:207-260 | every input keeps the invariant and either stays in the current phase or moves to the next one |
| BattleProofs.RunValid | js/battle.js:207-260 | any input sequence keeps the invariant and never moves the phase backwards |
| BattleProofs.ValidIsSafe | js/battle.js:212-215 | in a valid state the two start buttons are never both enabled, neither is enabled while recording, at most one interval runs, and one runs exactly while recording |
| BattleProofs.NeverTwoTurnsAtOnce | js/battle.js:165-168 | from page load no input sequence enables both buttons, enables a button during a turn, or leaves two intervals running |
| BattleProofs.TurnOrder | js/battle.js:243-244 | a turn can only start from a ready phase, with player 1 first and player 2 second |
| BattleProofs.ClickWhileRecording | js/battle.js:212-215 | clicking either start button during a turn changes nothing |
| BattleProofs.FeedReadings | js/battle.js:171-194 | a run of readings slides the graph by that many samples, changes nothing but the graph and the active score, and leaves the last reading as the active player's score |
| BattleProofs.GraphIsWindow | js/battle.js:389 | after at least 50 readings the graph holds exactly the last 50 |
| BattleProofs.Countdown | js/battle.js:216-225 | before it runs out, each tick lowers the turn's remaining time by one and changes nothing else |
| BattleProofs.TurnExpires | js/battle.js:218-232 | when the time runs out the turn ends, the interval is gone, the phase advances, the scores and graph are kept, and further ticks of that timer do nothing |
| BattleProofs.TurnLastsTwentyTicks | js/battle.js:16 | a turn started by an enabled button is still recording after 19 ticks and stopped after 20 |
| BattleProofs.WholeMatch | js/battle.js:171-286 | a full match from page load ends decided, with each player's score equal to their last reading during their turn, or 0 when the turn had none |
| BattleProofs.LastSampleWinsExample | js/battle.js:181 | readings 72, 88 and 95 during player 1's turn leave a score of 95 |
| BattleProofs.DoubleWin | js/battle.js:274-276 | scores 105 and 110 are two wins and offer the photobooth |
| BattleProofs.RecordsAgreeWithOutcome | js/battle.js:57-65 | the statuses written to the leaderboard agree with the winner decided on screen |
| BattleProofs.UnguardedStartTurnOverlaps | js/battle.js:207-226 | from any state whose interval ids are below `nextTimer`, calling `startTurn` twice adds two intervals next to the older ones, and `timerInterval` names only the second |
| BattlePage.BattleScreen.constructor | js/battle.js:12-24 | the page state is `Battle.Init`, the graph array has 50 slots, and the profiles are read with their fallbacks |
| BattlePage.BattleScreen.UpdateGraph | js/battle.js:190-194 | shifts the graph array in place to `Battle.Shift` of its old contents |
| BattlePage.BattleScreen.OnBpmUpdate | js/battle.js:171-187 | the new page state is `Battle.OnBpm` of the old |
| BattlePage.BattleScreen.StartTurn | js/battle.js:207-226 | the new page state is `Battle.StartTurn` of the old |
| BattlePage.BattleScreen.ClickStart | js/battle.js:207-215 | a click on an enabled button starts that player's turn; on a disabled one nothing changes |
| BattlePage.BattleScreen.ClearTimerInterval | js/battle.js:222 | the new page state is `Battle.ClearInterval` of the old |
| BattlePage.BattleScreen.EndTurn | js/battle.js:228-260 | the new page state is `Battle.EndTurn` of the old |
| BattlePage.BattleScreen.Tick | js/battle.js:218-225 | the new page state is `Battle.Step` of the old for that tick |
| BattlePage.BattleScreen.SaveAndNavigate | js/battle.js:32-109 | the result is `Battle.SaveOutcome`'s; both entries are written only when the store is loaded; the result buttons stay disabled after navigating and are enabled again after a failed write |
| Kiosk.DeliverAppend | js/battle.js:171-187 | the page handles a joined list of events as the first list followed by the second |
| Kiosk.ConnectionLossLeavesMatch | js/serial.js:60-77 | after any chunks, the end of the stream or any read error leaves the match exactly as those chunks left it |
| Kiosk.SplitBpmLine | js/serial.js:195-197 | when a chunk boundary falls between the digits `h` and the digits `t` (either may start with 0), the loop publishes the reading `h` if it is not 0, and nothing else |
| Kiosk.CutPrintedBpm | js/serial.js:195-197 | cutting a printed BPM inside its number gives chunks that together are the printed line, and exactly one reading: the leading digits, positive and at most a tenth of the BPM |
| Kiosk.SplitBpmLineScores | js/battle.js:178-185 | during a turn, such a cut line sets the active player's score to the cut-off number and leaves the other score alone |
| Kiosk.SplitBpmLineExample | js/serial.js:222 | "BPM: 75" arriving as "BPM: 7" then "5\r\n" is the reading 7, and a winning "BPM: 100" arriving as "BPM: 1" then "00\r\n" is the reading 1, both flagged as out of range |
| Kiosk.SensorChunkScores | js/battle.js:171-187 | during a turn, one chunk from the sketch sets the active player's score to the printed BPM and leaves the other player's score alone |

`Battle.Step` and `Battle.Run` feed inputs to these functions one at a
time. `Kiosk.Deliver` hands link events to the match. `SerialLink.LoopEvents`
is the reading loop written as a function of the reader's results, with
`SerialLink.StopsIn` saying whether it leaves and `SerialLink.LostCount`
counting lost-connection events. `Decimal.Value` is `parseInt` on a run of
digits (`js/serial.js:224`, `real_serial.js:31`). `SensorFormat.SensorChunk`
is the text one loop of the sketch prints (`sensors.c++:45-50`). These
members are the reference definitions that the lemmas and methods above
are stated against, so they carry no contract of their own.

## Left out

- Web Serial setup: the baud rate, `TextDecoderStream`, `pipeTo` and `getReader` failing before the first read, and `releaseLock` throwing. The reader always starts, and releasing it is not an observable step.
- Chunk boundaries are arbitrary inputs: `results` may split the stream anywhere. Only the sketch's two lines arriving in one chunk and a BPM line cut inside its number have lemmas of their own.
- The `typeof data !== 'string'` branch of `parseBPM`. Values are strings by type, so only the empty-string branch remains.
- BpmParser.ParseBpm: `parseInt` loses precision above 2^53. The model reads digits as an unbounded integer.
- Console logging, status text, modal dialogs and their buttons, `showModal`/`closeModal`, `setActivePlayer`, timer and score display text, and the `WINS!`/`LOSES` label strings. These are display only.
- Showing and hiding buttons with `style.display`, including the connect button's handler (`js/battle.js:196-205`). That handler reveals the game whatever `connectSerial` returns.
- `window.isConnected`: it always equals the module's `isConnected`, so there is one field.
- Chart.js and its redraw. Only the 50 samples in `graphData` are modelled.
- Firestore: the `serverTimestamp` field, the collection name, and the contents of a failure message. Each write is a success flag, and the two writes run in parallel and are joined.
- `window.location` and page reload. These are the `Navigated`/`Reload` values.
- `saveToFirebase` (`js/battle.js:373-386`). Nothing calls it.
- `goToPhotobooth`, and the leaderboard, main, photobooth and index pages. They are not part of this model.
- The legacy connection code in `real_serial.js` other than its `parseBPM`.
- SerialLink.Link.ConnectAndRead: the read loop that `connectSerial` leaves running without `await` is run after `connectSerial` returns and before anything else happens. The kiosk's interleaving of reads with clicks and ticks is not modelled in the link.
- Real time and concurrency. Inputs are handled one at a time in the order given. The 1000 ms period of the interval is a `Tick` input.
- `endTurn`'s `typeof currentBPM` test. `currentBPM` is never a global visible to `battle.js`, so the score is always kept.
- The sketch's buzzer and analog signal. Only the printed text is modelled.
