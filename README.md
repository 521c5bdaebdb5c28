# Gaze-experiment control station — a Dafny model

This project models the decision logic of the control station of a gaze
experiment with a social robot, together with the sorting game it runs
beside and the logging server both talk to.

- **Gaze arbiter** (`GazeController`). Each tick it either keeps the running
  behaviour or picks a new one by fixed priority: Responding Joint Attention,
  gated by a 7000 ms cooldown; then Dynamic Gaze when a second face is seen;
  then Mutual Gaze; with nobody in front, the idle centre. A card reveal is
  ignored when its id repeats the last one. Otherwise it passes the reveal
  through the knowledge noise and may schedule an Initiating Joint Attention
  2000 ms later, re-checked when it fires. Every handled reveal emits exactly
  one `RobotsMove` log message. After each answered question the condition
  switches at random to a different one. The arrow keys are an operator
  override.
- **Control panel** (`UiHandler`). Seven toggles and their change listeners:
  - the three mutually exclusive conditions, each with its toggle profile;
  - the blocking rules while Carl is active, and the two exclusive
    knowledge levels;
  - the write-once record of the first condition;
  - the initial-state check.
- **Channels** (`Logging`, `Messaging`). The outbound log channel queues a
  message whenever the socket is not open or a send raises, and drains the
  queue from the front when the socket opens. Perception messages overwrite
  the shared context, with explicit defaults. Logging-server messages are
  routed to the arbiter.
- **Logging server** (`LogServer`). One partial record per card id is merged
  across `cardReveal`, `cardDropped` and `RobotsMove`. A record that becomes
  complete is mapped to a CSV row, with the renamed columns and the
  Carl-condition adjustment of the duration, and is then forgotten.
- **Game flow** (`GameFlow`). Participant-ID validation, the prompt between
  rounds, the bounded question selection of each round, the round start, the
  practice session and game over.

Stateful parts of the source are classes whose fields mirror the program's
variables, for example `GazeController.Controller`, `UiHandler.ControlPanel`,
`Logging.LoggingChannel`, `LogServer.Server` and `GameFlow.Game`. Each
method's `ensures` ties its new state to a pure function of its old state.
The properties are proved about those functions, as lemmas.

How the outside world enters the model:
- Random draws, clock readings, the result of a behaviour's `apply()`, and
  whether a transport `send` raises are all parameters.
- Timers become an explicit queue of pending reveals, plus a "fire" event.
- Parsed JSON is a map from keys to scalar `Values.Value`s. A missing
  property reads as `Null`.
- Python datetimes are `Time` values in milliseconds.

Where the code and its design description disagree, and wherever the code
behaves in a way that is easy to misread, the model follows the code:
- **Reveal de-duplication.** It remembers only the last handled card id
  (gcs/js/gaze-controller.js:148-152), so the reveals A, B, A log A twice
  (`GazeController.RevealDedupIsByLastIdOnly`). The card is not limited to
  one trigger.
- **Second-face defaults.** Missing second-face coordinates default to null,
  not 0.5 (gcs/js/messaging.js:40-41).
- **Flush order.** A send that raises during the flush re-queues its message
  at the back of the queue, so delivery after a failure is not FIFO; no
  message is lost (`Logging.FailedSendRequeuesAtBack`,
  `Logging.FlushDeliversEveryMessage`). Neither socket reconnects after a
  close.
- **Condition fallback.** The fallback to all three conditions
  (gcs/js/gaze-controller.js:274-279) cannot run, because removing the
  current condition from three always leaves two
  (`GazeController.CandidatesRemain`). With no current condition all three
  remain candidates anyway.
- **Unknown card ids on the server.**
  - Every truthy card id gets a record before the event dispatch
    (server.py:143-144). The branches for a drop or a robot move with an
    unknown id (server.py:223-227, 239-241) therefore cannot run, and
    `LogServer.Dispatch` requires the record to exist.
  - Any other event that carries a card id goes through the completion check
    and is not broadcast (`LogServer.OtherEventWithCardIdNotBroadcast`).
    Only messages without a card id reach the broadcast at server.py:262-272.
- **Python value details.**
  - A Python boolean counts as a number for the duration check
    (server.py:65, 84).
  - The `timestamp` a `RobotsMove` message carries is merged into the record,
    but the CSV cell holds the server's arrival time (server.py:54-55, 77).
  - A message field named `event_arrival_timestamp` overwrites the stored
    arrival time when the message is merged; the row then cannot be
    formatted and the record stays in memory.

## Model

| member | source | states |
|---|---|---|
| GazeController.FaceCount | gcs/js/gaze-controller.js:354 | the status face count is 2 exactly when a second face has an x coordinate, and 0 exactly when there is none and no user in front |
| GazeController.Tick | gcs/js/gaze-controller.js:62-132 | a running behaviour whose apply() reports it still runs keeps the tick, and nothing changes. Otherwise selection runs in the same tick. No user in front: no behaviour and the pupils are centred. Responding JA is chosen exactly when the user is present and Carl is off, RJA is on, the head is turned left or right, and 7000 ms have passed. Else Dynamic Gaze with two faces, else Mutual Gaze. The cooldown clock moves only when Responding JA starts, and then to now |
| GazeController.RespondingFollowsHead | gcs/js/gaze-controller.js:101-109 | the Responding JA chosen looks "left" exactly when the head is "Looking Left", and "right" exactly when it is "Looking Right" |
| GazeController.Controller.UpdateGaze | gcs/js/gaze-controller.js:62-132 | the controller's new state and the centring flag are those of Tick for the current context and toggles |
| GazeController.KnowledgeFactor | gcs/js/gaze-controller.js:174-184 | 0.8 when the 80 % toggle is on, whatever the 20 % toggle says; 0.2 when only the 20 % toggle is on; 1.0 otherwise |
| GazeController.Flip | gcs/js/gaze-controller.js:186 | the flipped direction always differs from the input: left and right swap, and anything else becomes "left" |
| GazeController.GazeDirection | gcs/js/gaze-controller.js:181-190 | the gaze differs from the revealed side exactly when IJA is triggered, a knowledge level below 1 is set and the draw exceeds it; it is then the flipped side |
| GazeController.RobotLabel | gcs/js/gaze-controller.js:176-179 | the Robot label is "Carl condition" whenever Carl is on (line 232); otherwise Ryan's label, then Ivan's, then "default" |
| GazeController.NoGazeReason | gcs/js/gaze-controller.js:200-201 | the reason is empty exactly when the gaze is triggered; otherwise it names Carl, or the IJA toggle being off |
| GazeController.RobotsMoveMessage | gcs/js/gaze-controller.js:227-235 | the log message has exactly the seven keys, event "RobotsMove", and the reveal's card id |
| GazeController.Reveal | gcs/js/gaze-controller.js:137-242 | an invalid reveal (no truthy cardId or side) or a repeat of the last id changes nothing and logs nothing. A handled reveal records its id, logs exactly one message, and leaves the behaviour and cooldown alone. It schedules one delayed IJA, due 2000 ms later, exactly when Carl is off and IJA is on |
| GazeController.RevealLogsRobotsMove | gcs/js/gaze-controller.js:200-238 | the logged gazeDecision is "none" with a non-empty reason when not triggered, and the gaze direction with an empty reason when triggered; Robot is "Carl condition" when Carl is on |
| GazeController.NoKnowledgeNeverMisdirects | gcs/js/gaze-controller.js:183-185 | with neither knowledge toggle the robot always gazes at the revealed side |
| GazeController.RevealTwiceIsIgnored | gcs/js/gaze-controller.js:147-152 | the same reveal handled twice in a row: the second one changes nothing and logs nothing |
| GazeController.RevealDedupIsByLastIdOnly | gcs/js/gaze-controller.js:148-152 | after reveals A and B, a second A is handled again and logged |
| GazeController.Controller.HandleCardRevealed | gcs/js/gaze-controller.js:137-242 | the controller's new state is Reveal's. Its message goes through the log channel's send, and with no message the channel is untouched |
| GazeController.FireTimer | gcs/js/gaze-controller.js:206-223 | the earliest pending IJA is consumed. It is skipped while an initiating or responding JA runs; otherwise it replaces the current behaviour with IJA in its direction. Nothing else changes |
| GazeController.FiredTimerLeavesOneJointAttention | gcs/js/gaze-controller.js:209-216 | after a timer fires, a joint attention is running, and a running Responding JA is never replaced |
| GazeController.Controller.FireScheduled | gcs/js/gaze-controller.js:206-223 | the timer callback leaves the state FireTimer describes |
| GazeController.KeyDown | gcs/js/gaze-controller.js:362-382 | the override is ignored when IJA is off, Carl is on, or a JA runs. Otherwise ArrowLeft and ArrowRight start IJA left and right, and any other key does nothing |
| GazeController.Controller.OnKeyDown | gcs/js/gaze-controller.js:362-382 | the keydown listener leaves the state KeyDown describes |
| GazeController.RespondingCooldownHolds | gcs/js/gaze-controller.js:101-109 | over any run of ticks, reveals, timer firings and key presses, the first Responding JA start is at least 7000 ms after the recorded one, and successive starts are at least 7000 ms apart |
| GazeController.CurrentCondition | gcs/js/gaze-controller.js:257-262 | the current condition is the first checked toggle in the order Ryan, Ivan, Carl, and none when none is checked |
| GazeController.Without | gcs/js/gaze-controller.js:266 | the filtered list holds exactly the conditions other than the current one |
| GazeController.CandidatesRemain | gcs/js/gaze-controller.js:265-279 | at least two candidates always remain, so the fallback never runs; with no current condition all three remain |
| GazeController.DrawIndex | gcs/js/gaze-controller.js:271 | floor(random * n) for a draw in [0, 1) is an index below n |
| GazeController.PickNext | gcs/js/gaze-controller.js:265-279 | the next condition is never the current one; how the draws are shared among the candidates is stated by NoCurrentConditionSplitsDrawsInThirds and OtherConditionsSplitDrawsInHalves |
| GazeController.NoCurrentConditionSplitsDrawsInThirds | gcs/js/gaze-controller.js:265-272 | with no current condition the draws in [0, 1/3), [1/3, 2/3) and [2/3, 1) pick Ryan, Ivan and Carl: each condition gets an equal share |
| GazeController.OtherConditionsSplitDrawsInHalves | gcs/js/gaze-controller.js:265-272 | with a current condition exactly the two other conditions remain; the draws in [0, 0.5) pick the first and those in [0.5, 1) the second, an equal share each |
| GazeController.QuestionCompletionSwitches | gcs/js/gaze-controller.js:253-283 | after a question the panel holds a different condition, takes on that condition's profile, and is consistent |
| GazeController.ActivateCondition | gcs/js/gaze-controller.js:288-309 | the condition's toggle is checked and its change listener runs |
| GazeController.HandleQuestionCompletion | gcs/js/gaze-controller.js:253-283 | the panel ends as after checking the toggle of PickNext of the current condition |
| GazeController.Context.constructor | gcs/js/gaze-controller.js:16-23 | the context starts with no user, the face at (0.5, 0.5), no second face and head direction "none" |
| GazeController.Controller.constructor | gcs/js/gaze-controller.js:28-30 | no behaviour, no handled card, cooldown clock at 0, nothing scheduled |
| Messaging.OrDefault | gcs/js/messaging.js:38-42 | a present non-null field is copied, and a missing or null one gives the default |
| Messaging.FaceDetectionUpdate | gcs/js/messaging.js:36-43 | a faceDetection message sets every context field: 0.5 for a missing face coordinate, null for a missing second face, "none" for a missing head direction. Any other message leaves the context unchanged |
| Messaging.FaceDetectionReplacesContext | gcs/js/messaging.js:36-42 | after a face detection the primary face and head direction are never null, and nothing of the previous context survives |
| Messaging.SecondFaceDecoded | gcs/js/messaging.js:40-41 | the arbiter sees a second face exactly when the message carries both second-face coordinates |
| Messaging.PerceptionChannel.OnMessage | gcs/js/messaging.js:29-49 | the shared context becomes FaceDetectionUpdate of its old value |
| Messaging.PerceptionChannel.Connect | gcs/js/messaging.js:21-23 | the perception handle is set |
| Messaging.PerceptionChannel.OnClose | gcs/js/messaging.js:55-58 | the perception handle is nulled |
| Messaging.RouteOf | gcs/js/messaging.js:84-110 | cardReveal goes to the reveal handler and cardDropped to the question-completion handler; anything else is a status report when it has a truthy status |
| Messaging.OnLoggingMessage | gcs/js/messaging.js:78-115 | a reveal changes only the controller and the log channel, as Reveal says. A dropped card changes only the panel, switching the condition. Anything else changes nothing |
| Logging.AfterSend | gcs/js/messaging.js:131-145 | a send on an open socket that does not raise reaches the wire; otherwise the message is appended to the queue; it is never dropped, and the socket is unchanged |
| Logging.LoggingChannel.Send | gcs/js/messaging.js:131-145 | the channel's new state is AfterSend's |
| Logging.FlushOrder | gcs/js/messaging.js:68-76 | the flush delivers as many messages as were queued |
| Logging.FlushDeliversEveryMessage | gcs/js/messaging.js:71-75 | whatever sends raise, the flush delivers every queued message exactly once (as multisets) |
| Logging.FlushKeepsFifoOrder | gcs/js/messaging.js:71-73 | with no failing send the queue is delivered in its FIFO order |
| Logging.FailedSendRequeuesAtBack | gcs/js/messaging.js:133-139 | a first send that raises puts its message behind the others |
| Logging.LoggingChannel.OnOpen | gcs/js/messaging.js:68-76 | fired on a connecting socket, it leaves the socket open, the queue is empty, and the wire gained exactly the flush order of the old queue |
| Logging.LoggingChannel.Connect | gcs/js/messaging.js:64-66 | a new socket is connecting, with nothing queued or sent |
| Logging.LoggingChannel.StartClosing | gcs/js/messaging.js:132 | only the ready state changes, to closing, which makes later sends queue |
| Logging.LoggingChannel.OnClose | gcs/js/messaging.js:121-124 | the handle is nulled and nothing else changes |
| Logging.SendAfterCloseQueues | gcs/js/messaging.js:140-144 | once the handle is null every send is queued and nothing reaches the wire |
| UiHandler.AfterChange | gcs/js/ui-handler.js:78-222 | the listeners keep a consistent panel consistent: at most one condition, never both knowledge levels, nothing enabled under Carl. Checking a condition makes any panel consistent |
| UiHandler.Listener | gcs/js/ui-handler.js:80-222 | a condition listener acts only when its toggle is checked, and then as ConditionChecked; the knowledge and joint-attention listeners change only toggles and never check one (their exact rules: KnowledgeChange, JointAttentionChange) |
| UiHandler.ConditionChecked | gcs/js/ui-handler.js:129-143 | a checked condition hides the prompt and leaves its consistent profile: Ryan with IJA and 80 %, Ivan with IJA and 20 %, Carl with nothing else. The first condition is recorded only when none is |
| UiHandler.ConditionChange | gcs/js/ui-handler.js:126-222 | checking Ryan, Ivan or Carl applies that condition's profile (lines 137-143, 170-176, 203-209) and hides the prompt; unchecking one changes only that toggle |
| UiHandler.InitialConditionWriteOnce | gcs/js/ui-handler.js:131-136 | initialCondition and conditionSequence are written only while no condition is recorded, and then to the newly checked condition |
| UiHandler.KnowledgeChange | gcs/js/ui-handler.js:80-99 | checking a knowledge level clears the other; while Carl is on the level is itself unchecked; no other toggle changes |
| UiHandler.JointAttentionChange | gcs/js/ui-handler.js:104-116 | a joint-attention toggle cannot stay checked while Carl is; otherwise its change is kept as it is |
| UiHandler.Initialize | gcs/js/ui-handler.js:224-247 | with no condition checked the prompt is shown. Otherwise it is hidden, and an unrecorded condition is recorded and its profile reapplied |
| UiHandler.ControlPanel.constructor | gcs/js/ui-handler.js:224-247 | the panel loads with the restored toggles and no recorded condition, then runs the initial-state check |
| UiHandler.ControlPanel.Change | gcs/js/ui-handler.js:78-222 | a click leaves the panel as AfterChange says |
| UiHandler.ControlPanel.SetChecked | gcs/js/gaze-controller.js:302 | only the one toggle changes, to the given value; the recorded condition and the prompt are untouched |
| UiHandler.ControlPanel.Dispatch | gcs/js/ui-handler.js:78-222 | the toggle's change listener runs on the current state |
| UiHandler.ControlPanel.KnowledgeListener | gcs/js/ui-handler.js:80-99 | the knowledge listener leaves the state Listener describes |
| UiHandler.ControlPanel.JointAttentionListener | gcs/js/ui-handler.js:105-116 | the joint-attention listener leaves the state Listener describes |
| UiHandler.ControlPanel.ConditionListener | gcs/js/ui-handler.js:126-222 | the condition listener leaves the state Listener describes |
| LogServer.HeaderListsEveryColumn | server.py:10-14 | the header lists each of the eleven columns exactly once |
| LogServer.RecordComplete | server.py:116-122 | a record is complete exactly when all eight required keys are present |
| Values.Truthy | server.py:143 | the values that fail `if x` / `if (x)` are exactly null, false, zero and the empty string |
| LogServer.FinalDuration | server.py:60-69 | the duration is reduced by 2.0 exactly when Robot is "Carl condition" and the duration is numeric; otherwise it is unchanged |
| LogServer.SourceKey | server.py:76-92 | correct_answer reads answer, participants_side_choice reads side_choice_raw, correct_side reads side, and every other column reads its own header name |
| LogServer.DurationCell | server.py:82-87 | a numeric duration gives a number and anything else a blank cell |
| LogServer.Cell | server.py:75-92 | the timestamp column holds the arrival time and the duration column the duration cell; every other column copies its source key, and a missing key gives the empty string |
| LogServer.Stamp | server.py:54 | the arrival time stored in the record, or the current time when it has none |
| LogServer.CombinedRow | server.py:48-92 | a row exists exactly when the arrival time is a datetime, and then it has a cell for every column |
| LogServer.CombinedRowRenames | server.py:78-89 | the three renamed columns read answer, side_choice_raw and side, and a missing key becomes the empty string |
| LogServer.CombinedRowColumns | server.py:74-92 | the timestamp column holds the arrival time, every other column reads the key of its header name, and a non-numeric duration is blank |
| LogServer.CarlDurationAdjusted | server.py:64-66 | a numeric duration of a Carl-condition record is written two seconds shorter |
| LogServer.WriteCombinedRecord | server.py:48-92 | the loop over the header builds exactly CombinedRow's row |
| LogServer.Prelude | server.py:139-150 | a truthy card id gets a record if it had none, stamped with the arrival time and the non-empty participant; every other record is unchanged |
| LogServer.Dispatch | server.py:153-241 | a card event without a card id is refused with an error reply and changes nothing; a reveal never reaches the completion check; the checked records keep their key set |
| LogServer.DropMerge | server.py:188-189 | a drop copies side_choice to side_choice_raw and merges the message into the record as dict.update does: the message's fields win and the record's other fields stay |
| LogServer.Completion | server.py:246-272 | a row is written exactly when the card's record is complete and its arrival time is a datetime, and the record is then removed; without a record the message is broadcast |
| LogServer.Handle | server.py:128-272 | a row is only ever written for the message's own card, which is then forgotten; every other card's record is untouched |
| LogServer.RevealStoresAndNeverWrites | server.py:153-180 | a reveal stores its time, side and answer, is relayed and acknowledged, and never writes a row |
| LogServer.DropStoresMoveDuration | server.py:183-199 | a drop stores the reveal-to-drop time in seconds, or None when the card was never revealed |
| LogServer.MissingCardIdRejected | server.py:177-238 | a reveal, drop or robot move without a card id is refused with an error and leaves the records unchanged |
| LogServer.CompleteRecordWrittenOnce | server.py:232-253 | a robot move that completes its record writes it, removes it, and replies "combined record logged" |
| LogServer.OtherEventWithCardIdNotBroadcast | server.py:246-264 | another event with a card id goes through the completion check and is not broadcast |
| LogServer.OtherMessageBroadcast | server.py:262-272 | a message with neither a card id nor a card event is broadcast and changes nothing |
| LogServer.Server.constructor | server.py:17 | the server starts with no records and no rows |
| LogServer.Server.HandleMessage | server.py:128-272 | the records, the appended rows, the reply, the relaying and the failure are those of Handle |
| LogServer.Server.Prepare | server.py:139-150 | the records become Prelude's |
| LogServer.Server.RevealMessage | server.py:153-180 | the records and the reply are those of Dispatch for a reveal |
| LogServer.Server.DropMessage | server.py:183-222 | the records, the relaying and whether the completion check follows are those of Dispatch for a drop |
| LogServer.Server.CheckCompletion | server.py:246-257 | the records, the appended row and the reply are those of Completion |
| GameFlow.TrimStart | sortingGame/js/gameFlow.js:36 | the result is a suffix of the input that does not start with white space |
| GameFlow.TrimEnd | sortingGame/js/gameFlow.js:36 | the result is a prefix of the input that does not end with white space |
| GameFlow.TrimStartCutsWhiteSpace | sortingGame/js/gameFlow.js:36 | what TrimStart cuts is white space |
| GameFlow.TrimEndCutsWhiteSpace | sortingGame/js/gameFlow.js:36 | what TrimEnd cuts is white space |
| GameFlow.Trim | sortingGame/js/gameFlow.js:36 | a non-empty trimmed ID starts and ends with a character that is not white space |
| GameFlow.TrimIsSlice | sortingGame/js/gameFlow.js:36 | the trimmed text is a contiguous piece of the input |
| GameFlow.TrimCutsTrailingWhiteSpace | sortingGame/js/gameFlow.js:36 | everything after the trimmed text is white space |
| GameFlow.TrimLeavesTrimmed | sortingGame/js/gameFlow.js:36 | text without white space at either end is its own trim |
| GameFlow.TrimIdempotent | sortingGame/js/gameFlow.js:36 | trimming twice is trimming once |
| GameFlow.CheckId | sortingGame/js/gameFlow.js:35-47 | the input is rejected as empty exactly when it trims to "". It is rejected as invalid exactly when the trimmed text has a character outside [a-zA-Z0-9_-]. An accepted ID is the non-empty trimmed text over that alphabet |
| GameFlow.AcceptedIdsAreStable | sortingGame/js/gameFlow.js:43-49 | every non-empty string over [a-zA-Z0-9_-] is accepted unchanged |
| GameFlow.CheckSeesOnlyTrimmed | sortingGame/js/gameFlow.js:35-47 | the decision depends only on the trimmed input |
| GameFlow.LeadingSpaceIgnored | sortingGame/js/gameFlow.js:36 | white space in front of the input does not change the decision |
| GameFlow.TrailingSpaceIgnored | sortingGame/js/gameFlow.js:36 | white space after the input does not change the decision |
| GameFlow.ParticipantSetOnlyWhenAccepted | sortingGame/js/gameFlow.js:35-55 | an accepted ID sets the participant to the trimmed input and clears the error. An empty or invalid ID only sets its error message, and the participant is unchanged |
| GameFlow.SubmitId | sortingGame/js/gameFlow.js:35-56 | the error text is cleared exactly when the ID is accepted; a rejected ID leaves the participant and the modal as they were (the full outcome: ParticipantSetOnlyWhenAccepted) |
| GameFlow.GameOver | sortingGame/js/gameFlow.js:243-280 | game over sets round 4, locks the input, ends the practice session and shows the final modal; the participant and messages are kept |
| GameFlow.InitialGame | sortingGame/js/gameFlow.js:7-30 | the game starts before round 1 with the ID prompt shown, no participant, no error, unlocked input, and nothing sent |
| GameFlow.NextPhase | sortingGame/js/gameFlow.js:62-93 | round 0 offers round 1, or asks for a reload when it has no questions. Rounds 1 and 2 offer the next round, or an error that ends the game. Round 3 or later ends the game. The participant is never changed |
| GameFlow.PrepareSelectsBoundedSubset | sortingGame/js/gameFlow.js:101-125 | preparation fails exactly when the round has no questions or none are asked per round. On success it selects between 1 and QUESTIONS_PER_ROUND of the round's questions, as many as exist up to that bound, none twice, and resets the index to 0 |
| GameFlow.Prepare | sortingGame/js/gameFlow.js:101-125 | a failure shows the missing-questions error that ends the game; a success resets the index and selects at least one question; nothing else changes (the selection's bounds: PrepareSelectsBoundedSubset) |
| GameFlow.StartRoundMessage | sortingGame/js/gameFlow.js:166-174 | the message names the event startRound, the participant and the round |
| GameFlow.BeginRound | sortingGame/js/gameFlow.js:131-180 | startRound always leaves the practice session and keeps the participant and the practice questions (the full outcome: StartRoundOutcome) |
| GameFlow.Launch | sortingGame/js/gameFlow.js:143-177 | the round becomes r with zeroed counters and index, unlocked input and no revealed card, the prepared questions kept; exactly one startRound message is sent, and only when r > 1 |
| GameFlow.StartRoundOutcome | sortingGame/js/gameFlow.js:131-180 | a failed preparation returns before the round, the counters, the lock and the messages change. A successful one starts round r with zeroed counters and index, unlocked input and the prepared questions. It sends the startRound message only when r > 1 |
| GameFlow.StartTestOutcome | sortingGame/js/gameFlow.js:185-228 | without practice questions nothing changes. Otherwise the practice session starts with zeroed counters and indices; questionsThisRound is the reshuffled practice questions; the round is kept |
| GameFlow.BeginTest | sortingGame/js/gameFlow.js:185-228 | without practice questions nothing changes; otherwise the practice session runs on the reshuffled practice questions; the round, participant and messages are kept |
| GameFlow.RoundsAdvanceToGameOver | sortingGame/js/gameFlow.js:62-93 | after starting round 1 or 2 the next prompt offers the following round; after round 3 the game is over |
| GameFlow.Game.HandleIdSubmit | sortingGame/js/gameFlow.js:35-56 | the game's new state is SubmitId's |
| GameFlow.Game.TriggerNextPhaseModal | sortingGame/js/gameFlow.js:62-93 | the game's new state is NextPhase's |
| GameFlow.Game.PrepareRoundQuestions | sortingGame/js/gameFlow.js:101-125 | the game's new state and the success flag are Prepare's |
| GameFlow.Game.StartRound | sortingGame/js/gameFlow.js:131-180 | the game's new state is BeginRound's |
| GameFlow.Game.LaunchRound | sortingGame/js/gameFlow.js:143-177 | the state changes after a successful preparation are Launch's |
| GameFlow.Game.StartTestSession | sortingGame/js/gameFlow.js:185-228 | the game's new state is BeginTest's |
| GameFlow.Game.HandleGameOver | sortingGame/js/gameFlow.js:243-280 | the game's new state is GameOver's |

## Left out

- Rendering: eye styling, background images, the collapsible panel, modal
  texts and buttons, `setPupilTransform` (apart from the `centred` flag of
  a tick) and the status line except its face count. These are DOM side
  effects.
- `startGazeLoop` and its 100 ms and 50 ms timers. A tick is one call of
  `UpdateGaze`. The `setTimeout(..., 0)` default-style checks in the
  condition listeners only restyle the page.
- Behaviour internals. `MutualGaze`, `dynamicGaze`, `InitiatingJointAttention`
  and `RespondingJointAttention` are defined in gaze-behaviors.js, which is
  not part of this model. `apply()` is the `stillRunning` parameter. The
  behaviour's first `apply()` after selection and the try/catch around
  constructing the delayed IJA are not modelled.
- GazeController.FireTimer: the 2000 ms delay is recorded in each pending
  entry's `dueAt`, but firing takes the earliest entry without comparing it
  with a clock. Equal delays make the timers fire in scheduling order.
- Randomness: `Math.random()` is a parameter in [0, 1), and `shuffleArray`
  is any permutation of the round's questions.
- Socket set-up, `onerror` handlers, the server's connection set, and the
  forwarding loops. Forwarding is one `relayed` flag. The perception channel
  keeps no delivery state after close.
- Logging.FlushOrder: a flush whose sends all keep raising never ends in
  the source. The model bounds it with a finite list of raising attempts,
  after which every send succeeds.
- Server file I/O: file creation, the header checks (`initialize_csv_file`)
  and the append. Written rows are collected in `csvRows`.
- Cell formatting: the timestamp cell keeps the `Time` value rather than
  its ISO text, the duration keeps its number rather than the `.3f` text,
  and `None` is kept in the cell rather than written as `''`.
- A drop whose stored reveal timestamp is truthy but not a datetime makes
  the subtraction raise in the source; the model records that message as
  failed, with the merged record kept, and does not model the exception.
- JSON parse errors, non-object messages, arrays and nested objects as field
  values, and Python's `1 == True` key equality. A message is a flat map of
  scalars with structural key equality.
- The JSON text of the replies: a reply is a `LogServer.Reply` value, so the
  formatting of a non-string event inside the "stored; waiting" reply is
  not modelled.
- The 1500 ms retry and the "No practice questions" text of
  `startTestSession` when there are no practice questions.
- The game's globals are declared in files outside this model (`initGame`,
  `loadCSVQuestions` and the DOM helpers are not part of it). Their start
  values are those in `GameFlow.InitialGame`. `QUESTIONS_PER_ROUND` is the
  constant `questionsPerRound`.
- `advanceToNextRound` only calls `triggerNextPhaseModal`, which is modelled.
- In the practice session the source makes `questionsThisRound` and
  `testQuestions` the same array. The model gives them equal values and
  does not model the aliasing.
- `sendMessage` is assumed to exist, so starting round 2 or 3 always sends
  its message. `sendGCSLogMessage`, `handleCardRevealed` and
  `handleQuestionCompletion` are likewise assumed defined; their
  "function not found" branches only log.
- Console logging, including the diagnostic messages of every handler.
