# Rock-paper-scissors gesture game: turn synchronization and round state machine

This project is a Dafny model of the core of a webcam rock-paper-scissors game. It also contains proofs about that model.

In the game, a hand detector delivers one set of hand landmarks per camera frame. The core turns that stream into discrete game events:

- **Game logic.** `GameLogic.update` is a per-frame state machine with the states IDLE, COUNTDOWN, ROUND_ACTIVE, ROUND_RESULT and GAME_OVER.
  - A thumb-up held for 2 seconds starts a game.
  - A thumb-down held for 2 seconds quits it. This quit check runs first in every in-game state.
  - A thumb-up held for 2 seconds on the game-over screen resets everything.
  - The countdown and the result display last 3 seconds each.
- **Synchronizers.** They read the player's move from the hand.
  - `RoundSynchronizer` (src/core) counts half-cycles of the wrist's vertical shake (SHAKING). It fires once the wrist has been still for `still_time`. It then collects classifier readings in a bounded window (LOCKING) and locks the move that reaches the consensus count.
  - The older `GameSyncController` counts two swings, each a wrist y more than the threshold above the smallest y seen (image coordinates, y grows downward). It then waits for one reading to be held for 0.8 seconds.
- **Computer strategy.** `ResearchBasedStrategy` picks the computer's move:
  - it counters a player who repeated one move three times;
  - otherwise, it answers from the previous round only.
- **Controllers.** They pick the right hand over the left. They expose the logic's scores, history and state.
- **Visualizer.** It maps normalised landmarks to pixels and computes the bounding box.

The repository contains two generations of the game, and both are modelled:

- `src/core/...`: the Qt front-end version, with UI events and the shake synchronizer;
- `game_logic/...` with `synchronizer.py`: the older OpenCV version, with no countdown and the swing synchronizer.

## How the model is built

- Every stateful Python class is a Dafny `class` with the same fields. Its methods carry `modifies` clauses.
- A pure step function specifies each method:
  - `SyncStep` for the shake synchronizer;
  - `SwingStep` for the swing synchronizer;
  - `LogicStep` for the src/core game logic, with `Dispatch` as its handler table;
  - `LegacyStep` for the older game logic.
- The method's `ensures` clause states that the new state (read through `State()` or `Snapshot()`) equals the step function applied to the old state. The behavioural properties are lemmas about the step functions.
- Each handler of the Python class is a block method with its own step function, for example `HandleIdleFrame` with `HandleIdle`.
- The wall clock is replaced by explicit inputs. `time.time()` becomes a `now: real` input. The synchronizer's timestamp `t` is already a parameter in the source.
- The random first move of the strategy is a `draw: Move` input.
- The gesture classifier is an oracle: a datatype of two total functions, `handDirection(landmarks)` and `handMove(side, landmarks)`.
- The UI bridge's emits in src/core/game_logic.py become an `events` sequence that each handler appends to.
- Python floats are modelled as Dafny `real`s. Python's `int()` on a float truncates toward zero; `Trunc` models this.

### Notes on the code's behaviour

The model follows the code in each of these cases:

- **The still timer.** `_still_start_t` is set once and is not cleared when the wrist moves again during SHAKING (only leaving LOCKING clears it), so the still time need not be continuous. `RoundSyncProperties.StillTimerSurvivesMotion` states this.
- **The strategy's lookback.** src/core/strategies.py answers the previous round, and before that it counters a player move repeated over the last three rounds (or over every round when fewer than three were played). `Strategies.RepeatedMoveIsCountered` states this.
- **Tie-breaking in the vote.** A tie in the vote is resolved by `max()`, which picks the move first inserted into the frequency dictionary. It can lock a tied move when the consensus is at most half the window. With the defaults (5 of 7) no tie can reach the consensus. `RoundSync.MajorityLockIsUnique` proves the general form of this.
- **The round counter.** The counter in src/core is incremented when a countdown ends, not when a result ends. The older logic increments it when a round is played.

## Model

| member | source | states |
|---|---|---|
| Domain.EvaluateRound | domain.py:36-40 | The outcome is a draw exactly when the two moves are equal |
| Domain.DrawOnEqualMoves | domain.py:37-38 | Equal moves always give a draw |
| Domain.PlayerWinsExactlyWhenBeats | domain.py:40 | For different moves, the player wins exactly when `MOVE_BEATS[player]` is the computer's move; otherwise the computer wins |
| Domain.BeatsIsThreeCycle | domain.py:30-34 | `MOVE_BEATS` is a 3-cycle: no move beats itself, it is injective, applying it three times is the identity, and `MOVE_LOSES` is its inverse |
| Domain.Antisymmetric | domain.py:36-40 | Swapping the players swaps the winner and keeps a draw |
| Domain.ExactlyOneReplyPerOutcome | domain.py:36-40 | For each player move and each outcome, exactly one computer move produces that outcome |
| Domain.LosesTo | src/core/strategies.py:28 | `MOVE_LOSES[m]` is the move that `MOVE_BEATS` maps to `m`, that is, the move that beats `m` |
| Landmarks.DirectionOf | src/core/game_logic.py:72 | With no landmarks there is no thumb direction; otherwise it is the classifier's reading |
| GameStates.GestureProgress | src/core/game_logic.py:222-228 | Progress is 0 with no gesture timer; otherwise it lies in [0, 1], is 1 exactly when the hold duration has elapsed, and before that is the elapsed fraction of the hold |
| Strategies.NaiveSelectMove | src/core/strategies.py:10-15 | With an empty history the naive strategy returns the random first move; with a non-empty history it returns nothing |
| Strategies.PreviousRound | src/core/strategies.py:37-38 | The previous round is the last record of the history |
| Strategies.ResearchSelectMove | src/core/strategies.py:20-35 | An empty history takes the random first move; otherwise the reply is the move beating the player's last move, the move the computer's last move beats (`MOVE_BEATS[previous computer move]`), the player's last move, or a random move |
| Strategies.PlayerMoves | src/core/strategies.py:40-41 | One player move per round, in history order |
| Strategies.LastThreeMoves | src/core/strategies.py:25 | The last `min(3, n)` player moves, in order, aligned with the end of the history |
| Strategies.AreMovesSameIff | src/core/strategies.py:43-44 | A move list is "all the same" exactly when it is non-empty and every entry equals the first |
| Strategies.EmptyHistoryDraws | src/core/strategies.py:21-22 | With no history the research strategy plays its random first move |
| Strategies.RepeatedMoveIsCountered | src/core/strategies.py:27-28 | When the last (up to three) player moves are all equal, the reply is `MOVE_LOSES` of that move, which beats the player's move |
| Strategies.SameMovesAreRepeated | src/core/strategies.py:25-27 | The "last three moves are the same" test implies the repeated-move condition of the model |
| Strategies.FirstReplyCountersOpening | src/core/strategies.py:24-28 | After a single round, the reply always counters the player's opening move, whatever its outcome |
| Strategies.ReplyWithoutRepetition | src/core/strategies.py:30-35 | Without a repetition: after a player win the reply is `MOVE_BEATS[previous computer move]`; after a computer win it repeats the player's previous move; after a draw it is the random move |
| Strategies.DrawUsedOnlyOnEmptyOrDraw | src/core/strategies.py:20-35 | The random draw can change the reply only when the history is empty or the last round was a draw |
| Strategies.DependsOnlyOnRecentRounds | src/core/strategies.py:24-25 | Two histories with the same last round and the same last three player moves get the same reply |
| HandSelection.SelectPrimaryHand | src/core/game_controller.py:78-82 | The right hand is chosen if present, else the left, else none; a chosen hand is the detector's entry for its label |
| HandSelection.LeftOnlyWithoutRight | game_logic/game_controller.py:40-44 | The left hand is chosen exactly when there is a left and no right hand |
| HandSelection.RightHandDecides | src/core/game_controller.py:79-80 | With a right hand present, adding, changing or removing the left hand changes nothing |
| HandSelection.OtherLabelsIgnored | src/core/game_controller.py:78-82 | Labels other than "Right" and "Left" never affect the choice |
| Visualizer.Trunc | visualizer.py:50-51 | Truncation toward zero: the floor for non-negative values, and within one unit of the value on the side of zero for negative ones |
| Visualizer.ToPixelPoints | visualizer.py:43-54 | One pixel per landmark, in order, each the (mirrored if asked) truncated scaling of the landmark by `width - 1` and `height - 1` |
| Visualizer.PixelInImage | visualizer.py:47-51 | A landmark inside the unit square lands on a pixel inside the image, mirrored or not |
| Visualizer.ScaledPixelInRange | visualizer.py:50-51 | Scaling a coordinate in [0, 1] by `size - 1` and truncating gives a value in `[0, size - 1]` |
| Visualizer.MirrorFlipsX | visualizer.py:47-48 | Mirroring is the same as replacing `x` by `1 - x`, and it leaves `y` unchanged |
| Visualizer.MinOf | visualizer.py:60 | `min` returns an element that is no larger than any element |
| Visualizer.MaxOf | visualizer.py:60 | `max` returns an element that is no smaller than any element |
| Visualizer.Xs | visualizer.py:58 | The x coordinates of the points, in order |
| Visualizer.Ys | visualizer.py:59 | The y coordinates of the points, in order |
| Visualizer.BoundingBox | visualizer.py:57-60 | The box contains every point and each of its four sides is attained by some point |
| Visualizer.NonEmptyHands | visualizer.py:21-22 | Keeps exactly the hands that have points, with their multiplicities (the multiset of the input without empty hands); a single hand is kept exactly when it has points |
| Visualizer.NonEmptyHandsAppend | visualizer.py:16-22 | Filtering a concatenation filters each part in turn, so the kept hands stay in input order |
| Visualizer.BoxesOf | visualizer.py:24 | One box per hand |
| Visualizer.BoxesOfIndex | visualizer.py:24 | The i-th box is the bounding box of the i-th hand |
| Visualizer.RenderedBoxes | visualizer.py:16-25 | The boxes drawn are the bounding boxes of the hands with points, one per such hand and in order; at most one box per hand, and exactly one per hand when no hand has an empty landmark list |
| RoundSync.Sign | src/core/round_synchronizer.py:62-64 | The direction is 1, -1 or 0 as the velocity is positive, negative or zero |
| RoundSync.PushBounded | src/core/round_synchronizer.py:95-96 | Appending to the bounded window keeps at most `move_window` entries: the newest suffix of the old window followed by the new reading |
| RoundSync.StatusOf | src/core/round_synchronizer.py:112-116 | The status reports the phase and the half-cycle count; its progress is `min(half_cycles / max(min_half_cycles, 1), 1.0)`, so it lies in [0, 1] and is 1 exactly when the count has reached `max(min_half_cycles, 1)` |
| RoundSync.ArgMaxFirstIsFirstMaximum | src/core/round_synchronizer.py:126 | `max` over the frequency items picks a key with the largest count, and no key inserted before it has an equal count |
| RoundSync.PluralityIsMaximal | src/core/round_synchronizer.py:122-126 | The best move occurs in the window and no move occurs more often |
| RoundSync.LockDecision | src/core/round_synchronizer.py:118-129 | Nothing is locked before the window is full; a locked move reaches the consensus |
| RoundSync.LockDecisionCorrect | src/core/round_synchronizer.py:118-129 | A move is locked exactly when the window is full and some move reaches the consensus; the locked move is in the window, reaches the consensus and is a plurality |
| RoundSync.MajorityLockIsUnique | src/core/round_synchronizer.py:118-129 | When the consensus exceeds half the window, a full window in which `m` reaches the consensus locks exactly `m` |
| RoundSync.Tally | src/core/round_synchronizer.py:122-124 | The frequency dictionary's keys are the distinct readings in first-seen order, and each value is that reading's count |
| RoundSync.FirstMaximum | src/core/round_synchronizer.py:126 | The loop returns the first key, in insertion order, with the largest count |
| RoundSync.SyncStep | src/core/round_synchronizer.py:33-110 | A frame without landmarks changes nothing; a returned move comes with the fully reset state; any other frame with landmarks either resets the state or records its time as the previous sample's |
| RoundSync.MovingStep | src/core/round_synchronizer.py:46-110 | A returned move comes with the reset state; otherwise the state is reset (shake timeout) or the sample's time is recorded |
| RoundSync.RoundSynchronizer.constructor | src/core/round_synchronizer.py:8-28 | The tuning values are stored (defaults 4, 0.035, 0.30, 0.18, 7, 5 and 2.4) and the working state is the reset state |
| RoundSync.RoundSynchronizer.ResetInternal | src/core/round_synchronizer.py:131-144 | Every working field returns to its initial value and the window is emptied |
| RoundSync.RoundSynchronizer.Reset | src/core/round_synchronizer.py:30-31 | `reset` leaves the synchronizer in the reset state, with its invariant |
| RoundSync.RoundSynchronizer.Status | src/core/round_synchronizer.py:112-116 | `status()` is the status of the current state |
| RoundSync.RoundSynchronizer.TryLock | src/core/round_synchronizer.py:118-129 | The method returns the lock decision on the current window: nothing while the window is short, else the plurality move if it reaches the consensus |
| RoundSync.RoundSynchronizer.Update | src/core/round_synchronizer.py:33-110 | The locked move and the new state are those of `SyncStep`, the invariant is kept, and the returned status is that of the new state |
| RoundSync.RoundSynchronizer.Sample | src/core/round_synchronizer.py:38-110 | The body of `update` after the landmark check follows `SyncStep` |
| RoundSync.RoundSynchronizer.Advance | src/core/round_synchronizer.py:50-110 | From the second sample on, the frame follows `MovingStep`: begin, time out, shake, then lock or stamp |
| RoundSync.RoundSynchronizer.StartShaking | src/core/round_synchronizer.py:50-54 | WAITING becomes SHAKING, with the shake timer, extremum and direction set; other phases are unchanged |
| RoundSync.RoundSynchronizer.ShakeFrame | src/core/round_synchronizer.py:61-91 | The SHAKING branch runs only in SHAKING and leaves the vote window unchanged |
| RoundSync.RoundSynchronizer.TrackMotion | src/core/round_synchronizer.py:62-91 | One SHAKING step: extremum, half-cycle count, last direction and still timer, as in `TrackShake` |
| RoundSync.RoundSynchronizer.TrackExtremum | src/core/round_synchronizer.py:66-72 | The extremum starts at the wrist y; after that it rises for a non-negative direction and falls for a non-positive one |
| RoundSync.RoundSynchronizer.CountReversal | src/core/round_synchronizer.py:74-81 | A direction reversal whose amplitude from the pivot reaches `min_amplitude` counts one half-cycle and moves the pivot |
| RoundSync.RoundSynchronizer.CheckStillness | src/core/round_synchronizer.py:86-91 | Once enough half-cycles are counted, a slow wrist starts the still timer or, after `still_time`, enters LOCKING |
| RoundSync.RoundSynchronizer.SettleFrame | src/core/round_synchronizer.py:93-110 | The LOCKING branch and the final time and wrist-y update follow `Settle` |
| RoundSync.RoundSynchronizer.Vote | src/core/round_synchronizer.py:94-106 | A reading is pushed into the window; a lock resets the synchronizer; fast motion drops back to SHAKING with an empty window |
| RoundSync.StepPreservesInvariant | src/core/round_synchronizer.py:33-110 | `update` keeps the state invariant: window within capacity, votes only while LOCKING, a clean WAITING state, and LOCKING only after enough half-cycles and a still timer |
| RoundSyncProperties.TrackShakeFacts | src/core/round_synchronizer.py:61-91 | A SHAKING step leaves the window and timers alone, adds at most one half-cycle (only on a large enough reversal), and enters LOCKING only after enough half-cycles and `still_time` of slowness; it never clears a running still timer |
| RoundSyncProperties.LockStepFacts | src/core/round_synchronizer.py:94-106 | A LOCKING step returns the lock decision on the pushed window; a lock resets, and no lock either keeps the new window or, on fast motion, returns to SHAKING with an empty window |
| RoundSyncProperties.ResetStateIsWaiting | src/core/round_synchronizer.py:131-144 | The reset state satisfies the invariant and is WAITING, with no half-cycles, no last sample and an empty window |
| RoundSyncProperties.NoLandmarksChangesNothing | src/core/round_synchronizer.py:34-36 | A frame without landmarks returns no move and leaves the state unchanged, because the reset there is disabled |
| RoundSyncProperties.FirstSampleOnlyRecords | src/core/round_synchronizer.py:41-44 | The first sample only records the time and the wrist y |
| RoundSyncProperties.NothingRightAfterLock | src/core/round_synchronizer.py:98-101 | The call right after a lock never returns a move |
| RoundSyncProperties.LockedOnlyByConsensus | src/core/round_synchronizer.py:93-101 | A returned move comes from LOCKING, or from a SHAKING frame whose still timer has expired, with a full window in which it has the consensus and a plurality; the state is then reset |
| RoundSyncProperties.WindowChangesOnlyByReading | src/core/round_synchronizer.py:93-106 | After any frame the window is empty, unchanged, or the old window with this frame's reading pushed |
| RoundSyncProperties.MovingWindow | src/core/round_synchronizer.py:50-110 | The same window property for every frame after the first sample |
| RoundSyncProperties.UnreadableFrameAddsNoVote | src/core/round_synchronizer.py:95-96 | A frame the classifier cannot read adds no vote; the window stays as it was or is emptied |
| RoundSyncProperties.SettleLock | src/core/round_synchronizer.py:94-101 | The LOCKING block locks only in LOCKING, a move that reaches the consensus and is a plurality of the full window after this frame's vote |
| RoundSyncProperties.MovingLock | src/core/round_synchronizer.py:93-101 | After the first sample, a returned move comes from LOCKING (held or entered on this frame), with a full window in which it reaches the consensus and is a plurality |
| RoundSyncProperties.SettleHalfCycles | src/core/round_synchronizer.py:93-110 | The LOCKING block and the final stamp keep the half-cycle count, unless a lock resets the state |
| RoundSyncProperties.MovingHalfCycles | src/core/round_synchronizer.py:46-110 | After the first sample, a frame adds at most one half-cycle, and only in SHAKING on a reversal reaching the amplitude |
| RoundSyncProperties.HalfCycleGrowth | src/core/round_synchronizer.py:74-81 | A frame adds at most one half-cycle, and only while SHAKING on a reversal of at least `min_amplitude` from the pivot |
| RoundSyncProperties.SettleStaysLocking | src/core/round_synchronizer.py:93-110 | The LOCKING block and the final stamp never enter LOCKING, and keep the half-cycle count when they stay in it |
| RoundSyncProperties.MovingLockingEntry | src/core/round_synchronizer.py:46-92 | After the first sample, LOCKING is entered only from SHAKING, with enough half-cycles and a still timer that has run |
| RoundSyncProperties.LockingEntry | src/core/round_synchronizer.py:86-91 | LOCKING is entered only from SHAKING, with enough half-cycles and `still_time` elapsed on the still timer |
| RoundSyncProperties.StillTimerSurvivesMotion | src/core/round_synchronizer.py:86-90 | A running still timer is not restarted by motion during SHAKING |
| RoundSyncProperties.ShakeTimeout | src/core/round_synchronizer.py:56-59 | Shaking for longer than `max_shake_time` resets the synchronizer and returns no move |
| RoundSyncProperties.MotionAbortsLocking | src/core/round_synchronizer.py:103-106 | In LOCKING without a lock, a velocity of at least 1.8 times the still threshold returns to SHAKING, clears the window and the still timer, and keeps the half-cycle count |
| SwingSync.SwingStep | synchronizer.py:15-47 | A frame without landmarks resets the state; a move is returned only in STABILIZING, when this frame's reading equals the held gesture whose timer has run the confirm time, and the state is then reset |
| SwingSync.GameSyncController.constructor | synchronizer.py:5-13 | The thresholds are stored (defaults 0.1 and 0.8) and the state is WAITING with no swings and `min_y` 1.0 |
| SwingSync.GameSyncController.Reset | synchronizer.py:49-54 | `reset` restores the initial state |
| SwingSync.GameSyncController.Update | synchronizer.py:15-47 | The returned move and the new state are those of `SwingStep`, and the invariant is kept |
| SwingSync.SwingStepPreservesInvariant | synchronizer.py:15-47 | `update` keeps the invariant: SWING_1 is never used, at most two swings, STABILIZING exactly after two swings, and no reading is held while WAITING |
| SwingSync.MissingLandmarksReset | synchronizer.py:16-18 | No landmarks resets the controller and returns no move |
| SwingSync.SwingCounting | synchronizer.py:23-34 | While WAITING, `min_y` tracks the smallest wrist y; a wrist y more than the threshold above it counts a swing and resets `min_y`, and STABILIZING starts exactly at the second swing |
| SwingSync.ConfirmedMoveOnly | synchronizer.py:36-42 | A move is returned only in STABILIZING, when the current reading equals the held gesture and has been held for `gesture_confirm_time`; the controller then resets |
| SwingSync.HeldReadingConfirms | synchronizer.py:37-42 | A reading equal to the held gesture, held for at least the confirm time, is returned and the controller is reset |
| SwingSync.ConfirmedMoveIff | synchronizer.py:36-42 | A move is returned exactly when a STABILIZING frame's reading is the held gesture and the confirm time has passed |
| SwingSync.ChangedReadingRestartsTimer | synchronizer.py:43-45 | A missing or changed reading becomes the held gesture and restarts its timer |
| SwingSync.HeldReadingKeepsTimer | synchronizer.py:37-39 | The same reading held for less than the confirm time changes nothing |
| Landmarks.LandmarksOf | src/core/game_logic.py:53 | No primary hand means no landmarks; otherwise they are the hand's landmarks |
| CoreLogic.CountdownValue | src/core/game_logic.py:207-220 | Outside COUNTDOWN there is no value; inside it there is a value in 1..3 exactly while time remains, and the value is the remaining time rounded up (3 above two seconds) |
| CoreLogic.QuitCheck | src/core/game_logic.py:70-95 | The quit check fires exactly when thumb-down has been held for the hold duration; firing sets GAME_OVER and clears the gesture timer; otherwise only the gesture timer may change |
| CoreLogic.InGameStep | src/core/game_logic.py:55-68 | In the in-game states a frame is the quit check's result if it fires, else the state handler applied after the quit check, with both handlers' events in order |
| CoreLogic.GameLogic.constructor | src/core/game_logic.py:10-34 | The logic keeps the given classifier and synchronizer and starts in the initial session with no events |
| CoreLogic.GameLogic.Reset | src/core/game_logic.py:36-49 | `reset` restores the initial session and resets the synchronizer, emitting nothing |
| CoreLogic.GameLogic.ClearSession | src/core/game_logic.py:37-47 | The session fields return to their initial values |
| CoreLogic.Dispatch | src/core/game_logic.py:59-68 | Each handler keeps the state or moves it to its one successor (IDLE to COUNTDOWN, COUNTDOWN to ROUND_ACTIVE, ROUND_ACTIVE to ROUND_RESULT, ROUND_RESULT to COUNTDOWN, GAME_OVER to IDLE); only ROUND_ACTIVE and GAME_OVER touch the synchronizer |
| CoreLogic.LogicStep | src/core/game_logic.py:51-68 | During a game a firing quit gesture ends it in GAME_OVER without touching the synchronizer; every other frame makes a `Dispatch` transition |
| CoreLogic.GameLogic.Update | src/core/game_logic.py:51-68 | One frame follows `LogicStep` (session, synchronizer state and appended events), and the session and synchronizer invariants are kept |
| CoreLogic.GameLogic.QuitThenHandle | src/core/game_logic.py:55-68 | In an in-game state: the quit check, then the state's handler unless the check fired |
| CoreLogic.GameLogic.HandleState | src/core/game_logic.py:59-68 | The handler for the current state runs, as in `Dispatch` |
| CoreLogic.GameLogic.CheckQuitGesture | src/core/game_logic.py:70-95 | The method follows `QuitCheck`, including the game-over and gesture-progress events |
| CoreLogic.GameLogic.HandleIdleFrame | src/core/game_logic.py:97-118 | The IDLE handler: thumb-up starts or advances the hold timer; a full hold starts the countdown and emits game-started and countdown 3 |
| CoreLogic.GameLogic.HandleCountdownFrame | src/core/game_logic.py:120-130 | The countdown ends by starting the round and incrementing the round number, or emits the current countdown value |
| CoreLogic.GameLogic.HandleRoundActiveFrame | src/core/game_logic.py:132-175 | The ROUND_ACTIVE handler: no landmarks resets the synchronizer; a locked move plays a round |
| CoreLogic.GameLogic.PlayRound | src/core/game_logic.py:145-175 | Playing a round records the moves, scores the winner, appends the record, shows the result and emits its events |
| CoreLogic.GameLogic.ShowMoves | src/core/game_logic.py:148-150 | The current moves and outcome are set and nothing else changes |
| CoreLogic.GameLogic.AddPoint | src/core/game_logic.py:152-155 | The winner's score goes up by one; a draw scores nothing |
| CoreLogic.GameLogic.AppendRound | src/core/game_logic.py:157-175 | The record is appended, the state becomes ROUND_RESULT with its timer, and round-result then score-changed (computer score first) are emitted |
| CoreLogic.GameLogic.HandleRoundResultFrame | src/core/game_logic.py:177-193 | After the result duration, the next countdown starts and the shown moves are cleared, with no event |
| CoreLogic.GameLogic.HandleGameOverFrame | src/core/game_logic.py:195-205 | GAME_OVER: a held thumb-up resets the whole game, including the synchronizer |
| CoreLogic.LogicStepPreservesInvariant | src/core/game_logic.py:51-68 | Every frame keeps the invariants: scores equal the win counts, rounds numbered 1, 2, 3..., outcomes evaluated from the moves, a clean IDLE state, round number against history length per state, and a shown result that is the last record |
| CoreLogicProperties.QuitHasPriority | src/core/game_logic.py:55-57 | When the quit gesture completes in game, the frame only sets GAME_OVER, clears the gesture timer and emits game-over with the scores and history; the synchronizer is untouched |
| CoreLogicProperties.GameOverOnlyByQuit | src/core/game_logic.py:78-79 | GAME_OVER is entered only from an in-game state by a completed quit gesture |
| CoreLogicProperties.QuitTimerDuringGame | src/core/game_logic.py:74-94 | In game, thumb-up keeps the gesture timer, no direction clears it, and thumb-down starts it if unset |
| CoreLogicProperties.StartGesture | src/core/game_logic.py:97-118 | In IDLE, only a completed thumb-up hold starts the countdown (with its events); otherwise the state stays IDLE and only the gesture timer changes |
| CoreLogicProperties.CountdownStep | src/core/game_logic.py:120-130 | After the countdown duration the round starts with the round number incremented and round-active emitted; before it, a countdown value is emitted |
| CoreLogicProperties.LockPlaysRound | src/core/game_logic.py:137-175 | A locked move plays exactly one round against the strategy's reply: the record is appended with the current round number, the winner scores, the result is shown and the synchronizer takes its post-lock state |
| CoreLogicProperties.NoLockKeepsRound | src/core/game_logic.py:142-143 | Without a lock, only the synchronizer and the gesture timer change |
| CoreLogicProperties.NoHandResetsSynchronizer | src/core/game_logic.py:133-135 | In ROUND_ACTIVE a frame with no landmarks resets the synchronizer, clears the gesture timer and emits nothing |
| CoreLogicProperties.ResultStep | src/core/game_logic.py:177-193 | After the result duration the next countdown starts and the shown moves are cleared; before it only the gesture timer changes |
| CoreLogicProperties.RestartGesture | src/core/game_logic.py:195-205 | In GAME_OVER a completed thumb-up hold resets session and synchronizer; otherwise only the gesture timer changes; no events are emitted |
| CoreLogicProperties.HistoryAppendOnly | src/core/game_logic.py:157-163 | Outside GAME_OVER a frame only extends the history, by at most one round |
| CoreLogicProperties.ScoresCountHistory | src/core/game_logic.py:152-163 | Over any run of frames, the scores are the win counts of the history and the rounds are numbered 1, 2, 3... |
| LegacyLogic.QuitCheck | game_logic/game_logic.py:55-68 | The quit check fires exactly when thumb-down has been held for the hold duration; firing sets GAME_OVER and clears the gesture timer; otherwise only the gesture timer may change |
| LegacyLogic.GameLogic.constructor | game_logic/game_logic.py:7-23 | The logic builds its own swing synchronizer (0.1 and 0.8) on the same classifier and starts in the initial session |
| LegacyLogic.GameLogic.Reset | game_logic/game_logic.py:25-36 | `reset` restores the initial session and the synchronizer's initial state |
| LegacyLogic.Dispatch | game_logic/game_logic.py:46-53 | Each handler keeps the state or moves it to its one successor (IDLE to ROUND_ACTIVE, ROUND_ACTIVE to ROUND_RESULT, ROUND_RESULT to ROUND_ACTIVE, GAME_OVER to IDLE); COUNTDOWN has no handler and changes nothing |
| LegacyLogic.LegacyStep | game_logic/game_logic.py:38-53 | During a game a firing quit gesture ends it in GAME_OVER without touching the synchronizer; every other frame makes a `Dispatch` transition |
| LegacyLogic.GameLogic.Update | game_logic/game_logic.py:38-53 | One frame follows `LegacyStep`, and the invariants are kept |
| LegacyLogic.GameLogic.HandleState | game_logic/game_logic.py:46-53 | The handler for the current state runs, as in `Dispatch` |
| LegacyLogic.GameLogic.CheckQuitGesture | game_logic/game_logic.py:55-68 | The method follows `QuitCheck` |
| LegacyLogic.GameLogic.HandleIdleFrame | game_logic/game_logic.py:70-81 | IDLE: a completed thumb-up hold goes straight to ROUND_ACTIVE and resets the synchronizer |
| LegacyLogic.GameLogic.HandleRoundActiveFrame | game_logic/game_logic.py:83-113 | ROUND_ACTIVE: no landmarks does nothing; a confirmed move plays a round |
| LegacyLogic.GameLogic.PlayRound | game_logic/game_logic.py:91-113 | Playing a round records the moves, scores it, increments the round number, appends the record and shows the result |
| LegacyLogic.GameLogic.ShowMoves | game_logic/game_logic.py:94-96 | The current moves and outcome are set and nothing else changes |
| LegacyLogic.GameLogic.AddPoint | game_logic/game_logic.py:98-101 | The winner's score goes up by one; a draw scores nothing |
| LegacyLogic.GameLogic.AppendRound | game_logic/game_logic.py:103-113 | The round number is incremented first, and the record carries the new number; the state becomes ROUND_RESULT with its timer |
| LegacyLogic.GameLogic.HandleRoundResultFrame | game_logic/game_logic.py:115-122 | After the result duration the next round starts directly, with the synchronizer reset and the shown moves cleared |
| LegacyLogic.GameLogic.HandleGameOverFrame | game_logic/game_logic.py:124-134 | GAME_OVER: a held thumb-up resets the whole game |
| LegacyLogic.LegacyStepPreservesInvariant | game_logic/game_logic.py:38-53 | Every frame keeps the invariants: no COUNTDOWN, scores equal the win counts, round number equals the history length, rounds numbered 1, 2, 3..., a clean IDLE state, and a shown result that is the last record |
| LegacyLogicProperties.QuitHasPriority | game_logic/game_logic.py:42-44 | When the quit gesture completes in game, the frame only sets GAME_OVER and clears the gesture timer |
| LegacyLogicProperties.GameOverOnlyByQuit | game_logic/game_logic.py:61-62 | GAME_OVER is entered only from an in-game state by a completed quit gesture |
| LegacyLogicProperties.QuitTimerDuringGame | game_logic/game_logic.py:58-67 | In game, thumb-up keeps the gesture timer, no direction clears it, and thumb-down starts it if unset |
| LegacyLogicProperties.StartGesture | game_logic/game_logic.py:70-81 | In IDLE a completed thumb-up hold starts the round at once with a fresh synchronizer; otherwise only the gesture timer changes |
| LegacyLogicProperties.LockPlaysRound | game_logic/game_logic.py:87-113 | A confirmed move plays exactly one round against the strategy's reply, numbered one more than before; the winner scores and the result is shown |
| LegacyLogicProperties.NoHandIsIgnored | game_logic/game_logic.py:84-85 | In ROUND_ACTIVE a frame with no landmarks leaves the synchronizer as it is and only clears the gesture timer |
| LegacyLogicProperties.ResultStep | game_logic/game_logic.py:115-122 | After the result duration the next round starts with the synchronizer reset; before it only the gesture timer changes |
| LegacyLogicProperties.RestartGesture | game_logic/game_logic.py:124-134 | In GAME_OVER a completed thumb-up hold resets session and synchronizer; otherwise only the gesture timer changes |
| LegacyLogicProperties.NoCountdown | game_logic/game_logic.py:46-53 | The older logic never enters COUNTDOWN |
| LegacyLogicProperties.ScoresCountHistory | game_logic/game_logic.py:98-110 | Over any run of frames, the scores are the win counts, the round number is the history length and the rounds are numbered 1, 2, 3... |
| CoreController.GameController.constructor | src/core/game_controller.py:25-29 | The controller holds the given game logic |
| CoreController.GameController.PlayerScore | src/core/game_controller.py:54-56 | `player_score` is the number of rounds the player won |
| CoreController.GameController.ComputerScore | src/core/game_controller.py:58-60 | `computer_score` is the number of rounds the computer won |
| CoreController.GameController.MatchHistory | src/core/game_controller.py:62-64 | `match_history` holds rounds numbered 1, 2, 3..., each with its evaluated outcome |
| CoreController.GameController.State | src/core/game_controller.py:66-68 | In IDLE the history is empty and both scores are 0 |
| CoreController.GameController.Reset | src/core/game_controller.py:70-71 | `reset` resets the logic and its synchronizer |
| CoreController.GameController.Update | src/core/game_controller.py:74-84 | A frame feeds the primary hand (right over left) to one `LogicStep` |
| CoreController.IsGameOverExactly | src/core/game_controller.py:89-90 | `is_game_over` holds exactly in GAME_OVER |
| LegacyController.GameController.constructor | game_logic/game_controller.py:7-11 | A new controller owns a new logic, in the initial session, on the given classifier with a fresh synchronizer |
| LegacyController.GameController.PlayerScore | game_logic/game_controller.py:20-22 | `player_score` is the number of rounds the player won |
| LegacyController.GameController.ComputerScore | game_logic/game_controller.py:24-26 | `computer_score` is the number of rounds the computer won |
| LegacyController.GameController.MatchHistory | game_logic/game_controller.py:28-30 | `match_history` has one record per round played, numbered 1, 2, 3..., each with its evaluated outcome |
| LegacyController.GameController.State | game_logic/game_controller.py:32-34 | The state is never COUNTDOWN; in IDLE the history is empty and both scores are 0 |
| LegacyController.GameController.Reset | game_logic/game_controller.py:36-37 | `reset` resets the logic and its synchronizer |
| LegacyController.GameController.Update | game_logic/game_controller.py:39-46 | A frame feeds the primary hand (right over left) to one `LegacyStep` |
| LegacyController.NewControllerIsIdle | game_logic/game_controller.py:51-53 | A new game is IDLE and not over |

## Left out

- Camera, hand detector and drawing: the camera loop (`start`, `close`, `set_stop_detection`), the hand detector, `render_ui`, the Qt and OpenCV drawing calls and the `print` calls are I/O. The visualizer is modelled only up to the pixel points and bounding boxes it draws.
- Classifier: the gesture classifier (gesture_classifier.py) is an oracle given as two total functions. Its geometric rules are not part of this model.
- Randomness: the weighted random first move (`random.choices` with the weights `[0.25, 0.40, 0.35]`) is a parameter `draw`. The weights are not modelled.
- Timing: each frame has one clock value `now`. The source reads `time.time()` separately in `update`, in `get_gesture_progress` and in `get_countdown_value`, and the older synchronizer reads it twice. The model collapses those readings into `now`.
- Floating point: arithmetic on Python floats is modelled on exact reals, so rounding of floats is not modelled. This covers `elapsed / GESTURE_HOLD_DURATION`, the velocity `dy / dt` and `x_norm * (width - 1)`.
- Round-result event: the event no longer carries the camera frame. `update(primary_hand, frame)` passes the frame only into that event.
- UI bridge and strategy: the UI bridge object is not modelled, since its emits become the `events` sequence. The strategy is fixed to `ResearchBasedStrategy`, the controllers' default. `NaiveStrategy` is modelled on its own (`Strategies.NaiveSelectMove`) but is not wired into the logic.
- src/core controller constructor: src/core/game_controller.py builds `GameLogic` without the synchronizer argument that `GameLogic.__init__` requires. `CoreController.GameController.constructor` therefore takes a built logic.
- Status log: the `sync_status` that `_handle_round_active` only prints is not kept.
- Unshown sources: src/core/strategies.py imports `MOVE_LOSES` from the top-level domain.py, and game_logic/game_logic.py imports `ThumbDirection` from it, but that file defines neither. src/core/game_logic.py takes `ThumbDirection` from src/core/domain.py, and src/core/round_synchronizer.py takes `SyncPhase` and `SyncStatus` from the same file. src/core/domain.py is not part of this model.
  - `MOVE_LOSES` is taken to map each move to the move that beats it.
  - The other three are defined in the model with the values their uses require.
- Older logic's strategy: game_logic/game_controller.py builds its logic on the top-level strategies.py, which is not part of this model. The model assumes it is the `ResearchBasedStrategy` of src/core/strategies.py, so `LegacyLogic.HandleRoundActive` uses `Strategies.ResearchSelectMove`.
- Older controller's game-over test: `is_game_over` in game_logic/game_controller.py:51-53 imports `GameState` from a top-level `game_state` module, which is not part of this model. The older logic takes its states from the package module game_logic/game_state.py (game_logic/game_logic.py:2). If these are two different modules, their enum members never compare equal and `is_game_over` is always false, or the import fails. The model assumes both name the same `GameState`, so `LegacyController.GameController.IsGameOver` is `state == GameOver`.
- game_logic/game_state.py is not part of this model. The older logic uses the same states and durations as src/core/game_state.py, except COUNTDOWN, which it never enters.
- Unused states: WAITING_TO_START and WAITING_TO_QUIT in src/core/game_state.py are never entered by any code, so `GameState` omits them. SWING_1 of the older synchronizer is never assigned either, and its invariant states that it never occurs.
- RoundSync.RoundSynchronizer.constructor: requires `move_window >= 1`. With a window of 0, `deque(maxlen=0)` stays empty, so `_try_lock` would call `max()` on an empty collection and fail. `SyncStep` and the logic's step functions carry the same requirement.
- Controllers: `IsGameOver` has no ensures of its own. `CoreController.IsGameOverExactly` and `LegacyController.NewControllerIsIdle` state what it means.
- Landmarks: they are a sequence of points, so an absent hand (`None`) and an empty landmark list are both the empty sequence, as `if not landmarks` treats them. The wrist (`landmarks[0]`) is read only after that check.
