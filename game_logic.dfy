/**
 * The round and game state machine (src/core/game_logic.py):
 * IDLE -> COUNTDOWN -> ROUND_ACTIVE -> ROUND_RESULT -> COUNTDOWN ...,
 * with hold-to-confirm thumb gestures to start (thumb up in IDLE), quit
 * (thumb down during a game) and restart (thumb up in GAME_OVER).
 *
 * The clock reading is the parameter `now`; the strategy is the
 * research-based one and `draw` is the value its random first move would
 * give. The signals sent over the UI bridge are appended to an event log.
 */
module CoreLogic {
  import opened Wrappers
  import opened Domain
  import opened Landmarks
  import opened GameStates
  import opened Strategies
  import opened RoundSync
  import RoundSyncProperties

  /** The signals the game sends to the user interface (the camera frame is not modelled). */
  datatype UiEvent =
    | GameOverEvent(playerScore: int, computerScore: int, matchHistory: History)
    | GestureProgressEvent(progress: real, thumbDirection: ThumbDirection)
    | GameStartedEvent(state: GameState)
    | CountdownEvent(countDownTime: Option<int>)
    | RoundActiveEvent
    | RoundResultEvent(roundRecord: RoundRecord)
    | ScoreChangedEvent(computerScore: int, playerScore: int)

  /** The fields of GameLogic that evolve from frame to frame. */
  datatype Session = Session(
    state: GameState,
    playerScore: int,
    computerScore: int,
    roundNumber: int,
    matchHistory: History,
    gestureStart: Option<real>,
    countdownStart: Option<real>,
    resultStart: Option<real>,
    currentPlayerMove: Option<Move>,
    currentComputerMove: Option<Move>,
    currentOutcome: Option<Outcome>)

  /** The session together with the synchronizer's state and the events one frame emits. */
  datatype Frame = Frame(session: Session, sync: SyncState, events: seq<UiEvent>)

  /** A handler's new session and the events it emits. */
  datatype Handled = Handled(session: Session, events: seq<UiEvent>)

  /** The constructor's and `reset`'s values. */
  function InitialSession(): Session
  {
    Session(Idle, 0, 0, 0, [], None, None, None, None, None, None)
  }

  lemma InitialSessionIsValid()
    ensures SessionInv(InitialSession())
  {
  }

  /** The states in which the quit gesture is checked first. */
  predicate InGame(st: GameState)
  {
    st == Countdown || st == RoundActive || st == RoundResult
  }

  /** The timers a state's handler reads are set (the source would fail on a missing one). */
  predicate Timed(s: Session)
  {
    && (s.state == Countdown ==> s.countdownStart.Some?)
    && (s.state == RoundResult ==> s.resultStart.Some?)
  }

  /** The facts every reachable session satisfies. */
  ghost predicate SessionInv(s: Session)
  {
    var h := s.matchHistory;
    && Timed(s)
    && s.playerScore == Wins(h, Player)
    && s.computerScore == Wins(h, Computer)
    && (forall i :: 0 <= i < |h| ==> h[i].roundNumber == i + 1)
    && (forall i :: 0 <= i < |h| ==> h[i].outcome == EvaluateRound(h[i].playerMove, h[i].computerMove))
    && (s.state == Idle ==> s == InitialSession().(gestureStart := s.gestureStart))
    && (s.state == Countdown || s.state == RoundResult ==> s.roundNumber == |h|)
    && (s.state == RoundActive ==> s.roundNumber == |h| + 1)
    && (s.state == GameOver ==> |h| <= s.roundNumber <= |h| + 1)
    && (s.state == Countdown || s.state == RoundActive ==>
          s.currentPlayerMove.None? && s.currentComputerMove.None? && s.currentOutcome.None?)
    && (s.state == RoundResult ==>
          |h| > 0 &&
          s.currentPlayerMove == Some(h[|h| - 1].playerMove) &&
          s.currentComputerMove == Some(h[|h| - 1].computerMove) &&
          s.currentOutcome == Some(h[|h| - 1].outcome))
  }

  /** `get_countdown_value`: the whole seconds left, 3, 2 or 1, and nothing once time is up. */
  function CountdownValue(state: GameState, start: Option<real>, now: real): (v: Option<int>)
    ensures state != Countdown || start.None? ==> v == None
    ensures v.Some? ==> 1 <= v.value <= 3
    ensures state == Countdown && start.Some? ==>
              var remaining := CountdownDuration - (now - start.value);
              (v.Some? <==> remaining > 0.0) &&
              (v.Some? ==> (v.value - 1) as real < remaining) &&
              (v.Some? && v.value < 3 ==> remaining <= v.value as real)
  {
    if state != Countdown || start.None? then None
    else
      var remaining := CountdownDuration - (now - start.value);
      if remaining > 2.0 then Some(3)
      else if remaining > 1.0 then Some(2)
      else if remaining > 0.0 then Some(1)
      else None
  }

  /** The quit gesture fires: thumb down, whose timer started earlier and has run the hold duration. */
  predicate QuitFires(s: Session, dir: Option<ThumbDirection>, now: real)
  {
    dir == Some(Down) && s.gestureStart.Some? && now - s.gestureStart.value >= GestureHoldDuration
  }

  /** `_check_quit_gesture`: whether the game was quit, the new session and the events. */
  function QuitCheck(s: Session, dir: Option<ThumbDirection>, now: real): (r: (bool, Session, seq<UiEvent>))
    ensures r.0 <==> QuitFires(s, dir, now)
    ensures r.0 ==> r.1 == s.(state := GameOver, gestureStart := None)
    ensures !r.0 ==> r.1 == s.(gestureStart := r.1.gestureStart)
  {
    if dir == Some(Down) then
      if s.gestureStart.None? then
        (false, s.(gestureStart := Some(now)), [GestureProgressEvent(GestureProgress(Some(now), now), Down)])
      else if now - s.gestureStart.value >= GestureHoldDuration then
        (true, s.(state := GameOver, gestureStart := None),
         [GameOverEvent(s.playerScore, s.computerScore, s.matchHistory)])
      else (false, s, [GestureProgressEvent(GestureProgress(s.gestureStart, now), Down)])
    else if dir == Some(Up) then (false, s, [])
    else (false, s.(gestureStart := None), [])
  }

  /** `_handle_idle`: a thumb up held for the hold duration starts the countdown. */
  function HandleIdle(s: Session, dir: Option<ThumbDirection>, now: real): Handled
  {
    if dir == Some(Up) then
      if s.gestureStart.None? then
        Handled(s.(gestureStart := Some(now)), [GestureProgressEvent(GestureProgress(Some(now), now), Up)])
      else if now - s.gestureStart.value >= GestureHoldDuration then
        Handled(s.(state := Countdown, countdownStart := Some(now), gestureStart := None),
                [GameStartedEvent(Countdown), CountdownEvent(CountdownValue(Countdown, Some(now), now))])
      else Handled(s, [GestureProgressEvent(GestureProgress(s.gestureStart, now), Up)])
    else Handled(s.(gestureStart := None), [])
  }

  /** `_handle_countdown`: once the countdown has run out the next round starts. */
  function HandleCountdown(s: Session, now: real): Handled
    requires s.countdownStart.Some?
  {
    if now - s.countdownStart.value >= CountdownDuration then
      Handled(s.(state := RoundActive, roundNumber := s.roundNumber + 1), [RoundActiveEvent])
    else Handled(s, [CountdownEvent(CountdownValue(s.state, s.countdownStart, now))])
  }

  /** The locked move `p` against the computer's `c`: record the round and show its result. */
  function RecordRound(s: Session, p: Move, c: Move, now: real): Handled
  {
    var o := EvaluateRound(p, c);
    var rec := RoundRecord(s.roundNumber, p, c, o);
    var player := if o == Player then s.playerScore + 1 else s.playerScore;
    var computer := if o == Computer then s.computerScore + 1 else s.computerScore;
    Handled(s.(currentPlayerMove := Some(p), currentComputerMove := Some(c), currentOutcome := Some(o),
               playerScore := player, computerScore := computer,
               matchHistory := s.matchHistory + [rec],
               state := RoundResult, resultStart := Some(now)),
            [RoundResultEvent(rec), ScoreChangedEvent(computer, player)])
  }

  /** `_handle_round_active`: feed the frame to the synchronizer and play a locked move. */
  function HandleRoundActive(cfg: SyncConfig, s: Session, sync: SyncState, syncCls: Classifier,
                             hand: Option<(Side, Landmarks)>, now: real, draw: Move): Frame
    requires cfg.moveWindow >= 1 && SyncInv(cfg, sync)
  {
    if hand.None? || |hand.value.1| == 0 then Frame(s, InitialSync(), [])
    else
      var r := SyncStep(cfg, sync, syncCls, hand.value.0, hand.value.1, now);
      if r.0.None? then Frame(s, r.1, [])
      else
        var h := RecordRound(s, r.0.value, ResearchSelectMove(s.matchHistory, draw), now);
        Frame(h.session, r.1, h.events)
  }

  /** `_handle_round_result`: once the result has been shown the countdown restarts. */
  function HandleRoundResult(s: Session, now: real): Session
    requires s.resultStart.Some?
  {
    if now - s.resultStart.value >= ResultDuration then
      s.(state := Countdown, countdownStart := Some(now),
         currentPlayerMove := None, currentComputerMove := None, currentOutcome := None)
    else s
  }

  /** `_handle_game_over`: a thumb up held for the hold duration resets the game. */
  function HandleGameOver(s: Session, sync: SyncState, dir: Option<ThumbDirection>, now: real): Frame
  {
    if dir == Some(Up) then
      if s.gestureStart.None? then Frame(s.(gestureStart := Some(now)), sync, [])
      else if now - s.gestureStart.value >= GestureHoldDuration then Frame(InitialSession(), InitialSync(), [])
      else Frame(s, sync, [])
    else Frame(s.(gestureStart := None), sync, [])
  }

  /** The state changes the handlers make: each state stays or moves to its one successor. */
  predicate Transition(from: GameState, to: GameState)
  {
    from == to ||
    match from
    case Idle => to == Countdown
    case Countdown => to == RoundActive
    case RoundActive => to == RoundResult
    case RoundResult => to == Countdown
    case GameOver => to == Idle
  }

  /**
   * The handler of the session's state. `cls` is the game's classifier, read
   * for thumb gestures; `syncCls` is the synchronizer's own, read for moves.
   */
  function Dispatch(cfg: SyncConfig, syncCls: Classifier, s: Session, sync: SyncState, cls: Classifier,
                    hand: Option<(Side, Landmarks)>, now: real, draw: Move): (f: Frame)
    requires cfg.moveWindow >= 1 && SyncInv(cfg, sync) && Timed(s)
    ensures Transition(s.state, f.session.state)
    ensures s.state != RoundActive && s.state != GameOver ==> f.sync == sync
  {
    var dir := DirectionOf(cls, LandmarksOf(hand));
    match s.state
    case Idle => var h := HandleIdle(s, dir, now); Frame(h.session, sync, h.events)
    case Countdown => var h := HandleCountdown(s, now); Frame(h.session, sync, h.events)
    case RoundActive => HandleRoundActive(cfg, s, sync, syncCls, hand, now, draw)
    case RoundResult => Frame(HandleRoundResult(s, now), sync, [])
    case GameOver => HandleGameOver(s, sync, dir, now)
  }

  /** `update(primary_hand, frame)`: one camera frame. */
  function LogicStep(cfg: SyncConfig, syncCls: Classifier, s: Session, sync: SyncState, cls: Classifier,
                     hand: Option<(Side, Landmarks)>, now: real, draw: Move): (f: Frame)
    requires cfg.moveWindow >= 1 && SyncInv(cfg, sync) && Timed(s)
    ensures var dir := DirectionOf(cls, LandmarksOf(hand));
            if InGame(s.state) && QuitFires(s, dir, now)
            then f.session.state == GameOver && f.sync == sync
            else Transition(s.state, f.session.state)
  {
    var dir := DirectionOf(cls, LandmarksOf(hand));
    if InGame(s.state) then
      var q := QuitCheck(s, dir, now);
      if q.0 then Frame(q.1, sync, q.2)
      else
        var f := Dispatch(cfg, syncCls, q.1, sync, cls, hand, now, draw);
        f.(events := q.2 + f.events)
    else Dispatch(cfg, syncCls, s, sync, cls, hand, now, draw)
  }

  /** `LogicStep` during a game: the quit check, then the handler unless it fired. */
  lemma InGameStep(cfg: SyncConfig, syncCls: Classifier, s: Session, sync: SyncState, cls: Classifier,
                   hand: Option<(Side, Landmarks)>, now: real, draw: Move)
    requires cfg.moveWindow >= 1 && SyncInv(cfg, sync) && Timed(s) && InGame(s.state)
    ensures var q := QuitCheck(s, DirectionOf(cls, LandmarksOf(hand)), now);
            Timed(q.1) &&
            var f := LogicStep(cfg, syncCls, s, sync, cls, hand, now, draw);
            if q.0 then f == Frame(q.1, sync, q.2)
            else
              var d := Dispatch(cfg, syncCls, q.1, sync, cls, hand, now, draw);
              f.session == d.session && f.sync == d.sync && f.events == q.2 + d.events
  {
  }

  class GameLogic {
    const classifier: Classifier
    const synchronizer: RoundSynchronizer

    var state: GameState
    var playerScore: int
    var computerScore: int
    var roundNumber: int
    var matchHistory: History
    var gestureStartTime: Option<real>
    var countdownStartTime: Option<real>
    var resultStartTime: Option<real>
    var currentPlayerMove: Option<Move>
    var currentComputerMove: Option<Move>
    var currentOutcome: Option<Outcome>
    /** Every signal sent over the UI bridge so far, oldest first. */
    var events: seq<UiEvent>

    function Snapshot(): Session
      reads this
    {
      Session(state, playerScore, computerScore, roundNumber, matchHistory, gestureStartTime,
              countdownStartTime, resultStartTime, currentPlayerMove, currentComputerMove, currentOutcome)
    }

    ghost predicate Valid()
      reads this, synchronizer
    {
      SessionInv(Snapshot()) && synchronizer.Valid()
    }

    /** The bridge and the strategy are not modelled objects; see the module comment. */
    constructor(classifier: Classifier, synchronizer: RoundSynchronizer)
      requires synchronizer.Valid()
      ensures Valid()
      ensures this.classifier == classifier && this.synchronizer == synchronizer
      ensures Snapshot() == InitialSession() && events == []
    {
      this.classifier := classifier;
      this.synchronizer := synchronizer;
      state := Idle;
      playerScore := 0;
      computerScore := 0;
      roundNumber := 0;
      matchHistory := [];
      gestureStartTime := None;
      countdownStartTime := None;
      resultStartTime := None;
      currentPlayerMove := None;
      currentComputerMove := None;
      currentOutcome := None;
      events := [];
    }

    /** `reset`: a new game, and the synchronizer reset too. */
    method Reset()
      requires synchronizer.Valid()
      modifies this, synchronizer
      ensures Valid()
      ensures Snapshot() == InitialSession() && synchronizer.State() == InitialSync()
      ensures events == old(events)
    {
      ClearSession();
      synchronizer.Reset();
      InitialSessionIsValid();
    }

    /** The field assignments of `reset`. */
    method ClearSession()
      modifies this
      ensures Snapshot() == InitialSession() && events == old(events)
    {
      state := Idle;
      playerScore := 0;
      computerScore := 0;
      roundNumber := 0;
      matchHistory := [];
      gestureStartTime := None;
      countdownStartTime := None;
      resultStartTime := None;
      currentPlayerMove := None;
      currentComputerMove := None;
      currentOutcome := None;
    }

    /** `update(primary_hand, frame)` at clock reading `now`. */
    method Update(hand: Option<(Side, Landmarks)>, now: real, draw: Move)
      requires Valid()
      modifies this, synchronizer
      ensures Valid()
      ensures var f := LogicStep(synchronizer.Config(), synchronizer.classifier, old(Snapshot()), old(synchronizer.State()),
                                 classifier, hand, now, draw);
              Snapshot() == f.session && synchronizer.State() == f.sync && events == old(events) + f.events
    {
      LogicStepPreservesInvariant(synchronizer.Config(), synchronizer.classifier, Snapshot(), synchronizer.State(),
                                  classifier, hand, now, draw);
      if InGame(state) {
        QuitThenHandle(hand, now, draw);
      } else {
        ghost var s0 := Snapshot();
        assert LogicStep(synchronizer.Config(), synchronizer.classifier, s0, synchronizer.State(),
                         classifier, hand, now, draw) ==
               Dispatch(synchronizer.Config(), synchronizer.classifier, s0, synchronizer.State(),
                        classifier, hand, now, draw);
        HandleState(hand, now, draw);
      }
    }

    /** During a game the quit gesture is checked first; the state's handler runs only if it did not fire. */
    method QuitThenHandle(hand: Option<(Side, Landmarks)>, now: real, draw: Move)
      requires Timed(Snapshot()) && synchronizer.Valid() && InGame(state)
      modifies this, synchronizer
      ensures synchronizer.Valid()
      ensures var f := LogicStep(synchronizer.Config(), synchronizer.classifier, old(Snapshot()),
                                 old(synchronizer.State()), classifier, hand, now, draw);
              Snapshot() == f.session && synchronizer.State() == f.sync && events == old(events) + f.events
    {
      InGameStep(synchronizer.Config(), synchronizer.classifier, Snapshot(), synchronizer.State(),
                 classifier, hand, now, draw);
      ghost var e0 := events;
      var quit := CheckQuitGesture(LandmarksOf(hand), now);
      if !quit {
        ghost var e1 := events;
        HandleState(hand, now, draw);
        // the quit check's events, then the handler's, after the earlier ones
        assert e0 + (e1[|e0|..] + events[|e1|..]) == events;
      }
    }

    /** The `if`/`elif` chain of `update`: the handler of the current state. */
    method HandleState(hand: Option<(Side, Landmarks)>, now: real, draw: Move)
      requires Timed(Snapshot()) && synchronizer.Valid()
      modifies this, synchronizer
      ensures synchronizer.Valid()
      ensures var f := Dispatch(synchronizer.Config(), synchronizer.classifier, old(Snapshot()),
                                old(synchronizer.State()), classifier, hand, now, draw);
              Snapshot() == f.session && synchronizer.State() == f.sync && events == old(events) + f.events
    {
      var lms := LandmarksOf(hand);
      if state == Idle {
        HandleIdleFrame(lms, now);
      } else if state == Countdown {
        HandleCountdownFrame(now);
      } else if state == RoundActive {
        HandleRoundActiveFrame(hand, now, draw);
      } else if state == RoundResult {
        HandleRoundResultFrame(now);
      } else {
        HandleGameOverFrame(lms, now);
      }
    }

    /** `_check_quit_gesture`. */
    method CheckQuitGesture(lms: Landmarks, now: real) returns (quit: bool)
      modifies this
      ensures var q := QuitCheck(old(Snapshot()), DirectionOf(classifier, lms), now);
              quit == q.0 && Snapshot() == q.1 && events == old(events) + q.2
    {
      var direction := DirectionOf(classifier, lms);
      if direction == Some(Down) {
        if gestureStartTime.None? {
          gestureStartTime := Some(now);
        } else if now - gestureStartTime.value >= GestureHoldDuration {
          state := GameOver;
          events := events + [GameOverEvent(playerScore, computerScore, matchHistory)];
          gestureStartTime := None;
          return true;
        }
        events := events + [GestureProgressEvent(GestureProgress(gestureStartTime, now), Down)];
      } else if direction != Some(Up) {
        gestureStartTime := None;
      }
      return false;
    }

    /** `_handle_idle`. */
    method HandleIdleFrame(lms: Landmarks, now: real)
      modifies this
      ensures var h := HandleIdle(old(Snapshot()), DirectionOf(classifier, lms), now);
              Snapshot() == h.session && events == old(events) + h.events
    {
      var direction := DirectionOf(classifier, lms);
      if direction == Some(Up) {
        if gestureStartTime.None? {
          gestureStartTime := Some(now);
        } else if now - gestureStartTime.value >= GestureHoldDuration {
          state := Countdown;
          countdownStartTime := Some(now);
          gestureStartTime := None;
          events := events + [GameStartedEvent(state)];
          events := events + [CountdownEvent(CountdownValue(state, countdownStartTime, now))];
          return;
        }
        events := events + [GestureProgressEvent(GestureProgress(gestureStartTime, now), direction.value)];
      } else {
        gestureStartTime := None;
      }
    }

    /** `_handle_countdown`. */
    method HandleCountdownFrame(now: real)
      requires countdownStartTime.Some?
      modifies this
      ensures var h := HandleCountdown(old(Snapshot()), now);
              Snapshot() == h.session && events == old(events) + h.events
    {
      var elapsed := now - countdownStartTime.value;
      if elapsed >= CountdownDuration {
        state := RoundActive;
        roundNumber := roundNumber + 1;
        events := events + [RoundActiveEvent];
      } else {
        events := events + [CountdownEvent(CountdownValue(state, countdownStartTime, now))];
      }
    }

    /** `_handle_round_active`. */
    method HandleRoundActiveFrame(hand: Option<(Side, Landmarks)>, now: real, draw: Move)
      requires synchronizer.Valid()
      modifies this, synchronizer
      ensures synchronizer.Valid()
      ensures var f := HandleRoundActive(synchronizer.Config(), old(Snapshot()), old(synchronizer.State()),
                                         synchronizer.classifier, hand, now, draw);
              Snapshot() == f.session && synchronizer.State() == f.sync && events == old(events) + f.events
    {
      ghost var s0 := Snapshot();
      ghost var y0 := synchronizer.State();
      if hand.None? || |hand.value.1| == 0 {
        synchronizer.Reset();
        return;
      }
      var playerMove, syncStatus := synchronizer.Update(hand.value.0, hand.value.1, now);
      ghost var r := SyncStep(synchronizer.Config(), y0, synchronizer.classifier, hand.value.0, hand.value.1, now);
      assert playerMove == r.0 && synchronizer.State() == r.1;
      if playerMove.None? {
        return;
      }
      assert Snapshot() == s0;
      PlayRound(playerMove.value, ResearchSelectMove(matchHistory, draw), now);
    }

    /** The locked move against the strategy's reply: score it, record it and show the result. */
    method PlayRound(playerMove: Move, computerMove: Move, now: real)
      modifies this
      ensures var h := RecordRound(old(Snapshot()), playerMove, computerMove, now);
              Snapshot() == h.session && events == old(events) + h.events
    {
      var outcome := EvaluateRound(playerMove, computerMove);
      ShowMoves(playerMove, computerMove, outcome);
      AddPoint(outcome);
      var roundRecord := RoundRecord(roundNumber, playerMove, computerMove, outcome);
      AppendRound(roundRecord, now);
    }

    method ShowMoves(playerMove: Move, computerMove: Move, outcome: Outcome)
      modifies this
      ensures Snapshot() == old(Snapshot()).(currentPlayerMove := Some(playerMove),
                                             currentComputerMove := Some(computerMove),
                                             currentOutcome := Some(outcome))
      ensures events == old(events)
    {
      currentPlayerMove := Some(playerMove);
      currentComputerMove := Some(computerMove);
      currentOutcome := Some(outcome);
    }

    /** The winner of the round scores one; a draw scores nothing. */
    method AddPoint(outcome: Outcome)
      modifies this
      ensures Snapshot() == old(Snapshot()).(
                playerScore := if outcome == Player then old(playerScore) + 1 else old(playerScore),
                computerScore := if outcome == Computer then old(computerScore) + 1 else old(computerScore))
      ensures events == old(events)
    {
      if outcome == Player {
        playerScore := playerScore + 1;
      } else if outcome == Computer {
        computerScore := computerScore + 1;
      }
    }

    /** Append the record, show the result and signal it with the new scores. */
    method AppendRound(roundRecord: RoundRecord, now: real)
      modifies this
      ensures Snapshot() == old(Snapshot()).(matchHistory := old(matchHistory) + [roundRecord],
                                             state := RoundResult, resultStart := Some(now))
      ensures events == old(events) + [RoundResultEvent(roundRecord), ScoreChangedEvent(computerScore, playerScore)]
    {
      matchHistory := matchHistory + [roundRecord];

      state := RoundResult;
      events := events + [RoundResultEvent(roundRecord)];
      events := events + [ScoreChangedEvent(computerScore, playerScore)];

      resultStartTime := Some(now);
    }

    /** `_handle_round_result`. */
    method HandleRoundResultFrame(now: real)
      requires resultStartTime.Some?
      modifies this
      ensures Snapshot() == HandleRoundResult(old(Snapshot()), now) && events == old(events)
    {
      var elapsed := now - resultStartTime.value;
      if elapsed >= ResultDuration {
        state := Countdown;
        countdownStartTime := Some(now);
        currentPlayerMove := None;
        currentComputerMove := None;
        currentOutcome := None;
      }
    }

    /** `_handle_game_over`. */
    method HandleGameOverFrame(lms: Landmarks, now: real)
      requires synchronizer.Valid()
      modifies this, synchronizer
      ensures synchronizer.Valid()
      ensures var f := HandleGameOver(old(Snapshot()), old(synchronizer.State()), DirectionOf(classifier, lms), now);
              Snapshot() == f.session && synchronizer.State() == f.sync && events == old(events) + f.events
    {
      var direction := DirectionOf(classifier, lms);
      if direction == Some(Up) {
        if gestureStartTime.None? {
          gestureStartTime := Some(now);
        } else if now - gestureStartTime.value >= GestureHoldDuration {
          Reset();
          gestureStartTime := None;
        }
      } else {
        gestureStartTime := None;
      }
    }
  }

  /** Every frame keeps the session invariant and the synchronizer's. */
  lemma LogicStepPreservesInvariant(cfg: SyncConfig, syncCls: Classifier, s: Session, sync: SyncState, cls: Classifier,
                                    hand: Option<(Side, Landmarks)>, now: real, draw: Move)
    requires cfg.moveWindow >= 1 && SyncInv(cfg, sync) && SessionInv(s)
    ensures SessionInv(LogicStep(cfg, syncCls, s, sync, cls, hand, now, draw).session)
    ensures SyncInv(cfg, LogicStep(cfg, syncCls, s, sync, cls, hand, now, draw).sync)
  {
    var dir := DirectionOf(cls, LandmarksOf(hand));
    if InGame(s.state) {
      var q := QuitCheck(s, dir, now);
      if !q.0 {
        DispatchKeepsInvariant(cfg, syncCls, q.1, sync, cls, hand, now, draw);
      }
    } else {
      DispatchKeepsInvariant(cfg, syncCls, s, sync, cls, hand, now, draw);
    }
  }

  lemma DispatchKeepsInvariant(cfg: SyncConfig, syncCls: Classifier, s: Session, sync: SyncState, cls: Classifier,
                               hand: Option<(Side, Landmarks)>, now: real, draw: Move)
    requires cfg.moveWindow >= 1 && SyncInv(cfg, sync) && SessionInv(s)
    ensures SessionInv(Dispatch(cfg, syncCls, s, sync, cls, hand, now, draw).session)
    ensures SyncInv(cfg, Dispatch(cfg, syncCls, s, sync, cls, hand, now, draw).sync)
  {
    var dir := DirectionOf(cls, LandmarksOf(hand));
    match s.state
    case Idle => IdleKeepsInvariant(s, dir, now);
    case Countdown => CountdownKeepsInvariant(s, now);
    case RoundActive => RoundActiveKeepsInvariant(cfg, s, sync, syncCls, hand, now, draw);
    case RoundResult => RoundResultKeepsInvariant(s, now);
    case GameOver => GameOverKeepsInvariant(cfg, s, sync, dir, now);
  }

  lemma IdleKeepsInvariant(s: Session, dir: Option<ThumbDirection>, now: real)
    requires SessionInv(s) && s.state == Idle
    ensures SessionInv(HandleIdle(s, dir, now).session)
  {
  }

  lemma CountdownKeepsInvariant(s: Session, now: real)
    requires SessionInv(s) && s.state == Countdown
    ensures SessionInv(HandleCountdown(s, now).session)
  {
  }

  lemma RoundResultKeepsInvariant(s: Session, now: real)
    requires SessionInv(s) && s.state == RoundResult
    ensures SessionInv(HandleRoundResult(s, now))
  {
  }

  lemma GameOverKeepsInvariant(cfg: SyncConfig, s: Session, sync: SyncState, dir: Option<ThumbDirection>, now: real)
    requires SyncInv(cfg, sync) && SessionInv(s) && s.state == GameOver
    ensures SessionInv(HandleGameOver(s, sync, dir, now).session)
    ensures SyncInv(cfg, HandleGameOver(s, sync, dir, now).sync)
  {
    RoundSyncProperties.ResetStateIsWaiting(cfg);
    InitialSessionIsValid();
  }

  lemma RoundActiveKeepsInvariant(cfg: SyncConfig, s: Session, sync: SyncState, syncCls: Classifier,
                                  hand: Option<(Side, Landmarks)>, now: real, draw: Move)
    requires cfg.moveWindow >= 1 && SyncInv(cfg, sync) && SessionInv(s) && s.state == RoundActive
    ensures SessionInv(HandleRoundActive(cfg, s, sync, syncCls, hand, now, draw).session)
    ensures SyncInv(cfg, HandleRoundActive(cfg, s, sync, syncCls, hand, now, draw).sync)
  {
    RoundSyncProperties.ResetStateIsWaiting(cfg);
    if hand.Some? && |hand.value.1| > 0 {
      StepPreservesInvariant(cfg, sync, syncCls, hand.value.0, hand.value.1, now);
      var r := SyncStep(cfg, sync, syncCls, hand.value.0, hand.value.1, now);
      if r.0.Some? {
        RecordRoundKeepsInvariant(s, r.0.value, ResearchSelectMove(s.matchHistory, draw), now);
      }
    }
  }

  lemma RecordRoundKeepsInvariant(s: Session, p: Move, c: Move, now: real)
    requires SessionInv(s) && s.state == RoundActive
    ensures SessionInv(RecordRound(s, p, c, now).session)
  {
    var rec := RoundRecord(s.roundNumber, p, c, EvaluateRound(p, c));
    WinsAppend(s.matchHistory, rec, Player);
    WinsAppend(s.matchHistory, rec, Computer);
  }
}

/** What one frame of src/core/game_logic.py does, stated over `LogicStep`. */
module CoreLogicProperties {
  import opened Wrappers
  import opened Domain
  import opened Landmarks
  import opened GameStates
  import opened Strategies
  import opened RoundSync
  import opened CoreLogic

  /**
   * During a game a thumb down held for the hold duration ends it: GAME_OVER,
   * the timer cleared, one game-over signal and no handler run for that frame.
   */
  lemma QuitHasPriority(cfg: SyncConfig, syncCls: Classifier, s: Session, sync: SyncState, cls: Classifier,
                        hand: Option<(Side, Landmarks)>, now: real, draw: Move)
    requires cfg.moveWindow >= 1 && SyncInv(cfg, sync) && Timed(s)
    requires InGame(s.state) && QuitFires(s, DirectionOf(cls, LandmarksOf(hand)), now)
    ensures LogicStep(cfg, syncCls, s, sync, cls, hand, now, draw) ==
            Frame(s.(state := GameOver, gestureStart := None), sync,
                  [GameOverEvent(s.playerScore, s.computerScore, s.matchHistory)])
  {
  }

  /** GAME_OVER is entered only by the quit gesture. */
  lemma GameOverOnlyByQuit(cfg: SyncConfig, syncCls: Classifier, s: Session, sync: SyncState, cls: Classifier,
                           hand: Option<(Side, Landmarks)>, now: real, draw: Move)
    requires cfg.moveWindow >= 1 && SyncInv(cfg, sync) && Timed(s)
    requires s.state != GameOver
    requires LogicStep(cfg, syncCls, s, sync, cls, hand, now, draw).session.state == GameOver
    ensures InGame(s.state) && QuitFires(s, DirectionOf(cls, LandmarksOf(hand)), now)
  {
  }

  /**
   * The gesture timer during a game: thumb down starts it if unset, thumb up
   * leaves it alone and no reading clears it.
   */
  lemma QuitTimerDuringGame(cfg: SyncConfig, syncCls: Classifier, s: Session, sync: SyncState, cls: Classifier,
                            hand: Option<(Side, Landmarks)>, now: real, draw: Move)
    requires cfg.moveWindow >= 1 && SyncInv(cfg, sync) && Timed(s)
    requires InGame(s.state) && !QuitFires(s, DirectionOf(cls, LandmarksOf(hand)), now)
    ensures var dir := DirectionOf(cls, LandmarksOf(hand));
            var g := LogicStep(cfg, syncCls, s, sync, cls, hand, now, draw).session.gestureStart;
            (dir == Some(Up) ==> g == s.gestureStart) &&
            (dir == None ==> g == None) &&
            (dir == Some(Down) ==> g == if s.gestureStart.None? then Some(now) else s.gestureStart)
  {
    var dir := DirectionOf(cls, LandmarksOf(hand));
    var q := QuitCheck(s, dir, now);
    assert q.1.state == s.state;
  }

  /**
   * In IDLE the countdown starts exactly when a thumb up, timed from an
   * earlier frame, has been held for the hold duration; the countdown timer
   * then starts now and shows 3.
   */
  lemma StartGesture(cfg: SyncConfig, syncCls: Classifier, s: Session, sync: SyncState, cls: Classifier,
                     hand: Option<(Side, Landmarks)>, now: real, draw: Move)
    requires cfg.moveWindow >= 1 && SyncInv(cfg, sync) && Timed(s) && s.state == Idle
    ensures var dir := DirectionOf(cls, LandmarksOf(hand));
            var f := LogicStep(cfg, syncCls, s, sync, cls, hand, now, draw);
            var fires := dir == Some(Up) && s.gestureStart.Some? && now - s.gestureStart.value >= GestureHoldDuration;
            f.sync == sync &&
            (fires ==> f.session == s.(state := Countdown, countdownStart := Some(now), gestureStart := None) &&
                       f.events == [GameStartedEvent(Countdown), CountdownEvent(Some(3))]) &&
            (!fires ==> f.session.state == Idle && f.session == s.(gestureStart := f.session.gestureStart)) &&
            (dir != Some(Up) ==> f.session.gestureStart == None) &&
            (dir == Some(Up) && s.gestureStart.None? ==> f.session.gestureStart == Some(now))
  {
  }

  /**
   * The countdown: once it has run for the countdown duration the round
   * starts and the round counter rises by one; before that it shows the
   * seconds left.
   */
  lemma CountdownStep(cfg: SyncConfig, syncCls: Classifier, s: Session, sync: SyncState, cls: Classifier,
                      hand: Option<(Side, Landmarks)>, now: real, draw: Move)
    requires cfg.moveWindow >= 1 && SyncInv(cfg, sync) && Timed(s) && s.state == Countdown
    requires !QuitFires(s, DirectionOf(cls, LandmarksOf(hand)), now)
    ensures var f := LogicStep(cfg, syncCls, s, sync, cls, hand, now, draw);
            var elapsed := now - s.countdownStart.value;
            f.sync == sync && |f.events| > 0 &&
            (elapsed >= CountdownDuration ==>
               f.session.state == RoundActive && f.session.roundNumber == s.roundNumber + 1 &&
               f.events[|f.events| - 1] == RoundActiveEvent) &&
            (elapsed < CountdownDuration ==>
               f.session.state == Countdown && f.session.roundNumber == s.roundNumber &&
               f.events[|f.events| - 1] == CountdownEvent(CountdownValue(Countdown, s.countdownStart, now)) &&
               f.events[|f.events| - 1].countDownTime.Some?)
  {
    var q := QuitCheck(s, DirectionOf(cls, LandmarksOf(hand)), now);
    assert q.1.state == Countdown && q.1.countdownStart == s.countdownStart;
  }

  /**
   * A locked move plays the round: exactly one record with the current round
   * number, the strategy's reply and the outcome is appended, the winner
   * scores one, and the result is shown from now on.
   */
  lemma LockPlaysRound(cfg: SyncConfig, syncCls: Classifier, s: Session, sync: SyncState, cls: Classifier,
                       hand: Option<(Side, Landmarks)>, now: real, draw: Move)
    requires cfg.moveWindow >= 1 && SyncInv(cfg, sync) && Timed(s) && s.state == RoundActive
    requires !QuitFires(s, DirectionOf(cls, LandmarksOf(hand)), now)
    requires hand.Some? && |hand.value.1| > 0
    requires SyncStep(cfg, sync, syncCls, hand.value.0, hand.value.1, now).0.Some?
    ensures var r := SyncStep(cfg, sync, syncCls, hand.value.0, hand.value.1, now);
            var p := r.0.value;
            var c := ResearchSelectMove(s.matchHistory, draw);
            var o := EvaluateRound(p, c);
            var f := LogicStep(cfg, syncCls, s, sync, cls, hand, now, draw);
            f.sync == r.1 &&
            f.session.matchHistory == s.matchHistory + [RoundRecord(s.roundNumber, p, c, o)] &&
            f.session.playerScore == s.playerScore + (if o == Player then 1 else 0) &&
            f.session.computerScore == s.computerScore + (if o == Computer then 1 else 0) &&
            f.session.roundNumber == s.roundNumber &&
            f.session.state == RoundResult && f.session.resultStart == Some(now) &&
            f.session.currentPlayerMove == Some(p) && f.session.currentComputerMove == Some(c) &&
            f.session.currentOutcome == Some(o)
  {
    var q := QuitCheck(s, DirectionOf(cls, LandmarksOf(hand)), now);
    assert q.1.state == RoundActive && q.1.matchHistory == s.matchHistory;
  }

  /** Without a locked move the round goes on: only the synchronizer and the gesture timer change. */
  lemma NoLockKeepsRound(cfg: SyncConfig, syncCls: Classifier, s: Session, sync: SyncState, cls: Classifier,
                         hand: Option<(Side, Landmarks)>, now: real, draw: Move)
    requires cfg.moveWindow >= 1 && SyncInv(cfg, sync) && Timed(s) && s.state == RoundActive
    requires !QuitFires(s, DirectionOf(cls, LandmarksOf(hand)), now)
    requires hand.Some? && |hand.value.1| > 0
    requires SyncStep(cfg, sync, syncCls, hand.value.0, hand.value.1, now).0.None?
    ensures var f := LogicStep(cfg, syncCls, s, sync, cls, hand, now, draw);
            f.sync == SyncStep(cfg, sync, syncCls, hand.value.0, hand.value.1, now).1 &&
            f.session == s.(gestureStart := f.session.gestureStart)
  {
    var q := QuitCheck(s, DirectionOf(cls, LandmarksOf(hand)), now);
    assert q.1.state == RoundActive;
  }

  /** A round frame without a hand only resets the synchronizer and the gesture timer. */
  lemma NoHandResetsSynchronizer(cfg: SyncConfig, syncCls: Classifier, s: Session, sync: SyncState, cls: Classifier,
                                 hand: Option<(Side, Landmarks)>, now: real, draw: Move)
    requires cfg.moveWindow >= 1 && SyncInv(cfg, sync) && Timed(s) && s.state == RoundActive
    requires LandmarksOf(hand) == []
    ensures LogicStep(cfg, syncCls, s, sync, cls, hand, now, draw) == Frame(s.(gestureStart := None), InitialSync(), [])
  {
  }

  /** The result is shown for the result duration, then the countdown restarts and the current round's fields clear. */
  lemma ResultStep(cfg: SyncConfig, syncCls: Classifier, s: Session, sync: SyncState, cls: Classifier,
                   hand: Option<(Side, Landmarks)>, now: real, draw: Move)
    requires cfg.moveWindow >= 1 && SyncInv(cfg, sync) && Timed(s) && s.state == RoundResult
    requires !QuitFires(s, DirectionOf(cls, LandmarksOf(hand)), now)
    ensures var f := LogicStep(cfg, syncCls, s, sync, cls, hand, now, draw);
            var g := f.session.gestureStart;
            f.sync == sync &&
            (now - s.resultStart.value >= ResultDuration ==>
               f.session == s.(state := Countdown, countdownStart := Some(now), gestureStart := g,
                               currentPlayerMove := None, currentComputerMove := None, currentOutcome := None)) &&
            (now - s.resultStart.value < ResultDuration ==> f.session == s.(gestureStart := g))
  {
    var q := QuitCheck(s, DirectionOf(cls, LandmarksOf(hand)), now);
    assert q.1.state == RoundResult && q.1.resultStart == s.resultStart;
  }

  /**
   * In GAME_OVER a thumb up, timed from an earlier frame and held for the hold
   * duration, performs the full reset; otherwise the game stays over.
   */
  lemma RestartGesture(cfg: SyncConfig, syncCls: Classifier, s: Session, sync: SyncState, cls: Classifier,
                       hand: Option<(Side, Landmarks)>, now: real, draw: Move)
    requires cfg.moveWindow >= 1 && SyncInv(cfg, sync) && Timed(s) && s.state == GameOver
    ensures var dir := DirectionOf(cls, LandmarksOf(hand));
            var f := LogicStep(cfg, syncCls, s, sync, cls, hand, now, draw);
            var fires := dir == Some(Up) && s.gestureStart.Some? && now - s.gestureStart.value >= GestureHoldDuration;
            f.events == [] &&
            (fires ==> f.session == InitialSession() && f.sync == InitialSync()) &&
            (!fires ==> f.session == s.(gestureStart := f.session.gestureStart) && f.sync == sync)
  {
  }

  /** Outside GAME_OVER the history only grows, by at most one record per frame. */
  lemma HistoryAppendOnly(cfg: SyncConfig, syncCls: Classifier, s: Session, sync: SyncState, cls: Classifier,
                          hand: Option<(Side, Landmarks)>, now: real, draw: Move)
    requires cfg.moveWindow >= 1 && SyncInv(cfg, sync) && Timed(s) && s.state != GameOver
    ensures var h := LogicStep(cfg, syncCls, s, sync, cls, hand, now, draw).session.matchHistory;
            s.matchHistory <= h && |h| <= |s.matchHistory| + 1
  {
  }

  /**
   * Over a whole run of frames from a new game, the scores are the numbers of
   * rounds each side won and the rounds are numbered 1, 2, 3, ...
   */
  lemma {:induction false} ScoresCountHistory(cfg: SyncConfig, syncCls: Classifier, cls: Classifier,
                                              frames: seq<(Option<(Side, Landmarks)>, real, Move)>,
                                              s: Session, sync: SyncState)
    requires cfg.moveWindow >= 1 && SyncInv(cfg, sync) && SessionInv(s)
    ensures var r := Run(cfg, syncCls, cls, frames, s, sync);
            var h := r.0.matchHistory;
            r.0.playerScore == Wins(h, Player) && r.0.computerScore == Wins(h, Computer) &&
            (forall i :: 0 <= i < |h| ==> h[i].roundNumber == i + 1) &&
            SyncInv(cfg, r.1)
    decreases |frames|
  {
    if |frames| > 0 {
      var fr := frames[0];
      LogicStepPreservesInvariant(cfg, syncCls, s, sync, cls, fr.0, fr.1, fr.2);
      var f := LogicStep(cfg, syncCls, s, sync, cls, fr.0, fr.1, fr.2);
      ScoresCountHistory(cfg, syncCls, cls, frames[1..], f.session, f.sync);
    }
  }

  /** The session and synchronizer after feeding `frames` (hand, clock, draw) one by one. */
  function Run(cfg: SyncConfig, syncCls: Classifier, cls: Classifier,
               frames: seq<(Option<(Side, Landmarks)>, real, Move)>,
               s: Session, sync: SyncState): (Session, SyncState)
    requires cfg.moveWindow >= 1 && SyncInv(cfg, sync) && SessionInv(s)
    decreases |frames|
  {
    if |frames| == 0 then (s, sync)
    else
      var fr := frames[0];
      LogicStepPreservesInvariant(cfg, syncCls, s, sync, cls, fr.0, fr.1, fr.2);
      var f := LogicStep(cfg, syncCls, s, sync, cls, fr.0, fr.1, fr.2);
      Run(cfg, syncCls, cls, frames[1..], f.session, f.sync)
  }
}
