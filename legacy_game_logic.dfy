/**
 * The older round and game state machine (game_logic/game_logic.py). There is
 * no countdown: a held thumb up in IDLE goes straight to ROUND_ACTIVE, the
 * result screen returns to ROUND_ACTIVE, and the round counter is raised when
 * a move is locked. It owns a swing synchronizer it builds itself and sends
 * no signals. game_logic/game_state.py is not part of this model; its states
 * and durations are taken to be those of src/core/game_state.py.
 */
module LegacyLogic {
  import opened Wrappers
  import opened Domain
  import opened Landmarks
  import opened GameStates
  import opened Strategies
  import opened SwingSync

  datatype Session = Session(
    state: GameState,
    playerScore: int,
    computerScore: int,
    roundNumber: int,
    matchHistory: History,
    gestureStart: Option<real>,
    resultStart: Option<real>,
    currentPlayerMove: Option<Move>,
    currentComputerMove: Option<Move>,
    currentOutcome: Option<Outcome>)

  /** The session together with the synchronizer's state after one frame. */
  datatype Frame = Frame(session: Session, sync: SwingState)

  /** The synchronizer's two tuning values. */
  datatype SwingConfig = SwingConfig(swingThreshold: real, gestureConfirmTime: real)

  function InitialSession(): Session
  {
    Session(Idle, 0, 0, 0, [], None, None, None, None, None)
  }

  /** The result timer is set whenever the result is shown (the source would fail on a missing one). */
  predicate Timed(s: Session)
  {
    s.state == RoundResult ==> s.resultStart.Some?
  }

  /** The facts every reachable session satisfies. */
  ghost predicate SessionInv(s: Session)
  {
    var h := s.matchHistory;
    && Timed(s)
    && s.state != Countdown
    && s.playerScore == Wins(h, Player)
    && s.computerScore == Wins(h, Computer)
    && s.roundNumber == |h|
    && (forall i :: 0 <= i < |h| ==> h[i].roundNumber == i + 1)
    && (forall i :: 0 <= i < |h| ==> h[i].outcome == EvaluateRound(h[i].playerMove, h[i].computerMove))
    && (s.state == Idle ==> s == InitialSession().(gestureStart := s.gestureStart))
    && (s.state == RoundActive ==>
          s.currentPlayerMove.None? && s.currentComputerMove.None? && s.currentOutcome.None?)
    && (s.state == RoundResult ==>
          |h| > 0 &&
          s.currentPlayerMove == Some(h[|h| - 1].playerMove) &&
          s.currentComputerMove == Some(h[|h| - 1].computerMove) &&
          s.currentOutcome == Some(h[|h| - 1].outcome))
  }

  /** The states in which the quit gesture is checked first. */
  predicate InGame(st: GameState)
  {
    st != Idle && st != GameOver
  }

  predicate QuitFires(s: Session, dir: Option<ThumbDirection>, now: real)
  {
    dir == Some(Down) && s.gestureStart.Some? && now - s.gestureStart.value >= GestureHoldDuration
  }

  /** `_check_quit_gesture`: whether the game was quit, and the new session. */
  function QuitCheck(s: Session, dir: Option<ThumbDirection>, now: real): (r: (bool, Session))
    ensures r.0 <==> QuitFires(s, dir, now)
    ensures r.0 ==> r.1 == s.(state := GameOver, gestureStart := None)
    ensures !r.0 ==> r.1 == s.(gestureStart := r.1.gestureStart)
  {
    if dir == Some(Down) then
      if s.gestureStart.None? then (false, s.(gestureStart := Some(now)))
      else if now - s.gestureStart.value >= GestureHoldDuration then (true, s.(state := GameOver, gestureStart := None))
      else (false, s)
    else if dir == Some(Up) then (false, s)
    else (false, s.(gestureStart := None))
  }

  /** `_handle_idle`: a held thumb up starts a round straight away. */
  function HandleIdle(s: Session, sync: SwingState, dir: Option<ThumbDirection>, now: real): Frame
  {
    if dir == Some(Up) then
      if s.gestureStart.None? then Frame(s.(gestureStart := Some(now)), sync)
      else if now - s.gestureStart.value >= GestureHoldDuration then
        Frame(s.(state := RoundActive, gestureStart := None), InitialSwing())
      else Frame(s, sync)
    else Frame(s.(gestureStart := None), sync)
  }

  /** The locked move `p` against the computer's `c`: the round counter rises, then the round is recorded. */
  function RecordRound(s: Session, p: Move, c: Move, now: real): Session
  {
    var o := EvaluateRound(p, c);
    var n := s.roundNumber + 1;
    s.(currentPlayerMove := Some(p), currentComputerMove := Some(c), currentOutcome := Some(o),
       playerScore := if o == Player then s.playerScore + 1 else s.playerScore,
       computerScore := if o == Computer then s.computerScore + 1 else s.computerScore,
       roundNumber := n,
       matchHistory := s.matchHistory + [RoundRecord(n, p, c, o)],
       state := RoundResult, resultStart := Some(now))
  }

  /** `_handle_round_active`: a frame without landmarks is ignored. */
  function HandleRoundActive(cfg: SwingConfig, s: Session, sync: SwingState, cls: Classifier,
                             hand: Option<(Side, Landmarks)>, now: real, draw: Move): Frame
    requires SwingInv(sync)
  {
    if hand.None? || |hand.value.1| == 0 then Frame(s, sync)
    else
      var r := SwingStep(cfg.swingThreshold, cfg.gestureConfirmTime, sync, cls, hand.value.0, hand.value.1, now);
      if r.0.None? then Frame(s, r.1)
      else Frame(RecordRound(s, r.0.value, ResearchSelectMove(s.matchHistory, draw), now), r.1)
  }

  /** `_handle_round_result`: after the result duration the next round starts. */
  function HandleRoundResult(s: Session, sync: SwingState, now: real): Frame
    requires s.resultStart.Some?
  {
    if now - s.resultStart.value >= ResultDuration then
      Frame(s.(state := RoundActive, currentPlayerMove := None, currentComputerMove := None, currentOutcome := None),
            InitialSwing())
    else Frame(s, sync)
  }

  /** `_handle_game_over`: a held thumb up resets the game. */
  function HandleGameOver(s: Session, sync: SwingState, dir: Option<ThumbDirection>, now: real): Frame
  {
    if dir == Some(Up) then
      if s.gestureStart.None? then Frame(s.(gestureStart := Some(now)), sync)
      else if now - s.gestureStart.value >= GestureHoldDuration then Frame(InitialSession(), InitialSwing())
      else Frame(s, sync)
    else Frame(s.(gestureStart := None), sync)
  }

  /**
   * The state changes the handlers make: each state stays or moves to its one
   * successor, and COUNTDOWN has none.
   */
  predicate Transition(from: GameState, to: GameState)
  {
    from == to ||
    match from
    case Idle => to == RoundActive
    case Countdown => false
    case RoundActive => to == RoundResult
    case RoundResult => to == RoundActive
    case GameOver => to == Idle
  }

  /** The `if`/`elif` chain of `update`; it has no branch for COUNTDOWN. */
  function Dispatch(cfg: SwingConfig, s: Session, sync: SwingState, cls: Classifier,
                    hand: Option<(Side, Landmarks)>, now: real, draw: Move): (f: Frame)
    requires SwingInv(sync) && Timed(s)
    ensures Transition(s.state, f.session.state)
    ensures s.state == Countdown ==> f == Frame(s, sync)
  {
    var dir := DirectionOf(cls, LandmarksOf(hand));
    match s.state
    case Idle => HandleIdle(s, sync, dir, now)
    case Countdown => Frame(s, sync)
    case RoundActive => HandleRoundActive(cfg, s, sync, cls, hand, now, draw)
    case RoundResult => HandleRoundResult(s, sync, now)
    case GameOver => HandleGameOver(s, sync, dir, now)
  }

  /** `update(primary_hand)`: one camera frame at clock reading `now`. */
  function LegacyStep(cfg: SwingConfig, s: Session, sync: SwingState, cls: Classifier,
                      hand: Option<(Side, Landmarks)>, now: real, draw: Move): (f: Frame)
    requires SwingInv(sync) && Timed(s)
    ensures var dir := DirectionOf(cls, LandmarksOf(hand));
            if InGame(s.state) && QuitFires(s, dir, now)
            then f.session.state == GameOver && f.sync == sync
            else Transition(s.state, f.session.state)
  {
    var dir := DirectionOf(cls, LandmarksOf(hand));
    if InGame(s.state) then
      var q := QuitCheck(s, dir, now);
      if q.0 then Frame(q.1, sync)
      else Dispatch(cfg, q.1, sync, cls, hand, now, draw)
    else Dispatch(cfg, s, sync, cls, hand, now, draw)
  }

  class GameLogic {
    const classifier: Classifier
    const synchronizer: GameSyncController

    var state: GameState
    var playerScore: int
    var computerScore: int
    var roundNumber: int
    var matchHistory: History
    var gestureStartTime: Option<real>
    var resultStartTime: Option<real>
    var currentPlayerMove: Option<Move>
    var currentComputerMove: Option<Move>
    var currentOutcome: Option<Outcome>

    function Snapshot(): Session
      reads this
    {
      Session(state, playerScore, computerScore, roundNumber, matchHistory, gestureStartTime,
              resultStartTime, currentPlayerMove, currentComputerMove, currentOutcome)
    }

    function Config(): SwingConfig
    {
      SwingConfig(synchronizer.swingThreshold, synchronizer.gestureConfirmTime)
    }

    ghost predicate Valid()
      reads this, synchronizer
    {
      SessionInv(Snapshot()) && synchronizer.Valid() && synchronizer.classifier == classifier
    }

    /** The strategy is the research-based one; its random first move is the `draw` of each update. */
    constructor(classifier: Classifier)
      ensures Valid() && fresh(synchronizer)
      ensures this.classifier == classifier
      ensures Snapshot() == InitialSession() && synchronizer.State() == InitialSwing()
      ensures Config() == SwingConfig(0.1, 0.8)
    {
      this.classifier := classifier;
      synchronizer := new GameSyncController(classifier);
      state := Idle;
      playerScore := 0;
      computerScore := 0;
      roundNumber := 0;
      matchHistory := [];
      gestureStartTime := None;
      resultStartTime := None;
      currentPlayerMove := None;
      currentComputerMove := None;
      currentOutcome := None;
    }

    /** `reset`: a new game, and the synchronizer reset too. */
    method Reset()
      requires synchronizer.classifier == classifier
      modifies this, synchronizer
      ensures Valid()
      ensures Snapshot() == InitialSession() && synchronizer.State() == InitialSwing()
    {
      state := Idle;
      playerScore := 0;
      computerScore := 0;
      roundNumber := 0;
      matchHistory := [];
      gestureStartTime := None;
      resultStartTime := None;
      currentPlayerMove := None;
      currentComputerMove := None;
      currentOutcome := None;
      synchronizer.Reset();
    }

    /** `update(primary_hand)`; `now` is the clock reading taken at its start. */
    method Update(hand: Option<(Side, Landmarks)>, now: real, draw: Move)
      requires Valid()
      modifies this, synchronizer
      ensures Valid()
      ensures LegacyStep(Config(), old(Snapshot()), old(synchronizer.State()), classifier, hand, now, draw) ==
              Frame(Snapshot(), synchronizer.State())
    {
      LegacyStepPreservesInvariant(Config(), Snapshot(), synchronizer.State(), classifier, hand, now, draw);
      if InGame(state) {
        var quit := CheckQuitGesture(LandmarksOf(hand), now);
        if quit {
          return;
        }
      }
      HandleState(hand, now, draw);
    }

    method HandleState(hand: Option<(Side, Landmarks)>, now: real, draw: Move)
      requires Timed(Snapshot()) && synchronizer.Valid() && synchronizer.classifier == classifier
      modifies this, synchronizer
      ensures synchronizer.Valid()
      ensures Dispatch(Config(), old(Snapshot()), old(synchronizer.State()), classifier, hand, now, draw) ==
              Frame(Snapshot(), synchronizer.State())
    {
      var lms := LandmarksOf(hand);
      if state == Idle {
        HandleIdleFrame(lms, now);
      } else if state == RoundActive {
        HandleRoundActiveFrame(hand, now, draw);
      } else if state == RoundResult {
        HandleRoundResultFrame(now);
      } else if state == GameOver {
        HandleGameOverFrame(lms, now);
      }
    }

    /** `_check_quit_gesture`. */
    method CheckQuitGesture(lms: Landmarks, now: real) returns (quit: bool)
      modifies this
      ensures (quit, Snapshot()) == QuitCheck(old(Snapshot()), DirectionOf(classifier, lms), now)
    {
      var direction := DirectionOf(classifier, lms);
      if direction == Some(Down) {
        if gestureStartTime.None? {
          gestureStartTime := Some(now);
        } else if now - gestureStartTime.value >= GestureHoldDuration {
          state := GameOver;
          gestureStartTime := None;
          return true;
        }
      } else if direction != Some(Up) {
        gestureStartTime := None;
      }
      return false;
    }

    /** `_handle_idle`. */
    method HandleIdleFrame(lms: Landmarks, now: real)
      requires synchronizer.Valid()
      modifies this, synchronizer
      ensures synchronizer.Valid()
      ensures HandleIdle(old(Snapshot()), old(synchronizer.State()), DirectionOf(classifier, lms), now) ==
              Frame(Snapshot(), synchronizer.State())
    {
      var direction := DirectionOf(classifier, lms);
      if direction == Some(Up) {
        if gestureStartTime.None? {
          gestureStartTime := Some(now);
        } else if now - gestureStartTime.value >= GestureHoldDuration {
          state := RoundActive;
          synchronizer.Reset();
          gestureStartTime := None;
        }
      } else {
        gestureStartTime := None;
      }
    }

    /** `_handle_round_active`. */
    method HandleRoundActiveFrame(hand: Option<(Side, Landmarks)>, now: real, draw: Move)
      requires synchronizer.Valid() && synchronizer.classifier == classifier
      modifies this, synchronizer
      ensures synchronizer.Valid()
      ensures HandleRoundActive(Config(), old(Snapshot()), old(synchronizer.State()), classifier, hand, now, draw) ==
              Frame(Snapshot(), synchronizer.State())
    {
      if hand.None? || |hand.value.1| == 0 {
        return;
      }
      var playerMove := synchronizer.Update(hand.value.0, hand.value.1, now);
      if playerMove.None? {
        return;
      }
      PlayRound(playerMove.value, ResearchSelectMove(matchHistory, draw), now);
    }

    /** The locked move against the strategy's reply: score it, number it and record it. */
    method PlayRound(playerMove: Move, computerMove: Move, now: real)
      modifies this
      ensures Snapshot() == RecordRound(old(Snapshot()), playerMove, computerMove, now)
    {
      var outcome := EvaluateRound(playerMove, computerMove);
      ShowMoves(playerMove, computerMove, outcome);
      AddPoint(outcome);
      AppendRound(playerMove, computerMove, outcome, now);
    }

    method ShowMoves(playerMove: Move, computerMove: Move, outcome: Outcome)
      modifies this
      ensures Snapshot() == old(Snapshot()).(currentPlayerMove := Some(playerMove),
                                             currentComputerMove := Some(computerMove),
                                             currentOutcome := Some(outcome))
    {
      currentPlayerMove := Some(playerMove);
      currentComputerMove := Some(computerMove);
      currentOutcome := Some(outcome);
    }

    /** The winner of the round scores one; a draw scores nothing. */
    method AddPoint(outcome: Outcome)
      modifies this
      ensures Snapshot() == old(Snapshot()).(
                playerScore := if outcome == Player then old(playerScore) + 1 else old(playerScore),
                computerScore := if outcome == Computer then old(computerScore) + 1 else old(computerScore))
    {
      if outcome == Player {
        playerScore := playerScore + 1;
      } else if outcome == Computer {
        computerScore := computerScore + 1;
      }
    }

    /** The round counter rises first; the record carries the new number. */
    method AppendRound(playerMove: Move, computerMove: Move, outcome: Outcome, now: real)
      modifies this
      ensures Snapshot() == old(Snapshot()).(
                roundNumber := old(roundNumber) + 1,
                matchHistory := old(matchHistory) + [RoundRecord(old(roundNumber) + 1, playerMove, computerMove, outcome)],
                state := RoundResult, resultStart := Some(now))
    {
      roundNumber := roundNumber + 1;
      var roundRecord := RoundRecord(roundNumber, playerMove, computerMove, outcome);
      matchHistory := matchHistory + [roundRecord];

      state := RoundResult;
      resultStartTime := Some(now);
    }

    /** `_handle_round_result`. */
    method HandleRoundResultFrame(now: real)
      requires resultStartTime.Some? && synchronizer.Valid()
      modifies this, synchronizer
      ensures synchronizer.Valid()
      ensures HandleRoundResult(old(Snapshot()), old(synchronizer.State()), now) == Frame(Snapshot(), synchronizer.State())
    {
      var elapsed := now - resultStartTime.value;
      if elapsed >= ResultDuration {
        state := RoundActive;
        synchronizer.Reset();
        currentPlayerMove := None;
        currentComputerMove := None;
        currentOutcome := None;
      }
    }

    /** `_handle_game_over`. */
    method HandleGameOverFrame(lms: Landmarks, now: real)
      requires synchronizer.Valid() && synchronizer.classifier == classifier
      modifies this, synchronizer
      ensures synchronizer.Valid()
      ensures HandleGameOver(old(Snapshot()), old(synchronizer.State()), DirectionOf(classifier, lms), now) ==
              Frame(Snapshot(), synchronizer.State())
    {
      var direction := DirectionOf(classifier, lms);
      if direction == Some(Up) {
        if gestureStartTime.None? {
          gestureStartTime := Some(now);
        } else if now - gestureStartTime.value >= GestureHoldDuration {
          Reset();
          gestureStartTime := None;
        }
      } else {
        gestureStartTime := None;
      }
    }
  }

  /** Every frame keeps the session invariant and the synchronizer's. */
  lemma LegacyStepPreservesInvariant(cfg: SwingConfig, s: Session, sync: SwingState, cls: Classifier,
                                     hand: Option<(Side, Landmarks)>, now: real, draw: Move)
    requires SwingInv(sync) && SessionInv(s)
    ensures SessionInv(LegacyStep(cfg, s, sync, cls, hand, now, draw).session)
    ensures SwingInv(LegacyStep(cfg, s, sync, cls, hand, now, draw).sync)
  {
    var dir := DirectionOf(cls, LandmarksOf(hand));
    if InGame(s.state) {
      var q := QuitCheck(s, dir, now);
      if !q.0 {
        DispatchKeepsInvariant(cfg, q.1, sync, cls, hand, now, draw);
      }
    } else {
      DispatchKeepsInvariant(cfg, s, sync, cls, hand, now, draw);
    }
  }

  lemma DispatchKeepsInvariant(cfg: SwingConfig, s: Session, sync: SwingState, cls: Classifier,
                               hand: Option<(Side, Landmarks)>, now: real, draw: Move)
    requires SwingInv(sync) && SessionInv(s)
    ensures SessionInv(Dispatch(cfg, s, sync, cls, hand, now, draw).session)
    ensures SwingInv(Dispatch(cfg, s, sync, cls, hand, now, draw).sync)
  {
    var dir := DirectionOf(cls, LandmarksOf(hand));
    match s.state
    case Idle => IdleKeepsInvariant(s, sync, dir, now);
    case Countdown =>
    case RoundActive => RoundActiveKeepsInvariant(cfg, s, sync, cls, hand, now, draw);
    case RoundResult => RoundResultKeepsInvariant(s, sync, now);
    case GameOver => GameOverKeepsInvariant(s, sync, dir, now);
  }

  lemma IdleKeepsInvariant(s: Session, sync: SwingState, dir: Option<ThumbDirection>, now: real)
    requires SwingInv(sync) && SessionInv(s) && s.state == Idle
    ensures SessionInv(HandleIdle(s, sync, dir, now).session)
    ensures SwingInv(HandleIdle(s, sync, dir, now).sync)
  {
  }

  lemma RoundActiveKeepsInvariant(cfg: SwingConfig, s: Session, sync: SwingState, cls: Classifier,
                                  hand: Option<(Side, Landmarks)>, now: real, draw: Move)
    requires SwingInv(sync) && SessionInv(s) && s.state == RoundActive
    ensures SessionInv(HandleRoundActive(cfg, s, sync, cls, hand, now, draw).session)
    ensures SwingInv(HandleRoundActive(cfg, s, sync, cls, hand, now, draw).sync)
  {
    if hand.Some? && |hand.value.1| > 0 {
      SwingStepPreservesInvariant(cfg.swingThreshold, cfg.gestureConfirmTime, sync, cls, hand.value.0, hand.value.1, now);
      var r := SwingStep(cfg.swingThreshold, cfg.gestureConfirmTime, sync, cls, hand.value.0, hand.value.1, now);
      if r.0.Some? {
        RecordRoundKeepsInvariant(s, r.0.value, ResearchSelectMove(s.matchHistory, draw), now);
      }
    }
  }

  lemma RoundResultKeepsInvariant(s: Session, sync: SwingState, now: real)
    requires SwingInv(sync) && SessionInv(s) && s.state == RoundResult
    ensures SessionInv(HandleRoundResult(s, sync, now).session)
    ensures SwingInv(HandleRoundResult(s, sync, now).sync)
  {
  }

  lemma GameOverKeepsInvariant(s: Session, sync: SwingState, dir: Option<ThumbDirection>, now: real)
    requires SwingInv(sync) && SessionInv(s) && s.state == GameOver
    ensures SessionInv(HandleGameOver(s, sync, dir, now).session)
    ensures SwingInv(HandleGameOver(s, sync, dir, now).sync)
  {
  }

  lemma RecordRoundKeepsInvariant(s: Session, p: Move, c: Move, now: real)
    requires SessionInv(s) && s.state == RoundActive
    ensures SessionInv(RecordRound(s, p, c, now))
  {
    var rec := RoundRecord(s.roundNumber + 1, p, c, EvaluateRound(p, c));
    WinsAppend(s.matchHistory, rec, Player);
    WinsAppend(s.matchHistory, rec, Computer);
  }
}

/** What one frame of game_logic/game_logic.py does, stated over `LegacyStep`. */
module LegacyLogicProperties {
  import opened Wrappers
  import opened Domain
  import opened Landmarks
  import opened GameStates
  import opened Strategies
  import opened SwingSync
  import opened LegacyLogic

  /** During a game a thumb down held for the hold duration ends it and no handler runs. */
  lemma QuitHasPriority(cfg: SwingConfig, s: Session, sync: SwingState, cls: Classifier,
                        hand: Option<(Side, Landmarks)>, now: real, draw: Move)
    requires SwingInv(sync) && Timed(s)
    requires InGame(s.state) && QuitFires(s, DirectionOf(cls, LandmarksOf(hand)), now)
    ensures LegacyStep(cfg, s, sync, cls, hand, now, draw) == Frame(s.(state := GameOver, gestureStart := None), sync)
  {
  }

  /** GAME_OVER is entered only by the quit gesture. */
  lemma GameOverOnlyByQuit(cfg: SwingConfig, s: Session, sync: SwingState, cls: Classifier,
                           hand: Option<(Side, Landmarks)>, now: real, draw: Move)
    requires SwingInv(sync) && Timed(s) && s.state != GameOver
    requires LegacyStep(cfg, s, sync, cls, hand, now, draw).session.state == GameOver
    ensures InGame(s.state) && QuitFires(s, DirectionOf(cls, LandmarksOf(hand)), now)
  {
  }

  /** During a game thumb up leaves the quit timer alone; no reading clears it; thumb down starts it. */
  lemma QuitTimerDuringGame(cfg: SwingConfig, s: Session, sync: SwingState, cls: Classifier,
                            hand: Option<(Side, Landmarks)>, now: real, draw: Move)
    requires SwingInv(sync) && Timed(s)
    requires InGame(s.state) && !QuitFires(s, DirectionOf(cls, LandmarksOf(hand)), now)
    ensures var dir := DirectionOf(cls, LandmarksOf(hand));
            var g := LegacyStep(cfg, s, sync, cls, hand, now, draw).session.gestureStart;
            (dir == Some(Up) ==> g == s.gestureStart) &&
            (dir == None ==> g == None) &&
            (dir == Some(Down) ==> g == if s.gestureStart.None? then Some(now) else s.gestureStart)
  {
    var q := QuitCheck(s, DirectionOf(cls, LandmarksOf(hand)), now);
    assert q.1.state == s.state;
  }

  /**
   * In IDLE a thumb up, timed from an earlier frame and held for the hold
   * duration, goes straight to ROUND_ACTIVE with a reset synchronizer.
   */
  lemma StartGesture(cfg: SwingConfig, s: Session, sync: SwingState, cls: Classifier,
                     hand: Option<(Side, Landmarks)>, now: real, draw: Move)
    requires SwingInv(sync) && Timed(s) && s.state == Idle
    ensures var dir := DirectionOf(cls, LandmarksOf(hand));
            var f := LegacyStep(cfg, s, sync, cls, hand, now, draw);
            var fires := dir == Some(Up) && s.gestureStart.Some? && now - s.gestureStart.value >= GestureHoldDuration;
            (fires ==> f == Frame(s.(state := RoundActive, gestureStart := None), InitialSwing())) &&
            (!fires ==> f.sync == sync && f.session == s.(gestureStart := f.session.gestureStart)) &&
            (dir != Some(Up) ==> f.session.gestureStart == None)
  {
  }

  /**
   * A locked move plays the round: the counter rises first, so the new record
   * carries the new round number; the winner scores one.
   */
  lemma LockPlaysRound(cfg: SwingConfig, s: Session, sync: SwingState, cls: Classifier,
                       hand: Option<(Side, Landmarks)>, now: real, draw: Move)
    requires SwingInv(sync) && Timed(s) && s.state == RoundActive
    requires !QuitFires(s, DirectionOf(cls, LandmarksOf(hand)), now)
    requires hand.Some? && |hand.value.1| > 0
    requires SwingStep(cfg.swingThreshold, cfg.gestureConfirmTime, sync, cls, hand.value.0, hand.value.1, now).0.Some?
    ensures var r := SwingStep(cfg.swingThreshold, cfg.gestureConfirmTime, sync, cls, hand.value.0, hand.value.1, now);
            var p := r.0.value;
            var c := ResearchSelectMove(s.matchHistory, draw);
            var o := EvaluateRound(p, c);
            var f := LegacyStep(cfg, s, sync, cls, hand, now, draw);
            f.sync == r.1 &&
            f.session.roundNumber == s.roundNumber + 1 &&
            f.session.matchHistory == s.matchHistory + [RoundRecord(s.roundNumber + 1, p, c, o)] &&
            f.session.playerScore == s.playerScore + (if o == Player then 1 else 0) &&
            f.session.computerScore == s.computerScore + (if o == Computer then 1 else 0) &&
            f.session.state == RoundResult && f.session.resultStart == Some(now)
  {
    var q := QuitCheck(s, DirectionOf(cls, LandmarksOf(hand)), now);
    assert q.1.state == RoundActive && q.1.matchHistory == s.matchHistory;
  }

  /** A round frame without a hand touches neither the synchronizer nor the session, bar the quit timer. */
  lemma NoHandIsIgnored(cfg: SwingConfig, s: Session, sync: SwingState, cls: Classifier,
                        hand: Option<(Side, Landmarks)>, now: real, draw: Move)
    requires SwingInv(sync) && Timed(s) && s.state == RoundActive
    requires LandmarksOf(hand) == []
    ensures LegacyStep(cfg, s, sync, cls, hand, now, draw) == Frame(s.(gestureStart := None), sync)
  {
  }

  /** After the result duration the next round starts with a reset synchronizer and cleared round fields. */
  lemma ResultStep(cfg: SwingConfig, s: Session, sync: SwingState, cls: Classifier,
                   hand: Option<(Side, Landmarks)>, now: real, draw: Move)
    requires SwingInv(sync) && Timed(s) && s.state == RoundResult
    requires !QuitFires(s, DirectionOf(cls, LandmarksOf(hand)), now)
    ensures var f := LegacyStep(cfg, s, sync, cls, hand, now, draw);
            var g := f.session.gestureStart;
            (now - s.resultStart.value >= ResultDuration ==>
               f == Frame(s.(state := RoundActive, gestureStart := g, currentPlayerMove := None,
                             currentComputerMove := None, currentOutcome := None), InitialSwing())) &&
            (now - s.resultStart.value < ResultDuration ==> f == Frame(s.(gestureStart := g), sync))
  {
    var q := QuitCheck(s, DirectionOf(cls, LandmarksOf(hand)), now);
    assert q.1.state == RoundResult && q.1.resultStart == s.resultStart;
  }

  /** In GAME_OVER a held thumb up performs the full reset; otherwise the game stays over. */
  lemma RestartGesture(cfg: SwingConfig, s: Session, sync: SwingState, cls: Classifier,
                       hand: Option<(Side, Landmarks)>, now: real, draw: Move)
    requires SwingInv(sync) && Timed(s) && s.state == GameOver
    ensures var dir := DirectionOf(cls, LandmarksOf(hand));
            var f := LegacyStep(cfg, s, sync, cls, hand, now, draw);
            var fires := dir == Some(Up) && s.gestureStart.Some? && now - s.gestureStart.value >= GestureHoldDuration;
            (fires ==> f == Frame(InitialSession(), InitialSwing())) &&
            (!fires ==> f == Frame(s.(gestureStart := f.session.gestureStart), sync))
  {
  }

  /** COUNTDOWN is never reached in this variant. */
  lemma NoCountdown(cfg: SwingConfig, s: Session, sync: SwingState, cls: Classifier,
                    hand: Option<(Side, Landmarks)>, now: real, draw: Move)
    requires SwingInv(sync) && SessionInv(s)
    ensures LegacyStep(cfg, s, sync, cls, hand, now, draw).session.state != Countdown
  {
    LegacyStepPreservesInvariant(cfg, s, sync, cls, hand, now, draw);
  }

  /**
   * Over a whole run of frames, the scores are the numbers of rounds each
   * side won and the rounds are numbered 1, 2, 3, ... up to the round counter.
   */
  lemma {:induction false} ScoresCountHistory(cfg: SwingConfig, cls: Classifier,
                                              frames: seq<(Option<(Side, Landmarks)>, real, Move)>,
                                              s: Session, sync: SwingState)
    requires SwingInv(sync) && SessionInv(s)
    ensures var r := Run(cfg, cls, frames, s, sync);
            var h := r.0.matchHistory;
            r.0.playerScore == Wins(h, Player) && r.0.computerScore == Wins(h, Computer) &&
            r.0.roundNumber == |h| &&
            (forall i :: 0 <= i < |h| ==> h[i].roundNumber == i + 1) &&
            SwingInv(r.1)
    decreases |frames|
  {
    if |frames| > 0 {
      var fr := frames[0];
      LegacyStepPreservesInvariant(cfg, s, sync, cls, fr.0, fr.1, fr.2);
      var f := LegacyStep(cfg, s, sync, cls, fr.0, fr.1, fr.2);
      ScoresCountHistory(cfg, cls, frames[1..], f.session, f.sync);
    }
  }

  /** The session and synchronizer after feeding `frames` (hand, clock, draw) one by one. */
  function Run(cfg: SwingConfig, cls: Classifier, frames: seq<(Option<(Side, Landmarks)>, real, Move)>,
               s: Session, sync: SwingState): (Session, SwingState)
    requires SwingInv(sync) && SessionInv(s)
    decreases |frames|
  {
    if |frames| == 0 then (s, sync)
    else
      var fr := frames[0];
      LegacyStepPreservesInvariant(cfg, s, sync, cls, fr.0, fr.1, fr.2);
      var f := LegacyStep(cfg, s, sync, cls, fr.0, fr.1, fr.2);
      Run(cfg, cls, frames[1..], f.session, f.sync)
  }
}
