/**
 * The older game controller (game_logic/game_controller.py): builds its own
 * game logic, picks the primary hand with the same right-over-left rule and
 * passes it to the logic.
 */
module LegacyController {
  import opened Wrappers
  import opened Domain
  import opened Landmarks
  import opened GameStates
  import opened Strategies
  import opened SwingSync
  import opened HandSelection
  import opened LegacyLogic

  class GameController {
    const logic: GameLogic

    /** The research-based strategy is the one used; its random first move is a parameter of `Update`. */
    constructor(classifier: Classifier)
      ensures fresh(logic) && fresh(logic.synchronizer) && logic.Valid()
      ensures logic.classifier == classifier
      ensures logic.Snapshot() == InitialSession() && logic.synchronizer.State() == InitialSwing()
    {
      logic := new GameLogic(classifier);
    }

    /** `player_score`: the number of rounds the player has won. */
    function PlayerScore(): (n: int)
      reads logic, logic.synchronizer
      requires logic.Valid()
      ensures n == Wins(logic.matchHistory, Player)
    {
      logic.playerScore
    }

    /** `computer_score`: the number of rounds the computer has won. */
    function ComputerScore(): (n: int)
      reads logic, logic.synchronizer
      requires logic.Valid()
      ensures n == Wins(logic.matchHistory, Computer)
    {
      logic.computerScore
    }

    /** `match_history`: the rounds played, numbered 1, 2, 3, ..., as many as the round counter. */
    function MatchHistory(): (h: History)
      reads logic, logic.synchronizer
      requires logic.Valid()
      ensures |h| == logic.roundNumber
      ensures forall i :: 0 <= i < |h| ==> h[i].roundNumber == i + 1
      ensures forall i :: 0 <= i < |h| ==> h[i].outcome == EvaluateRound(h[i].playerMove, h[i].computerMove)
    {
      logic.matchHistory
    }

    /** `state`: the game's state; never COUNTDOWN, and IDLE only in a game that has not begun. */
    function State(): (st: GameState)
      reads logic, logic.synchronizer
      requires logic.Valid()
      ensures st != Countdown
      ensures st == Idle ==> logic.matchHistory == [] && logic.playerScore == 0 && logic.computerScore == 0
    {
      logic.state
    }

    /** `is_game_over`. */
    predicate IsGameOver()
      reads logic
    {
      logic.state == GameOver
    }

    /** `reset`: delegates to the logic. */
    method Reset()
      requires logic.synchronizer.classifier == logic.classifier
      modifies logic, logic.synchronizer
      ensures logic.Valid()
      ensures logic.Snapshot() == InitialSession() && logic.synchronizer.State() == InitialSwing()
    {
      logic.Reset();
    }

    /** `update(detected_hands)`: the selected hand passed to one call of the logic's update. */
    method Update(hands: DetectedHands, now: real, draw: Move)
      requires logic.Valid()
      modifies logic, logic.synchronizer
      ensures logic.Valid()
      ensures LegacyStep(logic.Config(), old(logic.Snapshot()), old(logic.synchronizer.State()), logic.classifier,
                         SelectPrimaryHand(hands), now, draw) ==
              Frame(logic.Snapshot(), logic.synchronizer.State())
    {
      var primaryHand: Option<(Side, Landmarks)> := None;
      if "Right" in hands {
        primaryHand := Some((Right, hands["Right"]));
      } else if "Left" in hands {
        primaryHand := Some((Left, hands["Left"]));
      }
      logic.Update(primaryHand, now, draw);
    }
  }

  /** A new controller starts a new game in IDLE. */
  lemma NewControllerIsIdle(c: GameController)
    requires c.logic.Snapshot() == InitialSession()
    ensures !c.IsGameOver() && c.logic.state == Idle
  {
  }
}
