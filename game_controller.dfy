/**
 * The game controller (src/core/game_controller.py): picks the primary hand
 * from the detector's result and hands it to the game logic, and exposes the
 * logic's scores, history and state. The camera loop `start` is not
 * modelled; the controller receives an already built logic (the source
 * builds one there, see README).
 */
module CoreController {
  import opened Wrappers
  import opened Domain
  import opened Landmarks
  import opened GameStates
  import opened Strategies
  import opened RoundSync
  import opened HandSelection
  import opened CoreLogic

  class GameController {
    const logic: GameLogic

    constructor(logic: GameLogic)
      ensures this.logic == logic
    {
      this.logic := logic;
    }

    /** `player_score`: the number of rounds the player has won. */
    function PlayerScore(): (n: int)
      reads logic, logic.synchronizer
      requires logic.Valid()
      ensures n == Wins(logic.matchHistory, Player)
    {
      logic.playerScore
    }

    /** `computer_score`: the number of rounds the computer has won. */
    function ComputerScore(): (n: int)
      reads logic, logic.synchronizer
      requires logic.Valid()
      ensures n == Wins(logic.matchHistory, Computer)
    {
      logic.computerScore
    }

    /** `match_history`: the rounds played, numbered 1, 2, 3, ... */
    function MatchHistory(): (h: History)
      reads logic, logic.synchronizer
      requires logic.Valid()
      ensures forall i :: 0 <= i < |h| ==> h[i].roundNumber == i + 1
      ensures forall i :: 0 <= i < |h| ==> h[i].outcome == EvaluateRound(h[i].playerMove, h[i].computerMove)
    {
      logic.matchHistory
    }

    /** `state`: the game's state; IDLE only in a game that has not begun. */
    function State(): (st: GameState)
      reads logic, logic.synchronizer
      requires logic.Valid()
      ensures st == Idle ==> logic.matchHistory == [] && logic.playerScore == 0 && logic.computerScore == 0
    {
      logic.state
    }

    /** `is_game_over`. */
    predicate IsGameOver()
      reads logic
    {
      logic.state == GameOver
    }

    /** `reset`: delegates to the logic. */
    method Reset()
      requires logic.synchronizer.Valid()
      modifies logic, logic.synchronizer
      ensures logic.Valid()
      ensures logic.Snapshot() == InitialSession() && logic.synchronizer.State() == InitialSync()
      ensures logic.events == old(logic.events)
    {
      logic.Reset();
    }

    /**
     * `update(detected_hands, frame)`: the right hand if present, else the
     * left, else none, passed to one call of the logic's update.
     */
    method Update(hands: DetectedHands, now: real, draw: Move)
      requires logic.Valid()
      modifies logic, logic.synchronizer
      ensures logic.Valid()
      ensures var f := LogicStep(logic.synchronizer.Config(), logic.synchronizer.classifier, old(logic.Snapshot()),
                                 old(logic.synchronizer.State()), logic.classifier, SelectPrimaryHand(hands), now, draw);
              logic.Snapshot() == f.session && logic.synchronizer.State() == f.sync &&
              logic.events == old(logic.events) + f.events
    {
      var primaryHand: Option<(Side, Landmarks)> := None;
      if "Right" in hands {
        primaryHand := Some((Right, hands["Right"]));
      } else if "Left" in hands {
        primaryHand := Some((Left, hands["Left"]));
      }
      logic.Update(primaryHand, now, draw);
    }
  }

  /** `is_game_over` holds exactly in GAME_OVER. */
  lemma IsGameOverExactly(c: GameController)
    ensures c.IsGameOver() <==> c.logic.state == GameOver
  {
  }
}
