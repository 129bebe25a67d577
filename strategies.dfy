/**
 * The computer's move selection (src/core/strategies.py). The weighted
 * random first move is an oracle: the caller supplies the value `draw` that
 * `first_move()` would return for this call.
 */
module Strategies {
  import opened Wrappers
  import opened Domain

  /** NaiveStrategy.select_move: a first move on an empty history and nothing otherwise. */
  function NaiveSelectMove(history: History, draw: Move): (r: Option<Move>)
    ensures |history| == 0 ==> r == Some(draw)
    ensures |history| > 0 ==> r == None
  {
    if |history| == 0 then Some(draw) else None
  }

  /** _get_previous_round: the most recent record. */
  function PreviousRound(history: History): (r: RoundRecord)
    requires |history| > 0
    ensures r == history[|history| - 1]
  {
    history[|history| - 1]
  }

  /** _get_last_moves: the player's moves, oldest first. */
  function PlayerMoves(history: History): (ms: seq<Move>)
    ensures |ms| == |history|
    ensures forall i :: 0 <= i < |history| ==> ms[i] == history[i].playerMove
  {
    if |history| == 0 then []
    else
      var front := history[..|history| - 1];
      assert forall i :: 0 <= i < |front| ==> front[i] == history[i];
      PlayerMoves(front) + [history[|history| - 1].playerMove]
  }

  /** The `[-3:]` slice of the player's moves. */
  function LastThreeMoves(history: History): (ms: seq<Move>)
    ensures |ms| == if |history| < 3 then |history| else 3
    ensures forall i :: 0 <= i < |ms| ==> ms[i] == history[|history| - |ms| + i].playerMove
  {
    var all := PlayerMoves(history);
    if |all| < 3 then all else all[|all| - 3..]
  }

  /** The set of distinct moves in a list. */
  function MoveSet(moves: seq<Move>): set<Move>
  {
    set i | 0 <= i < |moves| :: moves[i]
  }

  /** _are_moves_same: the list holds exactly one distinct move. */
  predicate AreMovesSame(moves: seq<Move>)
  {
    |MoveSet(moves)| == 1
  }

  /** One distinct value means a non-empty list whose entries all equal the first. */
  lemma AreMovesSameIff(moves: seq<Move>)
    ensures AreMovesSame(moves) <==>
            |moves| > 0 && forall i :: 0 <= i < |moves| ==> moves[i] == moves[0]
  {
    var s := MoveSet(moves);
    if |moves| > 0 && forall i :: 0 <= i < |moves| ==> moves[i] == moves[0] {
      assert s == {moves[0]} by {
        forall x | x in s ensures x == moves[0] { }
        assert moves[0] in s;
      }
    }
    if AreMovesSame(moves) {
      assert moves != [] by {
        assert |moves| == 0 ==> s == {};
      }
      assert moves[0] in s;
      forall i | 0 <= i < |moves| ensures moves[i] == moves[0] {
        assert moves[i] in s;
        if moves[i] != moves[0] {
          assert {moves[0], moves[i]} <= s;
          assert |{moves[0], moves[i]}| == 2;
          SubsetCardinality({moves[0], moves[i]}, s);
        }
      }
    }
  }

  lemma SubsetCardinality(a: set<Move>, b: set<Move>)
    requires a <= b
    ensures |a| <= |b|
  {
    assert b == a + (b - a);
  }

  /**
   * ResearchBasedStrategy.select_move: the random draw for an empty history,
   * otherwise a reply derived from the previous round (or the draw after a tie).
   */
  function ResearchSelectMove(history: History, draw: Move): (r: Move)
    ensures |history| == 0 ==> r == draw
    ensures |history| > 0 ==>
              var prev := history[|history| - 1];
              r in {LosesTo(prev.playerMove), Beats(prev.computerMove), prev.playerMove, draw}
  {
    if |history| == 0 then draw
    else
      var previous := PreviousRound(history);
      if AreMovesSame(LastThreeMoves(history)) then LosesTo(previous.playerMove)
      else if previous.outcome == Player then Beats(previous.computerMove)
      else if previous.outcome == Computer then previous.playerMove
      else draw
  }

  /** The last three player moves are equal (or fewer than three were played and they are equal). */
  predicate RepeatedPlayerMove(history: History)
  {
    |history| > 0 &&
    var k := if |history| < 3 then |history| else 3;
    forall i :: |history| - k <= i < |history| ==> history[i].playerMove == history[|history| - 1].playerMove
  }

  /** An empty history takes the random first move. */
  lemma EmptyHistoryDraws(draw: Move)
    ensures ResearchSelectMove([], draw) == draw
  {
  }

  /** Repeated player moves are answered with the move that beats them. */
  lemma RepeatedMoveIsCountered(history: History, draw: Move)
    requires RepeatedPlayerMove(history)
    ensures ResearchSelectMove(history, draw) == LosesTo(history[|history| - 1].playerMove)
    ensures EvaluateRound(history[|history| - 1].playerMove, ResearchSelectMove(history, draw)) == Computer
  {
    var ms := LastThreeMoves(history);
    AreMovesSameIff(ms);
    assert ms[|ms| - 1] == history[|history| - 1].playerMove;
  }

  /** A single recorded round always counts as a repetition. */
  lemma FirstReplyCountersOpening(r: RoundRecord, draw: Move)
    ensures ResearchSelectMove([r], draw) == LosesTo(r.playerMove)
  {
    RepeatedMoveIsCountered([r], draw);
  }

  /** The three branches taken when the player did not repeat a move. */
  lemma ReplyWithoutRepetition(history: History, draw: Move)
    requires |history| > 0 && !RepeatedPlayerMove(history)
    ensures var prev := history[|history| - 1];
            var r := ResearchSelectMove(history, draw);
            (prev.outcome == Player ==> r == Beats(prev.computerMove)) &&
            (prev.outcome == Computer ==> r == prev.playerMove) &&
            (prev.outcome == Draw ==> r == draw)
  {
    SameMovesAreRepeated(history);
  }

  /** Equal last three moves are exactly a repetition. */
  lemma SameMovesAreRepeated(history: History)
    requires |history| > 0
    ensures AreMovesSame(LastThreeMoves(history)) ==> RepeatedPlayerMove(history)
  {
    var ms := LastThreeMoves(history);
    AreMovesSameIff(ms);
    if AreMovesSame(ms) {
      var n := |history|;
      var k := |ms|;
      forall i | n - k <= i < n ensures history[i].playerMove == history[n - 1].playerMove {
        assert ms[i - (n - k)] == history[i].playerMove;
        assert ms[k - 1] == history[n - 1].playerMove;
      }
    }
  }

  /** The random oracle is consulted only for an empty history or after a draw. */
  lemma DrawUsedOnlyOnEmptyOrDraw(history: History, d1: Move, d2: Move)
    requires ResearchSelectMove(history, d1) != ResearchSelectMove(history, d2)
    ensures |history| == 0 || history[|history| - 1].outcome == Draw
  {
  }

  /** Only the last record and the last three player moves are read. */
  lemma DependsOnlyOnRecentRounds(h1: History, h2: History, draw: Move)
    requires |h1| > 0 && |h2| > 0
    requires h1[|h1| - 1] == h2[|h2| - 1]
    requires LastThreeMoves(h1) == LastThreeMoves(h2)
    ensures ResearchSelectMove(h1, draw) == ResearchSelectMove(h2, draw)
  {
    var last3 := LastThreeMoves(h1);
    assert PreviousRound(h1) == PreviousRound(h2);
    assert AreMovesSame(LastThreeMoves(h2)) == AreMovesSame(last3);
  }
}
