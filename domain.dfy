/**
 * Moves, outcomes, round records and the rules that decide a round
 * (domain.py). `MOVE_LOSES` and `ThumbDirection` are used by the rest of the
 * program but are not defined in domain.py; they are defined here.
 */
module Domain {

  datatype Move = Rock | Paper | Scissors

  datatype Outcome = Player | Computer | Draw

  /** The classifier's thumb reading; "no gesture" is an absent Option. */
  datatype ThumbDirection = Up | Down

  /** One completed round; immutable once created. */
  datatype RoundRecord = RoundRecord(
    roundNumber: int,
    playerMove: Move,
    computerMove: Move,
    outcome: Outcome)

  /** MOVE_BEATS: the move that `m` beats. */
  function Beats(m: Move): Move
  {
    match m
    case Rock => Scissors
    case Paper => Rock
    case Scissors => Paper
  }

  /** MOVE_LOSES (assumed): the move that beats `m`, the inverse of Beats. */
  function LosesTo(m: Move): (r: Move)
    ensures Beats(r) == m
  {
    match m
    case Rock => Paper
    case Paper => Scissors
    case Scissors => Rock
  }

  /** evaluate_round: DRAW on equal moves, PLAYER when the player's move beats the computer's. */
  function EvaluateRound(player: Move, computer: Move): (o: Outcome)
    ensures o == Draw <==> player == computer
  {
    if player == computer then Draw
    else if Beats(player) == computer then Player
    else Computer
  }

  /** The outcome seen from the other side of the table. */
  function Swap(o: Outcome): Outcome
  {
    match o
    case Player => Computer
    case Computer => Player
    case Draw => Draw
  }

  lemma DrawOnEqualMoves(m: Move)
    ensures EvaluateRound(m, m) == Draw
  {
  }

  lemma PlayerWinsExactlyWhenBeats(p: Move, c: Move)
    requires p != c
    ensures EvaluateRound(p, c) == Player <==> Beats(p) == c
    ensures EvaluateRound(p, c) == Computer <==> Beats(p) != c
  {
  }

  /** MOVE_BEATS is a bijection without a fixed point: a 3-cycle. */
  lemma BeatsIsThreeCycle(m: Move)
    ensures Beats(m) != m
    ensures Beats(Beats(m)) != m
    ensures Beats(Beats(Beats(m))) == m
    ensures forall n :: Beats(n) == Beats(m) ==> n == m
    ensures LosesTo(Beats(m)) == m && Beats(LosesTo(m)) == m
  {
  }

  /** Swapping the two moves swaps the winner. */
  lemma Antisymmetric(a: Move, b: Move)
    ensures EvaluateRound(b, a) == Swap(EvaluateRound(a, b))
    ensures a != b ==> (EvaluateRound(a, b) == Player <==> EvaluateRound(b, a) == Computer)
  {
  }

  /** For every player move, each outcome is produced by exactly one computer move. */
  lemma ExactlyOneReplyPerOutcome(p: Move, o: Outcome)
    ensures EvaluateRound(p, ReplyFor(p, o)) == o
    ensures forall c :: EvaluateRound(p, c) == o ==> c == ReplyFor(p, o)
  {
  }

  /** The unique computer move that yields outcome `o` against player move `p`. */
  function ReplyFor(p: Move, o: Outcome): Move
  {
    match o
    case Draw => p
    case Player => Beats(p)
    case Computer => LosesTo(p)
  }

  /** A match history: the rounds played so far, oldest first. */
  type History = seq<RoundRecord>

  /** The number of recorded rounds with outcome `o`. */
  function Wins(h: History, o: Outcome): nat
  {
    if |h| == 0 then 0
    else Wins(h[..|h| - 1], o) + (if h[|h| - 1].outcome == o then 1 else 0)
  }

  /** Recording one more round adds one win to the side that won it. */
  lemma WinsAppend(h: History, r: RoundRecord, o: Outcome)
    ensures Wins(h + [r], o) == Wins(h, o) + (if r.outcome == o then 1 else 0)
  {
    assert (h + [r])[..|h|] == h;
  }
}
