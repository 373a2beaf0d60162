/** The round resolver: the "beats" relation and the outcome of one pair of moves. */
module Rules {
  import opened Moves

  /**
   * `Game.is_move_stronger`: an explicit lookup of the three winning pairs
   * (rock over scissor, scissor over paper, paper over rock); every other
   * pair, a move against itself included, is not stronger.
   */
  function IsMoveStronger(move1: Move, move2: Move): (r: bool)
    ensures r <==> (move1, move2) in {(Rock, Scissor), (Scissor, Paper), (Paper, Rock)}
    ensures r ==> move1 != move2
  {
    if move1 == Rock && move2 == Scissor then true
    else if move1 == Scissor && move2 == Paper then true
    else if move1 == Paper && move2 == Rock then true
    else false
  }

  /**
   * The lookup agrees with index arithmetic on `valid_moves`: a move beats
   * exactly the move one place before it, cyclically.
   */
  lemma StrongerByIndex(move1: Move, move2: Move)
    ensures IsMoveStronger(move1, move2) <==> (IndexOf(move1) - IndexOf(move2)) % |ValidMoves| == 1
  {
  }

  /**
   * Dominance is a tournament on the three moves: no move beats itself, at
   * most one of two moves beats the other, and of two different moves one does.
   */
  lemma StrongerIsTournament(move1: Move, move2: Move)
    ensures !IsMoveStronger(move1, move1)
    ensures IsMoveStronger(move1, move2) ==> !IsMoveStronger(move2, move1)
    ensures move1 != move2 ==> IsMoveStronger(move1, move2) || IsMoveStronger(move2, move1)
  {
  }

  /**
   * `Game.check_result`: 1 when the first move is stronger, 2 when the second
   * is, 0 otherwise, which happens exactly for equal moves.
   */
  function CheckResult(move1: Move, move2: Move): (r: int)
    ensures 0 <= r <= 2
    ensures r == 1 <==> IsMoveStronger(move1, move2)
    ensures r == 2 <==> IsMoveStronger(move2, move1)
    ensures r == 0 <==> move1 == move2
  {
    if IsMoveStronger(move1, move2) then 1
    else if IsMoveStronger(move2, move1) then 2
    else 0
  }

  /** Swapping the two moves swaps the winner and keeps a draw a draw. */
  lemma CheckResultMirror(move1: Move, move2: Move)
    ensures CheckResult(move1, move1) == 0
    ensures CheckResult(move2, move1) == if CheckResult(move1, move2) == 0 then 0 else 3 - CheckResult(move1, move2)
  {
  }
}
