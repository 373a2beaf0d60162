/** Optional values, standing for Python's `None` in the players' memory fields. */
module Wrappers {

  datatype Option<T> = None | Some(value: T) {

    /** The held value, or `default` when there is none. */
    function GetOr(default: T): T {
      match this
      case Some(v) => v
      case None => default
    }
  }
}

/** The move vocabulary: the list `valid_moves` and the console spelling of its entries. */
module Moves {
  import opened Wrappers

  datatype Move = Rock | Paper | Scissor

  /** `valid_moves`, in its fixed order: rock, paper, scissor. */
  const ValidMoves: seq<Move> := [Rock, Paper, Scissor]

  /** How each entry of `valid_moves` is spelt; the console accepts exactly these strings. */
  const Names: seq<string> := ["rock", "paper", "scissor"]

  /** `valid_moves.index(m)`: the one position of `m` in the fixed order. */
  function IndexOf(m: Move): (i: nat)
    ensures i < |ValidMoves| && ValidMoves[i] == m
    ensures forall j :: 0 <= j < |ValidMoves| && ValidMoves[j] == m ==> j == i
  {
    match m
    case Rock => 0
    case Paper => 1
    case Scissor => 2
  }

  /** The string the program stores and prints for a move. */
  function Name(m: Move): string {
    Names[IndexOf(m)]
  }

  /**
   * The test `s in valid_moves` on a line of console text, giving the move
   * the text names when it passes. Matching is exact and case-sensitive.
   */
  function Parse(s: string): (r: Option<Move>)
    ensures r.Some? <==> s in Names
    ensures r.Some? ==> Name(r.value) == s
  {
    if s == Names[0] then Some(ValidMoves[0])
    else if s == Names[1] then Some(ValidMoves[1])
    else if s == Names[2] then Some(ValidMoves[2])
    else None
  }

  /** Every move's printed name is accepted back as that same move. */
  lemma ParseName(m: Move)
    ensures Parse(Name(m)) == Some(m)
  {
  }
}
