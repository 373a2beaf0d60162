/**
 * The player strategies: the base `Player` (always rock), `ReflectPlayer`
 * (replays the opponent's last move), `CyclePlayer` (steps through
 * `valid_moves`), and the two strategies driven from outside, `RandomPlayer`
 * and `HumanPlayer`, whose random draw and console lines are parameters.
 */
module Players {
  import opened Wrappers
  import opened Moves
  import opened Rules

  /** Which deterministic class of the hierarchy a player object belongs to. */
  datatype Strategy = Fixed | Reflect | Cycle

  /**
   * The fields of a player object. `lastCounterpartMove` is used by a
   * `ReflectPlayer` and `lastMove` by a `CyclePlayer`; both start as `None`.
   */
  datatype PlayerState = PlayerState(strategy: Strategy, score: nat,
                                     lastCounterpartMove: Option<Move>, lastMove: Option<Move>)

  /** A freshly constructed player of the given class. */
  function Initial(strategy: Strategy): PlayerState {
    PlayerState(strategy, 0, None, None)
  }

  /** `Player.play`: the first entry of `valid_moves`. */
  function FixedMove(): (m: Move)
    ensures m == Rock && IndexOf(m) == 0
  {
    ValidMoves[0]
  }

  /** `ReflectPlayer.play`: the remembered opponent move, or the base class's move before there is one. */
  function ReflectMove(lastCounterpartMove: Option<Move>): (m: Move)
    ensures lastCounterpartMove.None? ==> m == Rock
    ensures lastCounterpartMove.Some? ==> m == lastCounterpartMove.value
  {
    lastCounterpartMove.GetOr(FixedMove())
  }

  /**
   * The move `CyclePlayer.play` produces: rock the first time, afterwards the
   * entry of `valid_moves` after its own last move, wrapping to the start.
   * The successor always differs from, and beats, the previous move.
   */
  function CycleMove(lastMove: Option<Move>): (m: Move)
    ensures lastMove.None? ==> m == Rock
    ensures lastMove.Some? ==> IndexOf(m) == (IndexOf(lastMove.value) + 1) % |ValidMoves|
    ensures lastMove.Some? ==> m != lastMove.value && IsMoveStronger(m, lastMove.value)
  {
    match lastMove
    case None => FixedMove()
    case Some(previous) => ValidMoves[(IndexOf(previous) + 1) % |ValidMoves|]
  }

  /** The move `play` returns for a player in state `s`. */
  function Chosen(s: PlayerState): Move {
    match s.strategy
    case Fixed => FixedMove()
    case Reflect => ReflectMove(s.lastCounterpartMove)
    case Cycle => CycleMove(s.lastMove)
  }

  /**
   * The state after `play`: only a `CyclePlayer` changes, recording the move
   * it returns; the score and the opponent memory are never touched.
   */
  function AfterPlay(s: PlayerState): (t: PlayerState)
    ensures t.strategy == s.strategy && t.score == s.score
    ensures t.lastCounterpartMove == s.lastCounterpartMove
    ensures s.strategy != Cycle ==> t == s
    ensures s.strategy == Cycle ==> t.lastMove == Some(Chosen(s))
  {
    if s.strategy == Cycle then s.(lastMove := Some(CycleMove(s.lastMove))) else s
  }

  /**
   * The state after `learn(opponent)`, with the parameter name corrected (see
   * ReflectLearnAsWritten): a `ReflectPlayer` remembers the opponent's move, so
   * its next `play` returns it; the other classes inherit the no-op `learn`.
   */
  function AfterLearn(s: PlayerState, opponent: Move): (t: PlayerState)
    ensures t.strategy == s.strategy && t.score == s.score && t.lastMove == s.lastMove
    ensures s.strategy != Reflect ==> t == s
    ensures s.strategy == Reflect ==> t.lastCounterpartMove == Some(opponent) && Chosen(t) == opponent
  {
    if s.strategy == Reflect then s.(lastCounterpartMove := Some(opponent)) else s
  }

  /** What `ReflectPlayer.learn`'s body does, as written: it stores a value or stops on an unbound name. */
  datatype LearnOutcome = Stored(state: PlayerState) | NameError(name: string)

  /**
   * `ReflectPlayer.learn` as written: its parameter is spelt
   * `last_counterpartt_move`, but the body reads `last_counterpart_move`.
   * That name is neither a local of the method nor a module global, so every
   * call ends in a `NameError` and nothing is stored.
   */
  function ReflectLearnAsWritten(s: PlayerState, opponent: Move): (r: LearnOutcome)
    ensures r == NameError("last_counterpart_move")
  {
    var locals: map<string, Move> := map["last_counterpartt_move" := opponent];
    match Lookup(locals, "last_counterpart_move")
    case Some(value) => Stored(s.(lastCounterpartMove := Some(value)))
    case None => NameError("last_counterpart_move")
  }

  /** Python's name lookup in a method body that only assigns attributes: the locals, then no move-valued global. */
  function Lookup(locals: map<string, Move>, name: string): Option<Move> {
    if name in locals then Some(locals[name]) else None
  }

  /** One call made on a player: `play()` or `learn(opponent)`. */
  datatype Call = PlayCall | LearnCall(opponent: Move)

  function Apply(s: PlayerState, c: Call): PlayerState {
    match c
    case PlayCall => AfterPlay(s)
    case LearnCall(opponent) => AfterLearn(s, opponent)
  }

  /** The state after a sequence of calls. */
  function Final(s: PlayerState, calls: seq<Call>): PlayerState
    decreases |calls|
  {
    if calls == [] then s else Apply(Final(s, calls[..|calls| - 1]), calls[|calls| - 1])
  }

  /** The moves returned by the `play` calls of a sequence of calls, in order. */
  function Trace(s: PlayerState, calls: seq<Call>): seq<Move>
    decreases |calls|
  {
    if calls == [] then []
    else
      var before := calls[..|calls| - 1];
      Trace(s, before) + if calls[|calls| - 1].PlayCall? then [Chosen(Final(s, before))] else []
  }

  /** How many of the calls are `play` calls. */
  function PlayCount(calls: seq<Call>): nat
    decreases |calls|
  {
    if calls == [] then 0
    else PlayCount(calls[..|calls| - 1]) + if calls[|calls| - 1].PlayCall? then 1 else 0
  }

  /** The last move learnt in `calls`, or `initial` when no `learn` call was made. */
  function LastLearned(initial: Option<Move>, calls: seq<Call>): Option<Move>
    decreases |calls|
  {
    if calls == [] then initial
    else if calls[|calls| - 1].LearnCall? then Some(calls[|calls| - 1].opponent)
    else LastLearned(initial, calls[..|calls| - 1])
  }

  /** The memory of a `CyclePlayer` that has played `n` times: none, or the move of its last play. */
  function CycleMemory(n: nat): Option<Move> {
    if n == 0 then None else Some(ValidMoves[(n - 1) % |ValidMoves|])
  }

  /** A `CyclePlayer` whose `n` plays were the first `n` entries of the cycle plays the next one. */
  lemma CycleMoveAfter(n: nat)
    ensures CycleMove(CycleMemory(n)) == ValidMoves[n % |ValidMoves|]
  {
    if n > 0 {
      var previous := ValidMoves[(n - 1) % |ValidMoves|];
      assert IndexOf(previous) == (n - 1) % |ValidMoves|;
    }
  }

  /**
   * A base `Player` plays rock every time and never changes, whatever it is
   * asked to learn.
   */
  lemma {:induction false} FixedTrace(s: PlayerState, calls: seq<Call>)
    requires s.strategy == Fixed
    ensures Final(s, calls) == s
    ensures |Trace(s, calls)| == PlayCount(calls)
    ensures forall k :: 0 <= k < |Trace(s, calls)| ==> Trace(s, calls)[k] == Rock
  {
    if calls != [] {
      FixedTrace(s, calls[..|calls| - 1]);
    }
  }

  /**
   * A fresh `CyclePlayer`'s k-th play returns `valid_moves[k % 3]` (rock,
   * paper, scissor, rock, ...), and `learn` calls between the plays change
   * nothing: the trace depends only on how many plays were made.
   */
  lemma {:induction false} CycleTrace(s: PlayerState, calls: seq<Call>)
    requires s.strategy == Cycle && s.lastMove == None
    ensures Final(s, calls) == s.(lastMove := CycleMemory(PlayCount(calls)))
    ensures |Trace(s, calls)| == PlayCount(calls)
    ensures forall k :: 0 <= k < |Trace(s, calls)| ==> Trace(s, calls)[k] == ValidMoves[k % |ValidMoves|]
  {
    if calls != [] {
      var before := calls[..|calls| - 1];
      CycleTrace(s, before);
      if calls[|calls| - 1].PlayCall? {
        CycleMoveAfter(PlayCount(before));
      }
    }
  }

  /**
   * A `ReflectPlayer` changes only its opponent memory, which holds the last
   * move it learnt, so each `play` returns that move, or rock before any
   * `learn`; `play` itself never changes its state.
   */
  lemma {:induction false} ReflectTrace(s: PlayerState, calls: seq<Call>)
    requires s.strategy == Reflect
    ensures Final(s, calls) == s.(lastCounterpartMove := LastLearned(s.lastCounterpartMove, calls))
    ensures Chosen(Final(s, calls)) == LastLearned(s.lastCounterpartMove, calls).GetOr(Rock)
    ensures Final(s, calls + [PlayCall]) == Final(s, calls)
  {
    if calls != [] {
      ReflectTrace(s, calls[..|calls| - 1]);
    }
    assert (calls + [PlayCall])[..|calls|] == calls;
  }

  /** `RandomPlayer.play` given the draw of `random.randint(0, 2)`: the move at that index. */
  function RandomMove(draw: nat): (m: Move)
    requires draw < |ValidMoves|
    ensures IndexOf(m) == draw
  {
    ValidMoves[draw]
  }

  /**
   * `HumanPlayer.play` over the lines typed at the console, in order: it
   * re-prompts after each line that is not a move name and returns the move
   * named by the first line that is. `notices` counts the "Invalid move"
   * re-prompts. `None` means the lines ran out before a valid one.
   */
  method HumanPlay(responses: seq<string>) returns (move: Option<Move>, notices: nat)
    ensures notices <= |responses|
    ensures forall k :: 0 <= k < notices ==> responses[k] !in Names
    ensures move.Some? <==> notices < |responses|
    ensures move.Some? ==> Name(move.value) == responses[notices]
  {
    notices := 0;
    while notices < |responses| && responses[notices] !in Names
      invariant notices <= |responses|
      invariant forall k :: 0 <= k < notices ==> responses[k] !in Names
    {
      notices := notices + 1;
    }
    if notices < |responses| {
      move := Parse(responses[notices]);
    } else {
      move := None;
    }
  }

  /**
   * A player object. The class hierarchy becomes one class tagged by its
   * `strategy`; `score` is kept by the game and only ever incremented there.
   */
  class Player {
    const strategy: Strategy
    var score: nat
    var lastCounterpartMove: Option<Move>
    var lastMove: Option<Move>

    /** The object's fields as a value. */
    function State(): PlayerState
      reads this
    {
      PlayerState(strategy, score, lastCounterpartMove, lastMove)
    }

    constructor (strategy: Strategy)
      ensures State() == Initial(strategy)
    {
      this.strategy := strategy;
      score := 0;
      lastCounterpartMove := None;
      lastMove := None;
    }

    /** `play()`: returns this round's move; a `CyclePlayer` also records it as its last move. */
    method Play() returns (m: Move)
      modifies this`lastMove
      ensures m == Chosen(old(State()))
      ensures State() == AfterPlay(old(State()))
    {
      match strategy
      case Fixed =>
        m := ValidMoves[0];
      case Reflect =>
        if lastCounterpartMove.None? {
          m := ValidMoves[0];
        } else {
          m := lastCounterpartMove.value;
        }
      case Cycle =>
        var move;
        if lastMove.None? {
          move := ValidMoves[0];
        } else {
          var index := IndexOf(lastMove.value) + 1;
          if index >= |ValidMoves| {
            index := 0;
          }
          move := ValidMoves[index];
        }
        lastMove := Some(move);
        m := move;
    }

    /** `learn(opponent)`: only a `ReflectPlayer` keeps the opponent's move. */
    method Learn(opponent: Move)
      modifies this`lastCounterpartMove
      ensures State() == AfterLearn(old(State()), opponent)
    {
      if strategy == Reflect {
        lastCounterpartMove := Some(opponent);
      }
    }
  }
}
