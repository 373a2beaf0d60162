/**
 * The match engine, `Game`: one round asks both players for a move, resolves
 * it, lets each player learn the other's move and awards at most one point;
 * a match repeats rounds until the user stops it and then reports the verdict.
 */
module Match {
  import opened Wrappers
  import opened Moves
  import opened Rules
  import opened Players

  /** The overall result announced when a match ends. */
  datatype Verdict = Player1Wins | Player2Wins | Draw

  /** What the user answers at the "play again" prompt: enter, or ctrl+C. */
  datatype Signal = Continue | Stop

  /** What a round reports: both moves and the result of `Game.check_result`. */
  datatype Report = Report(move1: Move, move2: Move, result: int)

  /** The two players of a game, as values. */
  datatype Table = Table(player1: PlayerState, player2: PlayerState)

  /** The player's state with one more point when it won the round. */
  function Award(s: PlayerState, won: bool): PlayerState {
    if won then s.(score := s.score + 1) else s
  }

  /**
   * `Game.play_round`: both moves are taken from the states before the round,
   * each player learns exactly the move its opponent just played, and the
   * winner, if any, gains exactly one point while the other score stays.
   */
  function Round(t: Table): (r: (Table, Report))
    ensures r.1.move1 == Chosen(t.player1) && r.1.move2 == Chosen(t.player2)
    ensures r.1.result == CheckResult(r.1.move1, r.1.move2)
    ensures r.0.player1.(score := 0) == AfterLearn(AfterPlay(t.player1), r.1.move2).(score := 0)
    ensures r.0.player2.(score := 0) == AfterLearn(AfterPlay(t.player2), r.1.move1).(score := 0)
    ensures r.1.result == 1 ==> r.0.player1.score == t.player1.score + 1 && r.0.player2.score == t.player2.score
    ensures r.1.result == 2 ==> r.0.player2.score == t.player2.score + 1 && r.0.player1.score == t.player1.score
    ensures r.1.result == 0 ==> r.0.player1.score == t.player1.score && r.0.player2.score == t.player2.score
  {
    var move1 := Chosen(t.player1);
    var move2 := Chosen(t.player2);
    var result := CheckResult(move1, move2);
    var player1 := AfterLearn(AfterPlay(t.player1), move2);
    var player2 := AfterLearn(AfterPlay(t.player2), move1);
    (Table(Award(player1, result == 1), Award(player2, result == 2)), Report(move1, move2, result))
  }

  /**
   * The table and the reports after `n` rounds: one report per round, the
   * players keep their classes, and neither score has gone down.
   */
  function Rounds(t: Table, n: nat): (r: (Table, seq<Report>))
    ensures |r.1| == n
    ensures r.0.player1.strategy == t.player1.strategy && r.0.player2.strategy == t.player2.strategy
    ensures r.0.player1.score >= t.player1.score && r.0.player2.score >= t.player2.score
  {
    if n == 0 then (t, [])
    else
      var before := Rounds(t, n - 1);
      var round := Round(before.0);
      (round.0, before.1 + [round.1])
  }

  /** One more round continues the table and the reports of the rounds before it. */
  lemma RoundsNext(t: Table, n: nat)
    ensures Rounds(t, n + 1).0 == Round(Rounds(t, n).0).0
    ensures Rounds(t, n + 1).1 == Rounds(t, n).1 + [Round(Rounds(t, n).0).1]
  {
  }

  /** How many of the reports have the given result. */
  function Count(reports: seq<Report>, result: int): nat
  {
    if reports == [] then 0
    else Count(reports[..|reports| - 1], result) + if reports[|reports| - 1].result == result then 1 else 0
  }

  /**
   * After `n` rounds there are `n` reports, each player's score has grown by
   * exactly the number of rounds it won, and the two scores together by at
   * most `n`; the strategies never change.
   */
  lemma {:induction false} ScoreTally(t: Table, n: nat)
    ensures |Rounds(t, n).1| == n
    ensures Rounds(t, n).0.player1.strategy == t.player1.strategy
    ensures Rounds(t, n).0.player2.strategy == t.player2.strategy
    ensures Rounds(t, n).0.player1.score == t.player1.score + Count(Rounds(t, n).1, 1)
    ensures Rounds(t, n).0.player2.score == t.player2.score + Count(Rounds(t, n).1, 2)
    ensures Rounds(t, n).0.player1.score + Rounds(t, n).0.player2.score <= t.player1.score + t.player2.score + n
  {
    if n > 0 {
      ScoreTally(t, n - 1);
      var reports := Rounds(t, n).1;
      assert reports[..n - 1] == Rounds(t, n - 1).1;
    }
  }

  /** Scores never decrease: a later point of the match has at least the earlier scores. */
  lemma {:induction false} ScoresNeverDecrease(t: Table, m: nat, n: nat)
    requires m <= n
    ensures Rounds(t, m).0.player1.score <= Rounds(t, n).0.player1.score
    ensures Rounds(t, m).0.player2.score <= Rounds(t, n).0.player2.score
  {
    if m < n {
      ScoresNeverDecrease(t, m, n - 1);
    }
  }

  /**
   * A `ReflectPlayer` as player 1 opens with rock and then, every round,
   * replays the move player 2 made in the round before.
   */
  lemma {:induction false} ReflectEchoesOpponent(t: Table, n: nat)
    requires t.player1.strategy == Reflect && t.player1.lastCounterpartMove.None?
    ensures |Rounds(t, n).1| == n
    ensures n > 0 ==> Rounds(t, n).1[0].move1 == Rock
    ensures forall k :: 0 <= k < n - 1 ==> Rounds(t, n).1[k + 1].move1 == Rounds(t, n).1[k].move2
    ensures n > 0 ==> Rounds(t, n).0.player1.lastCounterpartMove == Some(Rounds(t, n).1[n - 1].move2)
  {
    ScoreTally(t, n);
    if n > 0 {
      ReflectEchoesOpponent(t, n - 1);
      ScoreTally(t, n - 1);
      var reports := Rounds(t, n).1;
      assert reports[..n - 1] == Rounds(t, n - 1).1;
    }
  }

  /**
   * A fresh `CyclePlayer` as player 2 plays rock, paper, scissor, rock, ...:
   * its move in round k is `valid_moves[k % 3]`, whatever player 1 does.
   */
  lemma {:induction false} CycleOpponentSequence(t: Table, n: nat)
    requires t.player2.strategy == Cycle && t.player2.lastMove.None?
    ensures |Rounds(t, n).1| == n
    ensures Rounds(t, n).0.player2.lastMove == CycleMemory(n)
    ensures forall k :: 0 <= k < n ==> Rounds(t, n).1[k].move2 == ValidMoves[k % |ValidMoves|]
  {
    if n > 0 {
      CycleOpponentSequence(t, n - 1);
      CycleMoveAfter(n - 1);
      var before := Rounds(t, n - 1);
      var round := Round(before.0);
      assert round.1.move2 == ValidMoves[(n - 1) % |ValidMoves|];
      assert round.0.player2.lastMove == CycleMemory(n);
      var reports := Rounds(t, n).1;
      assert reports == before.1 + [round.1];
      forall k | 0 <= k < n
        ensures reports[k].move2 == ValidMoves[k % |ValidMoves|]
      {
        if k < n - 1 {
          assert reports[k] == before.1[k];
        }
      }
    }
  }

  /**
   * Four rounds of a base `Player` against a fresh `CyclePlayer`: draw, loss,
   * win, draw, ending 1 x 1, a drawn match.
   */
  lemma FixedAgainstCycle()
    ensures Rounds(Table(Initial(Fixed), Initial(Cycle)), 4).1
         == [Report(Rock, Rock, 0), Report(Rock, Paper, 2), Report(Rock, Scissor, 1), Report(Rock, Rock, 0)]
    ensures Rounds(Table(Initial(Fixed), Initial(Cycle)), 4).0.player1.score == 1
    ensures Rounds(Table(Initial(Fixed), Initial(Cycle)), 4).0.player2.score == 1
    ensures FinalVerdict(1, 1) == Draw
  {
    var t := Table(Initial(Fixed), Initial(Cycle));
    var t1 := Table(Initial(Fixed), Initial(Cycle).(lastMove := Some(Rock)));
    var t2 := Table(Initial(Fixed), PlayerState(Cycle, 1, None, Some(Paper)));
    var t3 := Table(Initial(Fixed).(score := 1), PlayerState(Cycle, 1, None, Some(Scissor)));
    var t4 := Table(Initial(Fixed).(score := 1), PlayerState(Cycle, 1, None, Some(Rock)));
    assert Round(t) == (t1, Report(Rock, Rock, 0));
    assert Round(t1) == (t2, Report(Rock, Paper, 2));
    assert Round(t2) == (t3, Report(Rock, Scissor, 1));
    assert Round(t3) == (t4, Report(Rock, Rock, 0));
    assert Rounds(t, 1).0 == t1 && Rounds(t, 1).1 == [Report(Rock, Rock, 0)];
    assert Rounds(t, 2).0 == t2 && Rounds(t, 2).1 == [Report(Rock, Rock, 0), Report(Rock, Paper, 2)];
    assert Rounds(t, 3).0 == t3 && Rounds(t, 3).1 == [Report(Rock, Rock, 0), Report(Rock, Paper, 2), Report(Rock, Scissor, 1)];
  }

  /**
   * The end-of-match verdict as written: the second test repeats the first,
   * so "Player 2 beats Player 1" is never chosen and a lead of player 2 is
   * announced as a draw.
   */
  function VerdictAsWritten(score1: int, score2: int): (v: Verdict)
    ensures v != Player2Wins
    ensures v == Draw <==> score1 <= score2
  {
    if score1 > score2 then Player1Wins
    else if score1 > score2 then Player2Wins
    else Draw
  }

  /** The smallest match where the two verdicts disagree: 0 x 1 is called a draw. */
  lemma VerdictAsWrittenMisreports()
    ensures VerdictAsWritten(0, 1) == Draw && FinalVerdict(0, 1) == Player2Wins
  {
  }

  /** The intended end-of-match verdict: the three-way comparison of the scores. */
  function FinalVerdict(score1: int, score2: int): (v: Verdict)
    ensures v == Player1Wins <==> score1 > score2
    ensures v == Player2Wins <==> score1 < score2
    ensures v == Draw <==> score1 == score2
  {
    if score1 > score2 then Player1Wins
    else if score1 < score2 then Player2Wins
    else Draw
  }

  /** A game owns two distinct player objects for its whole life and keeps their scores. */
  class Game {
    const player1: Player
    const player2: Player

    ghost predicate Valid()
      reads this
    {
      player1 != player2
    }

    /** Both players as values. */
    function Snapshot(): Table
      reads this, player1, player2
    {
      Table(player1.State(), player2.State())
    }

    constructor (strategy1: Strategy, strategy2: Strategy)
      ensures Valid() && fresh(player1) && fresh(player2)
      ensures Snapshot() == Table(Initial(strategy1), Initial(strategy2))
    {
      player1 := new Player(strategy1);
      player2 := new Player(strategy2);
    }

    /** `play_round`, returning the moves and result it prints. */
    method PlayRound() returns (report: Report)
      requires Valid()
      modifies player1, player2
      ensures Snapshot() == Round(old(Snapshot())).0 && report == Round(old(Snapshot())).1
    {
      var move1 := player1.Play();
      var move2 := player2.Play();
      var result := CheckResult(move1, move2);
      player1.Learn(move2);
      player2.Learn(move1);
      if result == 1 {
        player1.score := player1.score + 1;
      } else if result == 2 {
        player2.score := player2.score + 1;
      }
      report := Report(move1, move2, result);
    }

    /**
     * `play_match` with the user's answers at the "play again" prompt given
     * in order: a round is always played first; each `Continue` plays one
     * more; the first `Stop`, or the end of the answers, ends the match,
     * which then reports the verdict on the final scores.
     */
    method PlayMatch(signals: seq<Signal>) returns (verdict: Verdict, reports: seq<Report>)
      requires Valid()
      modifies player1, player2
      ensures 1 <= |reports| <= |signals| + 1
      ensures forall k :: 0 <= k < |reports| - 1 ==> signals[k] == Continue
      ensures |reports| - 1 < |signals| ==> signals[|reports| - 1] == Stop
      ensures Snapshot() == Rounds(old(Snapshot()), |reports|).0
      ensures reports == Rounds(old(Snapshot()), |reports|).1
      ensures verdict == FinalVerdict(player1.score, player2.score)
    {
      ghost var start := Snapshot();
      var report := PlayRound();
      RoundsNext(start, 0);
      reports := [report];
      var i := 0;
      while i < |signals| && signals[i] == Continue
        invariant i <= |signals| && |reports| == i + 1
        invariant forall k :: 0 <= k < i ==> signals[k] == Continue
        invariant Snapshot() == Rounds(start, |reports|).0
        invariant reports == Rounds(start, |reports|).1
      {
        report := PlayRound();
        RoundsNext(start, |reports|);
        reports := reports + [report];
        i := i + 1;
      }
      verdict := FinalVerdict(player1.score, player2.score);
    }
  }
}
