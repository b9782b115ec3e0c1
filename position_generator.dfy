/**
 * Quiz-position generation (`generatePracticePositions` in lib/opening-utils.ts):
 * replay a move list from the starting position and, for each selected ply,
 * record the position before that ply, the expected move and the moves before it.
 */
module PositionGenerator {
  import opened Wrappers
  import opened ChessRules

  /** The side the learner plays. */
  datatype Color = White | Black

  /** A quiz position: ply index, position before the ply, expected move, preceding moves. */
  datatype Position = Position(moveNumber: nat, fen: Fen, correctMove: San, previousMoves: seq<San>)

  /** Ply `i` is played by `color` (ply 0 is White's first move). */
  predicate OwnPly(i: nat, color: Color)
  {
    (i % 2 == 0) == (color == White)
  }

  /** The plies of `color` among the first `n`, in increasing order: the default selection. */
  function DefaultTargets(n: nat, color: Color): seq<int>
  {
    if n == 0 then []
    else DefaultTargets(n - 1, color) + (if OwnPly(n - 1, color) then [n - 1] else [])
  }

  /** The plies to capture: the requested ones, or all of the learner's when none are requested. */
  function Targets(moves: seq<San>, practiceMoveNumbers: seq<int>, color: Color): seq<int>
  {
    if practiceMoveNumbers == [] then DefaultTargets(|moves|, color) else practiceMoveNumbers
  }

  /**
   * The positions captured from ply `i` on, with `fen` the running position before
   * ply `i`: the ply is captured when it is a target, and replay stops after the
   * first move the rules reject.
   */
  function Capture(rules: Rules, moves: seq<San>, targets: seq<int>, i: nat, fen: Fen): seq<Position>
    requires i <= |moves|
    decreases |moves| - i
  {
    if i == |moves| then []
    else
      var here := if i in targets then [Position(i, fen, moves[i], moves[..i])] else [];
      match rules.apply(fen, moves[i])
      case None => here
      case Some(p) => here + Capture(rules, moves, targets, i + 1, p.fen)
  }

  /** All positions generated for `moves` and `targets` from the starting position. */
  function Generated(rules: Rules, moves: seq<San>, targets: seq<int>): seq<Position>
  {
    Capture(rules, moves, targets, 0, rules.initial)
  }

  /**
   * `q` is a genuine quiz position of `moves`: a target ply inside the line, whose
   * expected move is the move at that ply, whose preceding moves are the line up to
   * it, and whose position is what replaying those moves from the start reaches.
   */
  predicate IsCandidate(rules: Rules, moves: seq<San>, targets: seq<int>, q: Position)
  {
    && q.moveNumber < |moves|
    && q.moveNumber in targets
    && q.correctMove == moves[q.moveNumber]
    && q.previousMoves == moves[..q.moveNumber]
    && Replay(rules, rules.initial, q.previousMoves) == Some(q.fen)
  }

  /** Strictly increasing ply numbers: no ply appears twice and the order is the line's. */
  predicate Increasing(ps: seq<Position>)
  {
    forall a, b :: 0 <= a < b < |ps| ==> ps[a].moveNumber < ps[b].moveNumber
  }

  method GeneratePracticePositions(rules: Rules, moves: seq<San>, practiceMoveNumbers: seq<int>, color: Color)
    returns (positions: seq<Position>)
    ensures positions == Generated(rules, moves, Targets(moves, practiceMoveNumbers, color))
  {
    positions := [];
    var fen := rules.initial;

    var moveNumbersToGenerate := practiceMoveNumbers;
    if |moveNumbersToGenerate| == 0 {
      moveNumbersToGenerate := [];
      for i := 0 to |moves|
        invariant moveNumbersToGenerate == DefaultTargets(i, color)
      {
        var isWhiteTurn := i % 2 == 0;
        if (color == White && isWhiteTurn) || (color == Black && !isWhiteTurn) {
          moveNumbersToGenerate := moveNumbersToGenerate + [i];
        }
      }
    }

    var i := 0;
    while i < |moves|
      invariant i <= |moves|
      invariant positions + Capture(rules, moves, moveNumbersToGenerate, i, fen)
                == Generated(rules, moves, moveNumbersToGenerate)
    {
      ghost var before := positions;
      ghost var here := if i in moveNumbersToGenerate then [Position(i, fen, moves[i], moves[..i])] else [];
      if i in moveNumbersToGenerate {
        positions := positions + [Position(i, fen, moves[i], moves[..i])];
      }
      assert positions == before + here;
      var played := rules.apply(fen, moves[i]);
      if played.None? {
        assert Capture(rules, moves, moveNumbersToGenerate, i, fen) == here;
        break;
      }
      assert Capture(rules, moves, moveNumbersToGenerate, i, fen)
             == here + Capture(rules, moves, moveNumbersToGenerate, i + 1, played.value.fen);
      fen := played.value.fen;
      i := i + 1;
    }
  }

  /** The default selection is exactly the plies of the learner's colour inside the line. */
  lemma {:induction false} DefaultTargetsExact(n: nat, color: Color)
    ensures forall x :: x in DefaultTargets(n, color) <==> 0 <= x < n && OwnPly(x, color)
    ensures forall a, b :: 0 <= a < b < |DefaultTargets(n, color)| ==>
              DefaultTargets(n, color)[a] < DefaultTargets(n, color)[b]
  {
    if n > 0 {
      DefaultTargetsExact(n - 1, color);
      var prev := DefaultTargets(n - 1, color);
      assert forall a :: 0 <= a < |prev| ==> prev[a] in prev;
    }
  }

  /** What `Capture` from ply `i` produces: sound, in order, complete, and short. */
  lemma {:induction false} CaptureFacts(rules: Rules, moves: seq<San>, targets: seq<int>, i: nat, fen: Fen)
    requires i <= |moves|
    ensures var out := Capture(rules, moves, targets, i, fen);
      && |out| <= |moves| - i
      && Increasing(out)
      && (forall q :: q in out ==>
            && i <= q.moveNumber < |moves|
            && q.moveNumber in targets
            && q.correctMove == moves[q.moveNumber]
            && q.previousMoves == moves[..q.moveNumber]
            && Replay(rules, fen, moves[i..q.moveNumber]) == Some(q.fen))
      && (forall j :: i <= j < |moves| && j in targets && Replay(rules, fen, moves[i..j]).Some? ==>
            exists q :: q in out && q.moveNumber == j)
    decreases |moves| - i
  {
    if i < |moves| {
      var here := if i in targets then [Position(i, fen, moves[i], moves[..i])] else [];
      assert moves[i..i] == [];
      match rules.apply(fen, moves[i])
      case None =>
        forall j | i < j < |moves|
          ensures Replay(rules, fen, moves[i..j]).None?
        {
          assert moves[i..j][0] == moves[i];
        }
      case Some(p) =>
        var rest := Capture(rules, moves, targets, i + 1, p.fen);
        CaptureFacts(rules, moves, targets, i + 1, p.fen);
        assert Capture(rules, moves, targets, i, fen) == here + rest;
        forall j | i < j <= |moves|
          ensures Replay(rules, fen, moves[i..j]) == Replay(rules, p.fen, moves[i + 1..j])
        {
          assert moves[i..j][0] == moves[i];
          assert moves[i..j][1..] == moves[i + 1..j];
        }
    }
  }

  /**
   * The generated positions are exactly the target plies the replay reaches, each
   * recorded once, in increasing ply order, with its position, expected move and
   * preceding moves taken from the line; there are at most as many as plies.
   */
  lemma GeneratedExact(rules: Rules, moves: seq<San>, targets: seq<int>)
    ensures var out := Generated(rules, moves, targets);
      && |out| <= |moves|
      && Increasing(out)
      && (forall q :: q in out ==> IsCandidate(rules, moves, targets, q))
      && (forall j :: 0 <= j < |moves| && j in targets && Replay(rules, rules.initial, moves[..j]).Some? ==>
            exists q :: q in out && q.moveNumber == j)
  {
    CaptureFacts(rules, moves, targets, 0, rules.initial);
    assert forall j :: 0 <= j <= |moves| ==> moves[0..j] == moves[..j];
  }

  /**
   * Replay stops at the first rejected ply `j`: no position lies beyond it, and the
   * position at `j` itself is still recorded when `j` is a target, since it is
   * captured before the move is tried.
   */
  lemma GeneratedStopsAtRejection(rules: Rules, moves: seq<San>, targets: seq<int>, j: nat)
    requires j < |moves|
    requires Replay(rules, rules.initial, moves[..j]).Some?
    requires rules.apply(Replay(rules, rules.initial, moves[..j]).value, moves[j]).None?
    ensures forall q :: q in Generated(rules, moves, targets) ==> q.moveNumber <= j
    ensures j in targets ==> exists q :: q in Generated(rules, moves, targets) && q.moveNumber == j
  {
    GeneratedExact(rules, moves, targets);
    forall q | q in Generated(rules, moves, targets)
      ensures q.moveNumber <= j
    {
      if q.moveNumber > j {
        ReplayStaysRejected(rules, moves, j, q.moveNumber);
      }
    }
  }

  /**
   * Round trip: replaying a position's preceding moves followed by its expected move
   * reaches the same position as playing the expected move at the recorded position.
   */
  lemma GeneratedRoundTrip(rules: Rules, moves: seq<San>, targets: seq<int>, q: Position)
    requires q in Generated(rules, moves, targets)
    ensures Replay(rules, rules.initial, q.previousMoves + [q.correctMove]) == Advance(rules, q.fen, q.correctMove)
  {
    GeneratedExact(rules, moves, targets);
    ReplaySnoc(rules, rules.initial, q.previousMoves, q.correctMove);
  }

  /**
   * With no explicit selection the generated plies are exactly the learner's plies
   * that the replay reaches.
   */
  lemma DefaultSelection(rules: Rules, moves: seq<San>, color: Color)
    ensures var out := Generated(rules, moves, Targets(moves, [], color));
      && (forall q :: q in out ==> OwnPly(q.moveNumber, color))
      && (forall j :: 0 <= j < |moves| && OwnPly(j, color) && Replay(rules, rules.initial, moves[..j]).Some? ==>
            exists q :: q in out && q.moveNumber == j)
  {
    DefaultTargetsExact(|moves|, color);
    GeneratedExact(rules, moves, Targets(moves, [], color));
  }

  /**
   * The line `e4 e5 Nf3` learnt as White: plies 0 and 2 are selected, and once the
   * first two moves are legal the position for ply 2 expects `Nf3` after `e4 e5`.
   */
  lemma OpenGameExample(rules: Rules)
    requires Replay(rules, rules.initial, ["e4", "e5"]).Some?
    ensures DefaultTargets(3, White) == [0, 2]
    ensures var out := Generated(rules, ["e4", "e5", "Nf3"], [0, 2]);
      && |out| == 2
      && out[0].moveNumber == 0 && out[0].correctMove == "e4" && out[0].previousMoves == []
      && out[1].moveNumber == 2 && out[1].correctMove == "Nf3" && out[1].previousMoves == ["e4", "e5"]
  {
  }
}
