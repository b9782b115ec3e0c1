/** Move judging (`validateMove` in lib/opening-utils.ts). */
module MoveJudge {
  import opened Wrappers
  import opened ChessRules

  /** The verdict on a submitted move. */
  datatype Verdict = Verdict(isCorrect: bool, message: string)

  const InvalidMove: string := "Invalid move"

  /**
   * Judge `userMove` at `fen` against the expected `correctMove`. `None` stands for
   * the exception the rules engine throws when `fen` is not a valid FEN: the engine
   * is built before the guarded block, so that error reaches the caller.
   */
  function ValidateMove(rules: Rules, fen: Fen, userMove: string, correctMove: San): (v: Option<Verdict>)
    ensures v.None? <==> !rules.validFen(fen)
    ensures v.Some? ==>
      (v.value.isCorrect <==>
         rules.apply(fen, userMove).Some? && rules.apply(fen, userMove).value.san == correctMove)
    ensures v.Some? ==> (v.value.message == InvalidMove <==> rules.apply(fen, userMove).None?)
    ensures v.Some? && !v.value.isCorrect && rules.apply(fen, userMove).Some? ==>
      v.value.message == "Incorrect. The correct move was " + correctMove
  {
    if !rules.validFen(fen) then None
    else
      match rules.apply(fen, userMove)
      case None => Some(Verdict(false, InvalidMove))
      case Some(move) =>
        if move.san == correctMove then Some(Verdict(true, "Correct!"))
        else
          var message := "Incorrect. The correct move was " + correctMove;
          assert |message| > |InvalidMove|;
          Some(Verdict(false, message))
  }
}
