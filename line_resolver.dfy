/**
 * Line resolution (the first half of `getRandomPosition` in lib/opening-utils.ts):
 * an opening's main line, optionally with a variation spliced in at its branch ply.
 */
module LineResolver {
  import opened Wrappers
  import opened ChessRules
  import opened PositionGenerator

  /** A catalogue opening: the fields the practice engine reads. */
  datatype Opening = Opening(id: string, name: string, moves: seq<San>)

  /** A variation of an opening: its own moves replace the main line from ply `branchAtMove` on. */
  datatype Variation = Variation(id: string, name: string, moves: seq<San>, branchAtMove: int)

  /** A user-authored line, with the side the learner plays. */
  datatype CustomOpening = CustomOpening(id: string, name: string, moves: seq<San>, color: Color)

  /** The effective line to quiz and the labels attached to its positions. */
  datatype Line = Line(moves: seq<San>, openingName: string, variationId: string, variationName: string)

  /**
   * The end index that JavaScript's `list.slice(0, end)` uses on a list of length
   * `len`: a negative `end` counts from the back, and the result is clamped to the list.
   */
  function SliceEnd(len: nat, end: int): (e: nat)
    ensures e <= len
    ensures 0 <= end <= len ==> e == end
    ensures end > len ==> e == len
    ensures end < 0 ==> e == if len + end < 0 then 0 else len + end
  {
    if end < 0 then (if len + end < 0 then 0 else len + end)
    else if end > len then len
    else end
  }

  /** The moves to quiz and the display labels for an opening with an optional variation. */
  function ResolveLine(opening: Opening, variation: Option<Variation>): (line: Line)
    ensures variation.None? ==>
      line.moves == opening.moves && line.openingName == opening.name &&
      line.variationId == "" && line.variationName == ""
    ensures variation.Some? ==>
      var v := variation.value;
      var b := SliceEnd(|opening.moves|, v.branchAtMove);
      && |line.moves| == b + |v.moves|
      && line.moves[..b] == opening.moves[..b]
      && line.moves[b..] == v.moves
      && line.openingName == opening.name + ": " + v.name
      && line.variationId == v.id
      && line.variationName == v.name
  {
    match variation
    case None => Line(opening.moves, opening.name, "", "")
    case Some(v) =>
      var b := SliceEnd(|opening.moves|, v.branchAtMove);
      Line(opening.moves[..b] + v.moves, opening.name + ": " + v.name, v.id, v.name)
  }

  /**
   * A variation branching inside the main line keeps the main line's first
   * `branchAtMove` plies and continues with the variation's moves, so every ply
   * before the branch is quizzed exactly as in the main line.
   */
  lemma {:induction false} BranchKeepsPrefix(opening: Opening, v: Variation, i: nat)
    requires 0 <= v.branchAtMove <= |opening.moves|
    ensures i < v.branchAtMove ==> ResolveLine(opening, Some(v)).moves[i] == opening.moves[i]
    ensures v.branchAtMove <= i < v.branchAtMove + |v.moves| ==>
              ResolveLine(opening, Some(v)).moves[i] == v.moves[i - v.branchAtMove]
  {
  }

  /** A variation `Bb5` branching at ply 2 of `e4 e5 Nf3 Nc6` gives `e4 e5 Bb5`. */
  lemma BranchAtPlyTwoExample()
    ensures ResolveLine(Opening("o", "Open Game", ["e4", "e5", "Nf3", "Nc6"]),
                        Some(Variation("v", "Early Bishop", ["Bb5"], 2))).moves
            == ["e4", "e5", "Bb5"]
  {
  }
}
