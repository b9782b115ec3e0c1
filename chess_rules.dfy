/**
 * The chess-rules collaborator (the chess.js library), abstracted as an oracle.
 * Positions are FEN strings and moves are SAN strings (section 8.2.3 of the PGN
 * Standard); both are opaque here: the practice engine only passes them on and
 * compares them for equality.
 */
module ChessRules {
  import opened Wrappers

  /** A position in Forsyth-Edwards Notation, treated as an opaque string. */
  type Fen = string

  /** A move in Standard Algebraic Notation, treated as an opaque string. */
  type San = string

  /** The outcome of a legal move: the position it reaches and its canonical SAN. */
  datatype Played = Played(fen: Fen, san: San)

  /**
   * The rules engine: the standard starting position; `apply(fen, move)` plays a
   * move (a SAN string or a move descriptor) at a position, `None` when the engine
   * rejects it; `validFen` is the check the engine runs when it is constructed
   * from, or loaded with, a FEN string.
   */
  datatype Rules = Rules(initial: Fen, apply: (Fen, string) -> Option<Played>, validFen: Fen -> bool)

  /** The position after one move, or `None` when the move is rejected. */
  function Advance(rules: Rules, from: Fen, move: string): Option<Fen>
  {
    match rules.apply(from, move)
    case None => None
    case Some(p) => Some(p.fen)
  }

  /** The position reached by playing `moves` in order from `from`; `None` as soon as one is rejected. */
  function Replay(rules: Rules, from: Fen, moves: seq<string>): Option<Fen>
    decreases |moves|
  {
    if moves == [] then Some(from)
    else
      match rules.apply(from, moves[0])
      case None => None
      case Some(p) => Replay(rules, p.fen, moves[1..])
  }

  /** Replaying a concatenation replays the first part, then the second from where the first ended. */
  lemma {:induction false} ReplayAppend(rules: Rules, from: Fen, s: seq<string>, t: seq<string>)
    ensures Replay(rules, from, s + t) ==
              match Replay(rules, from, s)
              case None => None
              case Some(f) => Replay(rules, f, t)
    decreases |s|
  {
    if s == [] {
      assert s + t == t;
    } else {
      assert (s + t)[0] == s[0];
      assert (s + t)[1..] == s[1..] + t;
      match rules.apply(from, s[0])
      case None =>
      case Some(p) => ReplayAppend(rules, p.fen, s[1..], t);
    }
  }

  /** Replaying one more move is one more oracle step after the replay. */
  lemma ReplaySnoc(rules: Rules, from: Fen, s: seq<string>, m: string)
    ensures Replay(rules, from, s + [m]) ==
              match Replay(rules, from, s)
              case None => None
              case Some(f) => Advance(rules, f, m)
  {
    ReplayAppend(rules, from, s, [m]);
    match Replay(rules, from, s)
    case None =>
    case Some(f) =>
      assert [m][1..] == [];
  }

  /**
   * Once the move at ply `j` is rejected, no longer prefix of the line can be
   * replayed either.
   */
  lemma ReplayStaysRejected(rules: Rules, moves: seq<string>, j: nat, i: nat)
    requires j < i <= |moves|
    requires Replay(rules, rules.initial, moves[..j]).Some?
    requires rules.apply(Replay(rules, rules.initial, moves[..j]).value, moves[j]).None?
    ensures Replay(rules, rules.initial, moves[..i]).None?
  {
    assert moves[..j + 1] == moves[..j] + [moves[j]];
    ReplaySnoc(rules, rules.initial, moves[..j], moves[j]);
    assert moves[..i] == moves[..j + 1] + moves[j + 1..i];
    ReplayAppend(rules, rules.initial, moves[..j + 1], moves[j + 1..i]);
  }
}
