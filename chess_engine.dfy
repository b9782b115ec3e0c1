/**
 * The move history and redo stack of the board hook (`useChessEngine` in
 * hooks/useChessEngine.ts): moves, undo, redo, load and reset over the rules engine.
 */
module ChessEngine {
  import opened Wrappers
  import opened ChessRules

  /** A move as the rules engine records it: what was asked for, its SAN, the positions around it. */
  datatype EngineMove = EngineMove(input: string, san: San, before: Fen, after: Fen)

  /**
   * The engine's state: the position the game started from (or was loaded with),
   * the moves played since, and the redo stack, whose top is its last element.
   */
  datatype EngineState = EngineState(base: Fen, history: seq<EngineMove>, redo: seq<EngineMove>)

  /** `m` is what the rules make of `m.input` at `m.before`. */
  predicate Replays(rules: Rules, m: EngineMove)
  {
    rules.apply(m.before, m.input) == Some(Played(m.after, m.san))
  }

  /** `ms` is a line of moves, each one recorded where the previous one ended, starting at `from`. */
  predicate Chain(rules: Rules, from: Fen, ms: seq<EngineMove>)
    decreases |ms|
  {
    ms == [] || (ms[0].before == from && Replays(rules, ms[0]) && Chain(rules, ms[0].after, ms[1..]))
  }

  /** The position at the end of the line `ms` started at `from`. */
  function Tip(from: Fen, ms: seq<EngineMove>): Fen
  {
    if ms == [] then from else ms[|ms| - 1].after
  }

  /** The moves of `s` in the opposite order: the redo stack read from its top down. */
  function Reversed(s: seq<EngineMove>): (r: seq<EngineMove>)
    ensures |r| == |s|
  {
    if s == [] then [] else Reversed(s[1..]) + [s[0]]
  }

  /** The current position: the end of the history. */
  function CurrentFen(s: EngineState): Fen
  {
    Tip(s.base, s.history)
  }

  /**
   * The engine's invariant: the history, then the redo stack from its top down, is
   * one legal line from the base position, so every undone move can be replayed.
   */
  predicate Consistent(rules: Rules, s: EngineState)
  {
    Chain(rules, s.base, s.history + Reversed(s.redo))
  }

  /** The move the rules make of `input` at the current position, `None` when rejected. */
  function Attempt(rules: Rules, s: EngineState, input: string): Option<EngineMove>
  {
    match rules.apply(CurrentFen(s), input)
    case None => None
    case Some(p) => Some(EngineMove(input, p.san, CurrentFen(s), p.fen))
  }

  /** `move`: an accepted move is appended and the redo stack is dropped; a rejected one changes nothing. */
  function AfterMove(rules: Rules, s: EngineState, input: string): EngineState
  {
    match Attempt(rules, s, input)
    case None => s
    case Some(m) => EngineState(s.base, s.history + [m], [])
  }

  /** `undo`: the last move leaves the history and goes on top of the redo stack. */
  function AfterUndo(s: EngineState): EngineState
  {
    if s.history == [] then s
    else EngineState(s.base, s.history[..|s.history| - 1], s.redo + [s.history[|s.history| - 1]])
  }

  /** `redo`: the top of the redo stack is popped and played again. */
  function AfterRedo(rules: Rules, s: EngineState): EngineState
  {
    if s.redo == [] then s
    else
      var next := s.redo[|s.redo| - 1];
      var rest := s.redo[..|s.redo| - 1];
      match Attempt(rules, s, next.input)
      case None => s.(redo := rest)
      case Some(m) => EngineState(s.base, s.history + [m], rest)
  }

  /** `load`: a valid FEN becomes the new base with empty history and redo stack; an invalid one throws. */
  function AfterLoad(rules: Rules, s: EngineState, fen: Fen): EngineState
  {
    if rules.validFen(fen) then EngineState(fen, [], []) else s
  }

  /** `reset`: a fresh engine at `startFen`, or at the standard start when none is given. */
  function AfterReset(rules: Rules, s: EngineState, startFen: Option<Fen>): EngineState
  {
    match startFen
    case None => EngineState(rules.initial, [], [])
    case Some(f) => if rules.validFen(f) then EngineState(f, [], []) else s
  }

  /** The state after `k` undos. */
  function UndoTimes(s: EngineState, k: nat): EngineState
    decreases k
  {
    if k == 0 then s else UndoTimes(AfterUndo(s), k - 1)
  }

  /** The state after `k` redos. */
  function RedoTimes(rules: Rules, s: EngineState, k: nat): EngineState
    decreases k
  {
    if k == 0 then s else AfterRedo(rules, RedoTimes(rules, s, k - 1))
  }

  lemma {:induction false} ReversedSnoc(s: seq<EngineMove>, x: EngineMove)
    ensures Reversed(s + [x]) == [x] + Reversed(s)
    decreases |s|
  {
    if s == [] {
      assert [x][1..] == [];
    } else {
      assert (s + [x])[1..] == s[1..] + [x];
      ReversedSnoc(s[1..], x);
    }
  }

  /** A line splits into a line and a line from where the first part ends. */
  lemma {:induction false} ChainAppend(rules: Rules, from: Fen, a: seq<EngineMove>, b: seq<EngineMove>)
    ensures Chain(rules, from, a + b) <==> Chain(rules, from, a) && Chain(rules, Tip(from, a), b)
    decreases |a|
  {
    if a == [] {
      assert a + b == b;
    } else {
      assert (a + b)[0] == a[0];
      assert (a + b)[1..] == a[1..] + b;
      ChainAppend(rules, a[0].after, a[1..], b);
      assert Tip(from, a) == Tip(a[0].after, a[1..]);
    }
  }

  /**
   * `move`: an accepted move is recorded with its SAN and surrounding positions and
   * appended, and the redo stack is emptied; a rejected move changes nothing. The
   * invariant is kept either way.
   */
  lemma MoveEffect(rules: Rules, s: EngineState, input: string)
    requires Consistent(rules, s)
    ensures var t := AfterMove(rules, s, input);
      && Consistent(rules, t)
      && (rules.apply(CurrentFen(s), input).None? ==> t == s)
      && (rules.apply(CurrentFen(s), input).Some? ==>
            var p := rules.apply(CurrentFen(s), input).value;
            && t.history == s.history + [EngineMove(input, p.san, CurrentFen(s), p.fen)]
            && t.redo == []
            && CurrentFen(t) == p.fen)
  {
    ChainAppend(rules, s.base, s.history, Reversed(s.redo));
    match Attempt(rules, s, input)
    case None =>
    case Some(m) =>
      ChainAppend(rules, s.base, s.history, [m]);
      assert s.history + [m] + Reversed([]) == s.history + [m];
  }

  /**
   * `undo`: with a history, its last move moves to the top of the redo stack and the
   * position goes back to before it; with none, nothing changes. The invariant is kept.
   */
  lemma UndoEffect(rules: Rules, s: EngineState)
    requires Consistent(rules, s)
    ensures var t := AfterUndo(s);
      && Consistent(rules, t)
      && (s.history == [] ==> t == s)
      && (s.history != [] ==>
            && t.history == s.history[..|s.history| - 1]
            && t.redo == s.redo + [s.history[|s.history| - 1]]
            && CurrentFen(t) == s.history[|s.history| - 1].before)
  {
    if s.history != [] {
      var n := |s.history|;
      var last := s.history[n - 1];
      ReversedSnoc(s.redo, last);
      assert s.history[..n - 1] + Reversed(s.redo + [last]) == s.history + Reversed(s.redo) by {
        assert s.history == s.history[..n - 1] + [last];
      }
      ChainAppend(rules, s.base, s.history[..n - 1], [last] + Reversed(s.redo));
    }
  }

  /**
   * `redo`: with an empty redo stack nothing changes; otherwise its top move is
   * popped and appended to the history exactly as it was recorded, and the rest of
   * the stack stays. The invariant is kept.
   */
  lemma RedoEffect(rules: Rules, s: EngineState)
    requires Consistent(rules, s)
    ensures var t := AfterRedo(rules, s);
      && Consistent(rules, t)
      && (s.redo == [] ==> t == s)
      && (s.redo != [] ==>
            && t.history == s.history + [s.redo[|s.redo| - 1]]
            && t.redo == s.redo[..|s.redo| - 1])
  {
    if s.redo != [] {
      var n := |s.redo|;
      var next := s.redo[n - 1];
      var rest := s.redo[..n - 1];
      assert s.redo == rest + [next];
      ReversedSnoc(rest, next);
      ChainAppend(rules, s.base, s.history, [next] + Reversed(rest));
      assert Chain(rules, CurrentFen(s), [next] + Reversed(rest));
      assert ([next] + Reversed(rest))[0] == next;
      assert ([next] + Reversed(rest))[1..] == Reversed(rest);
      assert Attempt(rules, s, next.input) == Some(next);
      ChainAppend(rules, s.base, s.history, [next]);
      assert s.history + [next] + Reversed(rest) == s.history + ([next] + Reversed(rest));
    }
  }

  /** Undo followed by redo restores the state exactly. */
  lemma UndoThenRedo(rules: Rules, s: EngineState)
    requires Consistent(rules, s) && s.history != []
    ensures AfterRedo(rules, AfterUndo(s)) == s
  {
    UndoEffect(rules, s);
    RedoEffect(rules, AfterUndo(s));
    assert s.history[..|s.history| - 1] + [s.history[|s.history| - 1]] == s.history;
  }

  /** `k` undos keep the invariant (and never do anything once the history runs out). */
  lemma {:induction false} UndoTimesConsistent(rules: Rules, s: EngineState, k: nat)
    requires Consistent(rules, s)
    ensures Consistent(rules, UndoTimes(s, k))
    decreases k
  {
    if k > 0 {
      UndoEffect(rules, s);
      UndoTimesConsistent(rules, AfterUndo(s), k - 1);
    }
  }

  /**
   * `k` undos followed by `k` redos restore the history and the redo stack, as long
   * as there were `k` moves to undo: the redo stack gives them back last-in, first-out.
   */
  lemma {:induction false} UndosThenRedos(rules: Rules, s: EngineState, k: nat)
    requires Consistent(rules, s) && k <= |s.history|
    ensures RedoTimes(rules, UndoTimes(s, k), k) == s
    decreases k
  {
    if k > 0 {
      var u := AfterUndo(s);
      UndoEffect(rules, s);
      UndosThenRedos(rules, u, k - 1);
      assert RedoTimes(rules, UndoTimes(u, k - 1), k - 1) == u;
      assert UndoTimes(s, k) == UndoTimes(u, k - 1);
      UndoThenRedo(rules, s);
    }
  }

  /** `load` of a valid FEN and `reset` both leave an empty redo stack and history at the new position. */
  lemma LoadResetEffect(rules: Rules, s: EngineState, fen: Fen, startFen: Option<Fen>)
    ensures rules.validFen(fen) ==> AfterLoad(rules, s, fen) == EngineState(fen, [], [])
    ensures !rules.validFen(fen) ==> AfterLoad(rules, s, fen) == s
    ensures startFen.None? ==> AfterReset(rules, s, startFen) == EngineState(rules.initial, [], [])
    ensures startFen.Some? && rules.validFen(startFen.value) ==>
              AfterReset(rules, s, startFen) == EngineState(startFen.value, [], [])
    ensures Consistent(rules, s) ==>
              Consistent(rules, AfterLoad(rules, s, fen)) && Consistent(rules, AfterReset(rules, s, startFen))
  {
  }

  /** The hook's engine: the rules engine's base position and history, and the redo stack. */
  class Engine {
    const rules: Rules
    var base: Fen
    var history: seq<EngineMove>
    var redo: seq<EngineMove>

    function State(): EngineState
      reads this
    {
      EngineState(base, history, redo)
    }

    predicate Valid()
      reads this
    {
      Consistent(rules, State())
    }

    /** A new hook; the rules engine throws on an invalid `initialFen`, so none is accepted here. */
    constructor (rules: Rules, initialFen: Option<Fen>)
      requires initialFen.Some? ==> rules.validFen(initialFen.value)
      ensures Valid() && this.rules == rules
      ensures State() == EngineState(if initialFen.Some? then initialFen.value else rules.initial, [], [])
    {
      this.rules := rules;
      base := if initialFen.Some? then initialFen.value else rules.initial;
      history := [];
      redo := [];
    }

    /** The current position. */
    function CurrentPosition(): Fen
      reads this
    {
      Tip(base, history)
    }

    method Move(m: string) returns (res: Option<EngineMove>)
      requires Valid()
      modifies this
      ensures Valid()
      ensures res == Attempt(rules, old(State()), m)
      ensures State() == AfterMove(rules, old(State()), m)
    {
      MoveEffect(rules, State(), m);
      var fen := CurrentPosition();
      var played := rules.apply(fen, m);
      if played.Some? {
        var move := EngineMove(m, played.value.san, fen, played.value.fen);
        redo := [];
        history := history + [move];
        res := Some(move);
      } else {
        res := None;
      }
    }

    method Undo()
      requires Valid()
      modifies this
      ensures Valid()
      ensures State() == AfterUndo(old(State()))
    {
      UndoEffect(rules, State());
      if |history| > 0 {
        var undone := history[|history| - 1];
        history := history[..|history| - 1];
        redo := redo + [undone];
      }
    }

    method Redo()
      requires Valid()
      modifies this
      ensures Valid()
      ensures State() == AfterRedo(rules, old(State()))
    {
      RedoEffect(rules, State());
      if |redo| == 0 {
        return;
      }
      var next := redo[|redo| - 1];
      redo := redo[..|redo| - 1];
      var fen := CurrentPosition();
      var res := rules.apply(fen, next.input);
      if res.Some? {
        history := history + [EngineMove(next.input, res.value.san, fen, res.value.fen)];
      }
    }

    /** Returns false, changing nothing, when the rules engine rejects `nextFen`. */
    method Load(nextFen: Fen) returns (loaded: bool)
      requires Valid()
      modifies this
      ensures Valid()
      ensures loaded == rules.validFen(nextFen)
      ensures State() == AfterLoad(rules, old(State()), nextFen)
    {
      if !rules.validFen(nextFen) {
        return false;
      }
      base := nextFen;
      history := [];
      redo := [];
      loaded := true;
    }

    /** Returns false, changing nothing, when the rules engine rejects `startFen`. */
    method Reset(startFen: Option<Fen>) returns (done: bool)
      requires Valid()
      modifies this
      ensures Valid()
      ensures done == (startFen.None? || rules.validFen(startFen.value))
      ensures State() == AfterReset(rules, old(State()), startFen)
    {
      var fen := if startFen.Some? then startFen.value else rules.initial;
      if startFen.Some? && !rules.validFen(fen) {
        return false;
      }
      base := fen;
      history := [];
      redo := [];
      done := true;
    }
  }
}
