/**
 * Sampling (`getRandomPosition`, `getRandomCustomOpeningPosition` and
 * `getRandomStackPosition` in lib/opening-utils.ts). Each draw of `Math.random()`
 * is a parameter: a real number in [0, 1).
 */
module Sampler {
  import opened Wrappers
  import opened ChessRules
  import opened PositionGenerator
  import opened LineResolver

  /** A quiz position with the labels of the line it came from. */
  datatype PracticePosition = PracticePosition(
    position: Position,
    openingName: string,
    openingId: Option<string>,
    customOpeningId: Option<string>,
    variationId: Option<string>,
    variationName: Option<string>)

  /** One member of a learning stack. */
  datatype StackEntry = StackEntry(
    opening: Option<Opening>,
    customOpening: Option<CustomOpening>,
    variation: Option<Variation>,
    practiceMoveNumbers: seq<int>)

  /** A draw of `Math.random()`. */
  predicate IsDraw(random: real)
  {
    0.0 <= random < 1.0
  }

  /** `Math.floor(random * n)`: the index a draw selects among `n` items. */
  function RandomIndex(random: real, n: nat): (k: nat)
    requires IsDraw(random) && n > 0
    ensures k < n
    ensures k as real <= random * n as real < (k + 1) as real
  {
    assert 0.0 <= random * n as real < n as real by {
      assert random * n as real <= random * n as real + (1.0 - random) * n as real;
    }
    (random * n as real).Floor
  }

  /**
   * With the product taken as an exact real, index `k` is selected by exactly the
   * draws in [k/n, (k+1)/n): each of the `n` items is drawn with probability 1/n.
   */
  lemma RandomIndexInterval(random: real, n: nat, k: nat)
    requires IsDraw(random) && n > 0 && k < n
    ensures RandomIndex(random, n) == k <==>
              k as real / n as real <= random < (k + 1) as real / n as real
  {
  }

  /** Every one of `n` items is selected by some draw: the one at `k/n`. */
  lemma EveryIndexDrawn(n: nat, k: nat)
    requires k < n
    ensures IsDraw(k as real / n as real) && RandomIndex(k as real / n as real, n) == k
  {
  }

  /** The candidates of an opening (with an optional variation) for `practiceMoveNumbers` and `color`. */
  function OpeningCandidates(rules: Rules, opening: Opening, variation: Option<Variation>,
                             practiceMoveNumbers: seq<int>, color: Color): seq<Position>
  {
    var line := ResolveLine(opening, variation);
    Generated(rules, line.moves, Targets(line.moves, practiceMoveNumbers, color))
  }

  /** The candidates of a custom opening, for the colour stored with it. */
  function CustomCandidates(rules: Rules, custom: CustomOpening, practiceMoveNumbers: seq<int>): seq<Position>
  {
    Generated(rules, custom.moves, Targets(custom.moves, practiceMoveNumbers, custom.color))
  }

  /**
   * A random position of an opening: `None` when it has no candidates, otherwise the
   * candidate the draw selects, labelled with the resolved line's name, the opening's
   * id and the variation's id and name (both empty without a variation).
   */
  function GetRandomPosition(rules: Rules, opening: Opening, variation: Option<Variation>,
                             practiceMoveNumbers: seq<int>, color: Color, random: real): (r: Option<PracticePosition>)
    requires IsDraw(random)
    ensures var candidates := OpeningCandidates(rules, opening, variation, practiceMoveNumbers, color);
      && (r.None? <==> candidates == [])
      && (r.Some? ==>
            && r.value.position == candidates[RandomIndex(random, |candidates|)]
            && r.value.openingName == ResolveLine(opening, variation).openingName
            && r.value.openingId == Some(opening.id)
            && r.value.customOpeningId.None?
            && r.value.variationId == Some(if variation.Some? then variation.value.id else "")
            && r.value.variationName == Some(if variation.Some? then variation.value.name else ""))
  {
    var line := ResolveLine(opening, variation);
    var positions := OpeningCandidates(rules, opening, variation, practiceMoveNumbers, color);
    if |positions| == 0 then None
    else
      var position := positions[RandomIndex(random, |positions|)];
      Some(PracticePosition(position, line.openingName, Some(opening.id), None,
                            Some(line.variationId), Some(line.variationName)))
  }

  /**
   * A random position of a custom opening: `None` when it has no candidates,
   * otherwise the selected candidate labelled with the custom opening's name and id.
   */
  function GetRandomCustomOpeningPosition(rules: Rules, custom: CustomOpening,
                                          practiceMoveNumbers: seq<int>, random: real): (r: Option<PracticePosition>)
    requires IsDraw(random)
    ensures var candidates := CustomCandidates(rules, custom, practiceMoveNumbers);
      && (r.None? <==> candidates == [])
      && (r.Some? ==>
            && r.value.position == candidates[RandomIndex(random, |candidates|)]
            && r.value.openingName == custom.name
            && r.value.customOpeningId == Some(custom.id)
            && r.value.openingId.None? && r.value.variationId.None? && r.value.variationName.None?)
  {
    var positions := CustomCandidates(rules, custom, practiceMoveNumbers);
    if |positions| == 0 then None
    else
      var position := positions[RandomIndex(random, |positions|)];
      Some(PracticePosition(position, custom.name, None, Some(custom.id), None, None))
  }

  /**
   * A single-line draw returns a genuine candidate of the resolved line, and every
   * candidate is returned for some draw.
   */
  lemma RandomPositionCoversCandidates(rules: Rules, opening: Opening, variation: Option<Variation>,
                                       practiceMoveNumbers: seq<int>, color: Color, random: real, c: nat)
    requires IsDraw(random)
    ensures var line := ResolveLine(opening, variation);
      var r := GetRandomPosition(rules, opening, variation, practiceMoveNumbers, color, random);
      r.Some? ==> IsCandidate(rules, line.moves, Targets(line.moves, practiceMoveNumbers, color), r.value.position)
    ensures var candidates := OpeningCandidates(rules, opening, variation, practiceMoveNumbers, color);
      c < |candidates| ==>
        var draw := c as real / |candidates| as real;
        IsDraw(draw) && GetRandomPosition(rules, opening, variation, practiceMoveNumbers, color, draw)
                        == Some(GetRandomPosition(rules, opening, variation, practiceMoveNumbers, color, random).value.(position := candidates[c]))
  {
    var line := ResolveLine(opening, variation);
    var candidates := OpeningCandidates(rules, opening, variation, practiceMoveNumbers, color);
    GeneratedExact(rules, line.moves, Targets(line.moves, practiceMoveNumbers, color));
    if c < |candidates| {
      EveryIndexDrawn(|candidates|, c);
    }
  }

  /**
   * A random position of a learning stack, in two stages: the first draw picks a
   * member uniformly, the second a position of that member. A member with a
   * catalogue opening is practised as White, with its variation if any; otherwise
   * its custom opening is used; a member with neither gives `None`.
   */
  function GetRandomStackPosition(rules: Rules, stack: seq<StackEntry>, random1: real, random2: real)
    : (r: Option<PracticePosition>)
    requires IsDraw(random1) && IsDraw(random2)
    ensures stack == [] ==> r.None?
    ensures stack != [] ==>
      var e := stack[RandomIndex(random1, |stack|)];
      && (e.opening.Some? ==>
            r == GetRandomPosition(rules, e.opening.value, e.variation, e.practiceMoveNumbers, White, random2))
      && (e.opening.None? && e.customOpening.Some? ==>
            r == GetRandomCustomOpeningPosition(rules, e.customOpening.value, e.practiceMoveNumbers, random2))
      && (e.opening.None? && e.customOpening.None? ==> r.None?)
  {
    if |stack| == 0 then None
    else
      var entry := stack[RandomIndex(random1, |stack|)];
      match entry.opening
      case Some(opening) =>
        GetRandomPosition(rules, opening, entry.variation, entry.practiceMoveNumbers, White, random2)
      case None =>
        match entry.customOpening
        case Some(custom) => GetRandomCustomOpeningPosition(rules, custom, entry.practiceMoveNumbers, random2)
        case None => None
  }

  /** The line a stack member is practised on. */
  function EntryMoves(e: StackEntry): seq<San>
  {
    if e.opening.Some? then ResolveLine(e.opening.value, e.variation).moves
    else if e.customOpening.Some? then e.customOpening.value.moves
    else []
  }

  /** The side a stack member is practised as: White for a catalogue opening. */
  function EntryColor(e: StackEntry): Color
  {
    if e.opening.None? && e.customOpening.Some? then e.customOpening.value.color else White
  }

  /** The candidates of a stack member, as `GetRandomStackPosition` sees them. */
  function EntryCandidates(rules: Rules, e: StackEntry): seq<Position>
  {
    Generated(rules, EntryMoves(e), Targets(EntryMoves(e), e.practiceMoveNumbers, EntryColor(e)))
  }

  /**
   * Two-stage sampling: with the product taken as an exact real, member `k` of a
   * stack of `n` is chosen by exactly the first draws in [k/n, (k+1)/n), whatever
   * the lengths of the members' lines, and then each of its candidates is chosen by
   * some second draw. So every member has the same chance, not every position.
   */
  lemma StackSamplingIsTwoStage(rules: Rules, stack: seq<StackEntry>, random1: real, k: nat, c: nat)
    requires IsDraw(random1) && k < |stack|
    requires k as real / |stack| as real <= random1 < (k + 1) as real / |stack| as real
    requires c < |EntryCandidates(rules, stack[k])|
    ensures var random2 := c as real / |EntryCandidates(rules, stack[k])| as real;
      && IsDraw(random2)
      && GetRandomStackPosition(rules, stack, random1, random2).Some?
      && GetRandomStackPosition(rules, stack, random1, random2).value.position == EntryCandidates(rules, stack[k])[c]
  {
    RandomIndexInterval(random1, |stack|, k);
    EveryIndexDrawn(|EntryCandidates(rules, stack[k])|, c);
  }

  /**
   * A stack position, when there is one, is a genuine candidate of the line of the
   * member the first draw picked.
   */
  lemma StackPositionIsCandidate(rules: Rules, stack: seq<StackEntry>, random1: real, random2: real)
    requires IsDraw(random1) && IsDraw(random2)
    requires GetRandomStackPosition(rules, stack, random1, random2).Some?
    ensures var e := stack[RandomIndex(random1, |stack|)];
      IsCandidate(rules, EntryMoves(e), Targets(EntryMoves(e), e.practiceMoveNumbers, EntryColor(e)),
                  GetRandomStackPosition(rules, stack, random1, random2).value.position)
  {
    var e := stack[RandomIndex(random1, |stack|)];
    GeneratedExact(rules, EntryMoves(e), Targets(EntryMoves(e), e.practiceMoveNumbers, EntryColor(e)));
  }
}
