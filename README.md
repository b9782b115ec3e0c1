# LinePrep opening-practice engine, modelled in Dafny

LinePrep helps a learner memorise chess opening repertoires. It quizzes the learner
on the correct move at chosen plies of a known line, and it keeps per-position
counts that drive a simple spaced-repetition interval. This project models the
engine's core and proves properties of that model:

- **Quiz-position generation** (`PositionGenerator`): a move list is replayed from the
  starting position. For each selected ply, the position before the ply, the expected
  move and the preceding moves are recorded. Replay stops at the first move the rules
  engine rejects.
- **Line resolution** (`LineResolver`): a variation is spliced onto an opening's main line
  at its branch ply, and the display name is built.
- **Sampling** (`Sampler`): one position is drawn from a single line, or from a learning
  stack in two stages (first a member, then one of its positions).
- **Move judging** (`MoveJudge`) and the **review scheduler** (`ReviewScheduler`).
- **The progress ledger** (`ProgressLedger`): the submission handler's
  lookup-then-increment-or-insert on the `user_progress` table.
- **The board hook's history and redo stack** (`ChessEngine`): move, undo, redo, load
  and reset.

The chess rules (the chess.js library) are an oracle, `ChessRules.Rules`. It holds the
standard starting position, a move function `apply(fen, move)` that returns the
position reached and the move's SAN (standard algebraic notation, section 8.2.3 of
the PGN Standard), or `None` when the move is rejected, and a FEN validity test.
FEN and SAN are opaque strings.

Each `Math.random()` draw is a real parameter in [0, 1). The chosen index is
`Floor(draw * n)`, with `draw * n` taken as an exact real product (see Left out). The clock is an integer
parameter `now`, in milliseconds.

Behaviour of the rules engine that the model follows (chess.js 1.x, the version
the hook's `inCheck` call belongs to):
- `move` throws on an illegal move, leaving the engine as it was. The hook's `move`
  and `validateMove` change nothing of their own before that call, so a rejection is
  modelled as `None`. The position generator records the position before the call and
  keeps it when the move throws: `PositionGenerator.Capture` keeps that position and
  stops. The hook's `redo` is the other exception: it
  pops the redo stack before re-playing the move. `ChessEngine.AfterRedo` reproduces
  that order. Under the invariant `Consistent`, the popped move always replays,
  because the model replays the move's original request (see Left out), so the
  rejected branch cannot happen.
- Constructing or loading an engine with an invalid FEN throws.
- Loading a FEN clears the engine's history.

In `validateMove`, the engine is constructed before the `try` block. An invalid
FEN therefore escapes as an exception. `MoveJudge.ValidateMove` models that as a
`None` result.

Four behaviours of the code worth noting:
- A variation's branch ply goes through JavaScript's `slice(0, end)` rules: negative ends count from the back, and large
  ends are cut to the list (`LineResolver.SliceEnd`).
- A stack member with a catalogue opening is always practised as White.
- The ledger key leaves out the variation.
- The ledger update is a plain read-then-write, not an atomic increment.

## Model

| member | source | states |
|---|---|---|
| `ChessRules.ReplayAppend` | lib/opening-utils.ts:33-57 | replaying a concatenation of moves is replaying the first part and then the second from where it ended |
| `ChessRules.ReplaySnoc` | lib/opening-utils.ts:50-52 | replaying one more move is one more oracle step after the replay |
| `ChessRules.ReplayStaysRejected` | lib/opening-utils.ts:50-56 | once the move at ply j is rejected, no longer prefix of the line can be replayed |
| `PositionGenerator.GeneratePracticePositions` | lib/opening-utils.ts:11-60 | the two loops (target selection, then capture-then-move with a break on rejection) return exactly the specification `Generated` of the line and the effective targets |
| `PositionGenerator.DefaultTargetsExact` | lib/opening-utils.ts:20-30 | with no requested plies, the target list holds exactly the plies below the line's length whose parity matches the colour (even iff White), in strictly increasing order |
| `PositionGenerator.CaptureFacts` | lib/opening-utils.ts:33-57 | capture from ply i yields at most one position per remaining ply, in increasing order; each is a target, with the move at its ply and the line before it, at the replayed position; every reachable target ply is captured |
| `PositionGenerator.GeneratedExact` | lib/opening-utils.ts:33-59 | every generated position is a target ply below the line's length, with `correctMove == moves[n]`, `previousMoves == moves[..n]` and a FEN equal to the replay of `previousMoves`; ply numbers strictly increase, so duplicated or out-of-range requests add nothing and there are at most as many positions as moves; every target ply the replay reaches is present |
| `PositionGenerator.GeneratedStopsAtRejection` | lib/opening-utils.ts:36-56 | when ply j is the first rejected move, no position lies beyond j, and the position at j itself is still recorded when j is a target |
| `PositionGenerator.GeneratedRoundTrip` | lib/opening-utils.ts:38-52 | replaying a position's preceding moves plus its expected move reaches the same position as playing the expected move at the recorded FEN |
| `PositionGenerator.DefaultSelection` | lib/opening-utils.ts:19-47 | with no requested plies, the generated positions are exactly the learner's plies that the replay reaches |
| `PositionGenerator.OpenGameExample` | lib/opening-utils.ts:11-60 | for `e4 e5 Nf3` learnt as White, plies 0 and 2 are selected, and the position for ply 2 expects `Nf3` after `e4 e5` |
| `LineResolver.SliceEnd` | lib/opening-utils.ts:79 | the end index of JavaScript's `slice(0, end)`: within the list, equal to `end` when in range, counted from the back when negative, the full length when too large |
| `LineResolver.ResolveLine` | lib/opening-utils.ts:72-83 | without a variation the moves and name are the opening's, with empty variation id and name; with one, the moves are the main line up to the branch followed by the variation's moves, and the name is `"<opening>: <variation>"` |
| `LineResolver.BranchKeepsPrefix` | lib/opening-utils.ts:79 | plies before an in-range branch are the main line's; plies from the branch on are the variation's, shifted by the branch ply |
| `LineResolver.BranchAtPlyTwoExample` | lib/opening-utils.ts:79 | the variation `Bb5` at ply 2 of `e4 e5 Nf3 Nc6` resolves to `e4 e5 Bb5` |
| `Sampler.RandomIndex` | lib/opening-utils.ts:89 | `Math.floor(draw * n)` is a valid index below n, and is the integer part of the exact product `draw * n` |
| `Sampler.RandomIndexInterval` | lib/opening-utils.ts:89 | with the product taken as an exact real, index k of n is selected by exactly the draws in [k/n, (k+1)/n), so each index has probability 1/n |
| `Sampler.EveryIndexDrawn` | lib/opening-utils.ts:116 | every index below n is selected by the exact draw k/n |
| `Sampler.GetRandomPosition` | lib/opening-utils.ts:65-99 | null iff the resolved line has no candidates; otherwise the candidate at the drawn index, with the resolved name, the opening id, no custom id, and the variation's id and name (`""` without one) |
| `Sampler.RandomPositionCoversCandidates` | lib/opening-utils.ts:85-98 | a single-line draw returns a genuine candidate of the resolved line, and every candidate is returned, with the same labels, for the draw c/n |
| `Sampler.GetRandomCustomOpeningPosition` | lib/opening-utils.ts:104-124 | null iff the custom line has no candidates for its own colour; otherwise the drawn candidate, with the custom opening's name and id and no opening or variation id |
| `Sampler.GetRandomStackPosition` | lib/opening-utils.ts:129-158 | an empty stack gives null; the first draw picks a member; a member with an opening is sampled as White with its variation (in preference to a custom opening), otherwise its custom opening is sampled, otherwise null |
| `Sampler.StackSamplingIsTwoStage` | lib/opening-utils.ts:137-157 | with the product taken as an exact real, member k of n is chosen by exactly the first draws in [k/n, (k+1)/n), whatever its line's length, and then every candidate of that member is reachable by some second draw |
| `Sampler.StackPositionIsCandidate` | lib/opening-utils.ts:137-157 | a stack position is a genuine candidate of the line of the member the first draw picked |
| `MoveJudge.ValidateMove` | lib/opening-utils.ts:163-189 | throws iff the FEN is invalid; correct iff the oracle accepts the move and its SAN equals the expected move exactly; the message is `'Invalid move'` iff the oracle rejects the move; a legal wrong move names the expected move |
| `ReviewScheduler.CalculateNextReview` | lib/opening-utils.ts:194-221 | no attempts gives now + 1 day; otherwise now + 7 days, 3 days, 1 day or 6 hours exactly when the success rate is at least 0.9, in [0.7, 0.9), in [0.5, 0.7), or below 0.5 |
| `ReviewScheduler.RateAtLeast` | lib/opening-utils.ts:206-216 | comparing the success rate with a threshold p/q is the integer test `q * correct >= p * total` |
| `ReviewScheduler.OffsetMonotone` | lib/opening-utils.ts:198-220 | for a fixed number of attempts, more correct answers never bring the next review closer |
| `ProgressLedger.OrNull` | app/api/practice/submit/route.ts:35-36 | the `or null` fallback on a string field: absent and empty strings become null, others are kept |
| `ProgressLedger.Recorded` | app/api/practice/submit/route.ts:31-72 | only the record under `(user, openingId or null, customOpeningId or null, moveNumber)` changes or appears; an existing one gains 1 in the matching counter, gets the new time and keeps its variation, FEN and move; a missing one is inserted with counts (1,0) or (0,1) and the body's fields |
| `ProgressLedger.Accumulates` | app/api/practice/submit/route.ts:31-72 | sequential submissions at one key add exactly their numbers of correct and incorrect answers to that key's counts, create it if needed, and leave every other record alone |
| `ProgressLedger.AccumulatesFromEmpty` | app/api/practice/submit/route.ts:31-72 | from an empty ledger, k correct and m incorrect submissions at one key leave exactly one record, with counts (k, m) |
| `ProgressLedger.VariationsShareRecord` | app/api/practice/submit/route.ts:31-38 | two submissions that differ only in their variation use the same record, which keeps the first variation and counts both |
| `ProgressLedger.MatchesAsWritten` | app/api/practice/submit/route.ts:33-37 | the lookup's four equality filters read as SQL compares: a row is selected iff both ids of the key are set and the row's key equals it |
| `ProgressLedger.RecordedAsWritten` | app/api/practice/submit/route.ts:31-72 | the handler as written: the single selected row gains 1 in the matching counter and the new time; with no match, or several (the `maybeSingle` error, whose null data sends the handler to its insert), a row with the body's fields is appended |
| `ProgressLedger.FirstMatch` | app/api/practice/submit/route.ts:31-38 | the index of a row the lookup filters select, when one exists |
| `ProgressLedger.NullKeyAlwaysInserts` | app/api/practice/submit/route.ts:31-72 | with the filters read as SQL compares, a submission without an opening id or without a custom opening id appends a new row, whatever the table holds |
| `ProgressLedger.CustomOpeningDuplicates` | app/api/practice/submit/route.ts:31-72 | with the filters read as SQL compares, two correct custom-opening submissions for one ply leave two rows for the same key, each counting 1; the intended ledger keeps one record counting 2 |
| `ProgressLedger.Ledger.Post` | app/api/practice/submit/route.ts:10-80 | a request without a user gets 401 and leaves the ledger unchanged; otherwise the ledger becomes `Recorded` of the old one |
| `ChessEngine.MoveEffect` | hooks/useChessEngine.ts:38-46 | an accepted move is appended with its SAN and positions and the redo stack is emptied; a rejected one changes nothing; the history-plus-redo invariant is kept |
| `ChessEngine.UndoEffect` | hooks/useChessEngine.ts:48-55 | undo with a history removes its last move and pushes it on the redo stack, going back to its starting position; with none, nothing changes |
| `ChessEngine.RedoEffect` | hooks/useChessEngine.ts:57-65 | redo with an empty stack changes nothing; otherwise the top move is popped and appended to the history exactly as recorded, keeping the rest of the stack |
| `ChessEngine.UndoThenRedo` | hooks/useChessEngine.ts:48-65 | undo followed by redo restores history and redo stack |
| `ChessEngine.UndoTimesConsistent` | hooks/useChessEngine.ts:48-55 | any number of undos keeps the invariant |
| `ChessEngine.UndosThenRedos` | hooks/useChessEngine.ts:48-65 | k undos followed by k redos restore the state when there were k moves to undo |
| `ChessEngine.LoadResetEffect` | hooks/useChessEngine.ts:21-33 | loading a valid FEN and resetting both leave an empty history and redo stack at the new position; an invalid FEN changes nothing |
| `ChessEngine.Engine.constructor` | hooks/useChessEngine.ts:7-10 | a new hook starts at the given FEN or the standard start, with empty history and redo stack |
| `ChessEngine.Engine.Move` | hooks/useChessEngine.ts:38-46 | returns the recorded move or null and updates the state as `AfterMove`, keeping the invariant |
| `ChessEngine.Engine.Undo` | hooks/useChessEngine.ts:48-55 | updates the state as `AfterUndo`, keeping the invariant |
| `ChessEngine.Engine.Redo` | hooks/useChessEngine.ts:57-65 | updates the state as `AfterRedo`, keeping the invariant |
| `ChessEngine.Engine.Load` | hooks/useChessEngine.ts:21-26 | reports whether the FEN was accepted and updates the state as `AfterLoad` |
| `ChessEngine.Engine.Reset` | hooks/useChessEngine.ts:28-33 | reports whether the start FEN was accepted and updates the state as `AfterReset` |

## Left out

- Chess rules, FEN and SAN derivation (the chess.js library, FEN as in section 16.1 of the PGN Standard) are the oracle `ChessRules.Rules`, not modelled.
- `Math.random()` and `new Date()` are parameters. Only the index each draw selects is modelled, not the distribution of the draws.
- Counts and move numbers are unbounded integers. Floating-point rounding in `calculateNextReview`'s rate comparisons, which only matters for astronomically large counts, is not modelled. The model compares exact rationals.
- The transport and persistence of the submission handler are not modelled: the Supabase client, JSON parsing, the 500 responses for store and parse failures, and the ISO string form of `last_practiced`.
- `ProgressLedger.Recorded`: the lookup's `.eq(column, null)` filters are read as equality on the optional id, the evidently intended behaviour. Read as SQL compares, they select no row, so every submission inserts a new one (see Findings).
- `Sampler.GetRandomPosition`: the source's default `color = 'white'` (lib/opening-utils.ts:69) is a required parameter here. Every caller in the model passes it.
- The handler's read-then-write is not atomic, and concurrent submissions are not modelled. The map model `Recorded` also leaves out the store's `maybeSingle` error on duplicate rows; the row model `RecordedAsWritten` covers it by appending. `Recorded`'s ledger is one map from key to record, the intended reading of the lookup, so sequential use keeps one record per key.
- React state mirroring in the hook is not modelled: `setFen`, `setHistory`, `useMemo`. The queries `turn`, `inCheck`, `orientation` and `legalMovesFrom` just forward to chess.js and are not modelled.
- `console.error` logging on a rejected move is not modelled.
- The UI components, configuration, routing, browser storage and type-only files are not modelled.
- `ChessEngine.Engine.constructor`: a hook created with an invalid FEN throws in the source. The model requires a valid one instead of modelling that exception.
- `Sampler.RandomIndex`, `Sampler.RandomIndexInterval`, `Sampler.EveryIndexDrawn`, `Sampler.StackSamplingIsTwoStage`: the draw is an exact real and `draw * n` is not rounded to a double, as JavaScript rounds it. Next to a boundary k/n the source's index can differ by one (the double 0.2727272727272727 times 11 rounds to 3.0), and a draw k/n is usually not itself a double.
- `ChessEngine.AfterRedo`: redo replays the move's original request, where the hook passes chess.js the recorded Move object, which chess.js matches by from, to and promotion. At the same position both give the same move. The Move object's other fields (from, to, piece, flags, lan) are not modelled.

## Findings

| source | as written | input that shows it | evidently intended | confidence | as-written member | corrected member |
|---|---|---|---|---|---|---|
| app/api/practice/submit/route.ts:35-36 | the lookup compares `opening_id` and `custom_opening_id` with `.eq` against the body's id or null; in SQL `NULL = NULL` is not true, so a key with a null id matches no row, and the insert branch runs | two correct submissions for the same custom opening (no `openingId`) and ply, one after the other: two rows with `correct_count` 1 each | one record per key whose counts accumulate (NULL matched with `is null`) | not executed | `ProgressLedger.CustomOpeningDuplicates`, `ProgressLedger.NullKeyAlwaysInserts` | `ProgressLedger.Recorded`, `ProgressLedger.AccumulatesFromEmpty` |
