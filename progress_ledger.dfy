/**
 * The progress ledger updated by the practice-submission handler
 * (`POST` in app/api/practice/submit/route.ts): the `user_progress` table, looked up
 * by user, opening, custom opening and ply, then incremented or inserted.
 */
module ProgressLedger {
  import opened Wrappers

  /**
   * The columns the handler looks records up by. The variation is not among them,
   * so all variations of an opening share one record per ply.
   */
  datatype Key = Key(userId: string, openingId: Option<string>, customOpeningId: Option<string>, moveNumber: int)

  /** The remaining columns of a `user_progress` record; `lastPracticed` in milliseconds. */
  datatype Record = Record(
    variationId: Option<string>,
    positionFen: string,
    correctMove: string,
    correctCount: nat,
    incorrectCount: nat,
    lastPracticed: int)

  /** The JSON body of a submission; an absent field is `None`. */
  datatype Body = Body(
    openingId: Option<string>,
    customOpeningId: Option<string>,
    variationId: Option<string>,
    moveNumber: int,
    positionFen: string,
    correctMove: string,
    wasCorrect: bool)

  /** The responses the model distinguishes: 401 for a missing user, success otherwise. */
  datatype Status = Unauthorized | Success

  /** JavaScript's `x || null` on an optional string: an absent or empty string becomes null. */
  function OrNull(x: Option<string>): (r: Option<string>)
    ensures r.Some? <==> x.Some? && x.value != ""
    ensures r.Some? ==> r == x
  {
    if x.Some? && x.value != "" then x else None
  }

  /** The key a submission by `user` is looked up (and stored) under. */
  function KeyOf(user: string, body: Body): Key
  {
    Key(user, OrNull(body.openingId), OrNull(body.customOpeningId), body.moveNumber)
  }

  /** 1 when the condition holds, else 0. */
  function Indicator(b: bool): nat
  {
    if b then 1 else 0
  }

  /**
   * The ledger after one authenticated submission at time `now`: the found record's
   * matching counter goes up by one and its time is overwritten, leaving its stored
   * variation, position and move alone; with no record one is inserted with the body's
   * fields and counts (1, 0) or (0, 1). No other record changes.
   */
  function Recorded(table: map<Key, Record>, user: string, body: Body, now: int): (t: map<Key, Record>)
    ensures var k := KeyOf(user, body);
      && t.Keys == table.Keys + {k}
      && (forall k' :: k' in table && k' != k ==> t[k'] == table[k'])
      && (k in table ==>
            && t[k].correctCount == table[k].correctCount + Indicator(body.wasCorrect)
            && t[k].incorrectCount == table[k].incorrectCount + Indicator(!body.wasCorrect)
            && t[k].lastPracticed == now
            && t[k].variationId == table[k].variationId
            && t[k].positionFen == table[k].positionFen
            && t[k].correctMove == table[k].correctMove)
      && (k !in table ==>
            t[k] == Record(OrNull(body.variationId), body.positionFen, body.correctMove,
                           Indicator(body.wasCorrect), Indicator(!body.wasCorrect), now))
  {
    var k := KeyOf(user, body);
    if k in table then
      var existing := table[k];
      table[k := existing.(correctCount := existing.correctCount + (if body.wasCorrect then 1 else 0),
                           incorrectCount := existing.incorrectCount + (if body.wasCorrect then 0 else 1),
                           lastPracticed := now)]
    else
      table[k := Record(OrNull(body.variationId), body.positionFen, body.correctMove,
                        if body.wasCorrect then 1 else 0, if body.wasCorrect then 0 else 1, now)]
  }

  /** One submission: its body and the time it arrived. */
  datatype Submission = Submission(body: Body, now: int)

  /** The ledger after a sequence of authenticated submissions by `user`, handled in order. */
  function RecordedAll(table: map<Key, Record>, user: string, subs: seq<Submission>): map<Key, Record>
    decreases |subs|
  {
    if subs == [] then table
    else RecordedAll(Recorded(table, user, subs[0].body, subs[0].now), user, subs[1..])
  }

  /** How many of the submissions were correct, and how many were not. */
  function CorrectIn(subs: seq<Submission>): nat
  {
    if subs == [] then 0 else Indicator(subs[0].body.wasCorrect) + CorrectIn(subs[1..])
  }

  function IncorrectIn(subs: seq<Submission>): nat
  {
    if subs == [] then 0 else Indicator(!subs[0].body.wasCorrect) + IncorrectIn(subs[1..])
  }

  /** The counts a table holds under `k`, (0, 0) when it has no record there. */
  function CountsAt(table: map<Key, Record>, k: Key): (nat, nat)
  {
    if k in table then (table[k].correctCount, table[k].incorrectCount) else (0, 0)
  }

  /**
   * Submissions that all look up the same key accumulate in a single record: its
   * counts grow by the numbers of correct and incorrect submissions, it exists once
   * any submission was made, and every other record is left as it was.
   */
  lemma {:induction false} Accumulates(table: map<Key, Record>, user: string, subs: seq<Submission>, k: Key)
    requires forall i :: 0 <= i < |subs| ==> KeyOf(user, subs[i].body) == k
    ensures var t := RecordedAll(table, user, subs);
      && (k in t <==> k in table || subs != [])
      && CountsAt(t, k) == (CountsAt(table, k).0 + CorrectIn(subs), CountsAt(table, k).1 + IncorrectIn(subs))
      && (forall k' :: k' != k ==> (k' in t <==> k' in table))
      && (forall k' :: k' != k && k' in table ==> t[k'] == table[k'])
    decreases |subs|
  {
    if subs != [] {
      var next := Recorded(table, user, subs[0].body, subs[0].now);
      Accumulates(next, user, subs[1..], k);
    }
  }

  /**
   * From an empty ledger, `k` correct and `m` incorrect submissions at one key leave
   * exactly one record, for that key, with counts (k, m).
   */
  lemma AccumulatesFromEmpty(user: string, subs: seq<Submission>, k: Key)
    requires subs != []
    requires forall i :: 0 <= i < |subs| ==> KeyOf(user, subs[i].body) == k
    ensures var t := RecordedAll(map[], user, subs);
      && t.Keys == {k}
      && t[k].correctCount == CorrectIn(subs)
      && t[k].incorrectCount == IncorrectIn(subs)
  {
    Accumulates(map[], user, subs, k);
    var t := RecordedAll(map[], user, subs);
    forall k' | k' in t ensures k' == k {
    }
  }

  /**
   * Two submissions differing only in their variation share one record: the second
   * one updates the record the first created, which keeps the first variation.
   */
  lemma VariationsShareRecord(table: map<Key, Record>, user: string, b1: Body, b2: Body, t1: int, t2: int)
    requires b2 == b1.(variationId := b2.variationId)
    requires KeyOf(user, b1) !in table
    ensures KeyOf(user, b2) == KeyOf(user, b1)
    ensures var t := Recorded(Recorded(table, user, b1, t1), user, b2, t2);
      && t.Keys == table.Keys + {KeyOf(user, b1)}
      && t[KeyOf(user, b1)].variationId == OrNull(b1.variationId)
      && CountsAt(t, KeyOf(user, b1)) == (2 * Indicator(b1.wasCorrect), 2 * Indicator(!b1.wasCorrect))
  {
  }

  /** A stored row, for the table as the lookup filter actually reads it: lookup columns and the rest. */
  datatype Row = Row(key: Key, record: Record)

  /**
   * Whether the handler's equality filters select `row` for key `k`, read as SQL
   * compares: a filter asking for equality with NULL holds for no row, because
   * `NULL = NULL` is not true. So a key with an absent id matches nothing.
   */
  predicate MatchesAsWritten(k: Key, row: Row)
  {
    k.openingId.Some? && k.customOpeningId.Some? && row.key == k
  }

  /** How many rows the filters select. */
  function MatchCount(rows: seq<Row>, k: Key): nat
  {
    if rows == [] then 0 else (if MatchesAsWritten(k, rows[0]) then 1 else 0) + MatchCount(rows[1..], k)
  }

  /** The index of the first selected row. */
  function FirstMatch(rows: seq<Row>, k: Key): (i: nat)
    requires MatchCount(rows, k) > 0
    ensures i < |rows| && MatchesAsWritten(k, rows[i])
  {
    if MatchesAsWritten(k, rows[0]) then 0 else 1 + FirstMatch(rows[1..], k)
  }

  /**
   * The table after one authenticated submission, with the filters read as SQL
   * compares: the single selected row is incremented; when none (or, as
   * `maybeSingle` reports an error, several) is selected, a new row is appended.
   */
  function RecordedAsWritten(rows: seq<Row>, user: string, body: Body, now: int): seq<Row>
  {
    var k := KeyOf(user, body);
    if MatchCount(rows, k) == 1 then
      var i := FirstMatch(rows, k);
      var existing := rows[i].record;
      rows[i := Row(k, existing.(correctCount := existing.correctCount + Indicator(body.wasCorrect),
                                 incorrectCount := existing.incorrectCount + Indicator(!body.wasCorrect),
                                 lastPracticed := now))]
    else
      rows + [Row(k, Record(OrNull(body.variationId), body.positionFen, body.correctMove,
                            Indicator(body.wasCorrect), Indicator(!body.wasCorrect), now))]
  }

  /**
   * A submission that leaves the opening or the custom opening unset has a key with an
   * absent id; read as SQL compares, the lookup then never finds an earlier row, and
   * the submission appends a new one.
   */
  lemma {:induction false} NullKeyAlwaysInserts(rows: seq<Row>, user: string, body: Body, now: int)
    requires OrNull(body.openingId).None? || OrNull(body.customOpeningId).None?
    ensures var k := KeyOf(user, body);
      RecordedAsWritten(rows, user, body, now) ==
        rows + [Row(k, Record(OrNull(body.variationId), body.positionFen, body.correctMove,
                              Indicator(body.wasCorrect), Indicator(!body.wasCorrect), now))]
  {
    NoMatchForNullKey(rows, KeyOf(user, body));
  }

  lemma {:induction false} NoMatchForNullKey(rows: seq<Row>, k: Key)
    requires k.openingId.None? || k.customOpeningId.None?
    ensures MatchCount(rows, k) == 0
    decreases |rows|
  {
    if rows != [] {
      NoMatchForNullKey(rows[1..], k);
    }
  }

  /**
   * Two correct submissions for the same custom-opening ply: read as SQL compares,
   * the table ends with two rows for that key, each counting one correct answer;
   * the intended ledger holds one record counting two.
   */
  lemma CustomOpeningDuplicates(user: string, body: Body, t1: int, t2: int)
    requires body.openingId.None? && body.customOpeningId == Some("c") && body.wasCorrect
    ensures var rows := RecordedAsWritten(RecordedAsWritten([], user, body, t1), user, body, t2);
      && |rows| == 2
      && rows[0].key == rows[1].key == KeyOf(user, body)
      && rows[0].record.correctCount == 1 && rows[1].record.correctCount == 1
    ensures var t := Recorded(Recorded(map[], user, body, t1), user, body, t2);
      t.Keys == {KeyOf(user, body)} && t[KeyOf(user, body)].correctCount == 2
  {
    NullKeyAlwaysInserts([], user, body, t1);
    NullKeyAlwaysInserts(RecordedAsWritten([], user, body, t1), user, body, t2);
  }

  /** The `user_progress` table, as the handler sees it. */
  class Ledger {
    var table: map<Key, Record>

    constructor ()
      ensures table == map[]
    {
      table := map[];
    }

    /**
     * Handle one submission. `auth` is the signed-in user's id, `None` when the
     * session has no user or the lookup of the user failed; `now` is the clock.
     */
    method Post(auth: Option<string>, body: Body, now: int) returns (status: Status)
      modifies this
      ensures auth.None? ==> status == Unauthorized && table == old(table)
      ensures auth.Some? ==> status == Success && table == Recorded(old(table), auth.value, body, now)
    {
      if auth.None? {
        return Unauthorized;
      }
      var user := auth.value;
      var key := Key(user, OrNull(body.openingId), OrNull(body.customOpeningId), body.moveNumber);
      if key in table {
        var existingProgress := table[key];
        table := table[key := existingProgress.(
          correctCount := existingProgress.correctCount + (if body.wasCorrect then 1 else 0),
          incorrectCount := existingProgress.incorrectCount + (if body.wasCorrect then 0 else 1),
          lastPracticed := now)];
      } else {
        table := table[key := Record(OrNull(body.variationId), body.positionFen, body.correctMove,
                                     if body.wasCorrect then 1 else 0, if body.wasCorrect then 0 else 1, now)];
      }
      status := Success;
    }
  }
}
