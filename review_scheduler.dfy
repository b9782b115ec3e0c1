/**
 * The spaced-repetition scheduler (`calculateNextReview` in lib/opening-utils.ts).
 * Times are integers of milliseconds; the clock reading `now` is a parameter.
 */
module ReviewScheduler {

  const HourMs: int := 60 * 60 * 1000
  const DayMs: int := 24 * HourMs

  /**
   * The next review time: one day after `now` for an unpractised position, and
   * otherwise 7 days, 3 days, 1 day or 6 hours as the success rate is at least
   * 0.9, at least 0.7, at least 0.5, or lower.
   */
  function CalculateNextReview(correctCount: nat, incorrectCount: nat, now: int): (due: int)
    ensures var total := correctCount + incorrectCount;
      && (total == 0 ==> due == now + DayMs)
      && (total > 0 ==>
            && (due == now + 7 * DayMs <==> 10 * correctCount >= 9 * total)
            && (due == now + 3 * DayMs <==> 10 * correctCount < 9 * total && 10 * correctCount >= 7 * total)
            && (due == now + DayMs <==> 10 * correctCount < 7 * total && 2 * correctCount >= total)
            && (due == now + 6 * HourMs <==> 2 * correctCount < total))
  {
    var totalAttempts := correctCount + incorrectCount;
    if totalAttempts == 0 then now + 24 * 60 * 60 * 1000
    else
      var successRate := correctCount as real / totalAttempts as real;
      RateAtLeast(correctCount, totalAttempts, 9, 10);
      RateAtLeast(correctCount, totalAttempts, 7, 10);
      RateAtLeast(correctCount, totalAttempts, 1, 2);
      var intervalDays :=
        if successRate >= 0.9 then 7.0
        else if successRate >= 0.7 then 3.0
        else if successRate >= 0.5 then 1.0
        else 0.25;
      now + (intervalDays * (24 * 60 * 60 * 1000) as real).Floor
  }

  /** The success rate `c / t` reaches `p / q` exactly when `q * c >= p * t`. */
  lemma RateAtLeast(c: nat, t: nat, p: nat, q: nat)
    requires t > 0 && q > 0
    ensures c as real / t as real >= p as real / q as real <==> q * c >= p * t
  {
  }

  /** For a fixed number of attempts, more correct answers never bring the review closer. */
  lemma OffsetMonotone(c1: nat, i1: nat, c2: nat, i2: nat, now: int)
    requires c1 <= c2 && c1 + i1 == c2 + i2
    ensures CalculateNextReview(c1, i1, now) <= CalculateNextReview(c2, i2, now)
  {
  }
}
