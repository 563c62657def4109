/**
 * The D-day shown by the schedule section and the sidebar: the number of days until the move-in
 * date, rounded up, `Math.ceil((target - today) / 86400000)`. Dates are millisecond timestamps;
 * the clock reading `today` is an input.
 */
module DDay {
  import opened Wrappers

  const MillisPerDay: int := 1000 * 60 * 60 * 24

  /** The ceiling of x / MillisPerDay (Dafny's division by a positive number rounds down). */
  function CeilDays(x: int): int {
    (x + MillisPerDay - 1) / MillisPerDay
  }

  /** calculateDDay: no D-day without a move-in date, otherwise the rounded-up day count. */
  function CalculateDDay(moveInDate: Option<int>, today: int): (r: Option<int>)
    ensures r.None? <==> moveInDate.None?
    ensures r.Some? ==>
      (r.value - 1) * MillisPerDay < moveInDate.value - today <= r.value * MillisPerDay
  {
    match moveInDate
    case None => None
    case Some(target) => Some(CeilDays(target - today))
  }

  /** The day count is the only whole number of days meeting the ceiling bounds. */
  lemma DDayUnique(target: int, today: int, k: int)
    requires (k - 1) * MillisPerDay < target - today <= k * MillisPerDay
    ensures CalculateDDay(Some(target), today) == Some(k)
  {
  }

  /** The same instant gives 0; a difference of exactly k days gives k. */
  lemma ExactDays(today: int, k: int)
    ensures CalculateDDay(Some(today), today) == Some(0)
    ensures CalculateDDay(Some(today + k * MillisPerDay), today) == Some(k)
  {
    DDayUnique(today, today, 0);
    DDayUnique(today + k * MillisPerDay, today, k);
  }

  /** Any positive part of a day counts as a whole day. */
  lemma FractionRoundsUp(today: int, k: int, extra: int)
    requires 0 < extra < MillisPerDay
    ensures CalculateDDay(Some(today + k * MillisPerDay + extra), today) == Some(k + 1)
  {
    DDayUnique(today + k * MillisPerDay + extra, today, k + 1);
  }

  /** A later move-in date never gives a smaller D-day. */
  lemma DDayMonotone(t1: int, t2: int, today: int)
    requires t1 <= t2
    ensures CalculateDDay(Some(t1), today).value <= CalculateDDay(Some(t2), today).value
  {
  }

  /** `dDay !== null`: the condition under which the D-day block is rendered. */
  predicate Shown(dDay: Option<int>) {
    dDay.Some?
  }

  /** The block is rendered exactly when a move-in date is set, with no clamping: a date that is
      more than a day past shows a negative count. */
  lemma ShownExactlyWithDate(moveInDate: Option<int>, today: int)
    ensures Shown(CalculateDDay(moveInDate, today)) <==> moveInDate.Some?
    ensures moveInDate.Some? && moveInDate.value - today <= -MillisPerDay ==>
      Shown(CalculateDDay(moveInDate, today)) && CalculateDDay(moveInDate, today).value < 0
  {
  }
}
