/** The relative-date label of the chat list (src/shared/lib/date.utils.ts).
    A date is a count of milliseconds; `new Date(s)` is done by the caller and
    an unparsable string arrives as `None` (an Invalid Date, whose time is
    NaN). The `ru-RU` calendar format is the parameter `localeDate`. */
module DateUtils {
  import opened Wrappers
  import opened Strings

  const MsPerDay := 1000 * 60 * 60 * 24

  /** `|a - b|`. */
  function Elapsed(date: int, now: int): (e: nat)
    ensures e == now - date || e == date - now
  {
    if now >= date then now - date else date - now
  }

  /** `Math.ceil(diffTime / 86400000)`: the number of started days. */
  function CeilDays(elapsed: nat): (d: nat)
    ensures (d - 1) * MsPerDay < elapsed <= d * MsPerDay
  {
    var e: int := elapsed;
    -((-e) / MsPerDay)
  }

  /** `diffDays` of two instants. */
  function DiffDays(date: int, now: int): (d: nat)
    ensures (d - 1) * MsPerDay < Elapsed(date, now) <= d * MsPerDay
  {
    CeilDays(Elapsed(date, now))
  }

  /** `formatDate`: "Вчера" for one started day, "<n> дн. назад" for any
      other count below seven (zero included), whole weeks below thirty
      days, and the calendar date from thirty days on. An Invalid Date fails
      every comparison and prints as "Invalid Date". */
  function FormatDate(date: Option<int>, now: int, localeDate: int -> string): (r: string)
    ensures date.None? ==> r == "Invalid Date"
    ensures date.Some? && 0 < Elapsed(date.value, now) <= MsPerDay ==> r == "Вчера"
    ensures date.Some? && date.value == now ==> r == "0 дн. назад"
    ensures date.Some? && Elapsed(date.value, now) > 29 * MsPerDay ==> r == localeDate(date.value)
  {
    match date
    case None => "Invalid Date"
    case Some(t) =>
      var d := DiffDays(t, now);
      if d == 1 then "Вчера"
      else if d < 7 then IntToString(d) + " дн. назад"
      else if d < 30 then IntToString(d / 7) + " нед. назад"
      else localeDate(t)
  }

  /** The count of started days is the `k` with `(k-1)` days `< elapsed <= k` days. */
  lemma CeilDaysExact(elapsed: nat, k: int)
    requires (k - 1) * MsPerDay < elapsed <= k * MsPerDay
    ensures CeilDays(elapsed) == k
  {
  }

  /** More time elapsed never gives fewer started days. */
  lemma CeilDaysMonotone(e1: nat, e2: nat)
    requires e1 <= e2
    ensures CeilDays(e1) <= CeilDays(e2)
  {
  }

  /** A date as far in the future reads the same as one in the past. */
  lemma FormatDateSymmetric(now: int, x: int, localeDate: int -> string)
    ensures DiffDays(now - x, now) == DiffDays(now + x, now)
    ensures FormatDate(Some(now - x), now, localeDate) == FormatDate(Some(now + x), now, localeDate)
      || DiffDays(now - x, now) >= 30
  {
  }

  /** Between one and six full days ago, the label counts the started days. */
  lemma DaysAgo(date: int, now: int, k: int, localeDate: int -> string)
    requires 1 <= k <= 5
    requires k * MsPerDay < Elapsed(date, now) <= (k + 1) * MsPerDay
    ensures FormatDate(Some(date), now, localeDate) == IntToString(k + 1) + " дн. назад"
  {
    CeilDaysExact(Elapsed(date, now), k + 1);
  }

  /** From six to twenty-nine days the label counts whole weeks, one to four. */
  lemma WeeksAgo(date: int, now: int, localeDate: int -> string)
    requires 6 * MsPerDay < Elapsed(date, now) <= 29 * MsPerDay
    ensures var w := DiffDays(date, now) / 7;
      && 1 <= w <= 4
      && FormatDate(Some(date), now, localeDate) == IntToString(w) + " нед. назад"
  {
    CeilDaysMonotone(6 * MsPerDay + 1, Elapsed(date, now));
    CeilDaysExact(6 * MsPerDay + 1, 7);
    CeilDaysMonotone(Elapsed(date, now), 29 * MsPerDay);
    CeilDaysExact(29 * MsPerDay, 29);
  }
}
