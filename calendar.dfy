/** Instants and the proleptic Gregorian calendar, as JavaScript's `Date`
    uses them. An instant is a whole number of milliseconds since
    1970-01-01T00:00:00; calendar fields are read in one fixed zone, so the
    local-time setters `setDate`, `setMonth` and `setHours` become arithmetic
    on day numbers. */
module Calendar {
  import opened Common

  /** Milliseconds since the epoch. */
  type Instant = int

  const DayMs: int := 86_400_000

  /** The day an instant falls on, counted from 1970-01-01 (day 0). */
  function DayNumber(t: Instant): int
  {
    t / DayMs
  }

  /** Milliseconds elapsed since midnight. */
  function TimeOfDay(t: Instant): (r: int)
    ensures 0 <= r < DayMs
    ensures t == DayNumber(t) * DayMs + r
  {
    t % DayMs
  }

  /** `d.setDate(d.getDate() + n)`: the same time of day, `n` days later. */
  function AddDays(t: Instant, n: int): (r: Instant)
    ensures TimeOfDay(r) == TimeOfDay(t)
    ensures DayNumber(r) == DayNumber(t) + n
  {
    var r := t + n * DayMs;
    assert r == (DayNumber(t) + n) * DayMs + TimeOfDay(t);
    DivModUnique(r, DayNumber(t) + n, TimeOfDay(t));
    r
  }

  /** An optional inclusive range of instants: a `gte` bound and an `lte`
      bound, each applied only when given. */
  predicate InRange(t: Instant, from: Option<Instant>, to: Option<Instant>)
  {
    (from.Some? ==> from.value <= t) && (to.Some? ==> t <= to.value)
  }

  /** `d.setHours(0, 0, 0, 0)`: midnight of the day of `t`. */
  function StartOfDay(t: Instant): (r: Instant)
    ensures r <= t < r + DayMs
    ensures TimeOfDay(r) == 0 && DayNumber(r) == DayNumber(t)
  {
    var r := DayNumber(t) * DayMs;
    DivModUnique(r, DayNumber(t), 0);
    r
  }

  /** Euclidean division by a day is determined by its quotient and remainder. */
  lemma DivModUnique(x: int, q: int, m: int)
    requires 0 <= m < DayMs && x == q * DayMs + m
    ensures x / DayMs == q && x % DayMs == m
  {
  }

  // ---------------------------------------------------------------------------
  // Years and months
  //
  // Months are counted by a month index `k = 12 * year + m`, where `m` is the
  // month of the year counted from 0 (January). Every integer is a month index,
  // which is how `setMonth` treats month numbers outside 0..11. Internally a
  // year is taken to start in March, so that the leap day falls at its end.

  predicate IsLeapYear(y: int)
  {
    y % 4 == 0 && (y % 100 != 0 || y % 400 == 0)
  }

  /** Days from March 1 of year 0 to March 1 of year `y`. */
  function MarchYearStart(y: int): int
  {
    365 * y + y / 4 - y / 100 + y / 400
  }

  /** Day number (1970-01-01 is day 0) of the first day of month index `k`. */
  function MonthStart(k: int): int
  {
    var y := (k - 2) / 12;
    var mp := (k - 2) % 12;
    MarchYearStart(y) + (153 * mp + 2) / 5 - 719468
  }

  /** Days in month `m` (0 = January) of year `y`. */
  function MonthLength(y: int, m: int): (n: int)
    requires 0 <= m < 12
    ensures 28 <= n <= 31
  {
    if m == 1 then (if IsLeapYear(y) then 29 else 28)
    else if m == 3 || m == 5 || m == 8 || m == 10 then 30
    else 31
  }

  /** A March-based year has 366 days when the February that ends it is a
      leap February, and 365 otherwise. */
  lemma MarchYearStep(y: int)
    ensures MarchYearStart(y + 1) - MarchYearStart(y) == if IsLeapYear(y + 1) then 366 else 365
  {
    var x := y + 1;
    assert x / 4 - y / 4 == if x % 4 == 0 then 1 else 0;
    assert x / 100 - y / 100 == if x % 100 == 0 then 1 else 0;
    assert x / 400 - y / 400 == if x % 400 == 0 then 1 else 0;
    assert x % 100 == 0 ==> x % 4 == 0;
    assert x % 400 == 0 ==> x % 100 == 0;
  }

  /** Consecutive month starts are 28 to 31 days apart. */
  lemma MonthStartStep(k: int)
    ensures 28 <= MonthStart(k + 1) - MonthStart(k) <= 31
  {
    MonthStartLength(k);
  }

  /** Consecutive month starts are one month length apart. */
  lemma MonthStartLength(k: int)
    ensures MonthStart(k + 1) - MonthStart(k) == MonthLength(k / 12, k % 12)
  {
    var y := (k - 2) / 12;
    var mp := (k - 2) % 12;
    if mp == 11 {
      assert (k - 1) / 12 == y + 1 && (k - 1) % 12 == 0;
      assert k / 12 == y + 1 && k % 12 == 1;
      MarchYearStep(y);
    } else {
      assert (k - 1) / 12 == y && (k - 1) % 12 == mp + 1;
    }
  }

  /** Month starts increase strictly with the month index. */
  lemma {:induction false} MonthStartMonotone(j: int, k: int)
    requires j < k
    ensures MonthStart(j) + 28 * (k - j) <= MonthStart(k)
    decreases k - j
  {
    MonthStartStep(k - 1);
    if j < k - 1 {
      MonthStartMonotone(j, k - 1);
    }
  }

  /** Day `z` falls in month `k`. */
  predicate InMonth(z: int, k: int)
  {
    MonthStart(k) <= z < MonthStart(k + 1)
  }

  /** Some month index at or below `k` that starts no later than day `z`. */
  function MonthAtOrBefore(z: int, k: int): (r: int)
    ensures r <= k && MonthStart(r) <= z
    decreases if MonthStart(k) > z then MonthStart(k) - z else 0
  {
    if MonthStart(k) > z then
      MonthStartStep(k - 1);
      MonthAtOrBefore(z, k - 1)
    else k
  }

  /** The month index holding day `z`, walking up from a month that starts no later. */
  function MonthFrom(z: int, k: int): (r: int)
    requires MonthStart(k) <= z
    ensures InMonth(z, r)
    decreases z - MonthStart(k)
  {
    if MonthStart(k + 1) <= z then
      MonthStartStep(k);
      MonthFrom(z, k + 1)
    else k
  }

  /** The month index of day number `z`: 400 Gregorian years are 4800 months
      and 146097 days, which gives a guess within a month or two. */
  function MonthOf(z: int): (k: int)
    ensures InMonth(z, k)
  {
    MonthFrom(z, MonthAtOrBefore(z, 23640 + (z * 4800) / 146097))
  }

  /** Month spans do not overlap. */
  lemma SpanUnique(z: int, j: int, k: int)
    requires InMonth(z, j) && InMonth(z, k)
    ensures j == k
  {
    if j < k {
      MonthStartMonotone(j + 1, k);
    } else if j > k {
      MonthStartMonotone(k + 1, j);
    }
  }

  /** The month index an instant falls in. */
  function MonthIndex(t: Instant): int
  {
    MonthOf(DayNumber(t))
  }

  /** The day of month (1 = first) an instant falls on. */
  function DayOfMonth(t: Instant): (d: int)
    ensures 1 <= d <= 31
  {
    var k := MonthIndex(t);
    MonthStartStep(k);
    DayNumber(t) - MonthStart(k) + 1
  }

  /** Calendar fields of an instant: year, month 1..12 and day of month. */
  datatype Civil = Civil(year: int, month: int, day: int)

  function CivilOf(t: Instant): (c: Civil)
    ensures 1 <= c.month <= 12 && 1 <= c.day <= 31
    ensures c.day == DayOfMonth(t) && 12 * c.year + c.month - 1 == MonthIndex(t)
  {
    var k := MonthIndex(t);
    Civil(k / 12, k % 12 + 1, DayOfMonth(t))
  }

  /** `d.setMonth(d.getMonth() + n)`: the same day of month and time of day,
      `n` months later. A day that the target month does not have rolls over
      into the following month, as `Date` does (January 31 plus one month is
      March 2 or 3). */
  function AddMonths(t: Instant, n: int): Instant
  {
    AtDay(MonthIndex(t) + n, DayOfMonth(t), TimeOfDay(t))
  }

  /** The instant `ms` milliseconds into day `d` of month `k`, counting days
      past the end of the month on into the next ones. */
  function AtDay(k: int, d: int, ms: int): Instant
  {
    (MonthStart(k) + d - 1) * DayMs + ms
  }

  /** An instant built from a day that the month has reads back its month,
      day of month and time of day. */
  lemma AtDayFields(k: int, d: int, ms: int)
    requires 0 <= ms < DayMs && 1 <= d && MonthStart(k) + d <= MonthStart(k + 1)
    ensures MonthIndex(AtDay(k, d, ms)) == k
    ensures DayOfMonth(AtDay(k, d, ms)) == d
    ensures TimeOfDay(AtDay(k, d, ms)) == ms
  {
    var z := MonthStart(k) + d - 1;
    DivModUnique(AtDay(k, d, ms), z, ms);
    assert DayNumber(AtDay(k, d, ms)) == z;
    MonthOfSpan(z, k);
  }

  /** The month holding a day is the only one whose span contains it. */
  lemma MonthOfSpan(z: int, k: int)
    requires InMonth(z, k)
    ensures MonthOf(z) == k
  {
    SpanUnique(z, MonthOf(z), k);
  }

  /** Adding months keeps the time of day. */
  lemma AddMonthsTimeOfDay(t: Instant, n: int)
    ensures TimeOfDay(AddMonths(t, n)) == TimeOfDay(t)
  {
    DivModUnique(AddMonths(t, n), MonthStart(MonthIndex(t) + n) + DayOfMonth(t) - 1, TimeOfDay(t));
  }

  /** Adding no months changes nothing. */
  lemma AddMonthsZero(t: Instant)
    ensures AddMonths(t, 0) == t
  {
  }

  /** One more month is between 28 and 31 days later, whatever the day of month. */
  lemma AddMonthsStep(t: Instant, n: int)
    ensures 28 * DayMs <= AddMonths(t, n + 1) - AddMonths(t, n) <= 31 * DayMs
  {
    var k := MonthIndex(t);
    MonthStartStep(k + n);
    assert k + (n + 1) == (k + n) + 1;
  }

  /** When the day of month exists in every month, adding `n` months lands on
      that day of the month `n` months later. */
  lemma AddMonthsSameDay(t: Instant, n: int)
    requires DayOfMonth(t) <= 28
    ensures MonthIndex(AddMonths(t, n)) == MonthIndex(t) + n
    ensures DayOfMonth(AddMonths(t, n)) == DayOfMonth(t)
  {
    MonthStartStep(MonthIndex(t) + n);
    AtDayFields(MonthIndex(t) + n, DayOfMonth(t), TimeOfDay(t));
  }
}
