/** The due-date schedule of a payment plan: installment `n` falls due `n`
    weeks, `n` fortnights (15 days) or `n` calendar months after the plan's
    start, according to the plan's frequency. */
module Schedule {
  import opened Common
  import opened Calendar

  const Weekly: string := "semanal"
  const Biweekly: string := "quincenal"
  const Monthly: string := "mensual"

  /** `data.frequency || "mensual"`: a missing or empty frequency means monthly. */
  function EffectiveFrequency(requested: Option<string>): (f: string)
    ensures f != ""
    ensures requested.Some? && requested.value != "" ==> f == requested.value
    ensures requested.None? || requested.value == "" ==> f == Monthly
  {
    if requested.Some? && requested.value != "" then requested.value else Monthly
  }

  /** The due date of installment `n` of a plan started at `start`. A frequency
      other than weekly or biweekly falls through to the monthly case. */
  function DueDate(start: Instant, n: int, frequency: string): Instant
  {
    if frequency == Weekly then AddDays(start, n * 7)
    else if frequency == Biweekly then AddDays(start, n * 15)
    else AddMonths(start, n)
  }

  /** Every due date keeps the start's time of day; weekly and biweekly ones
      lie exactly `7 * n` and `15 * n` days on. */
  lemma DueDateFields(start: Instant, n: int, frequency: string)
    ensures var r := DueDate(start, n, frequency);
      && TimeOfDay(r) == TimeOfDay(start)
      && (frequency == Weekly ==> DayNumber(r) == DayNumber(start) + 7 * n)
      && (frequency == Biweekly ==> DayNumber(r) == DayNumber(start) + 15 * n)
  {
    if frequency != Weekly && frequency != Biweekly {
      AddMonthsTimeOfDay(start, n);
    }
  }

  /** Every frequency other than "semanal" and "quincenal" is treated as "mensual". */
  lemma UnknownFrequencyIsMonthly(start: Instant, n: int, frequency: string)
    requires frequency != Weekly && frequency != Biweekly
    ensures DueDate(start, n, frequency) == DueDate(start, n, Monthly)
    ensures DueDate(start, n, frequency) == AddMonths(start, n)
  {
  }

  /** Monthly installments fall on the start's day of month, `n` months on,
      whenever that day exists in every month. */
  lemma MonthlySameDay(start: Instant, n: int)
    requires DayOfMonth(start) <= 28
    ensures MonthIndex(DueDate(start, n, Monthly)) == MonthIndex(start) + n
    ensures DayOfMonth(DueDate(start, n, Monthly)) == DayOfMonth(start)
  {
    AddMonthsSameDay(start, n);
  }

  /** Installment zero would fall due on the start date itself. */
  lemma DueDateZero(start: Instant, frequency: string)
    ensures DueDate(start, 0, frequency) == start
  {
    AddMonthsZero(start);
  }

  /** Consecutive installments are at least 7 days apart and at most 31. */
  lemma DueDateStep(start: Instant, n: int, frequency: string)
    ensures 7 * DayMs <= DueDate(start, n + 1, frequency) - DueDate(start, n, frequency) <= 31 * DayMs
  {
    var a := DueDate(start, n, frequency);
    var b := DueDate(start, n + 1, frequency);
    DueDateFields(start, n, frequency);
    DueDateFields(start, n + 1, frequency);
    if frequency == Weekly || frequency == Biweekly {
      assert a == DayNumber(a) * DayMs + TimeOfDay(start);
      assert b == DayNumber(b) * DayMs + TimeOfDay(start);
      var step := if frequency == Weekly then 7 else 15;
      assert DayNumber(b) == DayNumber(a) + step;
      assert b - a == step * DayMs;
    } else {
      AddMonthsStep(start, n);
    }
  }

  /** Later installments fall due strictly later, whatever the frequency. */
  lemma {:induction false} DueDateIncreasing(start: Instant, j: int, k: int, frequency: string)
    requires j < k
    ensures DueDate(start, j, frequency) < DueDate(start, k, frequency)
    decreases k - j
  {
    DueDateStep(start, k - 1, frequency);
    if j < k - 1 {
      DueDateIncreasing(start, j, k - 1, frequency);
    }
  }
}
