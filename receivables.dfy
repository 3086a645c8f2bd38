/** Accounts receivable: the nightly sweep that turns lapsed pending
    installments into overdue ones, and the receivables indicators computed
    over the payment tables. */
module Receivables {
  import opened Common
  import opened Calendar
  import opened Seqs
  import opened Schema
  import opened Plans
  import opened Payments

  // ---------------------------------------------------------------------------
  // The overdue sweep

  /** The installments the sweep rewrites: pending ones due before `today`. */
  function LapsedBy(today: Instant): Installment -> bool
  {
    (x: Installment) => x.status == Pending && x.dueDate < today
  }

  function LapsedAmount(today: Instant): Installment -> int
  {
    (x: Installment) => if LapsedBy(today)(x) then x.amount else 0
  }

  /** The installments table after the sweep against `today`: exactly the lapsed
      rows become "overdue", and nothing else about any row changes. */
  function Swept(insts: seq<Installment>, today: Instant): (r: seq<Installment>)
    ensures |r| == |insts|
    ensures forall i :: 0 <= i < |insts| ==> r[i] == insts[i].(status := r[i].status)
    ensures forall i :: 0 <= i < |insts| ==>
      r[i].status == (if insts[i].status == Pending && insts[i].dueDate < today then Overdue else insts[i].status)
  {
    seq(|insts|, i requires 0 <= i < |insts| =>
      if insts[i].status == Pending && insts[i].dueDate < today then insts[i].(status := Overdue) else insts[i])
  }

  /** `updateOverdueInstallments`: with `today` the midnight that starts the day
      of `now`, every pending installment due before `today` becomes overdue; the
      result is the number of rows rewritten. */
  method UpdateOverdueInstallments(db: Db, now: Instant) returns (count: nat)
    requires db.Valid()
    modifies db`installments
    ensures db.Valid()
    ensures LedgerOk(old(db.CurrentBooks())) ==> LedgerOk(db.CurrentBooks())
    ensures db.installments == Swept(old(db.installments), StartOfDay(now))
    ensures count == Count(old(db.installments), LapsedBy(StartOfDay(now)))
  {
    var today := StartOfDay(now);
    ghost var t0 := db.Snapshot();
    var swept;
    swept, count := SweepRows(db.installments, today);
    db.installments := swept;
    assert db.Snapshot() == t0.WithPaymentTables(Books(t0.plans, Swept(t0.installments, today), t0.sales));
    SweepCommit(t0, today);
  }

  /** The row-by-row pass of the bulk update: each pending row due before
      `today` is rewritten as overdue and counted. */
  method SweepRows(rows: seq<Installment>, today: Instant) returns (swept: seq<Installment>, count: nat)
    ensures swept == Swept(rows, today)
    ensures count == Count(rows, LapsedBy(today))
  {
    swept := rows;
    count := 0;
    var i := 0;
    while i < |rows|
      invariant |swept| == |rows| && i <= |rows|
      invariant forall k :: 0 <= k < i ==> swept[k] == Swept(rows, today)[k]
      invariant forall k :: i <= k < |rows| ==> swept[k] == rows[k]
      invariant count == Count(rows[..i], LapsedBy(today))
    {
      var x := swept[i];
      if x.status == Pending && x.dueDate < today {
        swept := swept[i := x.(status := Overdue)];
        count := count + 1;
      }
      assert rows[..i + 1] == rows[..i] + [rows[i]];
      CountAppend(rows[..i], [rows[i]], LapsedBy(today));
      i := i + 1;
    }
    assert rows[..i] == rows;
  }

  /** A second sweep on the same day changes nothing. */
  lemma SweepIdempotent(insts: seq<Installment>, now: Instant, now': Instant)
    requires DayNumber(now) == DayNumber(now')
    ensures Swept(Swept(insts, StartOfDay(now)), StartOfDay(now')) == Swept(insts, StartOfDay(now))
  {
    var once := Swept(insts, StartOfDay(now));
    assert StartOfDay(now') == StartOfDay(now);
    assert forall i :: 0 <= i < |once| ==> !LapsedBy(StartOfDay(now))(once[i]);
  }

  /** The sweep keeps every plan's ledger: pending and overdue are both open,
      and no amount, due date or payment field changes. */
  lemma SweepKeepsLedger(b: Books, today: Instant)
    requires LedgerOk(b)
    ensures LedgerOk(b.(installments := Swept(b.installments, today)))
  {
    var insts := b.installments;
    var swept := Swept(insts, today);
    forall j | 0 <= j < |b.plans|
      ensures PlanLedger(b.plans[j], swept)
    {
      var p := b.plans[j];
      assert PlanLedger(p, insts);
      CountPointwise(swept, insts, OfPlan(p.id), OfPlan(p.id));
      CountPointwise(swept, insts, PaidOf(p.id), PaidOf(p.id));
      CountPointwise(swept, insts, OpenOf(p.id), OpenOf(p.id));
      assert forall i :: 0 <= i < |swept| ==> (OpenOf(p.id)(swept[i]) <==> OpenOf(p.id)(insts[i]));
      if p.status == Active {
        var i :| 0 <= i < |insts| && OpenOf(p.id)(insts[i]) && insts[i].dueDate == p.nextDueDate;
        assert OpenOf(p.id)(swept[i]) && swept[i].dueDate == p.nextDueDate;
      }
    }
  }

  /** The sweep touches no key or reference column. */
  lemma SweepSameShape(t: Tables, today: Instant)
    ensures SameShape(t.PaymentTables(), Books(t.plans, Swept(t.installments, today), t.sales))
  {
    var swept := Swept(t.installments, today);
    assert forall i :: 0 <= i < |swept| ==> swept[i].id == t.installments[i].id;
    assert Map(swept, InstallmentKey) == Map(t.installments, InstallmentKey);
  }

  lemma SweepCommit(t: Tables, today: Instant)
    requires TablesValid(t)
    ensures TablesValid(t.WithPaymentTables(Books(t.plans, Swept(t.installments, today), t.sales)))
    ensures LedgerOk(t.PaymentTables()) ==> LedgerOk(Books(t.plans, Swept(t.installments, today), t.sales))
  {
    SweepSameShape(t, today);
    SameShapeValid(t, Books(t.plans, Swept(t.installments, today), t.sales));
    if LedgerOk(t.PaymentTables()) {
      SweepKeepsLedger(t.PaymentTables(), today);
    }
  }

  // ---------------------------------------------------------------------------
  // Indicators

  /** The figures of `getAccountsReceivableKPIs`. */
  datatype Kpis = Kpis(
    totalReceivable: int, overdueCount: nat, overdueAmount: int,
    dueThisWeekCount: nat, dueThisWeekAmount: int, activePlansCount: nat)

  predicate IsActivePlan(p: PaymentPlan) { p.status == Active }
  function RemainingOf(p: PaymentPlan): int { p.remainingAmount }
  function ActiveRemaining(p: PaymentPlan): int { if IsActivePlan(p) then p.remainingAmount else 0 }

  predicate IsOverdue(x: Installment) { x.status == Overdue }
  function OverdueAmount(x: Installment): int { if IsOverdue(x) then x.amount else 0 }

  /** Pending installments due in the closed interval from `from` to `to`. */
  function DueWithin(from: Instant, to: Instant): Installment -> bool
  {
    (x: Installment) => x.status == Pending && from <= x.dueDate <= to
  }

  function AmountWithin(from: Instant, to: Instant): Installment -> int
  {
    (x: Installment) => if DueWithin(from, to)(x) then x.amount else 0
  }

  /** The end of the "due this week" window: seven days after `now`, at the
      same time of day. */
  function WeekFromNow(now: Instant): Instant
  {
    AddDays(now, 7)
  }

  /** `getAccountsReceivableKPIs` at the moment `now`: the remaining amount
      over active plans, the overdue installments, the pending installments due
      between now and a week from now (both ends included), and the number of
      active plans. Each figure is a filter followed by a sum; the contract
      restates each as one pass over the whole table. */
  function ReceivableKpis(b: Books, now: Instant): (k: Kpis)
    ensures k.totalReceivable == Sum(b.plans, ActiveRemaining)
    ensures k.activePlansCount == Count(b.plans, IsActivePlan)
    ensures k.overdueCount == Count(b.installments, IsOverdue)
    ensures k.overdueAmount == Sum(b.installments, OverdueAmount)
    ensures k.dueThisWeekCount == Count(b.installments, DueWithin(now, WeekFromNow(now)))
    ensures k.dueThisWeekAmount == Sum(b.installments, AmountWithin(now, WeekFromNow(now)))
  {
    var week := DueWithin(now, WeekFromNow(now));
    var active := Filter(b.plans, IsActivePlan);
    var overdue := Filter(b.installments, IsOverdue);
    var due := Filter(b.installments, week);
    SumFilter(b.plans, IsActivePlan, RemainingOf, ActiveRemaining);
    SumFilter(b.installments, IsOverdue, InstallmentAmountOf, OverdueAmount);
    SumFilter(b.installments, week, InstallmentAmountOf, AmountWithin(now, WeekFromNow(now)));
    Kpis(Sum(active, RemainingOf), |overdue|, Sum(overdue, InstallmentAmountOf),
         |due|, Sum(due, InstallmentAmountOf), |active|)
  }

  /** After the sweep the overdue figures grow by exactly the lapsed
      installments, and, when the sweep ran no later than the moment the
      figures are taken, nothing else moves: a lapsed installment was due
      before today, so it was not in this week's window. */
  lemma {:induction false} SweepKpis(b: Books, today: Instant, now: Instant)
    requires today <= now
    ensures var k := ReceivableKpis(b, now);
      var k' := ReceivableKpis(b.(installments := Swept(b.installments, today)), now);
      && k'.overdueCount == k.overdueCount + Count(b.installments, LapsedBy(today))
      && k'.overdueAmount == k.overdueAmount + Sum(b.installments, LapsedAmount(today))
      && k'.dueThisWeekCount == k.dueThisWeekCount
      && k'.dueThisWeekAmount == k.dueThisWeekAmount
      && k'.totalReceivable == k.totalReceivable
      && k'.activePlansCount == k.activePlansCount
  {
    var insts := b.installments;
    var swept := Swept(insts, today);
    var lapsed := LapsedBy(today);
    var either := (x: Installment) => IsOverdue(x) || lapsed(x);
    var both := (x: Installment) => OverdueAmount(x) + LapsedAmount(today)(x);
    CountPointwise(swept, insts, IsOverdue, either);
    CountSplit(insts, either, IsOverdue, lapsed);
    forall i | 0 <= i < |swept|
      ensures OverdueAmount(swept[i]) == both(insts[i])
    {
      assert LapsedAmount(today)(insts[i]) == if lapsed(insts[i]) then insts[i].amount else 0;
    }
    SumPointwise(swept, insts, OverdueAmount, both);
    SumPlus(insts, OverdueAmount, LapsedAmount(today), both);
    var week := DueWithin(now, WeekFromNow(now));
    CountPointwise(swept, insts, week, week);
    SumPointwise(swept, insts, AmountWithin(now, WeekFromNow(now)), AmountWithin(now, WeekFromNow(now)));
  }

  /** In a database whose ledgers hold, a payment takes the paid installment
      out of whichever of the overdue and due-this-week figures counted it, and
      lowers the receivable: by the installment's amount while its plan stays
      active, and by everything the plan still showed as owed (the last
      installment plus the rounding residual) when the payment completes the
      plan, which then also leaves the active count. */
  lemma PayKpis(b: Books, pay: Payment, now: Instant, at: Instant)
    requires LedgerOk(b) && Pay(b, pay, now).Ok?
    ensures var k := ReceivableKpis(b, at);
      var (b', x) := Pay(b, pay, now).value;
      var k' := ReceivableKpis(b', at);
      var before := b.installments[Find(b.installments, InstallmentKey, pay.installmentId).value];
      var plan := b.plans[Find(b.plans, PlanKey, x.planId).value];
      && k'.overdueCount == k.overdueCount - (if IsOverdue(before) then 1 else 0)
      && k'.overdueAmount == k.overdueAmount - OverdueAmount(before)
      && k'.dueThisWeekCount == k.dueThisWeekCount - (if DueWithin(at, WeekFromNow(at))(before) then 1 else 0)
      && k'.dueThisWeekAmount == k.dueThisWeekAmount - AmountWithin(at, WeekFromNow(at))(before)
      && (if Count(b'.installments, OpenOf(x.planId)) == 0 then
            && k'.totalReceivable == k.totalReceivable - plan.remainingAmount
            && k'.activePlansCount == k.activePlansCount - 1
          else
            && k'.totalReceivable == k.totalReceivable - x.amount
            && k'.activePlansCount == k.activePlansCount)
  {
    var (b', x) := Pay(b, pay, now).value;
    var i := Find(b.installments, InstallmentKey, pay.installmentId).value;
    var before := b.installments[i];
    var j := Find(b.plans, PlanKey, before.planId).value;
    var plan := b.plans[j];
    assert x == MarkPaid(before, pay, now) && b'.installments == b.installments[i := x];
    var week := DueWithin(at, WeekFromNow(at));
    CountUpdate(b.installments, i, x, IsOverdue);
    SumUpdate(b.installments, i, x, OverdueAmount);
    CountUpdate(b.installments, i, x, week);
    SumUpdate(b.installments, i, x, AmountWithin(at, WeekFromNow(at)));
    // the plan is active: the installment being paid is one of its open ones
    assert PlanLedger(plan, b.installments);
    CountZero(b.installments, OpenOf(plan.id));
    assert OpenOf(plan.id)(b.installments[i]);
    assert plan.status == Active;
    var adv := Advance(Settle(plan, before.amount), b'.installments, now);
    assert b'.plans == b.plans[j := adv];
    CountZero(b'.installments, OpenOf(plan.id));
    assert adv.status == Completed <==> Count(b'.installments, OpenOf(x.planId)) == 0;
    SumUpdate(b.plans, j, adv, ActiveRemaining);
    CountUpdate(b.plans, j, adv, IsActivePlan);
  }
}
