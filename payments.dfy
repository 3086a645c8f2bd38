/** Registering the payment of one installment: a guarded transition that
    marks the installment paid, moves its amount from the plan's remaining to
    its paid amount, and then either advances the plan's next due date to the
    earliest open installment or completes the plan and its sale.

    `Pay` states the transition on the value of the payment tables; the
    method `RegisterInstallmentPayment` performs it step by step on the
    database and is proved to agree with it. */
module Payments {
  import opened Common
  import opened Calendar
  import opened Seqs
  import opened Schema
  import opened Plans

  const NotFound: string := "Cuota no encontrada"
  const AlreadyPaid: string := "Esta cuota ya fue pagada"
  /** The status a sale takes when its plan is paid off. */
  const SaleCompleted: string := "completada"

  /** What the caller supplies to register a payment. */
  datatype Payment = Payment(installmentId: Id, paymentMethod: string, notes: Option<string>)

  /** The earliest open installment of plan `pid` (a `findFirst` ordered by due
      date); among equal due dates, the first in table order. */
  function EarliestOpen(insts: seq<Installment>, pid: Id): (r: Option<nat>)
    ensures r.None? <==> forall i :: 0 <= i < |insts| ==> !OpenOf(pid)(insts[i])
    ensures r.Some? ==> r.value < |insts| && OpenOf(pid)(insts[r.value])
    ensures r.Some? ==> forall i :: 0 <= i < |insts| && OpenOf(pid)(insts[i]) ==>
      insts[r.value].dueDate <= insts[i].dueDate
  {
    if insts == [] then None
    else
      var n := |insts| - 1;
      var r := EarliestOpen(insts[..n], pid);
      assert forall i :: 0 <= i < n ==> insts[..n][i] == insts[i];
      if !OpenOf(pid)(insts[n]) then r
      else if r.Some? && insts[r.value].dueDate <= insts[n].dueDate then r
      else Some(n)
  }

  /** The installment row after payment. Notes are written only when given:
      an absent field is left as it was. */
  function MarkPaid(x: Installment, pay: Payment, now: Instant): Installment
  {
    x.(status := Paid, paidDate := Some(now), paidAmount := Some(x.amount),
       paymentMethod := Some(pay.paymentMethod),
       notes := if pay.notes.Some? then pay.notes else x.notes)
  }

  /** The plan row after `amount` is paid: it moves from owed to paid. */
  function Settle(p: PaymentPlan, amount: int): PaymentPlan
  {
    p.(paidAmount := p.paidAmount + amount, remainingAmount := p.remainingAmount - amount)
  }

  /** The plan row once its installments are `insts`: the next due date is the
      earliest open installment's, or, with none open, the plan is completed
      and its next due date is the moment of completion. */
  function Advance(p: PaymentPlan, insts: seq<Installment>, now: Instant): PaymentPlan
  {
    match EarliestOpen(insts, p.id)
    case Some(k) => p.(nextDueDate := insts[k].dueDate)
    case None => p.(status := Completed, nextDueDate := now)
  }

  /** The effect of `registerInstallmentPayment` on the payment tables, and the
      installment row it returns. Any failure rolls the whole transaction back. */
  function Pay(b: Books, pay: Payment, now: Instant): Result<(Books, Installment)>
  {
    match Find(b.installments, InstallmentKey, pay.installmentId)
    case None => Err(NotFound)
    case Some(i) =>
      var inst := b.installments[i];
      if inst.status == Paid then Err(AlreadyPaid)
      else
        var paid := MarkPaid(inst, pay, now);
        var insts := b.installments[i := paid];
        match Find(b.plans, PlanKey, inst.planId)
        case None => Err(RecordNotFound)
        case Some(j) =>
          var plan := b.plans[j];
          var plans := b.plans[j := Advance(Settle(plan, inst.amount), insts, now)];
          if EarliestOpen(insts, plan.id).Some? || plan.saleId.None? then
            Ok((Books(plans, insts, b.sales), paid))
          else
            match Find(b.sales, SaleKey, plan.saleId.value)
            case None => Err(RecordNotFound)
            case Some(s) => Ok((Books(plans, insts, b.sales[s := b.sales[s].(status := SaleCompleted)]), paid))
  }

  // ---------------------------------------------------------------------------
  // Guards

  /** In a consistent database a payment fails exactly when the installment
      does not exist ("Cuota no encontrada") or is already paid ("Esta cuota ya
      fue pagada"). */
  lemma PayFailsIff(b: Books, pay: Payment, now: Instant)
    requires BooksIntegrity(b)
    ensures var r := Pay(b, pay, now);
      && (pay.installmentId !in Map(b.installments, InstallmentKey) <==> r == Err(NotFound))
      && (r.Err? <==> pay.installmentId !in Map(b.installments, InstallmentKey)
                      || exists i :: 0 <= i < |b.installments| && b.installments[i].id == pay.installmentId
                                     && b.installments[i].status == Paid)
      && (r == Err(AlreadyPaid) <==>
            exists i :: 0 <= i < |b.installments| && b.installments[i].id == pay.installmentId
                        && b.installments[i].status == Paid)
  {
    var f := Find(b.installments, InstallmentKey, pay.installmentId);
    if f.Some? {
      var i := f.value;
      var inst := b.installments[i];
      forall k | 0 <= k < |b.installments| && b.installments[k].id == pay.installmentId
        ensures k == i
      {
        assert Map(b.installments, InstallmentKey)[k] == Map(b.installments, InstallmentKey)[i];
      }
      if inst.status != Paid {
        assert inst.planId in Map(b.plans, PlanKey);
        var j := Find(b.plans, PlanKey, inst.planId).value;
        var plan := b.plans[j];
        if plan.saleId.Some? {
          assert plan.saleId.value in Map(b.sales, SaleKey);
        }
      }
    }
  }

  /** Paying the same installment a second time fails and changes nothing. */
  lemma PayTwice(b: Books, pay: Payment, now: Instant, pay': Payment, now': Instant)
    requires Pay(b, pay, now).Ok?
    requires pay'.installmentId == pay.installmentId
    ensures Pay(Pay(b, pay, now).value.0, pay', now') == Err(AlreadyPaid)
  {
    var i := Find(b.installments, InstallmentKey, pay.installmentId).value;
    var b' := Pay(b, pay, now).value.0;
    var paid := MarkPaid(b.installments[i], pay, now);
    assert b'.installments == b.installments[i := paid];
    FindAfterUpdate(b.installments, InstallmentKey, i, paid, pay.installmentId);
  }

  // ---------------------------------------------------------------------------
  // Effects

  /** A successful payment rewrites exactly the paid installment: it becomes
      "paid", records its own amount, the method and (when given) the notes,
      and keeps its id, plan, number, amount and due date. */
  lemma PayInstallmentEffect(b: Books, pay: Payment, now: Instant)
    requires Pay(b, pay, now).Ok?
    ensures var (b', x) := Pay(b, pay, now).value;
      exists i :: 0 <= i < |b.installments| && b.installments[i].id == pay.installmentId
        && b.installments[i].status != Paid
        && b'.installments == b.installments[i := x]
        && x.status == Paid && x.paidDate == Some(now) && x.paidAmount == Some(b.installments[i].amount)
        && x.paymentMethod == Some(pay.paymentMethod)
        && x.notes == (if pay.notes.Some? then pay.notes else b.installments[i].notes)
        && x.id == b.installments[i].id && x.planId == b.installments[i].planId
        && x.number == b.installments[i].number && x.amount == b.installments[i].amount
        && x.dueDate == b.installments[i].dueDate
  {
    var i := Find(b.installments, InstallmentKey, pay.installmentId).value;
    assert b.installments[i].id == pay.installmentId;
  }

  /** The paid installment's plan receives its amount: paid rises and remaining
      falls by the amount, so their sum is unchanged. Every other plan is left
      as it was, and no plan changes its id, patient, sale or amounts due. */
  lemma PayPlanEffect(b: Books, pay: Payment, now: Instant)
    requires Pay(b, pay, now).Ok?
    ensures var (b', x) := Pay(b, pay, now).value;
      && |b'.plans| == |b.plans|
      && (exists j :: 0 <= j < |b.plans| && b.plans[j].id == x.planId
           && b'.plans[j].paidAmount == b.plans[j].paidAmount + x.amount
           && b'.plans[j].remainingAmount == b.plans[j].remainingAmount - x.amount
           && b'.plans[j].paidAmount + b'.plans[j].remainingAmount == b.plans[j].paidAmount + b.plans[j].remainingAmount
           && b'.plans[j].id == b.plans[j].id && b'.plans[j].saleId == b.plans[j].saleId
           && b'.plans[j].patientId == b.plans[j].patientId
           && b'.plans[j].installmentAmount == b.plans[j].installmentAmount
           && b'.plans[j].installments == b.plans[j].installments
           && b'.plans[j].totalAmount == b.plans[j].totalAmount
           && b'.plans[j].downPayment == b.plans[j].downPayment
           && (forall k :: 0 <= k < |b.plans| && k != j ==> b'.plans[k] == b.plans[k]))
  {
    var i := Find(b.installments, InstallmentKey, pay.installmentId).value;
    var j := Find(b.plans, PlanKey, b.installments[i].planId).value;
    assert b.plans[j].id == b.installments[i].planId;
  }

  /** After a payment the plan either still has open installments, keeps its
      status and takes the earliest of their due dates as its next one, or has
      none left, is completed with the payment moment as its next due date, and
      its sale, if it has one, is marked "completada". No other sale changes. */
  lemma PayAdvance(b: Books, pay: Payment, now: Instant)
    requires Pay(b, pay, now).Ok?
    ensures var (b', x) := Pay(b, pay, now).value;
      exists j :: 0 <= j < |b.plans| && b.plans[j].id == x.planId
        && (if exists k :: 0 <= k < |b'.installments| && OpenOf(x.planId)(b'.installments[k]) then
              && b'.plans[j].status == b.plans[j].status
              && (exists k :: 0 <= k < |b'.installments| && OpenOf(x.planId)(b'.installments[k])
                               && b'.plans[j].nextDueDate == b'.installments[k].dueDate)
              && (forall k :: 0 <= k < |b'.installments| && OpenOf(x.planId)(b'.installments[k]) ==>
                               b'.plans[j].nextDueDate <= b'.installments[k].dueDate)
              && b'.sales == b.sales
            else
              && b'.plans[j].status == Completed
              && b'.plans[j].nextDueDate == now
              && (b.plans[j].saleId.None? ==> b'.sales == b.sales)
              && (b.plans[j].saleId.Some? ==>
                    exists s :: 0 <= s < |b.sales| && b.sales[s].id == b.plans[j].saleId.value
                      && b'.sales == b.sales[s := b.sales[s].(status := SaleCompleted)]))
  {
    var i := Find(b.installments, InstallmentKey, pay.installmentId).value;
    var j := Find(b.plans, PlanKey, b.installments[i].planId).value;
    var b' := Pay(b, pay, now).value.0;
    var e := EarliestOpen(b'.installments, b.plans[j].id);
    assert b.plans[j].id == b.installments[i].planId;
    if e.Some? {
      assert OpenOf(b.plans[j].id)(b'.installments[e.value]);
    } else {
      if b.plans[j].saleId.Some? {
        var s := Find(b.sales, SaleKey, b.plans[j].saleId.value).value;
        assert b.sales[s].id == b.plans[j].saleId.value;
      }
    }
  }

  /** A paid installment is final: a payment never alters an installment that
      was already paid. */
  lemma PaidIsFinal(b: Books, pay: Payment, now: Instant, k: nat)
    requires Pay(b, pay, now).Ok?
    requires k < |b.installments| && b.installments[k].status == Paid
    ensures k < |Pay(b, pay, now).value.0.installments|
    ensures Pay(b, pay, now).value.0.installments[k] == b.installments[k]
  {
  }

  // ---------------------------------------------------------------------------
  // Invariants

  /** A payment keeps the payment tables' integrity: ids and references are not
      touched. */
  lemma PayKeepsIntegrity(b: Books, pay: Payment, now: Instant)
    requires BooksIntegrity(b) && Pay(b, pay, now).Ok?
    ensures BooksIntegrity(Pay(b, pay, now).value.0)
  {
    PaySameShape(b, pay, now);
    SameShapeIntegrity(b, Pay(b, pay, now).value.0);
  }

  /** A plan not owning the paid installment keeps its ledger. */
  lemma {:induction false} LedgerOtherPlan(p: PaymentPlan, insts: seq<Installment>, i: nat, x: Installment)
    requires PlanLedger(p, insts) && i < |insts|
    requires insts[i].planId != p.id && x.planId != p.id
    ensures PlanLedger(p, insts[i := x])
  {
    var insts' := insts[i := x];
    CountUpdate(insts, i, x, OfPlan(p.id));
    CountUpdate(insts, i, x, PaidOf(p.id));
    CountUpdate(insts, i, x, OpenOf(p.id));
    if p.status == Active {
      var w :| 0 <= w < |insts| && OpenOf(p.id)(insts[w]) && insts[w].dueDate == p.nextDueDate;
      assert insts'[w] == insts[w];
    }
  }

  /** Paying an open installment of a plan moves one installment of that plan
      from open to paid. */
  lemma {:induction false} PayCounts(insts: seq<Installment>, i: nat, x: Installment, pid: Id)
    requires i < |insts| && insts[i].planId == pid && insts[i].status != Paid
    requires x.planId == pid && x.status == Paid
    ensures Count(insts[i := x], OfPlan(pid)) == Count(insts, OfPlan(pid))
    ensures Count(insts[i := x], PaidOf(pid)) == Count(insts, PaidOf(pid)) + 1
    ensures Count(insts[i := x], OpenOf(pid)) == Count(insts, OpenOf(pid)) - 1
  {
    CountUpdate(insts, i, x, OfPlan(pid));
    CountUpdate(insts, i, x, PaidOf(pid));
    CountUpdate(insts, i, x, OpenOf(pid));
  }

  /** Advancing an active plan completes it exactly when none of its
      installments is open, and otherwise points it at the earliest open one. */
  lemma AdvanceStatus(p: PaymentPlan, insts: seq<Installment>, now: Instant)
    requires p.status == Active
    ensures var q := Advance(p, insts, now);
      && q == p.(status := q.status, nextDueDate := q.nextDueDate)
      && (q.status == Completed <==> Count(insts, OpenOf(p.id)) == 0)
      && (q.status == Active ==> NextDueIsEarliest(q, insts))
  {
    CountZero(insts, OpenOf(p.id));
  }

  /** After the payment every installment of the plan still carries the plan's
      amount and consistent payment fields. */
  lemma {:induction false} PaidRowsRecorded(p: PaymentPlan, insts: seq<Installment>, i: nat, pay: Payment, now: Instant)
    requires PlanLedger(p, insts) && i < |insts| && insts[i].planId == p.id
    ensures var insts' := insts[i := MarkPaid(insts[i], pay, now)];
      forall k :: 0 <= k < |insts'| && insts'[k].planId == p.id ==>
        insts'[k].amount == p.installmentAmount && PaymentRecorded(insts'[k])
  {
  }

  /** Settling one more installment keeps paid = down payment + installments paid. */
  lemma SettledMoney(p: PaymentPlan, c: int)
    requires p.paidAmount == p.downPayment + p.installmentAmount * c
    ensures Settle(p, p.installmentAmount).paidAmount == p.downPayment + p.installmentAmount * (c + 1)
  {
    assert p.installmentAmount * (c + 1) == p.installmentAmount * c + p.installmentAmount;
  }

  /** The plan owning the paid installment keeps its ledger once its row is
      settled and advanced. */
  lemma {:induction false} LedgerOwnPlan(p: PaymentPlan, insts: seq<Installment>, i: nat, pay: Payment, now: Instant)
    requires PlanLedger(p, insts) && i < |insts|
    requires insts[i].planId == p.id && insts[i].status != Paid
    ensures var insts' := insts[i := MarkPaid(insts[i], pay, now)];
      PlanLedger(Advance(Settle(p, insts[i].amount), insts', now), insts')
  {
    var x := MarkPaid(insts[i], pay, now);
    var insts' := insts[i := x];
    var pid := p.id;
    var settled := Settle(p, insts[i].amount);
    PayCounts(insts, i, x, pid);
    CountZero(insts, OpenOf(pid));
    assert OpenOf(pid)(insts[i]);
    SettledMoney(p, Count(insts, PaidOf(pid)));
    PaidRowsRecorded(p, insts, i, pay, now);
    AdvanceStatus(settled, insts', now);
  }

  /** A successful payment keeps the ledger of every plan. */
  lemma PayKeepsLedger(b: Books, pay: Payment, now: Instant)
    requires BooksIntegrity(b) && LedgerOk(b) && Pay(b, pay, now).Ok?
    ensures LedgerOk(Pay(b, pay, now).value.0)
  {
    var b' := Pay(b, pay, now).value.0;
    var i := Find(b.installments, InstallmentKey, pay.installmentId).value;
    var inst := b.installments[i];
    var j := Find(b.plans, PlanKey, inst.planId).value;
    var x := MarkPaid(inst, pay, now);
    assert b'.installments == b.installments[i := x];
    assert b'.plans == b.plans[j := Advance(Settle(b.plans[j], inst.amount), b'.installments, now)];
    LedgerOwnPlan(b.plans[j], b.installments, i, pay, now);
    forall k | 0 <= k < |b'.plans| ensures PlanLedger(b'.plans[k], b'.installments) {
      if k != j {
        assert Map(b.plans, PlanKey)[k] != Map(b.plans, PlanKey)[j];
        LedgerOtherPlan(b.plans[k], b.installments, i, x);
      }
    }
  }

  // ---------------------------------------------------------------------------
  // The transaction

  /** A successful payment changes no key or reference column. */
  lemma PaySameShape(b: Books, pay: Payment, now: Instant)
    requires Pay(b, pay, now).Ok?
    ensures SameShape(b, Pay(b, pay, now).value.0)
  {
    var b' := Pay(b, pay, now).value.0;
    var i := Find(b.installments, InstallmentKey, pay.installmentId).value;
    var j := Find(b.plans, PlanKey, b.installments[i].planId).value;
    KeysUpdate(b.installments, InstallmentKey, i, b'.installments[i]);
    KeysUpdate(b.plans, PlanKey, j, b'.plans[j]);
    if b'.sales != b.sales {
      var s := Find(b.sales, SaleKey, b.plans[j].saleId.value).value;
      KeysUpdate(b.sales, SaleKey, s, b'.sales[s]);
    }
  }

  /** The steps of the payment transaction, staged on the three payment
      tables: mark the installment paid, settle its amount on the plan, move
      the plan's next due date to the earliest open installment or complete the
      plan, and complete the plan's sale with it. */
  method StagePayment(b: Books, pay: Payment, now: Instant) returns (r: Result<(Books, Installment)>)
    ensures r == Pay(b, pay, now)
  {
    var insts, plans, sales := b.installments, b.plans, b.sales;
    var found := Find(insts, InstallmentKey, pay.installmentId);
    if found.None? {
      return Err(NotFound);
    }
    var i := found.value;
    var inst := insts[i];
    if inst.status == Paid {
      return Err(AlreadyPaid);
    }
    var paid := MarkPaid(inst, pay, now);
    insts := insts[i := paid];
    var owner := Find(plans, PlanKey, inst.planId);
    if owner.None? {
      return Err(RecordNotFound);
    }
    var j := owner.value;
    var plan := plans[j];
    plans := plans[j := Settle(plan, inst.amount)];
    var next := EarliestOpen(insts, inst.planId);
    if next.Some? {
      plans := plans[j := plans[j].(nextDueDate := insts[next.value].dueDate)];
    } else {
      plans := plans[j := plans[j].(status := Completed, nextDueDate := now)];
    }
    assert plans == b.plans[j := Advance(Settle(plan, inst.amount), insts, now)];
    if next.None? {
      if plan.saleId.Some? {
        var sale := Find(sales, SaleKey, plan.saleId.value);
        if sale.None? {
          return Err(RecordNotFound);
        }
        var s := sale.value;
        sales := sales[s := sales[s].(status := SaleCompleted)];
      }
    }
    assert plan.id == inst.planId;
    return Ok((Books(plans, insts, sales), paid));
  }

  /** `registerInstallmentPayment`: look the installment up, refuse unknown or
      paid ones, mark it paid, settle its amount on the plan, then advance or
      complete the plan and complete its sale, committing the writes together;
      on error the database is left untouched. */
  method RegisterInstallmentPayment(db: Db, pay: Payment, now: Instant) returns (r: Result<Installment>)
    requires db.Valid()
    modifies db`installments, db`plans, db`sales
    ensures db.Valid()
    ensures LedgerOk(old(db.CurrentBooks())) ==> LedgerOk(db.CurrentBooks())
    ensures var p := Pay(old(db.CurrentBooks()), pay, now);
      if p.Ok? then r == Ok(p.value.1) && db.CurrentBooks() == p.value.0
      else r == Err(p.error) && db.CurrentBooks() == old(db.CurrentBooks())
  {
    ghost var t0 := db.Snapshot();
    var staged := StagePayment(db.CurrentBooks(), pay, now);
    if staged.Err? {
      return Err(staged.error);
    }
    var (books, paid) := staged.value;
    db.installments, db.plans, db.sales := books.installments, books.plans, books.sales;
    r := Ok(paid);
    assert db.Snapshot() == t0.WithPaymentTables(books);
    PayCommit(t0, pay, now);
  }


  /** What committing a payment does to the database's invariants. */
  lemma PayCommit(t: Tables, pay: Payment, now: Instant)
    requires TablesValid(t) && Pay(t.PaymentTables(), pay, now).Ok?
    ensures TablesValid(t.WithPaymentTables(Pay(t.PaymentTables(), pay, now).value.0))
    ensures LedgerOk(t.PaymentTables()) ==> LedgerOk(Pay(t.PaymentTables(), pay, now).value.0)
  {
    PaySameShape(t.PaymentTables(), pay, now);
    SameShapeValid(t, Pay(t.PaymentTables(), pay, now).value.0);
    ValidBooks(t);
    if LedgerOk(t.PaymentTables()) {
      PayKeepsLedger(t.PaymentTables(), pay, now);
    }
  }
}
