/** Payment plans: creating a plan together with its installments, and the
    ledger invariant that ties a plan's amounts and status to its installments. */
module Plans {
  import opened Common
  import opened Calendar
  import opened Seqs
  import opened Schema
  import opened Schedule

  /** What the caller supplies to create a plan. */
  datatype PlanRequest = PlanRequest(
    patientId: Id, treatment: string, saleId: Option<Id>, totalAmount: int,
    downPayment: int, installments: int, frequency: Option<string>,
    startDate: Instant, createdBy: Option<Id>)

  // ---------------------------------------------------------------------------
  // Amounts

  /** `Math.round((total - down) / n)`: the amount of every installment. */
  function InstallmentAmount(total: int, down: int, n: int): (a: int)
    requires n >= 1
    ensures n * (2 * a - 1) <= 2 * (total - down) < n * (2 * a + 1)
  {
    RoundDiv(total - down, n)
  }

  /** Paying all `n` rounded installments leaves `(total - down) - n * a` owing,
      which lies in [-n/2, n/2): positive when rounding went down, negative
      when it went up. */
  lemma ResidualBound(total: int, down: int, n: int)
    requires n >= 1
    ensures var a := InstallmentAmount(total, down, n);
      -n <= 2 * ((total - down) - n * a) < n
  {
    var a := InstallmentAmount(total, down, n);
    assert n * (2 * a - 1) == 2 * (n * a) - n;
    assert n * (2 * a + 1) == 2 * (n * a) + n;
  }

  /** When `n` divides the financed amount the installments repay it exactly. */
  lemma ExactResidual(total: int, down: int, n: int)
    requires n >= 1 && (total - down) % n == 0
    ensures (total - down) - n * InstallmentAmount(total, down, n) == 0
  {
    RoundDivExact(total - down, n);
    assert total - down == n * ((total - down) / n);
  }

  /** 1000 financed over 6 installments rounds each to 167; the six together
      come to 1002, so the plan ends 2 below zero. */
  lemma NegativeResidualExample()
    ensures InstallmentAmount(1000, 0, 6) == 167
    ensures (1000 - 0) - 6 * InstallmentAmount(1000, 0, 6) == -2
  {
    RoundDivUnique(1000, 6, 167);
  }

  // ---------------------------------------------------------------------------
  // The rows a new plan writes

  /** The plan row: the down payment counts as paid, the rest is owed, and the
      first installment's due date is the next one. */
  function NewPlan(req: PlanRequest, id: Id, now: Instant): (p: PaymentPlan)
    requires req.installments >= 1
    ensures p.id == id && p.status == Active
    ensures p.paidAmount + p.remainingAmount == p.totalAmount == req.totalAmount
    ensures p.paidAmount == p.downPayment == req.downPayment
    ensures p.frequency == EffectiveFrequency(req.frequency)
    ensures p.installments == req.installments
    ensures p.installmentAmount == InstallmentAmount(req.totalAmount, req.downPayment, req.installments)
    ensures p.nextDueDate == DueDate(req.startDate, 1, p.frequency)
  {
    var frequency := EffectiveFrequency(req.frequency);
    PaymentPlan(
      id, req.patientId, req.treatment, req.saleId, req.totalAmount,
      req.downPayment, req.installments,
      InstallmentAmount(req.totalAmount, req.downPayment, req.installments),
      req.downPayment, req.totalAmount - req.downPayment, frequency, Active,
      req.startDate, DueDate(req.startDate, 1, frequency), req.createdBy, now)
  }

  /** Installment `number` of plan `p`, pending, stored with id `id`. */
  function NewInstallment(p: PaymentPlan, id: Id, number: int): Installment
  {
    Installment(id, p.id, number, p.installmentAmount, DueDate(p.startDate, number, p.frequency),
                Pending, None, None, None, None)
  }

  /** The installment rows of a new plan, their ids counting up from `firstId`. */
  function InstallmentRows(p: PaymentPlan, firstId: Id, n: nat): (r: seq<Installment>)
    ensures |r| == n
    ensures forall k :: 0 <= k < n ==> r[k] == NewInstallment(p, firstId + k, k + 1)
  {
    seq(n, k requires 0 <= k < n => NewInstallment(p, firstId + k, k + 1))
  }

  /** The rows of a new plan: numbered 1..n, all pending with the plan's
      amount, all belonging to the plan, with consecutive ids. */
  lemma {:induction false} NewRowsShape(p: PaymentPlan, firstId: Id, n: nat)
    ensures var r := InstallmentRows(p, firstId, n);
      forall k :: 0 <= k < |r| ==>
        r[k].number == k + 1 && r[k].planId == p.id && r[k].status == Pending
        && r[k].amount == p.installmentAmount && r[k].id == firstId + k
        && r[k].dueDate == DueDate(p.startDate, k + 1, p.frequency)
  {
  }

  /** The rows of a new plan fall due strictly one after another, the first
      on the plan's next due date. */
  lemma {:induction false} NewRowsOrdered(req: PlanRequest, id: Id, now: Instant)
    requires req.installments >= 1
    ensures var p := NewPlan(req, id, now);
      var r := InstallmentRows(p, id + 1, req.installments);
      && r[0].dueDate == p.nextDueDate
      && (forall j, k :: 0 <= j < k < |r| ==> r[j].dueDate < r[k].dueDate)
  {
    var p := NewPlan(req, id, now);
    var r := InstallmentRows(p, id + 1, req.installments);
    forall j, k | 0 <= j < k < |r| ensures r[j].dueDate < r[k].dueDate {
      assert r[j].dueDate == DueDate(p.startDate, j + 1, p.frequency);
      assert r[k].dueDate == DueDate(p.startDate, k + 1, p.frequency);
      DueDateIncreasing(p.startDate, j + 1, k + 1, p.frequency);
    }
  }

  /** Together the rows of a new plan are worth `n` installments. */
  lemma {:induction false} NewRowsTotal(p: PaymentPlan, firstId: Id, n: nat)
    ensures Sum(InstallmentRows(p, firstId, n), InstallmentAmountOf) == n * p.installmentAmount
  {
    var r := InstallmentRows(p, firstId, n);
    forall x | x in r ensures InstallmentAmountOf(x) == p.installmentAmount {
      var k :| 0 <= k < |r| && r[k] == x;
      assert r[k].amount == p.installmentAmount;
    }
    SumConstant(r, AnyInstallment, InstallmentAmountOf, p.installmentAmount);
    CountEvery(r, AnyInstallment);
  }

  function InstallmentAmountOf(x: Installment): int { x.amount }
  predicate AnyInstallment(x: Installment) { true }

  // ---------------------------------------------------------------------------
  // The ledger invariant

  function OfPlan(pid: Id): Installment -> bool { (x: Installment) => x.planId == pid }
  function PaidOf(pid: Id): Installment -> bool { (x: Installment) => x.planId == pid && x.status == Paid }
  function OpenOf(pid: Id): Installment -> bool { (x: Installment) => x.planId == pid && x.status.IsOpen() }
  function OverdueOf(pid: Id): Installment -> bool { (x: Installment) => x.planId == pid && x.status == Overdue }

  /** The payment fields of an installment are filled exactly when it is paid,
      and a paid installment records its own amount. */
  predicate PaymentRecorded(x: Installment)
  {
    && (x.status == Paid <==> x.paidDate.Some?)
    && (x.status == Paid <==> x.paymentMethod.Some?)
    && (x.status == Paid <==> x.paidAmount == Some(x.amount))
  }

  /** The plan's next due date is the earliest due date of its open installments. */
  ghost predicate NextDueIsEarliest(p: PaymentPlan, insts: seq<Installment>)
  {
    && (exists i :: 0 <= i < |insts| && OpenOf(p.id)(insts[i]) && insts[i].dueDate == p.nextDueDate)
    && (forall i :: 0 <= i < |insts| && OpenOf(p.id)(insts[i]) ==> p.nextDueDate <= insts[i].dueDate)
  }

  /** What a plan's row says about its installments: as many as announced, each
      for the plan's amount; paid and remaining add up to the total, and the
      paid amount is the down payment plus the paid installments; the plan is
      completed exactly when none is open, and otherwise its next due date is
      the earliest open one. */
  ghost predicate PlanLedger(p: PaymentPlan, insts: seq<Installment>)
  {
    && p.installments == Count(insts, OfPlan(p.id))
    && (forall i :: 0 <= i < |insts| && insts[i].planId == p.id ==>
          insts[i].amount == p.installmentAmount && PaymentRecorded(insts[i]))
    && p.paidAmount + p.remainingAmount == p.totalAmount
    && p.paidAmount == p.downPayment + p.installmentAmount * Count(insts, PaidOf(p.id))
    && (p.status == Completed <==> Count(insts, OpenOf(p.id)) == 0)
    && (p.status == Active ==> NextDueIsEarliest(p, insts))
  }

  ghost predicate LedgerOk(b: Books)
  {
    forall j :: 0 <= j < |b.plans| ==> PlanLedger(b.plans[j], b.installments)
  }

  /** Every installment is open or paid, so the open ones of a plan are the
      ones not yet paid. */
  lemma OpenPaidSplit(insts: seq<Installment>, pid: Id)
    ensures Count(insts, OfPlan(pid)) == Count(insts, OpenOf(pid)) + Count(insts, PaidOf(pid))
  {
    CountSplit(insts, OfPlan(pid), OpenOf(pid), PaidOf(pid));
  }

  /** A completed plan has had every installment paid, so what it still shows
      as owed is exactly the rounding residual: the financed amount minus `n`
      installments. */
  lemma CompletedRemainder(p: PaymentPlan, insts: seq<Installment>)
    requires PlanLedger(p, insts) && p.status == Completed
    ensures p.paidAmount == p.downPayment + p.installments * p.installmentAmount
    ensures p.remainingAmount == (p.totalAmount - p.downPayment) - p.installments * p.installmentAmount
  {
    OpenPaidSplit(insts, p.id);
  }

  /** A plan created with `n` dividing the financed amount ends with nothing owed. */
  lemma CompletedExact(p: PaymentPlan, insts: seq<Installment>)
    requires PlanLedger(p, insts) && p.status == Completed && p.installments >= 1
    requires p.installmentAmount == InstallmentAmount(p.totalAmount, p.downPayment, p.installments)
    requires (p.totalAmount - p.downPayment) % p.installments == 0
    ensures p.remainingAmount == 0 && p.paidAmount == p.totalAmount
  {
    CompletedRemainder(p, insts);
    ExactResidual(p.totalAmount, p.downPayment, p.installments);
  }

  /** A freshly created plan and its rows satisfy the ledger, given that no
      older installment belongs to the new plan. */
  lemma {:induction false} NewPlanLedger(req: PlanRequest, id: Id, now: Instant, older: seq<Installment>)
    requires req.installments >= 1
    requires forall i :: 0 <= i < |older| ==> older[i].planId != id
    ensures var p := NewPlan(req, id, now);
      PlanLedger(p, older + InstallmentRows(p, id + 1, req.installments))
  {
    var p := NewPlan(req, id, now);
    var r := InstallmentRows(p, id + 1, req.installments);
    NewRowsShape(p, id + 1, req.installments);
    NewRowsOrdered(req, id, now);
    forall k | 0 <= k < |r| ensures r[k].paidDate.None? && r[k].paymentMethod.None? && r[k].paidAmount.None? {
      assert r[k] == NewInstallment(p, id + 1 + k, k + 1);
    }
    FreshRowsLedger(p, older, r);
  }

  /** The ledger of a plan whose only rows are `r`, all pending and unpaid,
      the earliest first, and nothing paid beyond the down payment. */
  lemma {:induction false} FreshRowsLedger(p: PaymentPlan, older: seq<Installment>, r: seq<Installment>)
    requires forall i :: 0 <= i < |older| ==> older[i].planId != p.id
    requires |r| == p.installments >= 1
    requires forall k :: 0 <= k < |r| ==>
      && r[k].planId == p.id && r[k].status == Pending && r[k].amount == p.installmentAmount
      && r[k].paidDate.None? && r[k].paymentMethod.None? && r[k].paidAmount.None?
      && r[0].dueDate <= r[k].dueDate
    requires r[0].dueDate == p.nextDueDate
    requires p.status == Active && p.paidAmount == p.downPayment
    requires p.paidAmount + p.remainingAmount == p.totalAmount
    ensures PlanLedger(p, older + r)
  {
    var all := older + r;
    var id := p.id;
    CountAppend(older, r, OfPlan(id));
    CountAppend(older, r, PaidOf(id));
    CountAppend(older, r, OpenOf(id));
    CountEvery(r, OfPlan(id));
    CountEvery(r, OpenOf(id));
    CountNone(older, OfPlan(id));
    CountNone(older, OpenOf(id));
    CountNone(older, PaidOf(id));
    CountNone(r, PaidOf(id));
    forall i | 0 <= i < |all| && all[i].planId == id
      ensures all[i].amount == p.installmentAmount && PaymentRecorded(all[i])
    {
      assert all[i] == r[i - |older|];
    }
    assert Count(all, PaidOf(id)) == 0;
    assert p.installmentAmount * Count(all, PaidOf(id)) == 0;
    assert all[|older|] == r[0];
    forall i | 0 <= i < |all| && OpenOf(id)(all[i]) ensures p.nextDueDate <= all[i].dueDate {
      assert all[i] == r[i - |older|];
    }
  }

  /** Appending rows of other plans leaves a plan's ledger as it was. */
  lemma {:induction false} LedgerAppendOthers(p: PaymentPlan, insts: seq<Installment>, more: seq<Installment>)
    requires PlanLedger(p, insts)
    requires forall i :: 0 <= i < |more| ==> more[i].planId != p.id
    ensures PlanLedger(p, insts + more)
  {
    CountAppend(insts, more, OfPlan(p.id));
    CountAppend(insts, more, PaidOf(p.id));
    CountAppend(insts, more, OpenOf(p.id));
    CountNone(more, OfPlan(p.id));
    CountNone(more, OpenOf(p.id));
    CountNone(more, PaidOf(p.id));
    if p.status == Active {
      var i :| 0 <= i < |insts| && OpenOf(p.id)(insts[i]) && insts[i].dueDate == p.nextDueDate;
      assert (insts + more)[i] == insts[i];
    }
  }

  // ---------------------------------------------------------------------------
  // Creating a plan

  /** Why the database refuses the plan row, if it does: the patient or the sale
      it names does not exist, or the sale already has a plan. */
  function PlanRowError(patients: seq<Patient>, sales: seq<Sale>, plans: seq<PaymentPlan>, req: PlanRequest): (e: Option<string>)
    ensures e.None? <==>
      && req.patientId in Map(patients, PatientKey)
      && (req.saleId.Some? ==> req.saleId.value in Map(sales, SaleKey)
                               && forall i :: 0 <= i < |plans| ==> plans[i].saleId != req.saleId)
  {
    if req.patientId !in Map(patients, PatientKey) then Some(ForeignKeyViolation)
    else if req.saleId.Some? && req.saleId.value !in Map(sales, SaleKey) then Some(ForeignKeyViolation)
    else if req.saleId.Some? && exists i :: 0 <= i < |plans| && plans[i].saleId == req.saleId then Some(UniqueViolation)
    else None
  }

  /** The tables after a plan and its rows are inserted. */
  function WithPlan(t: Tables, req: PlanRequest, now: Instant): (t': Tables)
    requires req.installments >= 1
    ensures t'.plans == t.plans + [NewPlan(req, t.nextId, now)]
    ensures t'.installments == t.installments + InstallmentRows(NewPlan(req, t.nextId, now), t.nextId + 1, req.installments)
    ensures t'.nextId == t.nextId + 1 + req.installments
    ensures t' == t.(plans := t'.plans, installments := t'.installments, nextId := t'.nextId)
  {
    WithPlanRows(t, NewPlan(req, t.nextId, now), req.installments)
  }

  /** The tables after plan row `p` and its `n` installment rows are inserted. */
  function WithPlanRows(t: Tables, p: PaymentPlan, n: nat): Tables
  {
    t.(plans := t.plans + [p],
       installments := t.installments + InstallmentRows(p, t.nextId + 1, n),
       nextId := t.nextId + 1 + n)
  }

  /** `createPaymentPlan`: in one transaction, insert the plan row and then its
      installments one by one. A refused plan row aborts the transaction. */
  method CreatePaymentPlan(db: Db, req: PlanRequest, now: Instant) returns (r: Result<PaymentPlan>)
    requires db.Valid() && req.installments >= 1
    modifies db`plans, db`installments, db`nextId
    ensures db.Valid()
    ensures LedgerOk(old(db.CurrentBooks())) ==> LedgerOk(db.CurrentBooks())
    ensures var e := PlanRowError(db.patients, db.sales, old(db.plans), req);
      if e.Some? then
        r == Err(e.value) && db.Snapshot() == old(db.Snapshot())
      else
        r == Ok(NewPlan(req, old(db.nextId), now)) && db.Snapshot() == WithPlan(old(db.Snapshot()), req, now)
  {
    var e := PlanRowError(db.patients, db.sales, db.plans, req);
    if e.Some? {
      return Err(e.value);
    }
    ghost var t0 := db.Snapshot();
    var plan := NewPlan(req, db.nextId, now);
    RecordPlanRows(db, plan, req.installments);
    CreatePlanCommit(t0, req, now);
    r := Ok(plan);
  }

  /** The writes of `createPaymentPlan`: the plan row, then its installments. */
  method RecordPlanRows(db: Db, plan: PaymentPlan, n: nat)
    modifies db`plans, db`installments, db`nextId
    ensures db.Snapshot() == WithPlanRows(old(db.Snapshot()), plan, n)
  {
    db.plans := db.plans + [plan];
    db.nextId := db.nextId + 1;
    InsertInstallments(db, plan, n);
  }

  /** The loop of `createPaymentPlan`: insert installments 1..n of `plan`,
      each taking the next id. */
  method InsertInstallments(db: Db, plan: PaymentPlan, n: nat)
    modifies db`installments, db`nextId
    ensures db.installments == old(db.installments) + InstallmentRows(plan, old(db.nextId), n)
    ensures db.nextId == old(db.nextId) + n
  {
    ghost var rows0, id0 := db.installments, db.nextId;
    var i := 0;
    while i < n
      invariant 0 <= i <= n
      invariant db.installments == rows0 + InstallmentRows(plan, id0, i)
      invariant db.nextId == id0 + i
    {
      InstallmentRowsStep(plan, id0, i);
      db.installments := db.installments + [NewInstallment(plan, db.nextId, i + 1)];
      db.nextId := db.nextId + 1;
      i := i + 1;
    }
  }

  /** One more installment row extends the rows written so far. */
  lemma InstallmentRowsStep(p: PaymentPlan, firstId: Id, i: nat)
    ensures InstallmentRows(p, firstId, i + 1) == InstallmentRows(p, firstId, i) + [NewInstallment(p, firstId + i, i + 1)]
  {
    assert InstallmentRows(p, firstId, i + 1)[i] == NewInstallment(p, firstId + i, i + 1);
  }

  /** Creating a plan keeps the database valid. */
  lemma CreatePlanValid(t: Tables, req: PlanRequest, now: Instant)
    requires TablesValid(t) && req.installments >= 1
    requires PlanRowError(t.patients, t.sales, t.plans, req).None?
    ensures TablesValid(WithPlan(t, req, now))
  {
    CreatePlanIds(t, req, now);
    CreatePlanReferences(t, req, now);
    CreatePlanLinks(t, req, now);
  }

  /** The plan and its installments take the counter's next values. */
  lemma CreatePlanIds(t: Tables, req: PlanRequest, now: Instant)
    requires IdsIssued(t) && req.installments >= 1
    ensures IdsIssued(WithPlan(t, req, now))
  {
    var t' := WithPlan(t, req, now);
    var p := NewPlan(req, t.nextId, now);
    var rows := InstallmentRows(p, t.nextId + 1, req.installments);
    NewRowsShape(p, t.nextId + 1, req.installments);
    IssuedAppendRow(t.plans, PlanKey, p, t.nextId, t'.nextId);
    InstallmentIdsIssued(t.installments, rows, t.nextId, t'.nextId);
    IdsIssuedGrow(t, t'.nextId);
  }

  /** The new plan names an existing patient (and sale), and its installments
      name the new plan. */
  lemma CreatePlanReferences(t: Tables, req: PlanRequest, now: Instant)
    requires References(t) && req.installments >= 1
    requires PlanRowError(t.patients, t.sales, t.plans, req).None?
    ensures References(WithPlan(t, req, now))
  {
    var t' := WithPlan(t, req, now);
    var p := NewPlan(req, t.nextId, now);
    var rows := InstallmentRows(p, t.nextId + 1, req.installments);
    NewRowsShape(p, t.nextId + 1, req.installments);
    KeysAppend(t.plans, PlanKey, p);
    assert p.id in Map(t'.plans, PlanKey) by {
      assert Map(t'.plans, PlanKey)[|t.plans|] == p.id;
    }
    forall i | 0 <= i < |t'.installments| ensures t'.installments[i].planId in Map(t'.plans, PlanKey) {
      if i < |t.installments| {
        assert t'.installments[i] == t.installments[i];
      } else {
        assert t'.installments[i] == rows[i - |t.installments|];
      }
    }
  }

  /** A plan for a sale is only written when no other plan has that sale. */
  lemma CreatePlanLinks(t: Tables, req: PlanRequest, now: Instant)
    requires UniqueSaleLinks(t.plans) && req.installments >= 1
    requires PlanRowError(t.patients, t.sales, t.plans, req).None?
    ensures UniqueSaleLinks(WithPlan(t, req, now).plans)
  {
  }

  /** The installment ids of a creation are the counter values after the plan's. */
  lemma {:induction false} InstallmentIdsIssued(older: seq<Installment>, rows: seq<Installment>, planId: nat, bound: nat)
    requires Issued(Map(older, InstallmentKey), planId)
    requires bound == planId + 1 + |rows|
    requires forall k :: 0 <= k < |rows| ==> rows[k].id == planId + 1 + k
    ensures Issued(Map(older + rows, InstallmentKey), bound)
  {
    var ks := Map(older + rows, InstallmentKey);
    forall a, b | 0 <= a < b < |ks| ensures ks[a] < ks[b] {
      if b >= |older| {
        assert ks[b] == rows[b - |older|].id;
        if a >= |older| {
          assert ks[a] == rows[a - |older|].id;
        } else {
          assert ks[a] == Map(older, InstallmentKey)[a];
        }
      } else {
        assert ks[a] == Map(older, InstallmentKey)[a] && ks[b] == Map(older, InstallmentKey)[b];
      }
    }
    forall a | 0 <= a < |ks| ensures ks[a] < bound {
      if a >= |older| {
        assert ks[a] == rows[a - |older|].id;
      } else {
        assert ks[a] == Map(older, InstallmentKey)[a];
      }
    }
  }

  /** Creating a plan keeps every plan's ledger. */
  lemma {:induction false} CreatePlanLedger(t: Tables, req: PlanRequest, now: Instant)
    requires req.installments >= 1
    requires forall i :: 0 <= i < |t.installments| ==> t.installments[i].planId < t.nextId
    requires forall j :: 0 <= j < |t.plans| ==> t.plans[j].id < t.nextId
    requires LedgerOk(t.PaymentTables())
    ensures LedgerOk(WithPlan(t, req, now).PaymentTables())
  {
    var p := NewPlan(req, t.nextId, now);
    var b' := Books(t.plans + [p], t.installments + InstallmentRows(p, t.nextId + 1, req.installments), t.sales);
    NewPlanLedgerStep(t.PaymentTables(), req, t.nextId, now);
    assert WithPlan(t, req, now).PaymentTables() == b';
  }

  /** In a valid database every plan id, and every plan an installment names,
      is below the counter. */
  lemma PlanIdsBelow(t: Tables)
    requires TablesValid(t)
    ensures forall i :: 0 <= i < |t.installments| ==> t.installments[i].planId < t.nextId
    ensures forall j :: 0 <= j < |t.plans| ==> t.plans[j].id < t.nextId
  {
    forall i | 0 <= i < |t.installments| ensures t.installments[i].planId < t.nextId {
      IssuedBelow(Map(t.plans, PlanKey), t.nextId, t.installments[i].planId);
    }
    forall j | 0 <= j < |t.plans| ensures t.plans[j].id < t.nextId {
      assert Map(t.plans, PlanKey)[j] == t.plans[j].id;
    }
  }

  /** What committing a creation does to the database's invariants. */
  lemma CreatePlanCommit(t: Tables, req: PlanRequest, now: Instant)
    requires TablesValid(t) && req.installments >= 1
    requires PlanRowError(t.patients, t.sales, t.plans, req).None?
    ensures TablesValid(WithPlan(t, req, now))
    ensures LedgerOk(t.PaymentTables()) ==> LedgerOk(WithPlan(t, req, now).PaymentTables())
  {
    CreatePlanValid(t, req, now);
    PlanIdsBelow(t);
    if LedgerOk(t.PaymentTables()) {
      CreatePlanLedger(t, req, now);
    }
  }

  /** The ledger of every plan, old and new, holds after a creation. */
  lemma {:induction false} NewPlanLedgerStep(b: Books, req: PlanRequest, id: Id, now: Instant)
    requires req.installments >= 1
    requires forall i :: 0 <= i < |b.installments| ==> b.installments[i].planId < id
    requires forall j :: 0 <= j < |b.plans| ==> b.plans[j].id < id
    requires LedgerOk(b)
    ensures var p := NewPlan(req, id, now);
      LedgerOk(Books(b.plans + [p], b.installments + InstallmentRows(p, id + 1, req.installments), b.sales))
  {
    var p := NewPlan(req, id, now);
    var rows := InstallmentRows(p, id + 1, req.installments);
    NewPlanLedger(req, id, now, b.installments);
    NewRowsShape(p, id + 1, req.installments);
    forall j | 0 <= j < |b.plans| ensures PlanLedger(b.plans[j], b.installments + rows) {
      LedgerAppendOthers(b.plans[j], b.installments, rows);
    }
    var plans' := b.plans + [p];
    forall j | 0 <= j < |plans'| ensures PlanLedger(plans'[j], b.installments + rows) {
      if j < |b.plans| {
        assert plans'[j] == b.plans[j];
      }
    }
  }
}
