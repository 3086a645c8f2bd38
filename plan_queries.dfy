/** The read side of the payment-plan service: listing plans with filters,
    fetching one plan, and the open installments of a plan. A listed plan
    comes with its patient, its sale (if any) and its installments ordered by
    number. */
module PlanQueries {
  import opened Common
  import opened Seqs
  import opened Schema
  import opened Plans
  import opened Payments

  /** A plan as the listing returns it, with its related rows. */
  datatype PlanView = PlanView(
    plan: PaymentPlan, patient: Option<Patient>, sale: Option<Sale>,
    installments: seq<Installment>)

  /** Installments in ascending installment number. */
  predicate ByNumber(a: Installment, b: Installment) { a.number <= b.number }

  /** Installments in ascending due date. */
  predicate ByDueDate(a: Installment, b: Installment) { a.dueDate <= b.dueDate }

  /** Plans newest first. */
  predicate NewestFirst(a: PaymentPlan, b: PaymentPlan) { a.createdAt >= b.createdAt }

  lemma Orders()
    ensures TotalPreorder(ByNumber) && TotalPreorder(ByDueDate) && TotalPreorder(NewestFirst)
  {
  }

  /** A plan with its patient, its sale and its installments by number. */
  function ViewOf(t: Tables, p: PaymentPlan): (v: PlanView)
    ensures v.plan == p
    ensures v.patient.Some? <==> p.patientId in Map(t.patients, PatientKey)
    ensures v.patient.Some? ==> v.patient.value in t.patients && v.patient.value.id == p.patientId
    ensures v.sale.Some? <==> p.saleId.Some? && p.saleId.value in Map(t.sales, SaleKey)
    ensures v.sale.Some? ==> v.sale.value in t.sales && p.saleId == Some(v.sale.value.id)
    ensures multiset(v.installments) == multiset(Filter(t.installments, OfPlan(p.id)))
    ensures SortedBy(v.installments, ByNumber)
  {
    Orders();
    PlanView(p, Lookup(t.patients, PatientKey, p.patientId),
             if p.saleId.Some? then Lookup(t.sales, SaleKey, p.saleId.value) else None,
             SortBy(Filter(t.installments, OfPlan(p.id)), ByNumber))
  }

  /** The optional filters of the listing. A status or patient filter applies
      only when given (an empty status string counts as absent), and `overdue`
      keeps only plans with at least one overdue installment. */
  datatype PlanFilters = PlanFilters(status: Option<string>, patientId: Option<Id>, overdue: bool)

  predicate Matches(f: PlanFilters, insts: seq<Installment>, p: PaymentPlan)
  {
    && (Given(f.status) ==> p.status.Name() == f.status.value)
    && (f.patientId.Some? ==> p.patientId == f.patientId.value)
    && (f.overdue ==> exists i :: 0 <= i < |insts| && OverdueOf(p.id)(insts[i]))
  }

  function MatchesIn(f: PlanFilters, insts: seq<Installment>): PaymentPlan -> bool
  {
    (p: PaymentPlan) => Matches(f, insts, p)
  }

  function PlansOf(vs: seq<PlanView>): (r: seq<PaymentPlan>)
    ensures |r| == |vs| && forall i :: 0 <= i < |vs| ==> r[i] == vs[i].plan
  {
    seq(|vs|, i requires 0 <= i < |vs| => vs[i].plan)
  }

  /** Each plan of `ps`, in order, with its related rows. */
  function Views(t: Tables, ps: seq<PaymentPlan>): (r: seq<PlanView>)
    ensures |r| == |ps| && PlansOf(r) == ps
    ensures forall i :: 0 <= i < |r| ==> r[i] == ViewOf(t, ps[i])
  {
    var r := seq(|ps|, i requires 0 <= i < |ps| => ViewOf(t, ps[i]));
    assert PlansOf(r) == ps;
    r
  }

  /** `getPaymentPlans`: exactly the plans matching the filters, each with its
      related rows, newest first (plans created at the same moment come in
      some order). */
  function GetPaymentPlans(t: Tables, f: PlanFilters): (r: seq<PlanView>)
    ensures |r| == Count(t.plans, MatchesIn(f, t.installments))
    ensures multiset(PlansOf(r)) == multiset(Filter(t.plans, MatchesIn(f, t.installments)))
    ensures forall p :: p in PlansOf(r) <==> p in t.plans && Matches(f, t.installments, p)
    ensures forall i :: 0 <= i < |r| ==> r[i] == ViewOf(t, r[i].plan)
    ensures forall i, j :: 0 <= i < j < |r| ==> r[i].plan.createdAt >= r[j].plan.createdAt
  {
    Orders();
    var kept := Filter(t.plans, MatchesIn(f, t.installments));
    var sorted := SortBy(kept, NewestFirst);
    SameMembers(sorted, kept);
    Views(t, sorted)
  }

  /** `getPaymentPlanById`: the plan with that id and its related rows, or
      nothing when there is no such plan. */
  function GetPaymentPlanById(t: Tables, id: Id): (r: Option<PlanView>)
    ensures r.None? <==> id !in Map(t.plans, PlanKey)
    ensures r.Some? ==> r.value.plan in t.plans && r.value.plan.id == id && r.value == ViewOf(t, r.value.plan)
  {
    match Lookup(t.plans, PlanKey, id)
    case None => None
    case Some(p) => Some(ViewOf(t, p))
  }

  /** `getPendingInstallments`: the plan's pending and overdue installments,
      earliest due first. */
  function GetPendingInstallments(insts: seq<Installment>, pid: Id): (r: seq<Installment>)
    ensures multiset(r) == multiset(Filter(insts, OpenOf(pid)))
    ensures forall x :: x in r <==> x in insts && OpenOf(pid)(x)
    ensures SortedBy(r, ByDueDate)
  {
    Orders();
    var r := SortBy(Filter(insts, OpenOf(pid)), ByDueDate);
    forall x ensures x in r <==> x in Filter(insts, OpenOf(pid)) {
      assert x in r <==> x in multiset(r);
    }
    r
  }

  /** The head of the pending list is the installment a payment advances the
      plan to: the list is empty exactly when no installment is open, and
      otherwise it starts at the earliest open due date. */
  lemma PendingHead(insts: seq<Installment>, pid: Id)
    ensures var r := GetPendingInstallments(insts, pid);
      && (r == [] <==> EarliestOpen(insts, pid).None?)
      && (r != [] ==> r[0].dueDate == insts[EarliestOpen(insts, pid).value].dueDate)
  {
    var r := GetPendingInstallments(insts, pid);
    var e := EarliestOpen(insts, pid);
    if r != [] {
      // the head of the list is an open installment of the plan
      assert r[0] in r;
    }
    if e.Some? {
      var k := e.value;
      assert insts[k] in insts;
      assert insts[k] in r;
      var m :| 0 <= m < |r| && r[m] == insts[k];
      assert r[0] in r;
      var n :| 0 <= n < |insts| && insts[n] == r[0];
      assert ByDueDate(r[0], r[m]) by {
        if m > 0 {
          assert SortedBy(r, ByDueDate);
        }
      }
      assert OpenOf(pid)(insts[n]);
    }
  }

  /** In a database whose ledgers hold, an active plan's next due date is the
      due date at the head of its pending list, and a completed plan's pending
      list is empty. */
  lemma PendingMatchesPlan(b: Books, j: nat)
    requires LedgerOk(b) && j < |b.plans|
    ensures var p := b.plans[j];
      var r := GetPendingInstallments(b.installments, p.id);
      && (p.status == Completed <==> r == [])
      && (p.status == Active ==> r[0].dueDate == p.nextDueDate)
  {
    var p := b.plans[j];
    var r := GetPendingInstallments(b.installments, p.id);
    assert PlanLedger(p, b.installments);
    CountZero(b.installments, OpenOf(p.id));
    PendingHead(b.installments, p.id);
    if p.status == Active {
      var e := EarliestOpen(b.installments, p.id).value;
      var i :| 0 <= i < |b.installments| && OpenOf(p.id)(b.installments[i]) && b.installments[i].dueDate == p.nextDueDate;
      assert b.installments[e].dueDate <= b.installments[i].dueDate;
    }
  }
}
