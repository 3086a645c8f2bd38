/** The payment-plans table of the receivables screen: the badge that
    classifies each plan by the statuses of its installments, the counter of
    paid installments, and the message shown when there is no plan. */
module PaymentPlansTable {
  import opened Common
  import opened Text
  import opened Seqs
  import opened Schema
  import opened Plans

  /** A plan as the table receives it: the number of installments the plan
      announces and the status of each installment row attached to it. */
  datatype PlanRow = PlanRow(installments: int, statuses: seq<InstallmentStatus>)

  datatype Badge = Vencida | Completada | AlDia
  {
    function Text(): string
    {
      match this
      case Vencida => "Vencida"
      case Completada => "Completada"
      case AlDia => "Al día"
    }
  }

  function StatusIs(wanted: InstallmentStatus): InstallmentStatus -> bool
  {
    s => s == wanted
  }

  /** The number of paid installments, `filter(i => i.status === "paid").length`. */
  function PaidCount(statuses: seq<InstallmentStatus>): nat
  {
    Count(statuses, StatusIs(Paid))
  }

  /** `getStatusBadge`: overdue wins over everything; otherwise the plan is
      complete when the paid installments number exactly as many as the plan
      announces; otherwise it is up to date. */
  function StatusBadge(p: PlanRow): (b: Badge)
    ensures b == Vencida <==> Overdue in p.statuses
    ensures b == Completada <==> Overdue !in p.statuses && PaidCount(p.statuses) == p.installments
    ensures b == AlDia <==> Overdue !in p.statuses && PaidCount(p.statuses) != p.installments
  {
    CountZero(p.statuses, StatusIs(Overdue));
    if Count(p.statuses, StatusIs(Overdue)) > 0 then Vencida
    else if PaidCount(p.statuses) == p.installments then Completada
    else AlDia
  }

  /** When the plan has exactly as many rows as it announces, it shows
      "Completada" exactly when every one of them is paid. */
  lemma CompletadaIffAllPaid(p: PlanRow)
    requires |p.statuses| == p.installments
    ensures StatusBadge(p) == Completada <==> forall i :: 0 <= i < |p.statuses| ==> p.statuses[i] == Paid
  {
    CountAll(p.statuses, StatusIs(Paid));
  }

  /** The row the table shows for a stored plan: its installments, in table order. */
  function PlanView(p: PaymentPlan, insts: seq<Installment>): (r: PlanRow)
    ensures r.installments == p.installments
  {
    var own := Filter(insts, OfPlan(p.id));
    PlanRow(p.installments, seq(|own|, i requires 0 <= i < |own| => own[i].status))
  }

  function InstallmentIs(wanted: InstallmentStatus): Installment -> bool
  {
    (x: Installment) => x.status == wanted
  }

  function PendingOf(pid: Id): Installment -> bool
  {
    (x: Installment) => x.planId == pid && x.status == Pending
  }

  /** Counting a status in the view counts the plan's installments with it. */
  lemma ViewCount(p: PaymentPlan, insts: seq<Installment>, wanted: InstallmentStatus, mine: Installment -> bool)
    requires forall x :: mine(x) == (x.planId == p.id && x.status == wanted)
    ensures Count(PlanView(p, insts).statuses, StatusIs(wanted)) == Count(insts, mine)
  {
    var own := Filter(insts, OfPlan(p.id));
    CountPointwise(PlanView(p, insts).statuses, own, StatusIs(wanted), InstallmentIs(wanted));
    CountFilter(insts, OfPlan(p.id), InstallmentIs(wanted), mine);
  }

  /** For a plan whose row agrees with its installments, the badge reads
      "Completada" exactly when the plan is completed, and "Vencida" exactly
      when one of its installments is overdue. */
  lemma BadgeFollowsLedger(p: PaymentPlan, insts: seq<Installment>)
    requires PlanLedger(p, insts)
    ensures StatusBadge(PlanView(p, insts)) == Completada <==> p.status == Completed
    ensures StatusBadge(PlanView(p, insts)) == Vencida <==> Count(insts, OverdueOf(p.id)) > 0
  {
    var v := PlanView(p, insts);
    ViewCount(p, insts, Paid, PaidOf(p.id));
    ViewCount(p, insts, Overdue, OverdueOf(p.id));
    CountZero(v.statuses, StatusIs(Overdue));
    OpenPaidSplit(insts, p.id);
    CountSplit(insts, OpenOf(p.id), OverdueOf(p.id), PendingOf(p.id));
  }

  /** The counter under the balance: "paid/announced cuotas pagadas". */
  function Counter(p: PlanRow): string
  {
    NatToString(PaidCount(p.statuses)) + "/" + IntToString(p.installments) + " cuotas pagadas"
  }

  /** The counter begins with the number of paid installments, up to the slash. */
  lemma CounterShowsPaid(p: PlanRow)
    ensures Split(Counter(p), '/')[0] == NatToString(PaidCount(p.statuses))
    ensures ParseNat(Split(Counter(p), '/')[0]) == PaidCount(p.statuses)
  {
    var paid := NatToString(PaidCount(p.statuses));
    var rest := "/" + IntToString(p.installments) + " cuotas pagadas";
    assert Counter(p) == paid + rest;
    assert forall i :: 0 <= i < |paid| ==> paid[i] != '/';
    SplitPrefix(paid, rest, '/');
    assert Split(rest, '/')[0] == "";
    assert paid + "" == paid;
    ParseNatToString(PaidCount(p.statuses));
  }

  const NoPlans: string := "No hay planes de pago activos"

  /** With no plan to list the table is replaced by a message. */
  function EmptyMessage(plans: seq<PlanRow>): (m: Option<string>)
    ensures m == Some(NoPlans) <==> plans == []
    ensures m.None? <==> plans != []
  {
    if plans == [] then Some(NoPlans) else None
  }
}
