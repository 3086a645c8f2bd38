/** Sales: recording a treatment sale in one transaction, with the supplies it
    consumed taken out of stock and, optionally, a monthly payment plan for
    the amount not paid up front. */
module Sales {
  import opened Common
  import opened Calendar
  import opened Seqs
  import opened Schema
  import opened Schedule
  import opened Plans
  import opened Stock

  /** A supply used by the treatment. */
  datatype ItemUse = ItemUse(inventoryId: Id, quantityUsed: int)

  /** The terms of the plan that finances a sale. */
  datatype PlanTerms = PlanTerms(downPayment: int, installments: int)

  /** What the caller supplies to record a sale. */
  datatype SaleRequest = SaleRequest(
    date: Instant, patientId: Id, treatment: string, amount: int,
    paymentMethod: string, status: string, itemsUsed: seq<ItemUse>,
    paymentPlan: Option<PlanTerms>)

  const StockOut: string := "salida"

  /** Every plan term the request carries can be financed: at least one installment. */
  predicate Financeable(req: SaleRequest)
  {
    req.paymentPlan.Some? ==> req.paymentPlan.value.installments >= 1
  }

  function NewSale(req: SaleRequest, id: Id): Sale
  {
    Sale(id, req.date, req.patientId, req.treatment, req.amount, req.paymentMethod, req.status)
  }

  /** The reason written on the stock movements of a sale. */
  function SaleReason(treatment: string): (r: string)
    ensures r == "Venta: " + treatment
    ensures |r| == 7 + |treatment| && r[7..] == treatment
  {
    "Venta: " + treatment
  }

  /** The rows the loop over the used items writes: link rows, inventory,
      movements, and the id counter. */
  datatype SupplyRows = SupplyRows(
    saleItems: seq<SaleInventoryItem>, inventory: seq<InventoryItem>,
    movements: seq<InventoryMovement>, nextId: nat)

  /** One turn of the loop over the used items: the link row, the stock
      decrement and the outgoing movement, taking two ids. */
  function UseStep(s: SupplyRows, req: SaleRequest, saleId: Id, u: ItemUse): SupplyRows
  {
    SupplyRows(
      s.saleItems + [SaleInventoryItem(s.nextId, saleId, u.inventoryId, u.quantityUsed)],
      AdjustStock(s.inventory, u.inventoryId, -u.quantityUsed),
      s.movements + [InventoryMovement(s.nextId + 1, u.inventoryId, StockOut, u.quantityUsed,
                                       SaleReason(req.treatment), Some(saleId), req.date)],
      s.nextId + 2)
  }

  /** The loop over the used items, in order. */
  function ApplyUses(s: SupplyRows, req: SaleRequest, saleId: Id, uses: seq<ItemUse>): SupplyRows
    decreases |uses|
  {
    if uses == [] then s
    else UseStep(ApplyUses(s, req, saleId, uses[..|uses| - 1]), req, saleId, uses[|uses| - 1])
  }

  /** The link rows a sale writes, ids counting up in steps of two from `firstId`. */
  function LinkRows(uses: seq<ItemUse>, saleId: Id, firstId: Id): (r: seq<SaleInventoryItem>)
    ensures |r| == |uses|
    ensures forall k :: 0 <= k < |uses| ==>
      r[k] == SaleInventoryItem(firstId + 2 * k, saleId, uses[k].inventoryId, uses[k].quantityUsed)
  {
    seq(|uses|, k requires 0 <= k < |uses| =>
      SaleInventoryItem(firstId + 2 * k, saleId, uses[k].inventoryId, uses[k].quantityUsed))
  }

  /** The outgoing movements a sale writes, each right after its link row. */
  function OutMovements(uses: seq<ItemUse>, req: SaleRequest, saleId: Id, firstId: Id): (r: seq<InventoryMovement>)
    ensures |r| == |uses|
    ensures forall k :: 0 <= k < |uses| ==>
      r[k] == InventoryMovement(firstId + 2 * k + 1, uses[k].inventoryId, StockOut, uses[k].quantityUsed,
                                SaleReason(req.treatment), Some(saleId), req.date)
  {
    seq(|uses|, k requires 0 <= k < |uses| =>
      InventoryMovement(firstId + 2 * k + 1, uses[k].inventoryId, StockOut, uses[k].quantityUsed,
                        SaleReason(req.treatment), Some(saleId), req.date))
  }

  /** The stock changes of a sale: each used quantity taken out. */
  function Withdrawals(uses: seq<ItemUse>): (r: seq<(Id, int)>)
    ensures |r| == |uses|
    ensures forall k :: 0 <= k < |uses| ==> r[k] == (uses[k].inventoryId, -uses[k].quantityUsed)
  {
    seq(|uses|, k requires 0 <= k < |uses| => (uses[k].inventoryId, -uses[k].quantityUsed))
  }

  /** The quantity of one supply a sale uses, over all its items. */
  function UsedOf(uses: seq<ItemUse>, id: Id): int
  {
    Sum(uses, (u: ItemUse) => if u.inventoryId == id then u.quantityUsed else 0)
  }

  /** The plan a financed sale creates: for the sale's patient, treatment and
      amount, monthly, starting on the sale date, with no creator recorded. */
  function SalePlanRequest(req: SaleRequest, saleId: Id): PlanRequest
    requires req.paymentPlan.Some?
  {
    PlanRequest(req.patientId, req.treatment, Some(saleId), req.amount,
                req.paymentPlan.value.downPayment, req.paymentPlan.value.installments,
                Some(Monthly), req.date, None)
  }

  /** Why the database refuses the sale: its patient or one of its supplies
      does not exist. */
  function SaleError(t: Tables, req: SaleRequest): (e: Option<string>)
    ensures e.None? <==>
      && req.patientId in Map(t.patients, PatientKey)
      && forall k :: 0 <= k < |req.itemsUsed| ==> req.itemsUsed[k].inventoryId in Map(t.inventory, InventoryKey)
    ensures e.Some? ==> e.value == ForeignKeyViolation
  {
    if req.patientId !in Map(t.patients, PatientKey) then Some(ForeignKeyViolation)
    else if exists k :: 0 <= k < |req.itemsUsed| && req.itemsUsed[k].inventoryId !in Map(t.inventory, InventoryKey) then
      Some(ForeignKeyViolation)
    else None
  }

  /** The sale row and its item rows, before any plan. */
  function WithSaleRows(t: Tables, req: SaleRequest): Tables
  {
    Committed(t, NewSale(req, t.nextId),
              ApplyUses(SupplyRows(t.saleItems, t.inventory, t.movements, t.nextId + 1), req, t.nextId, req.itemsUsed))
  }

  /** The tables with the sale row appended and the loop's rows written. */
  function Committed(t: Tables, sale: Sale, s: SupplyRows): Tables
  {
    t.(sales := t.sales + [sale], saleItems := s.saleItems, inventory := s.inventory,
       movements := s.movements, nextId := s.nextId)
  }

  /** The tables after a sale is recorded. */
  function AfterSale(t: Tables, req: SaleRequest, now: Instant): Tables
    requires Financeable(req)
  {
    var t2 := WithSaleRows(t, req);
    if req.paymentPlan.Some? then WithPlan(t2, SalePlanRequest(req, t.nextId), now) else t2
  }

  // ---------------------------------------------------------------------------
  // The transaction

  /** `createSale`: insert the sale, then for each used item its link row, the
      stock decrement and the movement, then the plan with its installments. The
      transaction stages the sale and item rows and commits them together; a
      missing patient or supply aborts it with nothing written. */
  method CreateSale(db: Db, req: SaleRequest, now: Instant) returns (r: Result<Sale>)
    requires db.Valid() && Financeable(req)
    modifies db
    ensures db.Valid()
    ensures LedgerOk(old(db.CurrentBooks())) ==> LedgerOk(db.CurrentBooks())
    ensures var e := SaleError(old(db.Snapshot()), req);
      if e.Some? then
        r == Err(e.value) && db.Snapshot() == old(db.Snapshot())
      else
        r == Ok(NewSale(req, old(db.nextId))) && db.Snapshot() == AfterSale(old(db.Snapshot()), req, now)
  {
    var e := SaleError(db.Snapshot(), req);
    if e.Some? {
      return Err(e.value);
    }
    ghost var t0 := db.Snapshot();
    var sale := RecordSaleRows(db, req);
    SaleRowsCommit(t0, req);
    if req.paymentPlan.Some? {
      SalePlanAccepted(t0, req);
      var plan := CreatePaymentPlan(db, SalePlanRequest(req, sale.id), now);
    }
    r := Ok(sale);
  }

  /** The sale row and, through the loop over the used items, its link rows,
      stock decrements and movements, staged and then committed together. */
  method RecordSaleRows(db: Db, req: SaleRequest) returns (sale: Sale)
    modifies db`sales, db`saleItems, db`inventory, db`movements, db`nextId
    ensures sale == NewSale(req, old(db.nextId))
    ensures db.Snapshot() == WithSaleRows(old(db.Snapshot()), req)
  {
    ghost var t0 := db.Snapshot();
    sale := NewSale(req, db.nextId);
    var rows := StageItemUses(SupplyRows(db.saleItems, db.inventory, db.movements, db.nextId + 1), req, sale.id);
    db.sales := db.sales + [sale];
    db.saleItems, db.inventory, db.movements, db.nextId := rows.saleItems, rows.inventory, rows.movements, rows.nextId;
    assert db.Snapshot() == Committed(t0, sale, rows);
  }

  /** The loop over the used items, staged on the rows `s`. */
  method StageItemUses(s: SupplyRows, req: SaleRequest, saleId: Id) returns (r: SupplyRows)
    ensures r == ApplyUses(s, req, saleId, req.itemsUsed)
  {
    var uses := req.itemsUsed;
    r := s;
    var k := 0;
    while k < |uses|
      invariant k <= |uses|
      invariant r == ApplyUses(s, req, saleId, uses[..k])
    {
      ApplyUsesStep(s, req, saleId, uses, k);
      r := UseStep(r, req, saleId, uses[k]);
      k := k + 1;
    }
    assert uses[..k] == uses;
  }

  /** The loop over the first `k + 1` items is the loop over the first `k`
      followed by one more turn. */
  lemma ApplyUsesStep(s: SupplyRows, req: SaleRequest, saleId: Id, uses: seq<ItemUse>, k: nat)
    requires k < |uses|
    ensures ApplyUses(s, req, saleId, uses[..k + 1]) == UseStep(ApplyUses(s, req, saleId, uses[..k]), req, saleId, uses[k])
  {
    assert uses[..k + 1][..k] == uses[..k];
  }

  // ---------------------------------------------------------------------------
  // What a sale writes

  /** The loop over the used items appends one link row and one "salida"
      movement per item, referencing the sale, with ids counting up from the
      counter, and applies each item's withdrawal to the inventory in turn. */
  lemma ApplyUsesEffect(s: SupplyRows, req: SaleRequest, saleId: Id, uses: seq<ItemUse>)
    ensures var r := ApplyUses(s, req, saleId, uses);
      && r.saleItems == s.saleItems + LinkRows(uses, saleId, s.nextId)
      && r.movements == s.movements + OutMovements(uses, req, saleId, s.nextId)
      && r.inventory == AdjustAll(s.inventory, Withdrawals(uses))
      && r.nextId == s.nextId + 2 * |uses|
  {
    ApplyUsesCounter(s, req, saleId, uses);
    ApplyUsesLinks(s, req, saleId, uses);
    ApplyUsesMovements(s, req, saleId, uses);
    ApplyUsesStock(s, req, saleId, uses);
  }

  lemma {:induction false} ApplyUsesCounter(s: SupplyRows, req: SaleRequest, saleId: Id, uses: seq<ItemUse>)
    ensures ApplyUses(s, req, saleId, uses).nextId == s.nextId + 2 * |uses|
    decreases |uses|
  {
    if uses != [] {
      ApplyUsesCounter(s, req, saleId, uses[..|uses| - 1]);
    }
  }

  lemma {:induction false} ApplyUsesLinks(s: SupplyRows, req: SaleRequest, saleId: Id, uses: seq<ItemUse>)
    ensures ApplyUses(s, req, saleId, uses).saleItems == s.saleItems + LinkRows(uses, saleId, s.nextId)
    decreases |uses|
  {
    if uses != [] {
      var n := |uses| - 1;
      var r0 := ApplyUses(s, req, saleId, uses[..n]);
      ApplyUsesLinks(s, req, saleId, uses[..n]);
      ApplyUsesCounter(s, req, saleId, uses[..n]);
      var all := LinkRows(uses, saleId, s.nextId);
      assert all == LinkRows(uses[..n], saleId, s.nextId) + [all[n]];
    }
  }

  lemma {:induction false} ApplyUsesMovements(s: SupplyRows, req: SaleRequest, saleId: Id, uses: seq<ItemUse>)
    ensures ApplyUses(s, req, saleId, uses).movements == s.movements + OutMovements(uses, req, saleId, s.nextId)
    decreases |uses|
  {
    if uses != [] {
      var n := |uses| - 1;
      ApplyUsesMovements(s, req, saleId, uses[..n]);
      ApplyUsesCounter(s, req, saleId, uses[..n]);
      var all := OutMovements(uses, req, saleId, s.nextId);
      assert all == OutMovements(uses[..n], req, saleId, s.nextId) + [all[n]];
    }
  }

  lemma {:induction false} ApplyUsesStock(s: SupplyRows, req: SaleRequest, saleId: Id, uses: seq<ItemUse>)
    ensures ApplyUses(s, req, saleId, uses).inventory == AdjustAll(s.inventory, Withdrawals(uses))
    decreases |uses|
  {
    if uses != [] {
      var n := |uses| - 1;
      ApplyUsesStock(s, req, saleId, uses[..n]);
      assert Withdrawals(uses)[..n] == Withdrawals(uses[..n]);
    }
  }

  /** Each supply's stock falls by exactly the quantity the sale used of it,
      and nothing else about the inventory changes. */
  lemma SaleStockEffect(t: Tables, req: SaleRequest)
    requires Ascending(Map(t.inventory, InventoryKey))
    requires forall k :: 0 <= k < |req.itemsUsed| ==> req.itemsUsed[k].inventoryId in Map(t.inventory, InventoryKey)
    ensures var r := WithSaleRows(t, req).inventory;
      && |r| == |t.inventory|
      && forall i :: 0 <= i < |t.inventory| ==>
           r[i] == t.inventory[i].(currentStock := t.inventory[i].currentStock - UsedOf(req.itemsUsed, t.inventory[i].id))
  {
    var uses := req.itemsUsed;
    assert WithSaleRows(t, req).inventory == AdjustAll(t.inventory, Withdrawals(uses)) by {
      ApplyUsesStock(SupplyRows(t.saleItems, t.inventory, t.movements, t.nextId + 1), req, t.nextId, uses);
    }
    AdjustAllEffect(t.inventory, Withdrawals(uses));
    forall i | 0 <= i < |t.inventory|
      ensures NetChange(Withdrawals(uses), t.inventory[i].id) == -UsedOf(uses, t.inventory[i].id)
    {
      Withdrawn(uses, t.inventory[i].id);
    }
  }

  /** The withdrawals of a sale take out of each supply what the sale used of it. */
  lemma Withdrawn(uses: seq<ItemUse>, id: Id)
    ensures NetChange(Withdrawals(uses), id) == -UsedOf(uses, id)
  {
    var used := (u: ItemUse) => if u.inventoryId == id then u.quantityUsed else 0;
    var neg := (u: ItemUse) => -used(u);
    SumPointwise(Withdrawals(uses), uses, ChangeTo(id), neg);
    SumNegate(uses, used, neg);
  }

  /** A sale with no items and no plan writes only the sale row. */
  lemma SaleOnly(t: Tables, req: SaleRequest, now: Instant)
    requires req.itemsUsed == [] && req.paymentPlan.None?
    ensures AfterSale(t, req, now) == t.(sales := t.sales + [NewSale(req, t.nextId)], nextId := t.nextId + 1)
  {
  }

  /** A financed sale's plan belongs to the sale and carries its amount: the
      down payment counts as paid, the rest is owed in rounded equal
      installments, monthly from the sale date; installment `k` falls due `k`
      calendar months after the sale, the first on the plan's next due date. */
  lemma SalePlanTerms(req: SaleRequest, saleId: Id, planId: Id, now: Instant)
    requires req.paymentPlan.Some? && Financeable(req)
    ensures var terms := req.paymentPlan.value;
      var p := NewPlan(SalePlanRequest(req, saleId), planId, now);
      var rows := InstallmentRows(p, planId + 1, terms.installments);
      && p.saleId == Some(saleId) && p.patientId == req.patientId && p.treatment == req.treatment
      && p.totalAmount == req.amount
      && p.downPayment == p.paidAmount == terms.downPayment
      && p.remainingAmount == req.amount - terms.downPayment
      && p.installmentAmount == InstallmentAmount(req.amount, terms.downPayment, terms.installments)
      && p.frequency == Monthly && p.status == Active && p.createdBy.None?
      && p.startDate == req.date && p.nextDueDate == AddMonths(req.date, 1)
      && forall k :: 0 <= k < |rows| ==> rows[k].dueDate == AddMonths(req.date, k + 1)
  {
  }

  // ---------------------------------------------------------------------------
  // Invariants

  /** Committing the sale and item rows keeps the database valid and every
      plan's ledger, and leaves the plans and installments as they were. */
  lemma SaleRowsCommit(t: Tables, req: SaleRequest)
    requires TablesValid(t) && SaleError(t, req).None?
    ensures TablesValid(WithSaleRows(t, req))
    ensures WithSaleRows(t, req).PaymentTables() == t.PaymentTables().(sales := t.sales + [NewSale(req, t.nextId)])
    ensures LedgerOk(t.PaymentTables()) ==> LedgerOk(WithSaleRows(t, req).PaymentTables())
  {
    SaleRowsIds(t, req);
    SaleRowsReferences(t, req);
  }

  /** The rows the loop writes, in closed form. */
  lemma SaleRowsForm(t: Tables, req: SaleRequest)
    ensures var t' := WithSaleRows(t, req); var uses := req.itemsUsed;
      && t'.saleItems == t.saleItems + LinkRows(uses, t.nextId, t.nextId + 1)
      && t'.movements == t.movements + OutMovements(uses, req, t.nextId, t.nextId + 1)
      && Map(t'.inventory, InventoryKey) == Map(t.inventory, InventoryKey)
      && t'.nextId == t.nextId + 1 + 2 * |uses|
  {
    var s0 := SupplyRows(t.saleItems, t.inventory, t.movements, t.nextId + 1);
    ApplyUsesCounter(s0, req, t.nextId, req.itemsUsed);
    ApplyUsesLinks(s0, req, t.nextId, req.itemsUsed);
    ApplyUsesMovements(s0, req, t.nextId, req.itemsUsed);
    ApplyUsesStock(s0, req, t.nextId, req.itemsUsed);
    AdjustAllKeys(t.inventory, Withdrawals(req.itemsUsed));
  }

  /** The new sale, link and movement rows take ids from the counter, which
      moves past them. */
  lemma SaleRowsIds(t: Tables, req: SaleRequest)
    requires IdsIssued(t) && SaleError(t, req).None?
    ensures IdsIssued(WithSaleRows(t, req))
  {
    var t' := WithSaleRows(t, req);
    SaleRowsForm(t, req);
    IssuedAppendRow(t.sales, SaleKey, NewSale(req, t.nextId), t.nextId, t'.nextId);
    IssuedAppendRows(t.saleItems, LinkRows(req.itemsUsed, t.nextId, t.nextId + 1), SaleItemKey, t.nextId, t'.nextId);
    IssuedAppendRows(t.movements, OutMovements(req.itemsUsed, req, t.nextId, t.nextId + 1), MovementKey, t.nextId, t'.nextId);
    IdsIssuedGrow(t, t'.nextId);
  }

  /** Every link row names the new sale and an existing supply, and every
      movement an existing supply. */
  lemma SaleRowsReferences(t: Tables, req: SaleRequest)
    requires IdsIssued(t) && References(t) && SaleError(t, req).None?
    ensures References(WithSaleRows(t, req))
  {
    var t' := WithSaleRows(t, req);
    SaleRowsForm(t, req);
    KeysAppend(t.sales, SaleKey, NewSale(req, t.nextId));
    assert t.nextId in Map(t'.sales, SaleKey) by {
      assert Map(t'.sales, SaleKey)[|t.sales|] == t.nextId;
    }
    AppendedLinks(t.saleItems, LinkRows(req.itemsUsed, t.nextId, t.nextId + 1),
                  Map(t'.sales, SaleKey), Map(t.inventory, InventoryKey));
    AppendedMovements(t.movements, OutMovements(req.itemsUsed, req, t.nextId, t.nextId + 1), Map(t.inventory, InventoryKey));
  }

  lemma AppendedLinks(items: seq<SaleInventoryItem>, links: seq<SaleInventoryItem>, sales: seq<Id>, supplies: seq<Id>)
    requires forall i :: 0 <= i < |items| ==> items[i].saleId in sales && items[i].inventoryId in supplies
    requires forall i :: 0 <= i < |links| ==> links[i].saleId in sales && links[i].inventoryId in supplies
    ensures var all := items + links;
      forall i :: 0 <= i < |all| ==> all[i].saleId in sales && all[i].inventoryId in supplies
  {
    var all := items + links;
    forall i | 0 <= i < |all| ensures all[i].saleId in sales && all[i].inventoryId in supplies {
      if i >= |items| {
        assert all[i] == links[i - |items|];
      }
    }
  }

  lemma AppendedMovements(moves: seq<InventoryMovement>, extra: seq<InventoryMovement>, supplies: seq<Id>)
    requires forall i :: 0 <= i < |moves| ==> moves[i].inventoryId in supplies
    requires forall i :: 0 <= i < |extra| ==> extra[i].inventoryId in supplies
    ensures var all := moves + extra; forall i :: 0 <= i < |all| ==> all[i].inventoryId in supplies
  {
    var all := moves + extra;
    forall i | 0 <= i < |all| ensures all[i].inventoryId in supplies {
      if i >= |moves| {
        assert all[i] == extra[i - |moves|];
      }
    }
  }

  /** The plan of a new sale is accepted: its patient and sale exist, and no
      plan yet belongs to the new sale, whose id no earlier row has. */
  lemma SalePlanAccepted(t: Tables, req: SaleRequest)
    requires TablesValid(t) && SaleError(t, req).None? && req.paymentPlan.Some? && Financeable(req)
    ensures var t2 := WithSaleRows(t, req);
      PlanRowError(t2.patients, t2.sales, t2.plans, SalePlanRequest(req, t.nextId)).None?
  {
    var t2 := WithSaleRows(t, req);
    KeysAppend(t.sales, SaleKey, NewSale(req, t.nextId));
    assert t.nextId in Map(t2.sales, SaleKey) by {
      assert Map(t2.sales, SaleKey)[|t.sales|] == t.nextId;
    }
    forall i | 0 <= i < |t2.plans| ensures t2.plans[i].saleId != Some(t.nextId) {
      if t.plans[i].saleId.Some? {
        IssuedBelow(Map(t.sales, SaleKey), t.nextId, t.plans[i].saleId.value);
      }
    }
  }

  // ---------------------------------------------------------------------------
  // Listing

  /** The optional filters of the sales listing. */
  datatype SaleFilters = SaleFilters(
    patientId: Option<Id>, status: Option<string>, dateFrom: Option<Instant>, dateTo: Option<Instant>)

  /** A sale the listing keeps: the patient and the status match when given
      (an empty status counts as absent) and the date lies in the range. */
  predicate SaleMatches(f: SaleFilters, x: Sale)
  {
    && (f.patientId.Some? ==> x.patientId == f.patientId.value)
    && (Given(f.status) ==> x.status == f.status.value)
    && InRange(x.date, f.dateFrom, f.dateTo)
  }

  function SaleMatchesIn(f: SaleFilters): Sale -> bool
  {
    (x: Sale) => SaleMatches(f, x)
  }

  /** Sales newest first. */
  predicate SaleNewestFirst(a: Sale, b: Sale) { a.date >= b.date }

  /** `getSales`: exactly the sales matching the filters, each as often as it
      is stored, newest first. */
  function GetSales(t: Tables, f: SaleFilters): (r: seq<Sale>)
    ensures forall x :: x in r <==> x in t.sales && SaleMatches(f, x)
    ensures multiset(r) == multiset(Filter(t.sales, SaleMatchesIn(f)))
    ensures forall i, j :: 0 <= i < j < |r| ==> r[i].date >= r[j].date
  {
    assert TotalPreorder(SaleNewestFirst);
    Select(t.sales, SaleMatchesIn(f), SaleNewestFirst)
  }

  /** Without filters the listing holds every sale. */
  lemma AllSales(t: Tables)
    ensures multiset(GetSales(t, SaleFilters(None, None, None, None))) == multiset(t.sales)
  {
    FilterAll(t.sales, SaleMatchesIn(SaleFilters(None, None, None, None)));
  }
}
