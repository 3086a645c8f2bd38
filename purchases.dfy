/** Purchases from suppliers: recording an invoice with its items in one
    transaction, where every item bound to a supply adds its quantity to that
    supply's stock with an incoming movement; and the purchase and supplier
    listings. */
module Purchases {
  import opened Common
  import opened Calendar
  import opened Seqs
  import opened Text
  import opened Schema
  import opened Stock

  /** One invoice line as the caller supplies it. */
  datatype PurchaseLine = PurchaseLine(
    productName: string, quantity: int, unit: string, unitPrice: int, inventoryId: Option<Id>)

  /** What the caller supplies to record a purchase. */
  datatype PurchaseRequest = PurchaseRequest(
    date: Instant, supplierId: Id, invoiceNumber: string, category: string,
    items: seq<PurchaseLine>, userId: Option<Id>)

  const StockIn: string := "entrada"

  /** `item.quantity * item.unitPrice`. */
  function LineTotal(l: PurchaseLine): int
  {
    l.quantity * l.unitPrice
  }

  /** The invoice total: the sum of the line totals, 0 for no lines. */
  function PurchaseTotal(items: seq<PurchaseLine>): (r: int)
    ensures items == [] ==> r == 0
  {
    Sum(items, LineTotal)
  }

  /** One more line adds its quantity times its unit price to the total. */
  lemma PurchaseTotalAppend(items: seq<PurchaseLine>, l: PurchaseLine)
    ensures PurchaseTotal(items + [l]) == PurchaseTotal(items) + l.quantity * l.unitPrice
  {
    SumAppend(items, [l], LineTotal);
  }

  /** The reason written on the stock movements of a purchase. */
  function PurchaseReason(invoiceNumber: string): (r: string)
    ensures r == "Compra: " + invoiceNumber
    ensures |r| == 8 + |invoiceNumber| && r[8..] == invoiceNumber
  {
    "Compra: " + invoiceNumber
  }

  /** The purchase row: the request's fields, the computed total and the
      caller as creator. */
  function NewPurchase(req: PurchaseRequest, id: Id): (p: Purchase)
    ensures p.totalAmount == Sum(req.items, LineTotal)
  {
    Purchase(id, req.date, req.supplierId, req.invoiceNumber, req.category,
             PurchaseTotal(req.items), req.userId)
  }

  /** The rows the loop over the lines writes: item rows, inventory,
      movements, and the id counter. */
  datatype StockRows = StockRows(
    purchaseItems: seq<PurchaseItem>, inventory: seq<InventoryItem>,
    movements: seq<InventoryMovement>, nextId: nat)

  /** The item row of a line. */
  function ItemRow(l: PurchaseLine, id: Id, purchaseId: Id): PurchaseItem
  {
    PurchaseItem(id, purchaseId, l.productName, l.quantity, l.unit, l.unitPrice, LineTotal(l), l.inventoryId)
  }

  /** The incoming movement of a line bound to supply `supply`. */
  function InMovement(l: PurchaseLine, supply: Id, id: Id, req: PurchaseRequest, purchaseId: Id): InventoryMovement
  {
    InventoryMovement(id, supply, StockIn, l.quantity, PurchaseReason(req.invoiceNumber), Some(purchaseId), req.date)
  }

  /** One turn of the loop over the lines: the item row and, for a line bound
      to a supply, the stock increment and the incoming movement. */
  function LineStep(s: StockRows, req: PurchaseRequest, purchaseId: Id, l: PurchaseLine): StockRows
  {
    var items := s.purchaseItems + [ItemRow(l, s.nextId, purchaseId)];
    match l.inventoryId
    case None => StockRows(items, s.inventory, s.movements, s.nextId + 1)
    case Some(supply) =>
      StockRows(items, AdjustStock(s.inventory, supply, l.quantity),
                s.movements + [InMovement(l, supply, s.nextId + 1, req, purchaseId)], s.nextId + 2)
  }

  /** The loop over the lines, in order. */
  function ApplyLines(s: StockRows, req: PurchaseRequest, purchaseId: Id, lines: seq<PurchaseLine>): StockRows
    decreases |lines|
  {
    if lines == [] then s
    else LineStep(ApplyLines(s, req, purchaseId, lines[..|lines| - 1]), req, purchaseId, lines[|lines| - 1])
  }

  /** The stock changes of a purchase: the quantity of each line bound to a
      supply, in line order. */
  function Receipts(lines: seq<PurchaseLine>): (r: seq<(Id, int)>)
    decreases |lines|
  {
    if lines == [] then []
    else
      var l := lines[|lines| - 1];
      Receipts(lines[..|lines| - 1]) + (if l.inventoryId.Some? then [(l.inventoryId.value, l.quantity)] else [])
  }

  /** The quantity of one supply a purchase brings in, over all its lines. */
  function ReceivedOf(lines: seq<PurchaseLine>, id: Id): int
  {
    Sum(lines, ReceivedAt(id))
  }

  function ReceivedAt(id: Id): PurchaseLine -> int
  {
    (l: PurchaseLine) => if l.inventoryId == Some(id) then l.quantity else 0
  }

  /** Why the database refuses the purchase: its supplier or a supply one of
      its lines names does not exist. */
  function PurchaseError(t: Tables, req: PurchaseRequest): (e: Option<string>)
    ensures e.None? <==>
      && req.supplierId in Map(t.suppliers, SupplierKey)
      && forall k :: 0 <= k < |req.items| && req.items[k].inventoryId.Some? ==>
           req.items[k].inventoryId.value in Map(t.inventory, InventoryKey)
    ensures e.Some? ==> e.value == ForeignKeyViolation
  {
    if req.supplierId !in Map(t.suppliers, SupplierKey) then Some(ForeignKeyViolation)
    else if exists k :: 0 <= k < |req.items| && req.items[k].inventoryId.Some?
                        && req.items[k].inventoryId.value !in Map(t.inventory, InventoryKey) then
      Some(ForeignKeyViolation)
    else None
  }

  /** The tables after a purchase is recorded. */
  function WithPurchase(t: Tables, req: PurchaseRequest): Tables
  {
    var s := ApplyLines(StockRows(t.purchaseItems, t.inventory, t.movements, t.nextId + 1), req, t.nextId, req.items);
    Stored(t, NewPurchase(req, t.nextId), s)
  }

  /** The tables with the purchase row appended and the loop's rows written. */
  function Stored(t: Tables, p: Purchase, s: StockRows): Tables
  {
    t.(purchases := t.purchases + [p], purchaseItems := s.purchaseItems, inventory := s.inventory,
       movements := s.movements, nextId := s.nextId)
  }

  // ---------------------------------------------------------------------------
  // The transaction

  /** `createPurchase`: compute the total, insert the purchase, then for each
      line its item row and, when the line names a supply, the stock increment
      and the "entrada" movement. A missing supplier or supply aborts the
      transaction with nothing written. */
  method CreatePurchase(db: Db, req: PurchaseRequest) returns (r: Result<Purchase>)
    requires db.Valid()
    modifies db`purchases, db`purchaseItems, db`inventory, db`movements, db`nextId
    ensures db.Valid()
    ensures db.CurrentBooks() == old(db.CurrentBooks())
    ensures var e := PurchaseError(old(db.Snapshot()), req);
      if e.Some? then
        r == Err(e.value) && db.Snapshot() == old(db.Snapshot())
      else
        r == Ok(NewPurchase(req, old(db.nextId))) && db.Snapshot() == WithPurchase(old(db.Snapshot()), req)
  {
    var e := PurchaseError(db.Snapshot(), req);
    if e.Some? {
      return Err(e.value);
    }
    ghost var t0 := db.Snapshot();
    var purchase := RecordPurchaseRows(db, req);
    PurchaseCommit(t0, req);
    r := Ok(purchase);
  }

  /** The purchase row and, through the loop over the lines, its item rows,
      stock increments and movements, staged and then committed together. */
  method RecordPurchaseRows(db: Db, req: PurchaseRequest) returns (purchase: Purchase)
    modifies db`purchases, db`purchaseItems, db`inventory, db`movements, db`nextId
    ensures purchase == NewPurchase(req, old(db.nextId))
    ensures db.Snapshot() == WithPurchase(old(db.Snapshot()), req)
  {
    ghost var t0 := db.Snapshot();
    var total := SumLines(req.items);
    purchase := Purchase(db.nextId, req.date, req.supplierId, req.invoiceNumber, req.category, total, req.userId);
    var rows := StageLines(StockRows(db.purchaseItems, db.inventory, db.movements, db.nextId + 1), req, purchase.id);
    StoreRows(db, purchase, rows);
  }

  /** Writes the purchase row and the staged rows. */
  method StoreRows(db: Db, p: Purchase, rows: StockRows)
    modifies db`purchases, db`purchaseItems, db`inventory, db`movements, db`nextId
    ensures db.Snapshot() == Stored(old(db.Snapshot()), p, rows)
  {
    db.purchases := db.purchases + [p];
    db.purchaseItems, db.inventory, db.movements, db.nextId := rows.purchaseItems, rows.inventory, rows.movements, rows.nextId;
  }

  /** The `reduce` that computes the invoice total. */
  method SumLines(items: seq<PurchaseLine>) returns (total: int)
    ensures total == PurchaseTotal(items)
  {
    total := 0;
    var k := |items|;
    while k > 0
      invariant 0 <= k <= |items|
      invariant total == Sum(items[k..], LineTotal)
    {
      k := k - 1;
      assert items[k..] == [items[k]] + items[k + 1..];
      total := total + LineTotal(items[k]);
    }
  }

  /** The loop over the lines, staged on the rows `s`. */
  method StageLines(s: StockRows, req: PurchaseRequest, purchaseId: Id) returns (r: StockRows)
    ensures r == ApplyLines(s, req, purchaseId, req.items)
  {
    var lines := req.items;
    r := s;
    var k := 0;
    while k < |lines|
      invariant k <= |lines|
      invariant r == ApplyLines(s, req, purchaseId, lines[..k])
    {
      assert lines[..k + 1][..k] == lines[..k];
      var l := lines[k];
      var items := r.purchaseItems + [ItemRow(l, r.nextId, purchaseId)];
      if l.inventoryId.Some? {
        r := StockRows(items, AdjustStock(r.inventory, l.inventoryId.value, l.quantity),
                       r.movements + [InMovement(l, l.inventoryId.value, r.nextId + 1, req, purchaseId)], r.nextId + 2);
      } else {
        r := StockRows(items, r.inventory, r.movements, r.nextId + 1);
      }
      k := k + 1;
    }
    assert lines[..k] == lines;
  }

  // ---------------------------------------------------------------------------
  // What a purchase writes

  /** The line an item row was written from. */
  function LineOf(x: PurchaseItem): PurchaseLine
  {
    PurchaseLine(x.productName, x.quantity, x.unit, x.unitPrice, x.inventoryId)
  }

  /** The loop appends one item row per line, in line order, each naming the
      purchase, carrying the line's fields and the line total. */
  lemma {:induction false} ApplyLinesItems(s: StockRows, req: PurchaseRequest, pid: Id, lines: seq<PurchaseLine>)
    ensures var r := ApplyLines(s, req, pid, lines).purchaseItems; var n := |s.purchaseItems|;
      && |r| == n + |lines| && r[..n] == s.purchaseItems
      && forall k :: n <= k < |r| ==>
           r[k].purchaseId == pid && LineOf(r[k]) == lines[k - n] && r[k].total == LineTotal(lines[k - n])
    decreases |lines|
  {
    if lines != [] {
      var m := |lines| - 1;
      ApplyLinesItems(s, req, pid, lines[..m]);
      var s0 := ApplyLines(s, req, pid, lines[..m]);
      var r0 := s0.purchaseItems;
      var r := ApplyLines(s, req, pid, lines).purchaseItems;
      var n := |s.purchaseItems|;
      assert r == r0 + [ItemRow(lines[m], s0.nextId, pid)];
      assert r[..n] == r0[..n];
      forall k | n <= k < |r|
        ensures r[k].purchaseId == pid && LineOf(r[k]) == lines[k - n] && r[k].total == LineTotal(lines[k - n])
      {
        if k < |r0| {
          assert r[k] == r0[k] && lines[k - n] == lines[..m][k - n];
        }
      }
    } else {
      assert s.purchaseItems[..|s.purchaseItems|] == s.purchaseItems;
    }
  }

  /** The item rows of a purchase add up to its total. */
  lemma PurchaseItemsTotal(t: Tables, req: PurchaseRequest)
    ensures var items := WithPurchase(t, req).purchaseItems;
      && |items| == |t.purchaseItems| + |req.items|
      && Sum(items[|t.purchaseItems|..], (x: PurchaseItem) => x.total) == NewPurchase(req, t.nextId).totalAmount
  {
    var s0 := StockRows(t.purchaseItems, t.inventory, t.movements, t.nextId + 1);
    ApplyLinesItems(s0, req, t.nextId, req.items);
    var items := WithPurchase(t, req).purchaseItems;
    var added := items[|t.purchaseItems|..];
    forall k | 0 <= k < |added| ensures added[k].total == LineTotal(req.items[k]) {
      assert added[k] == items[|t.purchaseItems| + k];
      assert |t.purchaseItems| + k - |t.purchaseItems| == k;
    }
    SumPointwise(added, req.items, (x: PurchaseItem) => x.total, LineTotal);
  }

  /** The loop's stock updates are the purchase's receipts, applied in turn. */
  lemma {:induction false} ApplyLinesStock(s: StockRows, req: PurchaseRequest, pid: Id, lines: seq<PurchaseLine>)
    ensures ApplyLines(s, req, pid, lines).inventory == AdjustAll(s.inventory, Receipts(lines))
    decreases |lines|
  {
    if lines != [] {
      var m := |lines| - 1;
      ApplyLinesStock(s, req, pid, lines[..m]);
      var l := lines[m];
      if l.inventoryId.Some? {
        var front := Receipts(lines[..m]);
        var all := front + [(l.inventoryId.value, l.quantity)];
        assert all[..|all| - 1] == front;
      } else {
        assert Receipts(lines) == Receipts(lines[..m]);
      }
    }
  }

  /** The receipts bring in, for each supply, the quantities of the lines
      naming it. */
  lemma {:induction false} ReceiptsNet(lines: seq<PurchaseLine>, id: Id)
    ensures NetChange(Receipts(lines), id) == ReceivedOf(lines, id)
    decreases |lines|
  {
    if lines != [] {
      var m := |lines| - 1;
      var l := lines[m];
      ReceiptsNet(lines[..m], id);
      assert lines == lines[..m] + [l];
      SumAppend(lines[..m], [l], ReceivedAt(id));
      if l.inventoryId.Some? {
        NetChangeAppend(Receipts(lines[..m]), (l.inventoryId.value, l.quantity), id);
      } else {
        assert Receipts(lines) == Receipts(lines[..m]);
      }
    }
  }

  /** Every supply the receipts name is one the lines name. */
  lemma {:induction false} ReceiptsNamed(lines: seq<PurchaseLine>, supplies: seq<Id>)
    requires forall k :: 0 <= k < |lines| && lines[k].inventoryId.Some? ==> lines[k].inventoryId.value in supplies
    ensures forall k :: 0 <= k < |Receipts(lines)| ==> Receipts(lines)[k].0 in supplies
    decreases |lines|
  {
    if lines != [] {
      var m := |lines| - 1;
      ReceiptsNamed(lines[..m], supplies);
    }
  }

  /** Each supply's stock grows by exactly the quantities of the lines naming
      it; no other column and no id changes, and lines without a supply
      leave the inventory alone. */
  lemma PurchaseStockEffect(t: Tables, req: PurchaseRequest)
    requires Ascending(Map(t.inventory, InventoryKey))
    requires forall k :: 0 <= k < |req.items| && req.items[k].inventoryId.Some? ==>
      req.items[k].inventoryId.value in Map(t.inventory, InventoryKey)
    ensures var r := WithPurchase(t, req).inventory;
      && |r| == |t.inventory|
      && forall i :: 0 <= i < |t.inventory| ==>
           r[i] == t.inventory[i].(currentStock := t.inventory[i].currentStock + ReceivedOf(req.items, t.inventory[i].id))
  {
    var s0 := StockRows(t.purchaseItems, t.inventory, t.movements, t.nextId + 1);
    var rs := Receipts(req.items);
    ApplyLinesStock(s0, req, t.nextId, req.items);
    assert WithPurchase(t, req).inventory == AdjustAll(t.inventory, rs);
    ReceiptsNamed(req.items, Map(t.inventory, InventoryKey));
    AdjustAllEffect(t.inventory, rs);
    forall i | 0 <= i < |t.inventory|
      ensures NetChange(rs, t.inventory[i].id) == ReceivedOf(req.items, t.inventory[i].id)
    {
      ReceiptsNet(req.items, t.inventory[i].id);
    }
  }

  /** The loop appends one "entrada" movement per receipt, in order, each
      naming the supply and quantity of its line, the purchase, the invoice
      and the purchase date. */
  lemma {:induction false} ApplyLinesMovements(s: StockRows, req: PurchaseRequest, pid: Id, lines: seq<PurchaseLine>)
    ensures var r := ApplyLines(s, req, pid, lines).movements; var n := |s.movements|; var rs := Receipts(lines);
      && |r| == n + |rs| && r[..n] == s.movements
      && forall k :: n <= k < |r| ==>
           && r[k].inventoryId == rs[k - n].0 && r[k].quantity == rs[k - n].1
           && r[k].kind == StockIn && r[k].reason == PurchaseReason(req.invoiceNumber)
           && r[k].referenceId == Some(pid) && r[k].date == req.date
    decreases |lines|
  {
    if lines != [] {
      var m := |lines| - 1;
      ApplyLinesMovements(s, req, pid, lines[..m]);
      var l := lines[m];
      var s0 := ApplyLines(s, req, pid, lines[..m]);
      var r0 := s0.movements;
      var r := ApplyLines(s, req, pid, lines).movements;
      var n := |s.movements|;
      var rs0 := Receipts(lines[..m]);
      var rs := Receipts(lines);
      if l.inventoryId.Some? {
        assert r == r0 + [InMovement(l, l.inventoryId.value, s0.nextId + 1, req, pid)];
        assert rs == rs0 + [(l.inventoryId.value, l.quantity)];
        assert r[..n] == r0[..n];
        forall k | n <= k < |r|
          ensures && r[k].inventoryId == rs[k - n].0 && r[k].quantity == rs[k - n].1
                  && r[k].kind == StockIn && r[k].reason == PurchaseReason(req.invoiceNumber)
                  && r[k].referenceId == Some(pid) && r[k].date == req.date
        {
          if k < |r0| {
            assert r[k] == r0[k] && rs[k - n] == rs0[k - n];
          }
        }
      } else {
        assert rs == rs0;
      }
    } else {
      assert s.movements[..|s.movements|] == s.movements;
    }
  }

  /** The counter moves past one id per line and one more per receipt. */
  lemma {:induction false} ApplyLinesCounter(s: StockRows, req: PurchaseRequest, pid: Id, lines: seq<PurchaseLine>)
    ensures ApplyLines(s, req, pid, lines).nextId == s.nextId + |lines| + |Receipts(lines)|
    decreases |lines|
  {
    if lines != [] {
      ApplyLinesCounter(s, req, pid, lines[..|lines| - 1]);
    }
  }

  /** A purchase with no lines writes only the purchase row, with total 0. */
  lemma EmptyPurchase(t: Tables, req: PurchaseRequest)
    requires req.items == []
    ensures WithPurchase(t, req) == t.(purchases := t.purchases + [NewPurchase(req, t.nextId)], nextId := t.nextId + 1)
    ensures NewPurchase(req, t.nextId).totalAmount == 0
  {
  }

  // ---------------------------------------------------------------------------
  // Invariants

  /** The item and movement rows are issued by the counter, and each names
      a row of the given purchase and supply ids. */
  ghost predicate RowsSound(s: StockRows, purchases: seq<Id>, supplies: seq<Id>)
  {
    && Issued(Map(s.purchaseItems, PurchaseItemKey), s.nextId)
    && Issued(Map(s.movements, MovementKey), s.nextId)
    && Map(s.inventory, InventoryKey) == supplies
    && (forall i :: 0 <= i < |s.purchaseItems| ==>
          s.purchaseItems[i].purchaseId in purchases
          && (s.purchaseItems[i].inventoryId.Some? ==> s.purchaseItems[i].inventoryId.value in supplies))
    && (forall i :: 0 <= i < |s.movements| ==> s.movements[i].inventoryId in supplies)
  }

  /** One line keeps the rows sound when its purchase and its supply exist. */
  lemma LineStepSound(s: StockRows, req: PurchaseRequest, pid: Id, l: PurchaseLine, purchases: seq<Id>, supplies: seq<Id>)
    requires RowsSound(s, purchases, supplies) && pid in purchases
    requires l.inventoryId.Some? ==> l.inventoryId.value in supplies
    ensures RowsSound(LineStep(s, req, pid, l), purchases, supplies)
    ensures s.nextId < LineStep(s, req, pid, l).nextId
  {
    var r := LineStep(s, req, pid, l);
    var item := ItemRow(l, s.nextId, pid);
    IssuedAppendRow(s.purchaseItems, PurchaseItemKey, item, s.nextId, r.nextId);
    forall i | 0 <= i < |r.purchaseItems|
      ensures r.purchaseItems[i].purchaseId in purchases
              && (r.purchaseItems[i].inventoryId.Some? ==> r.purchaseItems[i].inventoryId.value in supplies)
    {
      if i < |s.purchaseItems| {
        assert r.purchaseItems[i] == s.purchaseItems[i];
      }
    }
    if l.inventoryId.Some? {
      var mv := InMovement(l, l.inventoryId.value, s.nextId + 1, req, pid);
      IssuedAppendRow(s.movements, MovementKey, mv, s.nextId + 1, r.nextId);
      IssuedGrow(Map(s.movements, MovementKey), s.nextId, s.nextId + 1);
      AdjustStockKeys(s.inventory, l.inventoryId.value, l.quantity);
      forall i | 0 <= i < |r.movements| ensures r.movements[i].inventoryId in supplies {
        if i < |s.movements| {
          assert r.movements[i] == s.movements[i];
        }
      }
    } else {
      IssuedGrow(Map(s.movements, MovementKey), s.nextId, r.nextId);
    }
  }

  /** The whole loop keeps the rows sound and only raises the counter. */
  lemma {:induction false} ApplyLinesSound(s: StockRows, req: PurchaseRequest, pid: Id, lines: seq<PurchaseLine>,
                                           purchases: seq<Id>, supplies: seq<Id>)
    requires RowsSound(s, purchases, supplies) && pid in purchases
    requires forall k :: 0 <= k < |lines| && lines[k].inventoryId.Some? ==> lines[k].inventoryId.value in supplies
    ensures RowsSound(ApplyLines(s, req, pid, lines), purchases, supplies)
    ensures s.nextId <= ApplyLines(s, req, pid, lines).nextId
    decreases |lines|
  {
    if lines != [] {
      var m := |lines| - 1;
      ApplyLinesSound(s, req, pid, lines[..m], purchases, supplies);
      LineStepSound(ApplyLines(s, req, pid, lines[..m]), req, pid, lines[m], purchases, supplies);
    }
  }

  /** Committing a purchase keeps the database valid. */
  lemma PurchaseCommit(t: Tables, req: PurchaseRequest)
    requires TablesValid(t) && PurchaseError(t, req).None?
    ensures TablesValid(WithPurchase(t, req))
  {
    var p := NewPurchase(req, t.nextId);
    var s0 := StockRows(t.purchaseItems, t.inventory, t.movements, t.nextId + 1);
    var s1 := ApplyLines(s0, req, t.nextId, req.items);
    assert TablesValid(Stored(t, p, s1)) by {
      PurchaseStartSound(t, p);
      ApplyLinesSound(s0, req, t.nextId, req.items, Map(t.purchases + [p], PurchaseKey), Map(t.inventory, InventoryKey));
      PurchaseValid(t, p, s1);
    }
  }

  /** Before the loop: the rows are sound against the purchases including the
      new one, with the counter past the purchase's id. */
  lemma PurchaseStartSound(t: Tables, p: Purchase)
    requires TablesValid(t) && p.id == t.nextId
    ensures var ps := Map(t.purchases + [p], PurchaseKey);
      && p.id in ps
      && RowsSound(StockRows(t.purchaseItems, t.inventory, t.movements, t.nextId + 1), ps, Map(t.inventory, InventoryKey))
  {
    var ps := Map(t.purchases + [p], PurchaseKey);
    KeysAppend(t.purchases, PurchaseKey, p);
    assert ps[|t.purchases|] == p.id;
    IssuedGrow(Map(t.purchaseItems, PurchaseItemKey), t.nextId, t.nextId + 1);
    IssuedGrow(Map(t.movements, MovementKey), t.nextId, t.nextId + 1);
    forall i | 0 <= i < |t.purchaseItems| ensures t.purchaseItems[i].purchaseId in ps {
      assert t.purchaseItems[i].purchaseId in Map(t.purchases, PurchaseKey);
    }
  }

  /** The rest of validity: the purchase row's id, its supplier, and every
      other table's ids under the raised counter. */
  lemma PurchaseValid(t: Tables, p: Purchase, s: StockRows)
    requires TablesValid(t) && p.id == t.nextId < s.nextId
    requires p.supplierId in Map(t.suppliers, SupplierKey)
    requires RowsSound(s, Map(t.purchases + [p], PurchaseKey), Map(t.inventory, InventoryKey))
    ensures TablesValid(Stored(t, p, s))
  {
    var t' := Stored(t, p, s);
    IssuedAppendRow(t.purchases, PurchaseKey, p, t.nextId, t'.nextId);
    IdsIssuedGrow(t, t'.nextId);
    forall i | 0 <= i < |t'.purchases| ensures t'.purchases[i].supplierId in Map(t'.suppliers, SupplierKey) {
      if i < |t.purchases| {
        assert t'.purchases[i] == t.purchases[i];
      }
    }
  }

  // ---------------------------------------------------------------------------
  // Listings

  /** The optional filters of the purchase listing. */
  datatype PurchaseFilters = PurchaseFilters(
    supplierId: Option<Id>, category: Option<string>, dateFrom: Option<Instant>, dateTo: Option<Instant>)

  /** A purchase the listing keeps: supplier and category match when given
      (an empty category counts as absent) and the date lies in the range. */
  predicate PurchaseMatches(f: PurchaseFilters, x: Purchase)
  {
    && (f.supplierId.Some? ==> x.supplierId == f.supplierId.value)
    && (Given(f.category) ==> x.category == f.category.value)
    && InRange(x.date, f.dateFrom, f.dateTo)
  }

  function PurchaseMatchesIn(f: PurchaseFilters): Purchase -> bool
  {
    (x: Purchase) => PurchaseMatches(f, x)
  }

  predicate PurchaseNewestFirst(a: Purchase, b: Purchase) { a.date >= b.date }

  /** `getPurchases`: exactly the purchases matching the filters, newest first. */
  function GetPurchases(t: Tables, f: PurchaseFilters): (r: seq<Purchase>)
    ensures forall x :: x in r <==> x in t.purchases && PurchaseMatches(f, x)
    ensures multiset(r) == multiset(Filter(t.purchases, PurchaseMatchesIn(f)))
    ensures forall i, j :: 0 <= i < j < |r| ==> r[i].date >= r[j].date
  {
    assert TotalPreorder(PurchaseNewestFirst);
    Select(t.purchases, PurchaseMatchesIn(f), PurchaseNewestFirst)
  }

  predicate ByName(a: Supplier, b: Supplier) { LexLeq(a.name, b.name) }

  /** `getSuppliers`: every supplier, by name in ascending code-point order. */
  function GetSuppliers(t: Tables): (r: seq<Supplier>)
    ensures multiset(r) == multiset(t.suppliers)
    ensures forall i, j :: 0 <= i < j < |r| ==> LexLeq(r[i].name, r[j].name)
  {
    assert TotalPreorder(ByName) by {
      forall a: Supplier, b: Supplier ensures ByName(a, b) || ByName(b, a) {
        LexLeqTotal(a.name, b.name);
      }
      forall a: Supplier, b: Supplier, c: Supplier | ByName(a, b) && ByName(b, c) ensures ByName(a, c) {
        LexLeqTransitive(a.name, b.name, c.name);
      }
    }
    SortBy(t.suppliers, ByName)
  }
}
