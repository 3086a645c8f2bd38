/** The clinic's database: one record type per table, and the class `Db`
    holding every table as a sequence of rows in insertion order. Row ids come
    from one counter, so a new row's id is larger than every id already
    stored; `Db.Valid` states the integrity the database enforces: unique ids,
    unique patient documents and user e-mails, at most one plan per sale, and
    the references `References` lists. Creator and audit-log user ids are
    plain columns. */
module Schema {
  import opened Common
  import opened Calendar
  import opened Seqs

  // ---------------------------------------------------------------------------
  // Records

  datatype Patient = Patient(
    id: Id, document: string, fullName: string, birthDate: Option<Instant>,
    phone: string, email: Option<string>, address: Option<string>,
    eps: Option<string>, notes: Option<string>, createdAt: Instant)

  datatype Sale = Sale(
    id: Id, date: Instant, patientId: Id, treatment: string, amount: int,
    paymentMethod: string, status: string)

  /** The link between a sale and a supply it consumed. */
  datatype SaleInventoryItem = SaleInventoryItem(
    id: Id, saleId: Id, inventoryId: Id, quantityUsed: int)

  datatype InventoryItem = InventoryItem(
    id: Id, code: string, name: string, category: string, unit: string,
    currentStock: int, minStock: int, avgCost: int)

  /** A stock movement; `kind` is "entrada" (stock in) or "salida" (stock out). */
  datatype InventoryMovement = InventoryMovement(
    id: Id, inventoryId: Id, kind: string, quantity: int, reason: string,
    referenceId: Option<Id>, date: Instant)

  datatype PlanStatus = Active | Completed
  {
    /** The value stored in the `status` column. */
    function Name(): string
    {
      match this
      case Active => "active"
      case Completed => "completed"
    }
  }

  datatype InstallmentStatus = Pending | Overdue | Paid
  {
    function Name(): string
    {
      match this
      case Pending => "pending"
      case Overdue => "overdue"
      case Paid => "paid"
    }

    /** Still to be paid: "pending" or "overdue". */
    predicate IsOpen()
    {
      this != Paid
    }
  }

  datatype PaymentPlan = PaymentPlan(
    id: Id, patientId: Id, treatment: string, saleId: Option<Id>,
    totalAmount: int, downPayment: int, installments: int,
    installmentAmount: int, paidAmount: int, remainingAmount: int,
    frequency: string, status: PlanStatus, startDate: Instant,
    nextDueDate: Instant, createdBy: Option<Id>, createdAt: Instant)

  datatype Installment = Installment(
    id: Id, planId: Id, number: int, amount: int, dueDate: Instant,
    status: InstallmentStatus, paidDate: Option<Instant>,
    paidAmount: Option<int>, paymentMethod: Option<string>,
    notes: Option<string>)

  datatype Supplier = Supplier(id: Id, name: string)

  datatype Purchase = Purchase(
    id: Id, date: Instant, supplierId: Id, invoiceNumber: string,
    category: string, totalAmount: int, createdBy: Option<Id>)

  datatype PurchaseItem = PurchaseItem(
    id: Id, purchaseId: Id, productName: string, quantity: int, unit: string,
    unitPrice: int, total: int, inventoryId: Option<Id>)

  datatype Expense = Expense(
    id: Id, date: Instant, category: string, description: string,
    amount: int, frequency: string, status: string, createdBy: Option<Id>)

  /** A bcrypt digest. Hashing is one-way and salted; the model keeps the
      hashed secret and the salt symbolically, so that a digest can be checked
      against a candidate password but is never itself a password string. */
  datatype PasswordHash = Bcrypt(secret: string, salt: int)

  datatype User = User(
    id: Id, email: string, name: string, password: PasswordHash, role: string,
    status: string, createdAt: Instant, updatedAt: Instant)

  datatype AuditLog = AuditLog(
    id: Id, userId: Id, action: string, moduleName: string,
    recordId: Option<string>, details: Option<string>, createdAt: Instant)

  datatype Integration = Integration(
    id: Id, name: string, kind: string, status: string,
    lastSync: Option<Instant>, lastError: Option<string>)

  datatype IntegrationLog = IntegrationLog(
    id: Id, integrationId: Id, action: string, status: string,
    message: string, recordsAffected: Option<int>, details: Option<string>,
    createdAt: Instant)

  // ---------------------------------------------------------------------------
  // Keys

  function PatientKey(r: Patient): Id { r.id }
  function SaleKey(r: Sale): Id { r.id }
  function SaleItemKey(r: SaleInventoryItem): Id { r.id }
  function InventoryKey(r: InventoryItem): Id { r.id }
  function MovementKey(r: InventoryMovement): Id { r.id }
  function PlanKey(r: PaymentPlan): Id { r.id }
  function InstallmentKey(r: Installment): Id { r.id }
  function SupplierKey(r: Supplier): Id { r.id }
  function PurchaseKey(r: Purchase): Id { r.id }
  function PurchaseItemKey(r: PurchaseItem): Id { r.id }
  function ExpenseKey(r: Expense): Id { r.id }
  function UserKey(r: User): Id { r.id }
  function AuditLogKey(r: AuditLog): Id { r.id }
  function IntegrationKey(r: Integration): Id { r.id }
  function IntegrationLogKey(r: IntegrationLog): Id { r.id }

  /** Ids strictly increase along the table, so no id occurs twice. */
  predicate Ascending(ids: seq<Id>)
  {
    forall i, j :: 0 <= i < j < |ids| ==> ids[i] < ids[j]
  }

  /** Ascending ids, all issued before the counter reached `bound`. */
  predicate Issued(ids: seq<Id>, bound: nat)
  {
    Ascending(ids) && forall i :: 0 <= i < |ids| ==> ids[i] < bound
  }

  lemma KeysAppend<T>(s: seq<T>, key: T -> Id, x: T)
    ensures Map(s + [x], key) == Map(s, key) + [key(x)]
  {
  }

  lemma KeysUpdate<T>(s: seq<T>, key: T -> Id, i: nat, x: T)
    requires i < |s| && key(x) == key(s[i])
    ensures Map(s[i := x], key) == Map(s, key)
  {
  }

  lemma KeysRemove<T>(s: seq<T>, key: T -> Id, i: nat)
    requires i < |s|
    ensures Map(s[..i] + s[i + 1..], key) == Map(s, key)[..i] + Map(s, key)[i + 1..]
  {
  }

  /** A row carrying the counter's current value can be appended. */
  lemma IssuedAppend(ids: seq<Id>, bound: nat)
    requires Issued(ids, bound)
    ensures Issued(ids + [bound], bound + 1)
  {
  }

  lemma IssuedRemove(ids: seq<Id>, bound: nat, i: nat)
    requires Issued(ids, bound) && i < |ids|
    ensures Issued(ids[..i] + ids[i + 1..], bound)
  {
    var r := ids[..i] + ids[i + 1..];
    forall a, b | 0 <= a < b < |r| ensures r[a] < r[b] {
      var a' := if a < i then a else a + 1;
      var b' := if b < i then b else b + 1;
      assert r[a] == ids[a'] && r[b] == ids[b'];
    }
  }

  /** The row with a given id, if there is one (Prisma's `findUnique`). */
  function Find<T>(s: seq<T>, key: T -> Id, id: Id): (r: Option<nat>)
    ensures r.Some? ==> r.value < |s| && key(s[r.value]) == id
    ensures r.None? <==> id !in Map(s, key)
  {
    if s == [] then None
    else if key(s[|s| - 1]) == id then Some(|s| - 1)
    else
      var r := Find(s[..|s| - 1], key, id);
      assert Map(s, key) == Map(s[..|s| - 1], key) + [key(s[|s| - 1])];
      r
  }

  /** The position of the last row whose column `col` holds `v`, if any: a
      `findUnique` on a unique column. */
  function FindBy<T>(s: seq<T>, col: T -> string, v: string): (r: Option<nat>)
    ensures r.Some? ==> r.value < |s| && col(s[r.value]) == v
    ensures r.None? <==> forall i :: 0 <= i < |s| ==> col(s[i]) != v
  {
    if s == [] then None
    else if col(s[|s| - 1]) == v then Some(|s| - 1)
    else
      var r := FindBy(s[..|s| - 1], col, v);
      assert forall i :: 0 <= i < |s| - 1 ==> s[..|s| - 1][i] == s[i];
      r
  }

  /** The row with a given id itself, if there is one. */
  function Lookup<T>(s: seq<T>, key: T -> Id, id: Id): (r: Option<T>)
    ensures r.Some? ==> r.value in s && key(r.value) == id
    ensures r.None? <==> id !in Map(s, key)
  {
    match Find(s, key, id)
    case None => None
    case Some(i) => Some(s[i])
  }

  /** With unique ids, `Find` returns the one row that has the id. */
  lemma {:induction false} FindUnique<T>(s: seq<T>, key: T -> Id, i: nat)
    requires Ascending(Map(s, key)) && i < |s|
    ensures Find(s, key, key(s[i])) == Some(i)
  {
    var ks := Map(s, key);
    assert ks[i] == key(s[i]);
    var j := Find(s, key, key(s[i])).value;
    assert ks[j] == ks[i];
    assert !(j < i) && !(i < j);
  }

  /** Rows unaffected when one row is replaced by a row with the same id. */
  lemma FindAfterUpdate<T>(s: seq<T>, key: T -> Id, i: nat, x: T, id: Id)
    requires i < |s| && key(x) == key(s[i])
    ensures Find(s[i := x], key, id) == Find(s, key, id)
    decreases |s|
  {
    if s != [] && i < |s| - 1 {
      assert s[i := x][..|s| - 1] == s[..|s| - 1][i := x];
      FindAfterUpdate(s[..|s| - 1], key, i, x, id);
    }
  }

  // ---------------------------------------------------------------------------
  // The database

  /** The tables the payment-plan operations touch, as one value. */
  datatype Books = Books(plans: seq<PaymentPlan>, installments: seq<Installment>, sales: seq<Sale>)

  /** Unique ids in the three payment tables, every installment belonging to a
      stored plan and every plan's sale, when it has one, being stored. */
  ghost predicate BooksIntegrity(b: Books)
  {
    && Ascending(Map(b.plans, PlanKey))
    && Ascending(Map(b.installments, InstallmentKey))
    && Ascending(Map(b.sales, SaleKey))
    && (forall i :: 0 <= i < |b.installments| ==> b.installments[i].planId in Map(b.plans, PlanKey))
    && (forall i :: 0 <= i < |b.plans| && b.plans[i].saleId.Some? ==>
          b.plans[i].saleId.value in Map(b.sales, SaleKey))
  }

  /** Every table at one moment, with the id counter. */
  datatype Tables = Tables(
    patients: seq<Patient>, sales: seq<Sale>, saleItems: seq<SaleInventoryItem>,
    inventory: seq<InventoryItem>, movements: seq<InventoryMovement>,
    plans: seq<PaymentPlan>, installments: seq<Installment>,
    suppliers: seq<Supplier>, purchases: seq<Purchase>,
    purchaseItems: seq<PurchaseItem>, expenses: seq<Expense>, users: seq<User>,
    auditLogs: seq<AuditLog>, integrations: seq<Integration>,
    integrationLogs: seq<IntegrationLog>, nextId: nat)
  {
    /** The payment-plan tables. */
    function PaymentTables(): Books
    {
      Books(plans, installments, sales)
    }

    /** These tables with the payment-plan tables replaced by `b`. */
    function WithPaymentTables(b: Books): Tables
    {
      this.(plans := b.plans, installments := b.installments, sales := b.sales)
    }
  }

  /** Every id was issued by the counter before its current value. */
  ghost predicate IdsIssued(t: Tables)
  {
    && Issued(Map(t.patients, PatientKey), t.nextId)
    && Issued(Map(t.sales, SaleKey), t.nextId)
    && Issued(Map(t.saleItems, SaleItemKey), t.nextId)
    && Issued(Map(t.inventory, InventoryKey), t.nextId)
    && Issued(Map(t.movements, MovementKey), t.nextId)
    && Issued(Map(t.plans, PlanKey), t.nextId)
    && Issued(Map(t.installments, InstallmentKey), t.nextId)
    && Issued(Map(t.suppliers, SupplierKey), t.nextId)
    && Issued(Map(t.purchases, PurchaseKey), t.nextId)
    && Issued(Map(t.purchaseItems, PurchaseItemKey), t.nextId)
    && Issued(Map(t.expenses, ExpenseKey), t.nextId)
    && Issued(Map(t.users, UserKey), t.nextId)
    && Issued(Map(t.auditLogs, AuditLogKey), t.nextId)
    && Issued(Map(t.integrations, IntegrationKey), t.nextId)
    && Issued(Map(t.integrationLogs, IntegrationLogKey), t.nextId)
  }

  /** Every stored reference names a stored row. */
  ghost predicate References(t: Tables)
  {
    && (forall i :: 0 <= i < |t.sales| ==> t.sales[i].patientId in Map(t.patients, PatientKey))
    && (forall i :: 0 <= i < |t.plans| ==> t.plans[i].patientId in Map(t.patients, PatientKey))
    && (forall i :: 0 <= i < |t.plans| && t.plans[i].saleId.Some? ==>
          t.plans[i].saleId.value in Map(t.sales, SaleKey))
    && (forall i :: 0 <= i < |t.installments| ==> t.installments[i].planId in Map(t.plans, PlanKey))
    && (forall i :: 0 <= i < |t.saleItems| ==>
          t.saleItems[i].saleId in Map(t.sales, SaleKey) && t.saleItems[i].inventoryId in Map(t.inventory, InventoryKey))
    && (forall i :: 0 <= i < |t.movements| ==> t.movements[i].inventoryId in Map(t.inventory, InventoryKey))
    && (forall i :: 0 <= i < |t.purchases| ==> t.purchases[i].supplierId in Map(t.suppliers, SupplierKey))
    && (forall i :: 0 <= i < |t.purchaseItems| ==>
          t.purchaseItems[i].purchaseId in Map(t.purchases, PurchaseKey)
          && (t.purchaseItems[i].inventoryId.Some? ==> t.purchaseItems[i].inventoryId.value in Map(t.inventory, InventoryKey)))
    && (forall i :: 0 <= i < |t.integrationLogs| ==> t.integrationLogs[i].integrationId in Map(t.integrations, IntegrationKey))
  }

  /** The database's integrity: issued ids, resolving references, unique
      patient documents, user e-mails and sale-to-plan links. */
  ghost predicate TablesValid(t: Tables)
  {
    IdsIssued(t) && References(t)
    && UniqueDocuments(t.patients) && UniqueEmails(t.users) && UniqueSaleLinks(t.plans)
  }

  /** An issued id is below the counter. */
  lemma IssuedBelow(ids: seq<Id>, bound: nat, x: Id)
    requires Issued(ids, bound) && x in ids
    ensures x < bound
  {
  }

  /** Ids issued before a bound were issued before any larger bound. */
  lemma IssuedGrow(ids: seq<Id>, bound: nat, bound': nat)
    requires Issued(ids, bound) && bound <= bound'
    ensures Issued(ids, bound')
  {
  }

  /** Raising the counter keeps every id issued. */
  lemma IdsIssuedGrow(t: Tables, bound: nat)
    requires IdsIssued(t) && t.nextId <= bound
    ensures IdsIssued(t.(nextId := bound))
  {
  }

  /** Appending a row that carries the counter's value keeps its table's ids issued. */
  lemma IssuedAppendRow<T>(s: seq<T>, key: T -> Id, x: T, bound: nat, bound': nat)
    requires Issued(Map(s, key), bound) && key(x) == bound && bound < bound'
    ensures Issued(Map(s + [x], key), bound')
  {
    KeysAppend(s, key, x);
    IssuedAppend(Map(s, key), bound);
    IssuedGrow(Map(s, key) + [bound], bound + 1, bound');
  }

  /** Appending rows with ascending ids, all at or above the old counter and
      below the new one, keeps the table's ids issued. */
  lemma IssuedAppendRows<T>(s: seq<T>, rows: seq<T>, key: T -> Id, bound: nat, bound': nat)
    requires Issued(Map(s, key), bound) && Ascending(Map(rows, key)) && bound <= bound'
    requires forall k :: 0 <= k < |rows| ==> bound <= key(rows[k]) < bound'
    ensures Issued(Map(s + rows, key), bound')
  {
    var ks := Map(s + rows, key);
    var old_ks := Map(s, key);
    var new_ks := Map(rows, key);
    assert ks == old_ks + new_ks;
    forall a, b | 0 <= a < b < |ks| ensures ks[a] < ks[b] {
      if b >= |s| && a < |s| {
        assert ks[a] == old_ks[a] && ks[b] == new_ks[b - |s|];
      }
    }
    forall a | 0 <= a < |ks| ensures ks[a] < bound' {
      if a >= |s| {
        assert ks[a] == new_ks[a - |s|];
      } else {
        assert ks[a] == old_ks[a];
      }
    }
  }

  /** Payment tables `b` that differ from `a` only in columns that no key or
      reference uses. */
  ghost predicate SameShape(a: Books, b: Books)
  {
    && Map(b.plans, PlanKey) == Map(a.plans, PlanKey)
    && Map(b.installments, InstallmentKey) == Map(a.installments, InstallmentKey)
    && Map(b.sales, SaleKey) == Map(a.sales, SaleKey)
    && (forall k :: 0 <= k < |b.installments| ==> b.installments[k].planId == a.installments[k].planId)
    && (forall k :: 0 <= k < |b.plans| ==>
          b.plans[k].patientId == a.plans[k].patientId && b.plans[k].saleId == a.plans[k].saleId)
    && (forall k :: 0 <= k < |b.sales| ==> b.sales[k].patientId == a.sales[k].patientId)
  }

  /** Rewriting non-key, non-reference columns of the payment tables keeps the
      database valid. */
  lemma SameShapeValid(t: Tables, b: Books)
    requires TablesValid(t) && SameShape(t.PaymentTables(), b)
    ensures TablesValid(t.WithPaymentTables(b))
  {
    var t' := t.WithPaymentTables(b);
    assert |b.plans| == |Map(b.plans, PlanKey)| == |t.plans|;
    assert |b.installments| == |Map(b.installments, InstallmentKey)| == |t.installments|;
    assert |b.sales| == |Map(b.sales, SaleKey)| == |t.sales|;
    assert IdsIssued(t');
    assert References(t');
  }

  /** Rewriting non-key, non-reference columns keeps the payment tables' integrity. */
  lemma SameShapeIntegrity(a: Books, b: Books)
    requires BooksIntegrity(a) && SameShape(a, b)
    ensures BooksIntegrity(b)
  {
    assert |b.plans| == |Map(b.plans, PlanKey)| == |a.plans|;
    assert |b.installments| == |Map(b.installments, InstallmentKey)| == |a.installments|;
  }

  /** A valid database's payment tables have the payment-table integrity. */
  lemma ValidBooks(t: Tables)
    requires TablesValid(t)
    ensures BooksIntegrity(t.PaymentTables())
  {
  }

  /** No two patients share a document. */
  ghost predicate UniqueDocuments(ps: seq<Patient>)
  {
    forall i, j :: 0 <= i < |ps| && 0 <= j < |ps| && i != j ==> ps[i].document != ps[j].document
  }

  /** No two users share an e-mail address. */
  ghost predicate UniqueEmails(us: seq<User>)
  {
    forall i, j :: 0 <= i < |us| && 0 <= j < |us| && i != j ==> us[i].email != us[j].email
  }

  /** At most one payment plan per sale: the sale-to-plan link is one-to-one. */
  ghost predicate UniqueSaleLinks(ps: seq<PaymentPlan>)
  {
    forall i, j :: 0 <= i < |ps| && 0 <= j < |ps| && i != j && ps[i].saleId.Some? ==> ps[i].saleId != ps[j].saleId
  }

  /** The database: one Prisma client over every table. */
  class Db {
    var patients: seq<Patient>
    var sales: seq<Sale>
    var saleItems: seq<SaleInventoryItem>
    var inventory: seq<InventoryItem>
    var movements: seq<InventoryMovement>
    var plans: seq<PaymentPlan>
    var installments: seq<Installment>
    var suppliers: seq<Supplier>
    var purchases: seq<Purchase>
    var purchaseItems: seq<PurchaseItem>
    var expenses: seq<Expense>
    var users: seq<User>
    var auditLogs: seq<AuditLog>
    var integrations: seq<Integration>
    var integrationLogs: seq<IntegrationLog>
    /** The id the next inserted row receives. */
    var nextId: nat

    /** The current contents of every table. */
    function Snapshot(): Tables
      reads this
    {
      Tables(patients, sales, saleItems, inventory, movements, plans, installments,
             suppliers, purchases, purchaseItems, expenses, users, auditLogs,
             integrations, integrationLogs, nextId)
    }

    function CurrentBooks(): Books
      reads this
    {
      Books(plans, installments, sales)
    }

    ghost predicate Valid()
      reads this
    {
      TablesValid(Snapshot())
    }

    /** An empty database. */
    constructor()
      ensures Valid()
      ensures Snapshot() == Tables([], [], [], [], [], [], [], [], [], [], [], [], [], [], [], 0)
    {
      patients, sales, saleItems, inventory, movements := [], [], [], [], [];
      plans, installments, suppliers, purchases, purchaseItems := [], [], [], [], [];
      expenses, users, auditLogs, integrations, integrationLogs := [], [], [], [], [];
      nextId := 0;
    }
  }
}
