/** Operating expenses: recording, updating and deleting them, the filtered
    listing, the total over a period and the per-category breakdown, which
    the service accumulates into a dictionary one expense at a time. */
module Expenses {
  import opened Common
  import opened Calendar
  import opened Seqs
  import opened Schema

  // ---------------------------------------------------------------------------
  // Writes

  /** What the caller supplies to record an expense; `userId` becomes the
      expense's author. */
  datatype ExpenseData = ExpenseData(
    date: Instant, category: string, description: string, amount: int,
    frequency: string, status: string, userId: Option<Id>)

  function NewExpense(data: ExpenseData, id: Id): (e: Expense)
    ensures e.id == id && e.createdBy == data.userId
  {
    Expense(id, data.date, data.category, data.description, data.amount, data.frequency, data.status, data.userId)
  }

  /** Writes the expenses table and the id counter. */
  method StoreExpenses(db: Db, es: seq<Expense>, next: nat)
    modifies db`expenses, db`nextId
    ensures db.Snapshot() == old(db.Snapshot()).(expenses := es, nextId := next)
  {
    db.expenses, db.nextId := es, next;
  }

  /** `createExpense`: stores the expense with the next id. */
  method CreateExpense(db: Db, data: ExpenseData) returns (e: Expense)
    requires db.Valid()
    modifies db`expenses, db`nextId
    ensures db.Valid()
    ensures e == NewExpense(data, old(db.nextId))
    ensures db.Snapshot() == old(db.Snapshot()).(expenses := old(db.expenses) + [e], nextId := old(db.nextId) + 1)
  {
    ghost var t0 := db.Snapshot();
    e := NewExpense(data, db.nextId);
    StoreExpenses(db, db.expenses + [e], db.nextId + 1);
    IssuedAppendRow(t0.expenses, ExpenseKey, e, t0.nextId, t0.nextId + 1);
    IdsIssuedGrow(t0, t0.nextId + 1);
  }

  /** The fields an update may supply; an absent one is left as it is.
      `userId` is a field of the creation data but not a column of the
      expense (creation stores it as `createdBy`). */
  datatype ExpenseChanges = ExpenseChanges(
    date: Option<Instant>, category: Option<string>, description: Option<string>,
    amount: Option<int>, frequency: Option<string>, status: Option<string>,
    userId: Option<Id>)

  /** Prisma's refusal of update data naming a field the model does not have. */
  const UnknownUserIdArgument: string := "Unknown argument `userId`. Available options are marked with ?."

  function Changed(e: Expense, c: ExpenseChanges): (f: Expense)
    ensures f.id == e.id && f.createdBy == e.createdBy
  {
    e.(date := if c.date.Some? then c.date.value else e.date,
       category := if c.category.Some? then c.category.value else e.category,
       description := if c.description.Some? then c.description.value else e.description,
       amount := if c.amount.Some? then c.amount.value else e.amount,
       frequency := if c.frequency.Some? then c.frequency.value else e.frequency,
       status := if c.status.Some? then c.status.value else e.status)
  }

  /** `updateExpense`: the supplied columns are written over the expense with
      the id; the call fails, changing nothing, when the data names `userId`
      (the query is refused before any row is looked up) or when there is no
      expense with the id. */
  method UpdateExpense(db: Db, id: Id, c: ExpenseChanges) returns (r: Result<Expense>)
    requires db.Valid()
    modifies db`expenses, db`nextId
    ensures db.Valid()
    ensures c.userId.Some? ==> r == Err(UnknownUserIdArgument) && db.Snapshot() == old(db.Snapshot())
    ensures c.userId.None? ==> match Find(old(db.expenses), ExpenseKey, id)
      case None => r == Err(RecordNotFound) && db.Snapshot() == old(db.Snapshot())
      case Some(i) =>
        && r == Ok(Changed(old(db.expenses)[i], c))
        && db.Snapshot() == old(db.Snapshot()).(expenses := old(db.expenses)[i := Changed(old(db.expenses)[i], c)])
  {
    if c.userId.Some? {
      return Err(UnknownUserIdArgument);
    }
    var found := Find(db.expenses, ExpenseKey, id);
    if found.None? {
      return Err(RecordNotFound);
    }
    var i := found.value;
    ghost var t0 := db.Snapshot();
    var e := Changed(db.expenses[i], c);
    StoreExpenses(db, db.expenses[i := e], db.nextId);
    KeysUpdate(t0.expenses, ExpenseKey, i, e);
    r := Ok(e);
  }

  /** Prisma's failure when `delete` finds no row with the id. */
  const RecordToDeleteMissing: string := "Record to delete does not exist."

  /** `deleteExpense`: removes exactly the expense with the id, or fails when
      there is none. */
  method DeleteExpense(db: Db, id: Id) returns (r: Result<Expense>)
    requires db.Valid()
    modifies db`expenses, db`nextId
    ensures db.Valid()
    ensures match Find(old(db.expenses), ExpenseKey, id)
      case None => r == Err(RecordToDeleteMissing) && db.Snapshot() == old(db.Snapshot())
      case Some(i) =>
        && r == Ok(old(db.expenses)[i])
        && db.Snapshot() == old(db.Snapshot()).(expenses := old(db.expenses)[..i] + old(db.expenses)[i + 1..])
  {
    var found := Find(db.expenses, ExpenseKey, id);
    if found.None? {
      return Err(RecordToDeleteMissing);
    }
    var i := found.value;
    ghost var t0 := db.Snapshot();
    r := Ok(db.expenses[i]);
    StoreExpenses(db, db.expenses[..i] + db.expenses[i + 1..], db.nextId);
    KeysRemove(t0.expenses, ExpenseKey, i);
    IssuedRemove(Map(t0.expenses, ExpenseKey), t0.nextId, i);
  }

  // ---------------------------------------------------------------------------
  // Listing and totals

  /** The optional filters of the listing; empty strings count as absent. */
  datatype ExpenseFilters = ExpenseFilters(
    category: Option<string>, status: Option<string>, frequency: Option<string>,
    dateFrom: Option<Instant>, dateTo: Option<Instant>)

  predicate ExpenseMatches(f: ExpenseFilters, e: Expense)
  {
    && (Given(f.category) ==> e.category == f.category.value)
    && (Given(f.status) ==> e.status == f.status.value)
    && (Given(f.frequency) ==> e.frequency == f.frequency.value)
    && InRange(e.date, f.dateFrom, f.dateTo)
  }

  function ExpenseMatchesIn(f: ExpenseFilters): Expense -> bool
  {
    (e: Expense) => ExpenseMatches(f, e)
  }

  predicate ExpenseNewestFirst(a: Expense, b: Expense) { a.date >= b.date }

  /** `getExpenses`: exactly the expenses matching the filters, each as often
      as stored, latest date first. */
  function GetExpenses(t: Tables, f: ExpenseFilters): (r: seq<Expense>)
    ensures forall x :: x in r <==> x in t.expenses && ExpenseMatches(f, x)
    ensures multiset(r) == multiset(Filter(t.expenses, ExpenseMatchesIn(f)))
    ensures forall i, j :: 0 <= i < j < |r| ==> r[i].date >= r[j].date
  {
    assert TotalPreorder(ExpenseNewestFirst);
    Select(t.expenses, ExpenseMatchesIn(f), ExpenseNewestFirst)
  }

  /** `getExpenseById`. */
  function GetExpenseById(t: Tables, id: Id): (r: Option<Expense>)
    ensures r.Some? ==> r.value in t.expenses && r.value.id == id
    ensures r.None? <==> id !in Map(t.expenses, ExpenseKey)
  {
    Lookup(t.expenses, ExpenseKey, id)
  }

  /** Dated inside the closed period from `start` to `end`. */
  function InPeriod(start: Instant, end: Instant): Expense -> bool
  {
    (e: Expense) => start <= e.date <= end
  }

  function ExpenseAmount(e: Expense): int { e.amount }

  /** An expense's amount when it lies in the period, and nothing otherwise. */
  function AmountInPeriod(start: Instant, end: Instant): Expense -> int
  {
    (e: Expense) => if start <= e.date <= end then e.amount else 0
  }

  /** `getTotalExpensesByPeriod`: the sum of the amounts dated in the period
      (the aggregate's empty sum, `null`, read as 0). */
  function TotalByPeriod(t: Tables, start: Instant, end: Instant): (total: int)
    ensures total == Sum(t.expenses, AmountInPeriod(start, end))
  {
    SumFilter(t.expenses, InPeriod(start, end), ExpenseAmount, AmountInPeriod(start, end));
    Sum(Filter(t.expenses, InPeriod(start, end)), ExpenseAmount)
  }

  /** With no expense in the period the total is 0. */
  lemma NoExpensesNoTotal(t: Tables, start: Instant, end: Instant)
    requires forall k :: 0 <= k < |t.expenses| ==> !(start <= t.expenses[k].date <= end)
    ensures TotalByPeriod(t, start, end) == 0
  {
    CountZero(t.expenses, InPeriod(start, end));
  }

  // ---------------------------------------------------------------------------
  // By category

  /** One entry of the breakdown. */
  datatype CategoryTotal = CategoryTotal(category: string, amount: int)

  /** The dictionary being accumulated: its keys in insertion order (the order
      `Object.entries` lists them in) and its values. */
  datatype Tally = Tally(order: seq<string>, sums: map<string, int>)

  /** Adding one expense: a category seen for the first time joins the keys
      with that expense's amount; a known one grows by it. */
  function AddTo(y: Tally, e: Expense): Tally
  {
    if e.category in y.sums then Tally(y.order, y.sums[e.category := y.sums[e.category] + e.amount])
    else Tally(y.order + [e.category], y.sums[e.category := e.amount])
  }

  /** The dictionary after the expenses `es`, in order. */
  function Tallied(es: seq<Expense>): Tally
  {
    if es == [] then Tally([], map[])
    else AddTo(Tallied(es[..|es| - 1]), es[|es| - 1])
  }

  /** `Object.entries(...).map(...)`: the keys in insertion order with their sums. */
  function Entries(y: Tally): (r: seq<CategoryTotal>)
    ensures |r| == |y.order|
    ensures forall i :: 0 <= i < |r| ==> r[i].category == y.order[i]
  {
    seq(|y.order|, i requires 0 <= i < |y.order| =>
      CategoryTotal(y.order[i], if y.order[i] in y.sums then y.sums[y.order[i]] else 0))
  }

  /** `getExpensesByCategory`: the expenses of the period, accumulated into
      the dictionary one at a time. A key whose value is falsy (absent, or a
      sum of 0) is first set to 0, then the amount is added. */
  method GetExpensesByCategory(t: Tables, start: Instant, end: Instant) returns (r: seq<CategoryTotal>)
    ensures r == Entries(Tallied(Filter(t.expenses, InPeriod(start, end))))
  {
    var es := Filter(t.expenses, InPeriod(start, end));
    var order: seq<string> := [];
    var sums: map<string, int> := map[];
    for k := 0 to |es|
      invariant Tally(order, sums) == Tallied(es[..k])
    {
      var e := es[k];
      if !(e.category in sums && sums[e.category] != 0) {
        if e.category !in sums {
          order := order + [e.category];
        }
        sums := sums[e.category := 0];
      }
      sums := sums[e.category := sums[e.category] + e.amount];
      assert es[..k + 1][..k] == es[..k];
    }
    assert es[..|es|] == es;
    r := Entries(Tally(order, sums));
  }

  /** The categories of some expenses. */
  function Categories(es: seq<Expense>): set<string>
  {
    set e | e in es :: e.category
  }

  /** Every key listed once, and the listed keys are the dictionary's keys. */
  ghost predicate WellFormed(y: Tally)
  {
    Distinct(y.order) && forall c :: c in y.order <==> c in y.sums
  }

  /** The dictionary lists each category once, and its keys are exactly the
      categories of the expenses. */
  lemma {:induction false} TalliedKeys(es: seq<Expense>)
    ensures WellFormed(Tallied(es))
    ensures Tallied(es).sums.Keys == Categories(es)
  {
    if es != [] {
      var front := es[..|es| - 1];
      var e := es[|es| - 1];
      TalliedKeys(front);
      assert es == front + [e];
      assert Categories(es) == Categories(front) + {e.category};
    }
  }

  /** The category's share of an expense: its amount when it is of that
      category, and nothing otherwise. */
  function CategoryAmount(c: string): Expense -> int
  {
    (e: Expense) => if e.category == c then e.amount else 0
  }

  /** A category none of the expenses has contributes nothing. */
  lemma CategoryAbsent(es: seq<Expense>, c: string)
    requires c !in Categories(es)
    ensures Sum(es, CategoryAmount(c)) == 0
  {
    SumConstant(es, (e: Expense) => false, CategoryAmount(c), 0);
  }

  /** Each value of the dictionary is the total of its category. */
  lemma {:induction false} TalliedSums(es: seq<Expense>)
    ensures forall c :: c in Tallied(es).sums ==> Tallied(es).sums[c] == Sum(es, CategoryAmount(c))
  {
    if es != [] {
      var front := es[..|es| - 1];
      var e := es[|es| - 1];
      var y := Tallied(front);
      TalliedSums(front);
      TalliedKeys(front);
      assert es == front + [e];
      forall c | c in Tallied(es).sums ensures Tallied(es).sums[c] == Sum(es, CategoryAmount(c)) {
        SumAppend(front, [e], CategoryAmount(c));
        assert Sum([e], CategoryAmount(c)) == CategoryAmount(c)(e);
        if c !in y.sums {
          CategoryAbsent(front, c);
        }
      }
    }
  }

  function EntryAmount(x: CategoryTotal): int { x.amount }

  /** Adding an expense to a well-formed dictionary grows the entries' total
      by its amount, whether the category is new or known. */
  lemma EntriesGrow(y: Tally, e: Expense)
    requires WellFormed(y)
    ensures Sum(Entries(AddTo(y, e)), EntryAmount) == Sum(Entries(y), EntryAmount) + e.amount
  {
    var before := Entries(y);
    var after := Entries(AddTo(y, e));
    if e.category in y.sums {
      var j :| 0 <= j < |y.order| && y.order[j] == e.category;
      var x := CategoryTotal(e.category, y.sums[e.category] + e.amount);
      assert after == before[j := x] by {
        forall i | 0 <= i < |after| && i != j ensures after[i] == before[i] {
          assert y.order[i] != e.category;
        }
      }
      SumUpdate(before, j, x, EntryAmount);
    } else {
      var x := CategoryTotal(e.category, e.amount);
      assert after == before + [x] by {
        forall i | 0 <= i < |before| ensures after[i] == before[i] {
          assert y.order[i] in y.sums;
        }
      }
      SumAppend(before, [x], EntryAmount);
      assert Sum([x], EntryAmount) == x.amount;
    }
  }

  /** The entries add up to the total of the expenses. */
  lemma {:induction false} EntriesTotal(es: seq<Expense>)
    ensures Sum(Entries(Tallied(es)), EntryAmount) == Sum(es, ExpenseAmount)
  {
    if es != [] {
      var front := es[..|es| - 1];
      var e := es[|es| - 1];
      EntriesTotal(front);
      TalliedKeys(front);
      EntriesGrow(Tallied(front), e);
      assert es == front + [e];
      SumAppend(front, [e], ExpenseAmount);
    }
  }

  /** An expense's amount when it is of the category and dated in the period. */
  function CategoryInPeriod(c: string, start: Instant, end: Instant): Expense -> int
  {
    (e: Expense) => if start <= e.date <= end && e.category == c then e.amount else 0
  }

  /** The entries' categories are the listed keys. */
  lemma EntryCategories(y: Tally)
    ensures (set x | x in Entries(y) :: x.category) == (set c | c in y.order)
  {
    var r := Entries(y);
    forall c | c in y.order ensures c in (set x | x in r :: x.category) {
      var i :| 0 <= i < |y.order| && y.order[i] == c;
      assert r[i] in r;
    }
  }

  /** The categories of the period's expenses. */
  lemma PeriodCategories(t: Tables, start: Instant, end: Instant)
    ensures Categories(Filter(t.expenses, InPeriod(start, end)))
         == (set e | e in t.expenses && start <= e.date <= end :: e.category)
  {
  }

  /** The breakdown lists exactly the categories present in the period. */
  lemma ByCategoryCategories(t: Tables, start: Instant, end: Instant)
    ensures var r := Entries(Tallied(Filter(t.expenses, InPeriod(start, end))));
      (set x | x in r :: x.category) == (set e | e in t.expenses && start <= e.date <= end :: e.category)
  {
    var es := Filter(t.expenses, InPeriod(start, end));
    var y := Tallied(es);
    TalliedKeys(es);
    EntryCategories(y);
    PeriodCategories(t, start, end);
    assert (set c | c in y.order) == y.sums.Keys;
  }

  /** Each entry holds its category's total over the period. */
  lemma ByCategoryAmounts(t: Tables, start: Instant, end: Instant)
    ensures var r := Entries(Tallied(Filter(t.expenses, InPeriod(start, end))));
      forall i :: 0 <= i < |r| ==> r[i].amount == Sum(t.expenses, CategoryInPeriod(r[i].category, start, end))
  {
    var es := Filter(t.expenses, InPeriod(start, end));
    var y := Tallied(es);
    var r := Entries(y);
    TalliedKeys(es);
    TalliedSums(es);
    forall i | 0 <= i < |r| ensures r[i].amount == Sum(t.expenses, CategoryInPeriod(r[i].category, start, end)) {
      var c := r[i].category;
      assert c in y.sums;
      SumFilter(t.expenses, InPeriod(start, end), CategoryAmount(c), CategoryInPeriod(c, start, end));
    }
  }

  /** The breakdown of a period: one entry per category present in it, none
      twice, each with that category's total over the period, all adding up
      to the period's total. */
  lemma ByCategoryBreakdown(t: Tables, start: Instant, end: Instant)
    ensures var r := Entries(Tallied(Filter(t.expenses, InPeriod(start, end))));
      && (forall i, j :: 0 <= i < j < |r| ==> r[i].category != r[j].category)
      && (set x | x in r :: x.category) == (set e | e in t.expenses && start <= e.date <= end :: e.category)
      && (forall i :: 0 <= i < |r| ==> r[i].amount == Sum(t.expenses, CategoryInPeriod(r[i].category, start, end)))
      && Sum(r, EntryAmount) == TotalByPeriod(t, start, end)
  {
    var es := Filter(t.expenses, InPeriod(start, end));
    TalliedKeys(es);
    EntriesTotal(es);
    ByCategoryCategories(t, start, end);
    ByCategoryAmounts(t, start, end);
  }
}
