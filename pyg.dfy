/** The profit-and-loss statement (PyG) of a period: revenue from sales,
    direct costs of the supplies those sales consumed, operating expenses,
    the profits and margins derived from them, and the three-bar chart. */
module Pyg {
  import opened Common
  import opened Calendar
  import opened Seqs
  import opened Schema
  import opened Expenses

  // ---------------------------------------------------------------------------
  // Revenue

  /** A sale dated inside the closed period from `start` to `end`. */
  function SaleInPeriod(start: Instant, end: Instant): Sale -> bool
  {
    (s: Sale) => start <= s.date <= end
  }

  function SaleAmount(s: Sale): int { s.amount }

  /** A sale's amount when it lies in the period, and nothing otherwise. */
  function SaleAmountInPeriod(start: Instant, end: Instant): Sale -> int
  {
    (s: Sale) => if start <= s.date <= end then s.amount else 0
  }

  /** Revenue: the sum of the amounts of the sales dated in the period (the
      aggregate's empty sum, `null`, read as 0). */
  function Revenue(t: Tables, start: Instant, end: Instant): (revenue: int)
    ensures revenue == Sum(t.sales, SaleAmountInPeriod(start, end))
  {
    SumFilter(t.sales, SaleInPeriod(start, end), SaleAmount, SaleAmountInPeriod(start, end));
    Sum(Filter(t.sales, SaleInPeriod(start, end)), SaleAmount)
  }

  // ---------------------------------------------------------------------------
  // Direct costs

  /** What a consumed supply cost: the quantity used at the supply's average
      cost. A link whose supply is not stored adds nothing; in a valid
      database every link's supply is stored. */
  function ItemCost(t: Tables): SaleInventoryItem -> int
  {
    (item: SaleInventoryItem) =>
      match Lookup(t.inventory, InventoryKey, item.inventoryId)
      case Some(inv) => item.quantityUsed * inv.avgCost
      case None => 0
  }

  /** The links of one sale (its `itemsUsed`). */
  function ItemOfSale(saleId: Id): SaleInventoryItem -> bool
  {
    (item: SaleInventoryItem) => item.saleId == saleId
  }

  /** The inner reduce: the cost of the supplies one sale consumed. */
  function SaleCost(t: Tables): Sale -> int
  {
    (s: Sale) => Sum(Filter(t.saleItems, ItemOfSale(s.id)), ItemCost(t))
  }

  /** The outer reduce: the costs of the sales dated in the period. */
  function DirectCosts(t: Tables, start: Instant, end: Instant): int
  {
    Sum(Filter(t.sales, SaleInPeriod(start, end)), SaleCost(t))
  }

  /** A sale's cost when it satisfies `p`, and nothing otherwise. */
  function SaleCostIf(t: Tables, p: Sale -> bool): Sale -> int
  {
    (s: Sale) => if p(s) then SaleCost(t)(s) else 0
  }

  /** A link's cost when it belongs to a sale of `ss` that satisfies `p`. */
  function ItemCostVia(t: Tables, ss: seq<Sale>, p: Sale -> bool): SaleInventoryItem -> int
  {
    (item: SaleInventoryItem) =>
      match Lookup(ss, SaleKey, item.saleId)
      case Some(s) => if p(s) then ItemCost(t)(item) else 0
      case None => 0
  }

  /** A link's cost when it belongs to the sale with the id. */
  function ItemCostOfSale(t: Tables, saleId: Id): SaleInventoryItem -> int
  {
    (item: SaleInventoryItem) => if item.saleId == saleId then ItemCost(t)(item) else 0
  }

  /** Looking an id up in a table with one more row. */
  lemma LookupLast(ss: seq<Sale>, id: Id)
    requires ss != []
    ensures Lookup(ss, SaleKey, id)
         == if ss[|ss| - 1].id == id then Some(ss[|ss| - 1]) else Lookup(ss[..|ss| - 1], SaleKey, id)
  {
    var front := ss[..|ss| - 1];
    if ss[|ss| - 1].id != id {
      match Find(front, SaleKey, id)
      case None =>
      case Some(i) => assert ss[i] == front[i];
    }
  }

  /** One more sale charges a link exactly when the link is that sale's. */
  lemma ViaStep(t: Tables, ss: seq<Sale>, p: Sale -> bool, item: SaleInventoryItem)
    requires ss != [] && Ascending(Map(ss, SaleKey))
    ensures var s := ss[|ss| - 1];
      ItemCostVia(t, ss, p)(item)
      == ItemCostVia(t, ss[..|ss| - 1], p)(item) + (if p(s) then ItemCostOfSale(t, s.id)(item) else 0)
  {
    var front := ss[..|ss| - 1];
    var s := ss[|ss| - 1];
    LookupLast(ss, item.saleId);
    if item.saleId == s.id {
      assert s.id !in Map(front, SaleKey) by {
        assert Map(ss, SaleKey)[|ss| - 1] == s.id;
        assert Map(front, SaleKey) == Map(ss, SaleKey)[..|ss| - 1];
      }
      assert Lookup(ss, SaleKey, item.saleId) == Some(s);
      assert Lookup(front, SaleKey, item.saleId) == None;
    } else {
      assert Lookup(ss, SaleKey, item.saleId) == Lookup(front, SaleKey, item.saleId);
      assert ItemCostOfSale(t, s.id)(item) == 0;
    }
  }

  /** Summing per sale equals summing per consumed supply: each link is
      charged once, to its own sale, when that sale is counted. */
  lemma {:induction false} CostsByItem(t: Tables, ss: seq<Sale>, p: Sale -> bool)
    requires Ascending(Map(ss, SaleKey))
    ensures Sum(ss, SaleCostIf(t, p)) == Sum(t.saleItems, ItemCostVia(t, ss, p))
  {
    if ss == [] {
      forall item ensures ItemCostVia(t, ss, p)(item) == 0 {
        assert Lookup(ss, SaleKey, item.saleId) == None;
      }
      SumConstant(t.saleItems, (item: SaleInventoryItem) => false, ItemCostVia(t, ss, p), 0);
    } else {
      var front := ss[..|ss| - 1];
      var s := ss[|ss| - 1];
      assert Map(front, SaleKey) == Map(ss, SaleKey)[..|ss| - 1];
      CostsByItem(t, front, p);
      assert ss == front + [s];
      SumAppend(front, [s], SaleCostIf(t, p));
      assert Sum([s], SaleCostIf(t, p)) == SaleCostIf(t, p)(s);
      forall item {
        ViaStep(t, ss, p, item);
      }
      if p(s) {
        SumFilter(t.saleItems, ItemOfSale(s.id), ItemCost(t), ItemCostOfSale(t, s.id));
        SumPlus(t.saleItems, ItemCostVia(t, front, p), ItemCostOfSale(t, s.id), ItemCostVia(t, ss, p));
      } else {
        SumCongruent(t.saleItems, ItemCostVia(t, front, p), ItemCostVia(t, ss, p));
      }
    }
  }

  /** A link's cost when its sale is dated in the period. */
  function ItemCostInPeriod(t: Tables, start: Instant, end: Instant): SaleInventoryItem -> int
  {
    ItemCostVia(t, t.sales, SaleInPeriod(start, end))
  }

  /** The direct costs are the costs of exactly the links whose sale is dated
      in the period: no link is counted twice or missed. */
  lemma DirectCostsPerItem(t: Tables, start: Instant, end: Instant)
    requires Ascending(Map(t.sales, SaleKey))
    ensures DirectCosts(t, start, end) == Sum(t.saleItems, ItemCostInPeriod(t, start, end))
  {
    SumFilter(t.sales, SaleInPeriod(start, end), SaleCost(t), SaleCostIf(t, SaleInPeriod(start, end)));
    CostsByItem(t, t.sales, SaleInPeriod(start, end));
  }

  // ---------------------------------------------------------------------------
  // The statement

  datatype PygData = PygData(
    revenue: int, directCosts: int, grossProfit: int, grossMargin: real,
    expenses: int, operatingProfit: int, operatingMargin: real, netProfit: int)

  /** A profit as a percentage of revenue, and 0 when there is no revenue. */
  function Margin(profit: int, revenue: int): (m: real)
    ensures revenue == 0 ==> m == 0.0
    ensures revenue != 0 ==> m * (revenue as real) == (profit as real) * 100.0
  {
    if revenue != 0 then ((profit as real) / (revenue as real)) * 100.0 else 0.0
  }

  /** `getPyG`: the statement of the period. */
  function GetPyG(t: Tables, start: Instant, end: Instant): (r: PygData)
    ensures r.revenue == Sum(t.sales, SaleAmountInPeriod(start, end))
    ensures r.expenses == Sum(t.expenses, AmountInPeriod(start, end))
    ensures r.directCosts == DirectCosts(t, start, end)
    ensures r.grossProfit == r.revenue - r.directCosts
    ensures r.netProfit == r.operatingProfit == r.revenue - r.directCosts - r.expenses
    ensures MarginsOf(r)
    ensures r.revenue == 0 ==> r.grossMargin == 0.0 && r.operatingMargin == 0.0
  {
    var revenue := Revenue(t, start, end);
    var directCosts := DirectCosts(t, start, end);
    var expenses := TotalByPeriod(t, start, end);
    var grossProfit := revenue - directCosts;
    var operatingProfit := grossProfit - expenses;
    PygData(revenue, directCosts, grossProfit, Margin(grossProfit, revenue),
            expenses, operatingProfit, Margin(operatingProfit, revenue), operatingProfit)
  }

  /** With revenue, a margin has the sign of its profit. */
  lemma MarginSign(profit: int, revenue: int)
    requires revenue > 0
    ensures Margin(profit, revenue) >= 0.0 <==> profit >= 0
  {
    var q := (profit as real) / (revenue as real);
    assert q * (revenue as real) == profit as real;
    if profit >= 0 {
      assert q >= 0.0;
    } else {
      assert q < 0.0;
    }
  }

  /** With the same revenue, a smaller profit has a smaller margin. */
  lemma MarginMonotone(smaller: int, larger: int, revenue: int)
    requires revenue > 0 && smaller <= larger
    ensures Margin(smaller, revenue) <= Margin(larger, revenue)
  {
    var a := (smaller as real) / (revenue as real);
    var b := (larger as real) / (revenue as real);
    assert (b - a) * (revenue as real) == (larger - smaller) as real;
    assert b - a >= 0.0;
  }

  /** The margins of a statement are its profits over its revenue. */
  ghost predicate MarginsOf(r: PygData)
  {
    && r.grossMargin == Margin(r.grossProfit, r.revenue)
    && r.operatingMargin == Margin(r.operatingProfit, r.revenue)
    && r.operatingProfit == r.grossProfit - r.expenses
  }

  /** With revenue, each margin has the sign of its profit, and spending on
      operating expenses can only bring the operating margin below the gross one. */
  lemma MarginsFollowProfits(t: Tables, start: Instant, end: Instant)
    requires GetPyG(t, start, end).revenue > 0
    ensures var r := GetPyG(t, start, end);
      && (r.grossMargin >= 0.0 <==> r.grossProfit >= 0)
      && (r.operatingMargin >= 0.0 <==> r.operatingProfit >= 0)
      && (r.expenses >= 0 ==> r.operatingMargin <= r.grossMargin)
  {
    var r := GetPyG(t, start, end);
    MarginSign(r.grossProfit, r.revenue);
    MarginSign(r.operatingProfit, r.revenue);
    if r.expenses >= 0 {
      MarginMonotone(r.operatingProfit, r.grossProfit, r.revenue);
    }
  }

  /** A period without sales has no revenue, no direct costs and zero margins;
      its net result is minus its expenses. */
  lemma NoSalesPeriod(t: Tables, start: Instant, end: Instant)
    requires forall k :: 0 <= k < |t.sales| ==> !(start <= t.sales[k].date <= end)
    ensures var r := GetPyG(t, start, end);
      && r.revenue == 0 && r.directCosts == 0
      && r.grossMargin == 0.0 && r.operatingMargin == 0.0
      && r.netProfit == -r.expenses
  {
    CountZero(t.sales, SaleInPeriod(start, end));
  }

  // ---------------------------------------------------------------------------
  // The chart

  datatype ChartEntry = ChartEntry(name: string, value: int)

  /** `getRevenueVsExpenses`: three bars, revenue, expenses and net profit. */
  function GetRevenueVsExpenses(t: Tables, start: Instant, end: Instant): (r: seq<ChartEntry>)
    ensures |r| == 3
    ensures r[0] == ChartEntry("Ingresos", Sum(t.sales, SaleAmountInPeriod(start, end)))
    ensures r[1] == ChartEntry("Gastos", Sum(t.expenses, AmountInPeriod(start, end)))
    ensures r[2].name == "Utilidad Neta" && r[2].value == r[0].value - DirectCosts(t, start, end) - r[1].value
  {
    var pyg := GetPyG(t, start, end);
    [ChartEntry("Ingresos", pyg.revenue), ChartEntry("Gastos", pyg.expenses), ChartEntry("Utilidad Neta", pyg.netProfit)]
  }
}
