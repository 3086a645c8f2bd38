/** Stock levels: the `currentStock` increments and decrements that sales and
    purchases apply to inventory rows. */
module Stock {
  import opened Common
  import opened Seqs
  import opened Schema

  /** `inventoryItem.update({ where: { id }, data: { currentStock: { increment: delta } } })`
      on a row that exists (a decrement is a negative `delta`). */
  function AdjustStock(inv: seq<InventoryItem>, id: Id, delta: int): seq<InventoryItem>
  {
    match Find(inv, InventoryKey, id)
    case None => inv
    case Some(j) => inv[j := inv[j].(currentStock := inv[j].currentStock + delta)]
  }

  /** With unique ids, the adjustment moves the stock of exactly the row with
      that id, by exactly `delta`, and nothing else about any row. */
  lemma AdjustStockEffect(inv: seq<InventoryItem>, id: Id, delta: int)
    requires Ascending(Map(inv, InventoryKey)) && id in Map(inv, InventoryKey)
    ensures var r := AdjustStock(inv, id, delta);
      && |r| == |inv|
      && Map(r, InventoryKey) == Map(inv, InventoryKey)
      && forall i :: 0 <= i < |inv| ==>
           r[i] == inv[i].(currentStock := inv[i].currentStock + (if inv[i].id == id then delta else 0))
  {
    var j := Find(inv, InventoryKey, id).value;
    var ks := Map(inv, InventoryKey);
    forall i | 0 <= i < |inv| && i != j ensures inv[i].id != id {
      assert ks[i] == inv[i].id && ks[j] == id;
    }
    KeysUpdate(inv, InventoryKey, j, inv[j].(currentStock := inv[j].currentStock + delta));
  }

  /** An adjustment keeps every row's id. */
  lemma AdjustStockKeys(inv: seq<InventoryItem>, id: Id, delta: int)
    ensures Map(AdjustStock(inv, id, delta), InventoryKey) == Map(inv, InventoryKey)
  {
    var f := Find(inv, InventoryKey, id);
    if f.Some? {
      KeysUpdate(inv, InventoryKey, f.value, inv[f.value].(currentStock := inv[f.value].currentStock + delta));
    }
  }

  /** The stock change a list of (inventory id, change) pairs makes to one row. */
  function NetChange(changes: seq<(Id, int)>, id: Id): int
  {
    Sum(changes, ChangeTo(id))
  }

  /** The part of one change that falls on row `id`. */
  function ChangeTo(id: Id): ((Id, int)) -> int
  {
    (c: (Id, int)) => if c.0 == id then c.1 else 0
  }

  /** One more change adds its amount to the row it names and nothing elsewhere. */
  lemma NetChangeAppend(front: seq<(Id, int)>, last: (Id, int), id: Id)
    ensures NetChange(front + [last], id) == NetChange(front, id) + (if id == last.0 then last.1 else 0)
  {
    SumAppend(front, [last], ChangeTo(id));
  }

  /** Applying the changes one after another. */
  function AdjustAll(inv: seq<InventoryItem>, changes: seq<(Id, int)>): seq<InventoryItem>
    decreases |changes|
  {
    if changes == [] then inv
    else
      var last := changes[|changes| - 1];
      AdjustStock(AdjustAll(inv, changes[..|changes| - 1]), last.0, last.1)
  }

  /** Applying any changes keeps every row's id. */
  lemma {:induction false} AdjustAllKeys(inv: seq<InventoryItem>, changes: seq<(Id, int)>)
    ensures Map(AdjustAll(inv, changes), InventoryKey) == Map(inv, InventoryKey)
    decreases |changes|
  {
    if changes != [] {
      var last := changes[|changes| - 1];
      AdjustAllKeys(inv, changes[..|changes| - 1]);
      AdjustStockKeys(AdjustAll(inv, changes[..|changes| - 1]), last.0, last.1);
    }
  }

  /** Each row's stock moves by exactly the sum of the changes naming it; no
      other column and no id changes. */
  lemma {:induction false} AdjustAllEffect(inv: seq<InventoryItem>, changes: seq<(Id, int)>)
    requires Ascending(Map(inv, InventoryKey))
    requires forall k :: 0 <= k < |changes| ==> changes[k].0 in Map(inv, InventoryKey)
    ensures var r := AdjustAll(inv, changes);
      && |r| == |inv|
      && Map(r, InventoryKey) == Map(inv, InventoryKey)
      && forall i :: 0 <= i < |inv| ==>
           r[i] == inv[i].(currentStock := inv[i].currentStock + NetChange(changes, inv[i].id))
    decreases |changes|
  {
    if changes != [] {
      var n := |changes| - 1;
      var front := changes[..n];
      var last := changes[n];
      AdjustAllEffect(inv, front);
      var mid := AdjustAll(inv, front);
      AdjustStockEffect(mid, last.0, last.1);
      assert changes == front + [last];
      forall i | 0 <= i < |inv|
        ensures NetChange(changes, inv[i].id) == NetChange(front, inv[i].id) + (if inv[i].id == last.0 then last.1 else 0)
      {
        NetChangeAppend(front, last, inv[i].id);
      }
    }
  }
}
