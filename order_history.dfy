/** `getUserOrders` of `server/storage.ts`: the rows of the purchases/purchase_items
    left join, already filtered to one user and sorted by the database, are grouped
    into one purchase per id, in the order the ids first appear, each carrying the
    items of its rows. */
module OrderHistory {
  import opened Wrappers

  /** The item columns of a joined row; `None` when the left join found no item. */
  datatype ItemColumns = ItemColumns(itemId: int, productName: int, quantity: int, priceAtPurchase: real)

  datatype JoinedRow = JoinedRow(id: int, userId: int, purchaseDate: string, totalAmount: real, item: Option<ItemColumns>)

  datatype PurchaseItem = PurchaseItem(id: int, purchaseId: int, productName: int, quantity: int, priceAtPurchase: real)

  datatype Purchase = Purchase(id: int, userId: int, purchaseDate: string, totalAmount: real, items: seq<PurchaseItem>)

  /** `if (row.item_id)`: an item is present and its id is not 0. */
  predicate HasItem(row: JoinedRow) {
    row.item.Some? && row.item.value.itemId != 0
  }

  function ItemOf(row: JoinedRow): PurchaseItem
    requires row.item.Some?
  {
    PurchaseItem(row.item.value.itemId, row.id, row.item.value.productName, row.item.value.quantity,
                 row.item.value.priceAtPurchase)
  }

  predicate HasId(rows: seq<JoinedRow>, id: int) {
    exists k :: 0 <= k < |rows| && rows[k].id == id
  }

  /** The first row of each purchase id, in the order the ids first appear. */
  function FirstRows(rows: seq<JoinedRow>): (r: seq<JoinedRow>)
    ensures forall i, j :: 0 <= i < j < |r| ==> r[i].id != r[j].id
    ensures forall id :: HasId(r, id) <==> HasId(rows, id)
    ensures forall i :: 0 <= i < |r| ==> r[i] in rows
  {
    if rows == [] then []
    else
      var p := FirstRows(rows[..|rows| - 1]);
      var last := rows[|rows| - 1];
      assert forall id :: HasId(rows, id) <==> HasId(rows[..|rows| - 1], id) || last.id == id by {
        forall id | HasId(rows, id) && last.id != id ensures HasId(rows[..|rows| - 1], id) {
          var k :| 0 <= k < |rows| && rows[k].id == id;
          assert rows[..|rows| - 1][k] == rows[k];
        }
        forall id | HasId(rows[..|rows| - 1], id) ensures HasId(rows, id) {
          var k :| 0 <= k < |rows| - 1 && rows[..|rows| - 1][k].id == id;
          assert rows[k] == rows[..|rows| - 1][k];
        }
      }
      if HasId(p, last.id) then p
      else
        HasIdAppend(p, last);
        p + [last]
  }

  lemma HasIdAppend(p: seq<JoinedRow>, last: JoinedRow)
    ensures forall id :: HasId(p + [last], id) <==> HasId(p, id) || last.id == id
  {
    forall id | HasId(p + [last], id) && last.id != id ensures HasId(p, id) {
      var k :| 0 <= k < |p| + 1 && (p + [last])[k].id == id;
      assert (p + [last])[k] == p[k];
    }
    forall id | HasId(p, id) ensures HasId(p + [last], id) {
      var k :| 0 <= k < |p| && p[k].id == id;
      assert (p + [last])[k] == p[k];
    }
    assert (p + [last])[|p|] == last;
  }

  /** The items of purchase `id`, in row order. */
  function ItemsFor(rows: seq<JoinedRow>, id: int): (r: seq<PurchaseItem>)
    ensures forall i :: 0 <= i < |r| ==> r[i].purchaseId == id
    ensures r == [] <==> forall k :: 0 <= k < |rows| ==> !(rows[k].id == id && HasItem(rows[k]))
  {
    if rows == [] then []
    else
      var last := rows[|rows| - 1];
      var p := ItemsFor(rows[..|rows| - 1], id);
      assert forall k :: 0 <= k < |rows| - 1 ==> rows[..|rows| - 1][k] == rows[k];
      p + (if last.id == id && HasItem(last) then [ItemOf(last)] else [])
  }

  function PurchaseFrom(head: JoinedRow, items: seq<PurchaseItem>): Purchase {
    Purchase(head.id, head.userId, head.purchaseDate, head.totalAmount, items)
  }

  /** The grouped purchases. */
  function Group(rows: seq<JoinedRow>): seq<Purchase> {
    var heads := FirstRows(rows);
    seq(|heads|, i requires 0 <= i < |heads| => PurchaseFrom(heads[i], ItemsFor(rows, heads[i].id)))
  }

  function Ids(heads: seq<JoinedRow>): (r: seq<int>)
    ensures |r| == |heads| && forall i :: 0 <= i < |heads| ==> r[i] == heads[i].id
  {
    seq(|heads|, i requires 0 <= i < |heads| => heads[i].id)
  }

  /** Every id of the input appears exactly once in the result, and no other. */
  lemma GroupIds(rows: seq<JoinedRow>)
    ensures forall i, j :: 0 <= i < j < |Group(rows)| ==> Group(rows)[i].id != Group(rows)[j].id
    ensures forall id :: (exists i :: 0 <= i < |Group(rows)| && Group(rows)[i].id == id) <==> HasId(rows, id)
  {
    var heads := FirstRows(rows);
    forall id ensures (exists i :: 0 <= i < |Group(rows)| && Group(rows)[i].id == id) <==> HasId(heads, id) {
      if HasId(heads, id) {
        var i :| 0 <= i < |heads| && heads[i].id == id;
        assert Group(rows)[i].id == id;
      }
    }
  }

  /** Each purchase carries the header columns of one of its rows, and exactly the
      items whose rows have its id; a purchase without item rows has no items. */
  lemma GroupEntries(rows: seq<JoinedRow>, i: nat)
    requires i < |Group(rows)|
    ensures var p := Group(rows)[i];
      exists k :: 0 <= k < |rows| && rows[k].id == p.id && rows[k].userId == p.userId
        && rows[k].purchaseDate == p.purchaseDate && rows[k].totalAmount == p.totalAmount
    ensures forall j :: 0 <= j < |Group(rows)[i].items| ==> Group(rows)[i].items[j].purchaseId == Group(rows)[i].id
    ensures Group(rows)[i].items == [] <==>
      forall k :: 0 <= k < |rows| ==> !(rows[k].id == Group(rows)[i].id && HasItem(rows[k]))
  {
    var h := FirstRows(rows)[i];
    assert h in rows;
  }

  /** Items of a purchase that no earlier row mentions are all in the new row. */
  lemma {:induction false} NoRowsNoItems(rows: seq<JoinedRow>, id: int)
    requires !HasId(rows, id)
    ensures ItemsFor(rows, id) == []
  {
  }

  /** `ordersMap` and its insertion order after `rows` have been seen. */
  ghost predicate Grouped(rows: seq<JoinedRow>, ordersMap: map<int, Purchase>, order: seq<int>) {
    GroupedBy(FirstRows(rows), rows, ordersMap, order)
  }

  ghost predicate GroupedBy(heads: seq<JoinedRow>, rows: seq<JoinedRow>, ordersMap: map<int, Purchase>, order: seq<int>) {
    order == Ids(heads)
    && (forall id :: id in ordersMap <==> HasId(heads, id))
    && (forall j :: 0 <= j < |heads| ==>
          heads[j].id in ordersMap && ordersMap[heads[j].id] == PurchaseFrom(heads[j], ItemsFor(rows, heads[j].id)))
  }

  lemma FirstRowsStep(rows: seq<JoinedRow>, row: JoinedRow)
    ensures FirstRows(rows + [row]) == if HasId(FirstRows(rows), row.id) then FirstRows(rows) else FirstRows(rows) + [row]
  {
    assert (rows + [row])[..|rows|] == rows;
  }

  lemma ItemsForStep(rows: seq<JoinedRow>, row: JoinedRow, id: int)
    ensures ItemsFor(rows + [row], id) == ItemsFor(rows, id) + (if row.id == id && HasItem(row) then [ItemOf(row)] else [])
  {
    assert (rows + [row])[..|rows|] == rows;
  }

  function Appended(row: JoinedRow): seq<PurchaseItem> {
    if HasItem(row) then [ItemOf(row)] else []
  }

  /** A row with an id already seen adds at most an item to that purchase. */
  lemma {:induction false} GroupedSeen(rows: seq<JoinedRow>, row: JoinedRow, ordersMap: map<int, Purchase>, order: seq<int>)
    requires Grouped(rows, ordersMap, order) && row.id in ordersMap
    ensures Grouped(rows + [row], ordersMap[row.id := ordersMap[row.id].(items := ordersMap[row.id].items + Appended(row))], order)
  {
    var heads := FirstRows(rows);
    var m := ordersMap[row.id := ordersMap[row.id].(items := ordersMap[row.id].items + Appended(row))];
    assert FirstRows(rows + [row]) == heads by {
      FirstRowsStep(rows, row);
    }
    assert forall j :: 0 <= j < |heads| ==>
      heads[j].id in m && m[heads[j].id] == PurchaseFrom(heads[j], ItemsFor(rows + [row], heads[j].id))
    by {
      forall j | 0 <= j < |heads|
        ensures heads[j].id in m && m[heads[j].id] == PurchaseFrom(heads[j], ItemsFor(rows + [row], heads[j].id))
      {
        ItemsForStep(rows, row, heads[j].id);
      }
    }
    assert GroupedBy(heads, rows + [row], m, order);
  }

  /** A row with a new id opens a purchase at the end of the order. */
  lemma {:induction false} GroupedNew(rows: seq<JoinedRow>, row: JoinedRow, ordersMap: map<int, Purchase>, order: seq<int>)
    requires Grouped(rows, ordersMap, order) && row.id !in ordersMap
    ensures Grouped(rows + [row],
                    ordersMap[row.id := Purchase(row.id, row.userId, row.purchaseDate, row.totalAmount, Appended(row))],
                    order + [row.id])
  {
    var heads := FirstRows(rows);
    var heads' := heads + [row];
    var m := ordersMap[row.id := Purchase(row.id, row.userId, row.purchaseDate, row.totalAmount, Appended(row))];
    assert !HasId(rows, row.id);
    assert FirstRows(rows + [row]) == heads' by {
      FirstRowsStep(rows, row);
    }
    assert Ids(heads') == order + [row.id];
    assert forall id :: id in m <==> HasId(heads', id) by {
      HasIdAppend(heads, row);
    }
    assert forall j :: 0 <= j < |heads'| ==>
      heads'[j].id in m && m[heads'[j].id] == PurchaseFrom(heads'[j], ItemsFor(rows + [row], heads'[j].id))
    by {
      forall j | 0 <= j < |heads'|
        ensures heads'[j].id in m && m[heads'[j].id] == PurchaseFrom(heads'[j], ItemsFor(rows + [row], heads'[j].id))
      {
        ItemsForStep(rows, row, heads'[j].id);
        if j == |heads| {
          NoRowsNoItems(rows, row.id);
        } else {
          assert heads'[j] == heads[j];
        }
      }
    }
    assert GroupedBy(heads', rows + [row], m, order + [row.id]);
  }

  /** One `forEach` step keeps the grouping invariant. */
  method AddRow(ghost rows: seq<JoinedRow>, row: JoinedRow, ordersMap: map<int, Purchase>, order: seq<int>)
    returns (ordersMap': map<int, Purchase>, order': seq<int>)
    requires Grouped(rows, ordersMap, order)
    ensures Grouped(rows + [row], ordersMap', order')
  {
    ordersMap', order' := ordersMap, order;
    if row.id !in ordersMap' {
      GroupedNew(rows, row, ordersMap, order);
      ordersMap' := ordersMap'[row.id := Purchase(row.id, row.userId, row.purchaseDate, row.totalAmount, [])];
      order' := order' + [row.id];
    } else {
      GroupedSeen(rows, row, ordersMap, order);
    }
    if HasItem(row) {
      var p := ordersMap'[row.id];
      ordersMap' := ordersMap'[row.id := p.(items := p.items + [ItemOf(row)])];
    }
  }

  /** `getUserOrders`' grouping: a `Map` filled in row order, then its values in
      insertion order. */
  method GroupOrders(rows: seq<JoinedRow>) returns (orders: seq<Purchase>)
    ensures orders == Group(rows)
  {
    var ordersMap: map<int, Purchase> := map[];
    var order: seq<int> := [];
    for k := 0 to |rows|
      invariant Grouped(rows[..k], ordersMap, order)
    {
      assert rows[..k + 1] == rows[..k] + [rows[k]];
      ordersMap, order := AddRow(rows[..k], rows[k], ordersMap, order);
    }
    assert rows[..|rows|] == rows;
    var heads := FirstRows(rows);
    orders := [];
    for j := 0 to |order|
      invariant |orders| == j
      invariant forall i :: 0 <= i < j ==> orders[i] == Group(rows)[i]
    {
      orders := orders + [ordersMap[order[j]]];
    }
  }
}
