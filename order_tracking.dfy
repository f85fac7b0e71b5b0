/** The order tracking agent (`ecommerce_ai_agents/agents/order_tracking.py`): the
    list of a user's orders, each with a status simulated from its age, and the
    reply built around the language model's answer.

    The database is a pair of query functions (`None` where the query raises),
    `now` is the clock reading, dates are seconds since the epoch, and date and
    money formatting are function parameters. */
module OrderTracking {
  import opened Wrappers
  import opened Text
  import opened Wire

  /** Seconds in a day. */
  const Day: int := 86400

  /** A parsed `purchase_date`. Text without a zone designator parses to a naive
      datetime; text ending in "Z" (rewritten to "+00:00" before parsing) or with an
      offset parses to an aware one. `seconds` is on the same clock as `now`. */
  datatype StoredDate = Naive(seconds: int) | Aware(seconds: int)

  /** A row of `SELECT id, purchase_date, total_amount FROM purchases`; `purchaseDate`
      is `None` when the text does not parse. */
  datatype PurchaseRow = PurchaseRow(id: int, purchaseDate: Option<StoredDate>, totalAmount: real)

  /** The two queries: a user's purchases (newest first) and a purchase's items. */
  datatype Database = Database(
    purchases: int -> Option<seq<PurchaseRow>>,
    items: int -> Option<seq<OrderItem>>)

  // ---------------------------------------------------------------- status

  /** `(now - purchase_date).days`: whole days, rounded down. */
  function DaysSince(now: int, since: int): int {
    (now - since) / Day
  }

  function StatusFor(days: int): string {
    if days < 1 then "Processing" else if days < 3 then "Shipped" else "Delivered"
  }

  /** The status by age in seconds: under one day (a future date included) is
      Processing, under three days Shipped, and Delivered after that. */
  lemma StatusByAge(now: int, since: int)
    ensures StatusFor(DaysSince(now, since)) == "Processing" <==> now - since < Day
    ensures StatusFor(DaysSince(now, since)) == "Shipped" <==> Day <= now - since < 3 * Day
    ensures StatusFor(DaysSince(now, since)) == "Delivered" <==> 3 * Day <= now - since
  {
    var x := now - since;
    var d := x / Day;
    assert d * Day <= x < d * Day + Day;
    if d < 1 {
      assert d <= 0;
      assert x < Day;
    } else if d < 3 {
      assert Day <= x < 3 * Day;
    } else {
      assert 3 * Day <= x;
    }
  }

  function StatusRank(status: string): nat {
    if status == "Processing" then 0 else if status == "Shipped" then 1 else 2
  }

  /** As the clock advances, an order's status never goes back. */
  lemma StatusNeverRegresses(now1: int, now2: int, since: int)
    requires now1 <= now2
    ensures StatusRank(StatusFor(DaysSince(now1, since))) <= StatusRank(StatusFor(DaysSince(now2, since)))
  {
    StatusByAge(now1, since);
    StatusByAge(now2, since);
  }

  // ---------------------------------------------------------------- one order

  /** The `order_info` record for a purchase made at `seconds` with `items`. */
  function OrderInfoFor(row: PurchaseRow, seconds: int, items: seq<OrderItem>, now: int): (o: OrderInfo)
    ensures o.orderId == row.id && o.date == seconds && o.total == row.totalAmount && o.items == items
    ensures o.itemsCount == |o.items|
    ensures o.estimatedDelivery == DeliveredLabel <==> o.status == "Delivered"
    ensures o.status != "Delivered" ==> o.estimatedDelivery == ExpectedBy(seconds + 5 * Day)
  {
    var status := StatusFor(DaysSince(now, seconds));
    OrderInfo(row.id, seconds, row.totalAmount, status, items, |items|,
              if status != "Delivered" then ExpectedBy(seconds + 5 * Day) else DeliveredLabel)
  }

  /** One purchase as the loop body treats it; `None` where it raises. When
      `awareRaises`, an aware date raises in the subtraction from the naive clock
      reading, as Python does; otherwise it is taken on the same clock. */
  function ProcessRow(db: Database, row: PurchaseRow, now: int, awareRaises: bool): Option<OrderInfo> {
    var items := db.items(row.id);
    if items.None? || row.purchaseDate.None? then None
    else if row.purchaseDate.value.Aware? && awareRaises then None
    else Some(OrderInfoFor(row, row.purchaseDate.value.seconds, items.value, now))
  }

  /** The step `ProcessRow` as a function of the row alone. */
  function Processor(db: Database, now: int, awareRaises: bool): PurchaseRow -> Option<OrderInfo> {
    row => ProcessRow(db, row, now, awareRaises)
  }

  /** The loop over the purchases: every row's record, or `None` once a row raises. */
  function Collect<A, B>(rows: seq<A>, step: A -> Option<B>): Option<seq<B>>
    decreases |rows|
  {
    if rows == [] then Some([])
    else
      var prefix := Collect(rows[..|rows| - 1], step);
      var last := step(rows[|rows| - 1]);
      if prefix.None? || last.None? then None else Some(prefix.value + [last.value])
  }

  /** `get_user_orders` as written: any exception, including the one an aware date
      raises, yields the empty list. */
  function UserOrdersAsWritten(db: Database, userId: int, now: int): seq<OrderInfo> {
    var rows := db.purchases(userId);
    if rows.None? then [] else Collect(rows.value, Processor(db, now, true)).GetOr([])
  }

  /** `get_user_orders` with aware dates compared on the same clock. */
  function UserOrders(db: Database, userId: int, now: int): seq<OrderInfo> {
    var rows := db.purchases(userId);
    if rows.None? then [] else Collect(rows.value, Processor(db, now, false)).GetOr([])
  }

  /** All or nothing: the loop yields one record per purchase, in query order, or
      fails as a whole when some purchase raises. */
  lemma {:induction false} CollectSpec<A, B>(rows: seq<A>, step: A -> Option<B>)
    ensures Collect(rows, step).Some? <==> forall k :: 0 <= k < |rows| ==> step(rows[k]).Some?
    ensures Collect(rows, step).Some? ==>
      |Collect(rows, step).value| == |rows| &&
      forall k :: 0 <= k < |rows| ==> Collect(rows, step).value[k] == step(rows[k]).value
    decreases |rows|
  {
    if rows != [] {
      var n := |rows| - 1;
      var init := rows[..n];
      CollectSpec(init, step);
      var c := Collect(rows, step);
      var prefix := Collect(init, step);
      forall k | 0 <= k < n
        ensures init[k] == rows[k]
      {
      }
      if c.Some? {
        forall k | 0 <= k < |rows|
          ensures c.value[k] == step(rows[k]).value
        {
          if k < n {
            assert c.value[k] == prefix.value[k];
          }
        }
      } else if prefix.None? {
        var j :| 0 <= j < n && step(init[j]).None?;
        assert step(rows[j]).None?;
      }
    }
  }

  lemma CollectPrefixFails<A, B>(rows: seq<A>, step: A -> Option<B>, k: nat)
    requires k <= |rows| && Collect(rows[..k], step).None?
    ensures Collect(rows, step).None?
  {
    CollectSpec(rows[..k], step);
    CollectSpec(rows, step);
    var j :| 0 <= j < k && step(rows[..k][j]).None?;
    assert rows[..k][j] == rows[j];
  }

  /** Each order record belongs to the purchase in the same position, with
      `items_count` equal to its number of items. */
  lemma UserOrdersSpec(db: Database, userId: int, now: int)
    ensures var orders := UserOrders(db, userId, now);
      orders == [] || (db.purchases(userId).Some? && |orders| == |db.purchases(userId).value| &&
        forall k :: 0 <= k < |orders| ==>
          orders[k].orderId == db.purchases(userId).value[k].id &&
          orders[k].itemsCount == |orders[k].items| &&
          Some(orders[k].items) == db.items(orders[k].orderId))
  {
    if db.purchases(userId).Some? {
      CollectSpec(db.purchases(userId).value, Processor(db, now, false));
    }
  }

  /** The as-written discrepancy: one purchase whose date carries a zone designator
      empties the whole list, although every row can be processed. */
  lemma AwareDateEmptiesOrders(db: Database, userId: int, now: int, k: nat)
    requires db.purchases(userId).Some? && k < |db.purchases(userId).value|
    requires db.purchases(userId).value[k].purchaseDate.Some?
    requires db.purchases(userId).value[k].purchaseDate.value.Aware?
    ensures UserOrdersAsWritten(db, userId, now) == []
  {
    var rows := db.purchases(userId).value;
    CollectSpec(rows, Processor(db, now, true));
    assert ProcessRow(db, rows[k], now, true).None?;
  }

  /** With every date parsed and every item query answered, the corrected list has
      one record per purchase, whatever the date's zone form. */
  lemma UserOrdersComplete(db: Database, userId: int, now: int)
    requires db.purchases(userId).Some?
    requires forall k :: 0 <= k < |db.purchases(userId).value| ==>
      db.purchases(userId).value[k].purchaseDate.Some? && db.items(db.purchases(userId).value[k].id).Some?
    ensures |UserOrders(db, userId, now)| == |db.purchases(userId).value|
  {
    CollectSpec(db.purchases(userId).value, Processor(db, now, false));
  }

  /** A concrete input on which the two differ: one purchase stored as
      "...T10:15:00Z" and no items. */
  lemma AwareDateExample()
    ensures var db := Database(_ => Some([PurchaseRow(1, Some(Aware(0)), 10.0)]), _ => Some([]));
      UserOrdersAsWritten(db, 1, 0) == [] && |UserOrders(db, 1, 0)| == 1
  {
    var db := Database(_ => Some([PurchaseRow(1, Some(Aware(0)), 10.0)]), _ => Some([]));
    AwareDateEmptiesOrders(db, 1, 0, 0);
    UserOrdersComplete(db, 1, 0);
  }

  /** The loop of `get_user_orders`, with aware dates taken on the same clock. */
  method GetUserOrders(db: Database, userId: int, now: int) returns (orders: seq<OrderInfo>)
    ensures orders == UserOrders(db, userId, now)
  {
    var rows := db.purchases(userId);
    if rows.None? {
      return [];
    }
    orders := [];
    for k := 0 to |rows.value|
      invariant Collect(rows.value[..k], Processor(db, now, false)) == Some(orders)
    {
      assert rows.value[..k + 1][..k] == rows.value[..k];
      var row := rows.value[k];
      var items := db.items(row.id);
      if items.None? || row.purchaseDate.None? {
        assert ProcessRow(db, row, now, false).None?;
        CollectPrefixFails(rows.value, Processor(db, now, false), k + 1);
        return [];
      }
      orders := orders + [OrderInfoFor(row, row.purchaseDate.value.seconds, items.value, now)];
    }
    assert rows.value[..|rows.value|] == rows.value;
  }

  // ---------------------------------------------------------------- the reply

  /** How dates (`%B %d, %Y`) and money (`:.2f`) are printed. */
  datatype Formats = Formats(date: int -> string, money: real -> string)

  const Header: string := "Here are the recent orders for this user:\n"
  const NoOrders: string := "No orders found for this user."

  function ItemText(item: OrderItem): string {
    item.name + " (x" + IntToString(item.quantity) + ")"
  }

  function ItemTexts(items: seq<OrderItem>): (r: seq<string>)
    ensures |r| == |items|
  {
    if items == [] then [] else [ItemText(items[0])] + ItemTexts(items[1..])
  }

  /** The three lines for the `i`-th order (counting from 1). */
  function Entry(i: nat, o: OrderInfo, fmt: Formats): string {
    NatToString(i) + ". Order #" + IntToString(o.orderId) + " - Status: " + o.status
    + " - Placed on: " + fmt.date(o.date) + "\n"
    + "   Total: $" + fmt.money(o.total) + "\n"
    + "   Items: " + Join(ItemTexts(o.items), ", ") + "\n"
  }

  /** The entries of `orders`, numbered from 1. */
  function Entries(orders: seq<OrderInfo>, fmt: Formats): string
    decreases |orders|
  {
    if orders == [] then ""
    else Entries(orders[..|orders| - 1], fmt) + Entry(|orders|, orders[|orders| - 1], fmt)
  }

  function OrderContext(orders: seq<OrderInfo>, fmt: Formats): string {
    if orders == [] then NoOrders else Header + Entries(orders, fmt)
  }

  /** The context is the fixed sentence exactly when there are no orders; otherwise
      it starts with the header. */
  lemma OrderContextSpec(orders: seq<OrderInfo>, fmt: Formats)
    ensures OrderContext(orders, fmt) == NoOrders <==> orders == []
    ensures orders != [] ==> OrderContext(orders, fmt)[..|Header|] == Header
  {
    if orders != [] {
      var c := OrderContext(orders, fmt);
      assert c == Header + Entries(orders, fmt);
      assert c[..|Header|] == Header;
      assert c[0] == 'H';
    }
  }

  /** One more order appends its numbered entry to the context. */
  lemma OrderContextAppend(orders: seq<OrderInfo>, o: OrderInfo, fmt: Formats)
    requires orders != []
    ensures OrderContext(orders + [o], fmt) == OrderContext(orders, fmt) + Entry(|orders| + 1, o, fmt)
  {
    var all := orders + [o];
    assert all[..|all| - 1] == orders;
    assert Entries(all, fmt) == Entries(orders, fmt) + Entry(|orders| + 1, o, fmt);
    AppendAssoc(Header, Entries(orders, fmt), Entry(|orders| + 1, o, fmt));
  }

  lemma AppendAssoc(a: string, b: string, c: string)
    ensures (a + b) + c == a + (b + c)
  {
  }

  lemma EntriesStep(orders: seq<OrderInfo>, i: nat, fmt: Formats)
    requires i < |orders|
    ensures Entries(orders[..i + 1], fmt) == Entries(orders[..i], fmt) + Entry(i + 1, orders[i], fmt)
  {
    assert orders[..i + 1][..i] == orders[..i];
  }

  /** The `+=` loop that builds the context. */
  method BuildOrderContext(orders: seq<OrderInfo>, fmt: Formats) returns (context: string)
    ensures context == OrderContext(orders, fmt)
  {
    if orders == [] {
      return NoOrders;
    }
    context := Header;
    for i := 0 to |orders|
      invariant context == Header + Entries(orders[..i], fmt)
    {
      var entry := Entry(i + 1, orders[i], fmt);
      EntriesStep(orders, i, fmt);
      AppendAssoc(Header, Entries(orders[..i], fmt), entry);
      context := context + entry;
    }
    assert orders[..|orders|] == orders;
  }

  const OrderActions: seq<string> := ["View all orders in my account", "Track my latest order"]

  /** `process`: the orders, the model's answer given the message and the order
      context, the agent type and the two fixed actions. `llm` stands for the
      completion of the prompt built from the message and the context. */
  method Process(db: Database, userId: int, message: string, now: int, fmt: Formats,
                 llm: (string, string) -> string) returns (r: Reply)
    ensures r.orders == Some(UserOrders(db, userId, now))
    ensures r.message == Some(llm(message, OrderContext(UserOrders(db, userId, now), fmt)))
    ensures r.agentType == Some("order_tracking") && r.suggestedActions == Some(OrderActions)
    ensures r.products.None? && r.suggestions.None? && r.filterCommand.None? && r.shouldNavigate.None?
  {
    var orders := GetUserOrders(db, userId, now);
    var context := BuildOrderContext(orders, fmt);
    r := Reply(Some(llm(message, context)), Some("order_tracking"), None, Some(orders),
               Some(OrderActions), None, None, None);
  }
}
