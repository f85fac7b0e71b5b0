/** The JSON exchanged between the Python chat service and the browser:
    the filter command the product agent builds and the listing page applies,
    and the reply of `POST /api/chat`. An absent key and a JSON `null` are both
    `None`. */
module Wire {
  import opened Wrappers

  /** A `[lo, hi]` price pair. */
  datatype PriceRange = PriceRange(lo: real, hi: real)

  /** `{action, categories?, priceRange?, sort?, search?, view?}`. */
  datatype FilterCommand = FilterCommand(
    action: string,
    categories: Option<seq<string>>,
    priceRange: Option<PriceRange>,
    sort: Option<string>,
    search: Option<string>,
    view: Option<string>)

  /** The number of keys of the command object, `action` included. */
  function KeyCount(cmd: FilterCommand): (n: nat)
    ensures 1 <= n <= 6
  {
    1 + (if cmd.categories.Some? then 1 else 0) + (if cmd.priceRange.Some? then 1 else 0)
    + (if cmd.sort.Some? then 1 else 0) + (if cmd.search.Some? then 1 else 0)
    + (if cmd.view.Some? then 1 else 0)
  }

  /** A product listed in a chat reply. */
  datatype ProductHit = ProductHit(id: int, name: string, price: real, category: string)

  /** An item of an order listed in a chat reply. */
  datatype OrderItem = OrderItem(name: string, quantity: int, priceAtPurchase: real)

  /** `estimated_delivery`: the word "Delivered", or a date (seconds since the epoch). */
  datatype Delivery = DeliveredLabel | ExpectedBy(time: int)

  /** An order as the order agent reports it; `date` is in seconds since the epoch. */
  datatype OrderInfo = OrderInfo(
    orderId: int,
    date: int,
    total: real,
    status: string,
    items: seq<OrderItem>,
    itemsCount: nat,
    estimatedDelivery: Delivery)

  /** The reply of `POST /api/chat`. The agents fill different keys; the general
      fallback sends its actions under `suggestions`, not `suggested_actions`. */
  datatype Reply = Reply(
    message: Option<string>,
    agentType: Option<string>,
    products: Option<seq<ProductHit>>,
    orders: Option<seq<OrderInfo>>,
    suggestedActions: Option<seq<string>>,
    suggestions: Option<seq<string>>,
    filterCommand: Option<FilterCommand>,
    shouldNavigate: Option<bool>)
}
