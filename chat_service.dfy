/** The chat service's HTTP layer (`ecommerce_ai_agents/app.py`): the user-id
    conversion, the routing of a chat message to the agent its intent names, and
    the orders endpoint. The agents' collaborators (language model, database,
    clock, formatting, FAQ file) are bundled in `Services`. */
module ChatService {
  import opened Wrappers
  import opened Text
  import opened Wire
  import IntentRecognizer
  import ProductRecommendation
  import OrderTracking
  import CustomerSupport

  /** The JSON body of `POST /api/chat`; a missing key is `None`. */
  datatype ChatBody = ChatBody(userId: Option<string>, message: Option<string>)

  datatype Services = Services(
    intentLlm: string -> string,
    productSearch: string -> seq<ProductHit>,
    productLlm: (string, seq<ProductHit>) -> string,
    db: OrderTracking.Database,
    now: int,
    fmt: OrderTracking.Formats,
    orderLlm: (string, string) -> string,
    faqs: seq<CustomerSupport.Faq>,
    supportLlm: string -> string)

  /** The numeric id the agents query with: 1 for "anonymous" and for anything that
      is not all digits (the empty string included), else the digits' value. */
  function NumericUserId(userId: string): (n: nat)
    ensures userId == "anonymous" || !AllDigits(userId) ==> n == 1
  {
    if userId == "anonymous" || !AllDigits(userId) then 1 else DigitsValue(userId)
  }

  /** A user id printed in decimal converts back to itself. */
  lemma NumericUserIdOfDecimal(n: nat)
    ensures NumericUserId(NatToString(n)) == n
  {
    var s := NatToString(n);
    assert IsDigit(s[0]);
    assert "anonymous"[0] == 'a';
    DigitsValueOfNatToString(n);
  }

  /** Two different all-digit ids can convert to the same number ("7" and "007"). */
  lemma LeadingZerosCollide()
    ensures NumericUserId("007") == NumericUserId("7") == 7
  {
    assert AllDigits("007") && AllDigits("7");
    assert "007"[..2] == "00" && "00"[..1] == "0";
  }

  const GeneralMessage: string :=
    "I'm not sure what you're looking for. Would you like to browse products, check an order, or get customer support?"
  const GeneralSuggestions: seq<string> := ["Show me popular products", "Where is my order?", "I need help with a return"]

  /** The fallback reply; its actions go under `suggestions`. */
  function GeneralReply(): (r: Reply)
    ensures r.message == Some(GeneralMessage) && r.suggestions == Some(GeneralSuggestions)
    ensures r.suggestedActions.None? && r.agentType.None? && r.filterCommand.None?
  {
    Reply(Some(GeneralMessage), None, None, None, None, Some(GeneralSuggestions), None, None)
  }

  /** The order agent's reply for `userId`: its orders, the model's answer given the
      message and the order context, the agent type, the two fixed actions, and no
      products, suggestions, filter command or navigation flag. */
  predicate OrderReply(svc: Services, message: string, userId: nat, r: Reply) {
    var orders := OrderTracking.UserOrders(svc.db, userId, svc.now);
    r.agentType == Some("order_tracking") && r.orders == Some(orders)
    && r.message == Some(svc.orderLlm(message, OrderTracking.OrderContext(orders, svc.fmt)))
    && r.suggestedActions == Some(OrderTracking.OrderActions)
    && r.products.None? && r.suggestions.None? && r.filterCommand.None? && r.shouldNavigate.None?
  }

  /** The branch of `chat_endpoint` that hands the message to the agent an intent
      names; any other intent gets the fallback reply. */
  method Dispatch(svc: Services, intent: string, message: string, numericUserId: nat) returns (r: Reply)
    ensures intent == "product_search" ==>
      r == ProductRecommendation.Process(message, svc.productLlm(message, svc.productSearch(message)),
                                         svc.productSearch(message))
    ensures intent == "order_status" ==> OrderReply(svc, message, numericUserId, r)
    ensures intent == "customer_support" ==> r == CustomerSupport.Process(svc.supportLlm, svc.faqs, message)
    ensures intent !in {"product_search", "order_status", "customer_support"} ==> r == GeneralReply()
  {
    if intent == "product_search" {
      var products := svc.productSearch(message);
      r := ProductRecommendation.Process(message, svc.productLlm(message, products), products);
    } else if intent == "order_status" {
      r := OrderTracking.Process(svc.db, numericUserId, message, svc.now, svc.fmt, svc.orderLlm);
    } else if intent == "customer_support" {
      r := CustomerSupport.Process(svc.supportLlm, svc.faqs, message);
    } else {
      r := GeneralReply();
    }
  }

  /** `chat_endpoint`: defaults, id conversion, intent, then the agent for it. The
      intent is always one of the four labels, so "general" is the only one that
      reaches the fallback. */
  method ChatEndpoint(svc: Services, body: ChatBody) returns (r: Reply, numericUserId: nat)
    ensures numericUserId == NumericUserId(body.userId.GetOr("anonymous"))
    ensures var message := body.message.GetOr("");
      var intent := IntentRecognizer.Recognize(svc.intentLlm, message);
      (intent == "product_search" ==>
         r == ProductRecommendation.Process(message, svc.productLlm(message, svc.productSearch(message)),
                                            svc.productSearch(message))) &&
      (intent == "order_status" ==> OrderReply(svc, message, numericUserId, r)) &&
      (intent == "customer_support" ==> r == CustomerSupport.Process(svc.supportLlm, svc.faqs, message)) &&
      (intent == "general" ==> r == GeneralReply())
  {
    numericUserId := NumericUserId(body.userId.GetOr("anonymous"));
    var message := body.message.GetOr("");
    var intent := IntentRecognizer.Recognize(svc.intentLlm, message);
    r := Dispatch(svc, intent, message, numericUserId);
  }

  /** `GET /api/orders/<user_id>`: the same conversion, then the user's orders. */
  method GetOrders(svc: Services, userId: string) returns (orders: seq<OrderInfo>)
    ensures orders == OrderTracking.UserOrders(svc.db, NumericUserId(userId), svc.now)
  {
    var numericUserId := if userId == "anonymous" || !AllDigits(userId) then 1 else DigitsValue(userId);
    orders := OrderTracking.GetUserOrders(svc.db, numericUserId, svc.now);
  }
}
