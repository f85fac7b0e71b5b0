/** The intent recognizer (`ecommerce_ai_agents/agents/intent_recognizer.py`): the
    language model's reply is stripped, lower-cased and searched for the intent
    labels. The model itself is a function parameter. */
module IntentRecognizer {
  import opened Text

  /** The prompt sent to the model for `message`. */
  function Prompt(message: string): string {
    "Classify this message into one of the allowed categories: " + message
  }

  /** The label search on the stripped, lower-cased reply. */
  function Label(response: string): string {
    if Contains(response, "order_status") then "order_status"
    else if Contains(response, "product_search") then "product_search"
    else if Contains(response, "customer_support") then "customer_support"
    else "general"
  }

  /** The mapping from the model's reply to an intent label. */
  function Classify(reply: string): string {
    Label(Lower(Strip(reply)))
  }

  /** `recognize`: ask the model, then classify its reply. */
  function Recognize(llm: string -> string, message: string): (intent: string)
    ensures intent == "order_status" || intent == "product_search" || intent == "customer_support"
            || intent == "general"
  {
    ClassifyIsLabel(llm(Prompt(message)));
    Classify(llm(Prompt(message)))
  }

  lemma ClassifyIsLabel(reply: string)
    ensures var intent := Classify(reply);
      intent == "order_status" || intent == "product_search" || intent == "customer_support" || intent == "general"
  {
    var response := Lower(Strip(reply));
    if Contains(response, "order_status") {
      assert Classify(reply) == "order_status";
    } else if Contains(response, "product_search") {
      assert Classify(reply) == "product_search";
    } else if Contains(response, "customer_support") {
      assert Classify(reply) == "customer_support";
    } else {
      assert Classify(reply) == "general";
    }
  }

  /** The label found first in the order order_status, product_search,
      customer_support wins, and a reply with none of them is "general". */
  lemma ClassifySpec(reply: string)
    ensures Classify(reply) == "order_status" <==> Contains(Lower(Strip(reply)), "order_status")
    ensures Classify(reply) == "product_search" <==>
      !Contains(Lower(Strip(reply)), "order_status") && Contains(Lower(Strip(reply)), "product_search")
    ensures Classify(reply) == "customer_support" <==>
      !Contains(Lower(Strip(reply)), "order_status") && !Contains(Lower(Strip(reply)), "product_search")
      && Contains(Lower(Strip(reply)), "customer_support")
    ensures Classify(reply) == "general" <==>
      !Contains(Lower(Strip(reply)), "order_status") && !Contains(Lower(Strip(reply)), "product_search")
      && !Contains(Lower(Strip(reply)), "customer_support")
  {
  }

  /** Letter case never changes the intent: two replies that lower-case alike are
      classified alike. */
  lemma ClassifyIgnoresCase(a: string, b: string)
    requires Lower(a) == Lower(b)
    ensures Classify(a) == Classify(b)
  {
    LowerStrip(a);
    LowerStrip(b);
    assert Lower(Strip(a)) == Lower(Strip(b));
  }
}
