/** The customer support agent (`ecommerce_ai_agents/agents/customer_support.py`):
    a first-match lookup in the FAQ list and the reply built around the language
    model's answer. The FAQ list loaded at start-up (empty when the file is
    missing) and the model are inputs. */
module CustomerSupport {
  import opened Wrappers
  import opened Text
  import opened Wire

  datatype Faq = Faq(question: string, answer: string)

  /** The question of `faq` contains the (lower-cased) query. */
  predicate Matches(faq: Faq, query: string) {
    Contains(Lower(faq.question), Lower(query))
  }

  /** The position of the first FAQ in `faqs` that matches. */
  function FirstMatch(faqs: seq<Faq>, query: string): (r: Option<nat>)
    ensures r.Some? ==> r.value < |faqs| && Matches(faqs[r.value], query)
    ensures r.Some? ==> forall j :: 0 <= j < r.value ==> !Matches(faqs[j], query)
    ensures r.None? ==> forall k :: 0 <= k < |faqs| ==> !Matches(faqs[k], query)
  {
    if faqs == [] then None
    else if Matches(faqs[0], query) then Some(0)
    else
      var r := FirstMatch(faqs[1..], query);
      assert forall j :: 1 <= j < |faqs| ==> faqs[j] == faqs[1..][j - 1];
      if r.Some? then Some(r.value + 1) else None
  }

  /** `search_faq`: None for an empty FAQ list, else the answer of the first FAQ whose
      question contains the query, ignoring case. */
  function SearchFaq(faqs: seq<Faq>, query: string): Option<string> {
    if faqs == [] then None
    else
      var k := FirstMatch(faqs, query);
      if k.Some? then Some(faqs[k.value].answer) else None
  }

  /** The first matching FAQ's answer is returned. */
  lemma SearchFaqSpec(faqs: seq<Faq>, query: string, k: nat)
    requires k < |faqs| && Matches(faqs[k], query)
    requires forall j :: 0 <= j < k ==> !Matches(faqs[j], query)
    ensures SearchFaq(faqs, query) == Some(faqs[k].answer)
  {
    var i := FirstMatch(faqs, query);
    assert i.Some?;
    assert !(i.value < k) && !(k < i.value);
  }

  /** None exactly when no question contains the query (an empty list included). */
  lemma SearchFaqNone(faqs: seq<Faq>, query: string)
    ensures SearchFaq(faqs, query).None? <==> forall k :: 0 <= k < |faqs| ==> !Matches(faqs[k], query)
  {
  }

  /** An empty query is contained in every question, so it yields the first answer. */
  lemma EmptyQueryGivesFirstAnswer(faqs: seq<Faq>)
    requires faqs != []
    ensures SearchFaq(faqs, "") == Some(faqs[0].answer)
  {
    assert Lower("") == "";
    ContainsEmpty(Lower(faqs[0].question));
  }

  /** The context line added to the prompt for a truthy FAQ answer. */
  function Context(answer: Option<string>): string {
    if answer.Some? && answer.value != "" then "Relevant FAQ: " + answer.value + "\n\n" else ""
  }

  function SupportPrompt(message: string, context: string): string {
    "User support request: " + message + "\n\n" + context + "Provide a helpful customer support response."
  }

  /** A truthy answer is quoted in the prompt, right after the request. */
  lemma SupportPromptSpec(message: string, answer: Option<string>)
    ensures answer.Some? && answer.value != "" ==>
      StartsWith(SupportPrompt(message, Context(answer)),
                 "User support request: " + message + "\n\n" + "Relevant FAQ: " + answer.value)
  {
    if answer.Some? && answer.value != "" {
      var request := "User support request: " + message + "\n\n";
      var quoted := "Relevant FAQ: " + answer.value;
      var closing := "Provide a helpful customer support response.";
      var t := request + quoted;
      var p := SupportPrompt(message, Context(answer));
      assert Context(answer) == quoted + "\n\n";
      calc {
        p;
        request + (quoted + "\n\n") + closing;
        t + ("\n\n" + closing);
      }
      assert p[..|t|] == t;
    }
  }

  const SupportActions: seq<string> := ["Contact support team", "Check order status", "Start return process"]

  /** `process`: the model's answer to the prompt, the three fixed actions and the
      agent type; nothing else. */
  function Process(llm: string -> string, faqs: seq<Faq>, message: string): (r: Reply)
    ensures r.agentType == Some("customer_support") && r.suggestedActions == Some(SupportActions)
    ensures r.message == Some(llm(SupportPrompt(message, Context(SearchFaq(faqs, message)))))
    ensures r.products.None? && r.orders.None? && r.suggestions.None? && r.filterCommand.None?
            && r.shouldNavigate.None?
  {
    var answer := SearchFaq(faqs, message);
    Reply(Some(llm(SupportPrompt(message, Context(answer)))), Some("customer_support"),
          None, None, Some(SupportActions), None, None, None)
  }
}
