/** The floating chat widget (`client/src/components/widgets/chat-widget.tsx`):
    which user id it sends, how a send changes the transcript, the input and the
    loading flag, how a reply carrying a filter command closes the widget, moves
    to the listing and later hands the command to whatever page is registered in
    the global slot, and the small display rules (status colours, agent labels,
    the product link). The request and its reply are inputs; the 500 ms timer is
    an event that the environment fires. */
module ChatWidget {
  import opened Wrappers
  import opened Text
  import opened Wire
  import opened Listing

  // ---------------------------------------------------------------- user id

  /** The authenticated user's id when there is one (and it is not 0), else the
      stored `userId` when it is non-empty, else "anonymous". */
  function ResolveUserId(isAuthenticated: bool, userId: Option<int>, stored: Option<string>): (id: string)
    ensures id != ""
  {
    if isAuthenticated && userId.Some? && userId.value != 0 then IntToString(userId.value)
    else if stored.Some? && stored.value != "" then stored.value
    else "anonymous"
  }

  /** The three sources of the id, in order of preference. */
  lemma ResolveUserIdCases(isAuthenticated: bool, userId: Option<int>, stored: Option<string>)
    ensures isAuthenticated && userId.Some? && userId.value > 0 ==>
      ResolveUserId(isAuthenticated, userId, stored) == NatToString(userId.value)
    ensures !isAuthenticated && stored.Some? && stored.value != "" ==>
      ResolveUserId(isAuthenticated, userId, stored) == stored.value
    ensures !isAuthenticated && (stored.None? || stored == Some("")) ==>
      ResolveUserId(isAuthenticated, userId, stored) == "anonymous"
    ensures isAuthenticated && (userId.None? || userId.value == 0) ==>
      ResolveUserId(isAuthenticated, userId, stored) == ResolveUserId(false, userId, stored)
  {
  }

  // ---------------------------------------------------------------- messages

  datatype Sender = User | Ai

  /** A transcript entry; the time stamp is left out. */
  datatype Message = Message(
    sender: Sender,
    content: Option<string>,
    agentType: Option<string>,
    products: Option<seq<ProductHit>>,
    orders: Option<seq<OrderInfo>>,
    suggestedActions: Option<seq<string>>)

  const Welcome := Message(Ai, Some("'Hello! I'm your shopping assistant. How can I help you today?'"), None, None, None,
                           Some(["Browse popular products", "Check my order status", "Help with returns"]))

  const Apology := Message(Ai, Some("Sorry, I encountered an error. Please try again later."), None, None, None, None)

  function UserMessage(text: string): Message {
    Message(User, Some(text), None, None, None, None)
  }

  /** The entry made from a reply: its message, agent type, products, orders and
      `suggested_actions` (a reply's `suggestions` key is not read). */
  function ReplyMessage(data: Reply): (m: Message)
    ensures m.sender == Ai && m.content == data.message && m.suggestedActions == data.suggestedActions
  {
    Message(Ai, data.message, data.agentType, data.products, data.orders, data.suggestedActions)
  }

  /** The general fallback's suggestions never reach the transcript. */
  lemma SuggestionsKeyIgnored(data: Reply, other: seq<string>)
    ensures ReplyMessage(data.(suggestions := Some(other))) == ReplyMessage(data)
  {
  }

  /** A reply leads to the listing only when it has a filter command and a true
      `should_navigate`. */
  predicate Navigates(data: Reply) {
    data.filterCommand.Some? && data.shouldNavigate == Some(true)
  }

  /** The body of `POST /api/chat`. */
  datatype ChatRequest = ChatRequest(userId: string, message: string)

  /** What became of the request: it threw (network failure or a body that is not
      JSON), or it produced a reply. */
  datatype Outcome = Failed | Replied(data: Reply)

  /** The transcript after a non-blank send of `text`: the user's entry and then
      exactly one more, the reply's or the apology. */
  function Transcript(before: seq<Message>, text: string, outcome: Outcome): seq<Message> {
    before + [UserMessage(text)] + [if outcome.Replied? then ReplyMessage(outcome.data) else Apology]
  }

  lemma TranscriptShape(before: seq<Message>, text: string, outcome: Outcome)
    ensures |Transcript(before, text, outcome)| == |before| + 2
    ensures Transcript(before, text, outcome)[..|before|] == before
    ensures Transcript(before, text, outcome)[|before|] == UserMessage(text)
    ensures outcome.Failed? ==> Transcript(before, text, outcome)[|before| + 1].content == Apology.content
    ensures outcome.Replied? ==> Transcript(before, text, outcome)[|before| + 1].content == outcome.data.message
  {
  }

  // ---------------------------------------------------------------- display rules

  /** `getStatusColor`. */
  function StatusColor(status: string): string {
    var s := Lower(status);
    if s == "processing" then "bg-yellow-100 text-yellow-800"
    else if s == "shipped" then "bg-blue-100 text-blue-800"
    else if s == "delivered" then "bg-green-100 text-green-800"
    else "bg-gray-100 text-gray-800"
  }

  /** Statuses are matched without regard to letter case; the three known ones get
      their own colour and every other status the gray one. */
  lemma StatusColorSpec(status: string)
    ensures StatusColor(status) == StatusColor(Lower(status))
    ensures StatusColor(status) == "bg-yellow-100 text-yellow-800" <==> Lower(status) == "processing"
    ensures StatusColor(status) == "bg-blue-100 text-blue-800" <==> Lower(status) == "shipped"
    ensures StatusColor(status) == "bg-green-100 text-green-800" <==> Lower(status) == "delivered"
    ensures Lower(status) !in {"processing", "shipped", "delivered"} ==> StatusColor(status) == "bg-gray-100 text-gray-800"
  {
    LowerIdempotent(status);
  }

  datatype Icon = ShoppingBag | Truck | HelpCircle | MessageCircle

  /** `getAgentIcon`. */
  function AgentIcon(agentType: Option<string>): Icon {
    if agentType == Some("product_recommendation") then ShoppingBag
    else if agentType == Some("order_tracking") then Truck
    else if agentType == Some("customer_support") then HelpCircle
    else MessageCircle
  }

  /** The assistant label above an AI entry, shown only when its agent type is non-empty. */
  function AgentLabel(m: Message): Option<string> {
    if m.sender != Ai || m.agentType.None? || m.agentType.value == "" then None
    else if m.agentType.value == "product_recommendation" then Some("Product Assistant")
    else if m.agentType.value == "order_tracking" then Some("Order Assistant")
    else if m.agentType.value == "customer_support" then Some("Support Assistant")
    else Some("Shop Assistant")
  }

  predicate KnownAgent(t: string) {
    t == "product_recommendation" || t == "order_tracking" || t == "customer_support"
  }

  /** Each known agent has its own label and icon; every other non-empty type is the
      generic "Shop Assistant" with the generic icon. */
  lemma AgentLabelSpec(m: Message)
    ensures AgentLabel(m).Some? <==> m.sender == Ai && m.agentType.Some? && m.agentType.value != ""
    ensures AgentLabel(m).Some? && !KnownAgent(m.agentType.value) ==>
      AgentLabel(m) == Some("Shop Assistant") && AgentIcon(m.agentType) == MessageCircle
    ensures AgentLabel(m).Some? && KnownAgent(m.agentType.value) ==>
      AgentLabel(m) != Some("Shop Assistant") && AgentIcon(m.agentType) != MessageCircle
  {
  }

  /** `s` with leading JavaScript whitespace removed. */
  function DropJsSpaces(s: string): (r: string)
    ensures |r| <= |s| && r == s[|s| - |r|..]
    ensures r == [] || !JsSpace(r[0])
  {
    if s != [] && JsSpace(s[0]) then DropJsSpaces(s[1..]) else s
  }

  /** `s.replace(/\s+/g, "-")`. */
  function DashRuns(s: string): (r: string)
    ensures forall i :: 0 <= i < |r| ==> !JsSpace(r[i])
    decreases |s|
  {
    if s == [] then []
    else if JsSpace(s[0]) then "-" + DashRuns(DropJsSpaces(s[1..]))
    else [s[0]] + DashRuns(s[1..])
  }

  /** The link target of a product in a reply: its name lower-cased, with each run
      of whitespace turned into one "-". */
  function ProductSlug(name: string): string {
    DashRuns(Lower(name))
  }

  predicate NoJsSpace(s: string) {
    forall i :: 0 <= i < |s| ==> !JsSpace(s[i])
  }

  lemma {:induction false} DashRunsOfSpaceFree(w: string, rest: string)
    requires NoJsSpace(w)
    ensures DashRuns(w + rest) == w + DashRuns(rest)
    decreases |w|
  {
    if w == [] {
      assert w + rest == rest;
    } else {
      assert (w + rest)[1..] == w[1..] + rest;
      DashRunsOfSpaceFree(w[1..], rest);
      assert w == [w[0]] + w[1..];
    }
  }

  lemma DashRunsOfSpaceThen(rest: string)
    requires rest == [] || !JsSpace(rest[0])
    ensures DashRuns(" " + rest) == "-" + DashRuns(rest)
  {
    assert (" " + rest)[1..] == rest;
  }

  /** Words without whitespace joined by single spaces come out joined by single dashes. */
  lemma {:induction false} DashRunsOfJoin(ws: seq<string>)
    requires forall k :: 0 <= k < |ws| ==> ws[k] != [] && NoJsSpace(ws[k])
    ensures DashRuns(Join(ws, " ")) == Join(ws, "-")
    decreases |ws|
  {
    if |ws| == 1 {
      DashRunsOfSpaceFree(ws[0], "");
      assert ws[0] + "" == ws[0];
    } else if |ws| > 1 {
      var w, rest := ws[0], ws[1..];
      var tail := Join(rest, " ");
      assert forall k :: 0 <= k < |rest| ==> rest[k] == ws[k + 1];
      DashRunsOfJoin(rest);
      assert tail[0] == rest[0][0] by {
        if |rest| > 1 {
          assert tail == rest[0] + " " + Join(rest[1..], " ");
        }
      }
      calc {
        DashRuns(Join(ws, " "));
        { assert Join(ws, " ") == w + (" " + tail); }
        DashRuns(w + (" " + tail));
        { DashRunsOfSpaceFree(w, " " + tail); }
        w + DashRuns(" " + tail);
        { DashRunsOfSpaceThen(tail); }
        w + ("-" + Join(rest, "-"));
        { assert Join(ws, "-") == w + "-" + Join(rest, "-"); }
        Join(ws, "-");
      }
    }
  }

  lemma LowerKeepsJsSpace(s: string)
    ensures NoJsSpace(s) ==> NoJsSpace(Lower(s))
  {
  }

  /** The slug has no whitespace, and a name without whitespace is only lower-cased. */
  lemma ProductSlugSpec(name: string)
    ensures NoJsSpace(ProductSlug(name))
    ensures NoJsSpace(name) ==> ProductSlug(name) == Lower(name)
  {
    if NoJsSpace(name) {
      LowerKeepsJsSpace(name);
      DashRunsOfSpaceFree(Lower(name), "");
      assert Lower(name) + "" == Lower(name);
    }
  }

  // ---------------------------------------------------------------- the widget

  class Widget {
    var messages: seq<Message>
    var input: string
    var loading: bool
    var isOpen: bool
    var location: string
    /** Filter commands whose 500 ms timer has been started and has not fired yet, oldest first. */
    var pending: seq<FilterCommand>

    constructor (location: string)
      ensures messages == [] && input == "" && !loading && !isOpen && this.location == location && pending == []
    {
      messages := [];
      input := "";
      loading := false;
      isOpen := false;
      this.location := location;
      pending := [];
    }

    /** The welcome entry, added whenever the transcript is empty. */
    method Greet()
      modifies this
      ensures messages == if old(messages) == [] then [Welcome] else old(messages)
      ensures input == old(input) && loading == old(loading) && isOpen == old(isOpen)
      ensures location == old(location) && pending == old(pending)
    {
      if |messages| == 0 {
        messages := [Welcome];
      }
    }

    method ToggleChat()
      modifies this
      ensures isOpen == !old(isOpen)
      ensures messages == old(messages) && input == old(input) && loading == old(loading)
      ensures location == old(location) && pending == old(pending)
    {
      isOpen := !isOpen;
    }

    /** A suggested action fills the input. */
    method HandleActionClick(action: string)
      modifies this
      ensures input == action
      ensures messages == old(messages) && loading == old(loading) && isOpen == old(isOpen)
      ensures location == old(location) && pending == old(pending)
    {
      input := action;
    }

    /** A product in a reply opens its page and closes the widget. */
    method HandleProductClick(name: string)
      modifies this
      ensures location == "/products/" + ProductSlug(name) && !isOpen
      ensures messages == old(messages) && input == old(input) && loading == old(loading) && pending == old(pending)
    {
      location := "/products/" + ProductSlug(name);
      isOpen := false;
    }

    /** `handleSendMessage`, with the request's fate given as `outcome`. A blank input
        sends nothing and changes nothing. Otherwise the request carries the resolved
        id and the input, the transcript grows by the user's entry and one more, the
        input is cleared and loading ends false; a reply with a filter command and a
        true `should_navigate` also closes the widget, opens the listing and starts
        the timer that will deliver the command. */
    method HandleSendMessage(isAuthenticated: bool, userId: Option<int>, stored: Option<string>, outcome: Outcome)
      returns (sent: Option<ChatRequest>)
      modifies this
      ensures JsBlank(old(input)) ==>
        sent.None? && messages == old(messages) && input == old(input) && loading == old(loading)
        && isOpen == old(isOpen) && location == old(location) && pending == old(pending)
      ensures !JsBlank(old(input)) ==>
        sent == Some(ChatRequest(ResolveUserId(isAuthenticated, userId, stored), old(input)))
        && messages == Transcript(old(messages), old(input), outcome)
        && input == "" && !loading
      ensures !JsBlank(old(input)) && outcome.Replied? && Navigates(outcome.data) ==>
        !isOpen && location == "/products" && pending == old(pending) + [outcome.data.filterCommand.value]
      ensures !JsBlank(old(input)) && !(outcome.Replied? && Navigates(outcome.data)) ==>
        isOpen == old(isOpen) && location == old(location) && pending == old(pending)
    {
      if JsBlank(input) {
        return None;
      }
      var text := input;
      messages := messages + [UserMessage(text)];
      input := "";
      loading := true;
      sent := Some(ChatRequest(ResolveUserId(isAuthenticated, userId, stored), text));
      match outcome {
        case Replied(data) =>
          messages := messages + [ReplyMessage(data)];
          if data.filterCommand.Some? && data.shouldNavigate == Some(true) {
            isOpen := false;
            location := "/products";
            pending := pending + [data.filterCommand.value];
          }
        case Failed =>
          messages := messages + [Apology];
      }
      loading := false;
    }

    /** The oldest pending timer fires: its command goes to the page registered in the
        slot, and nothing happens when the slot is empty. */
    method FireTimer(w: Window)
      requires pending != []
      modifies this, if w.applyAIFilters.Some? then {w.applyAIFilters.value} else {}
      ensures pending == old(pending)[1..]
      ensures messages == old(messages) && input == old(input) && loading == old(loading)
      ensures isOpen == old(isOpen) && location == old(location)
      ensures w.applyAIFilters == old(w.applyAIFilters)
      ensures old(w.applyAIFilters).Some? ==>
        old(w.applyAIFilters).value.State() == Applied(old(w.applyAIFilters.value.State()), old(pending)[0])
    {
      var cmd := pending[0];
      pending := pending[1..];
      if w.applyAIFilters.Some? {
        var view := w.applyAIFilters.value;
        view.ApplyFiltersFromAI(cmd);
      }
    }
  }
}
