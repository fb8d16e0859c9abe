/**
 * The two-agent example: a keyword router sends the conversation to a
 * stock agent (which may answer a price question with one tool lookup) or
 * to a knowledge agent (which appends the model's answer). Transcript
 * entries are plain `{"role", "content"}` records; the model's responses
 * are inputs.
 */
module MultiAgent {
  import opened Wrappers
  import opened Text
  import opened Graph
  import opened Chat
  import Stocks

  /** One transcript entry, the dict `{"role": role, "content": content}`. */
  datatype Entry = Entry(role: string, content: string)

  function Assistant(content: string): Entry {
    Entry("assistant", content)
  }

  /** This example's price table: the package's without RIL. */
  const Prices: map<string, Stocks.Float> :=
    map["AAPL" := Stocks.Float("100.4"), "MSFT" := Stocks.Float("200.3"), "AMZN" := Stocks.Float("150.0")]

  /** This example's `get_stock_price`: upper-cases, then looks up the three-symbol table. */
  function GetStockPrice(symbol: string): (price: Stocks.Float)
    ensures Upper(symbol) != "RIL" ==> price == Stocks.GetStockPrice(symbol)
    ensures Upper(symbol) == "RIL" ==> price == Stocks.Zero
  {
    var key := Upper(symbol);
    if key in Prices then Prices[key] else Stocks.Zero
  }

  /** RIL is the one symbol this table prices differently from the package's. */
  lemma RilUnpriced()
    ensures GetStockPrice("RIL") == Stocks.Zero
    ensures Stocks.GetStockPrice("RIL") == Stocks.Float("87.6")
  {
    assert Upper("RIL") == "RIL";
  }

  /** The router's conditional edge: route name to next node. */
  const RouteMap: map<string, Node> := map["stock" := Stock, "knowledge" := Knowledge]

  /** IndexError from `state.messages[-1]` on an empty transcript. */
  datatype RouteError = NoMessages

  /** `text` mentions a price or a stock somewhere. */
  ghost predicate AsksAboutStocks(text: string) {
    (exists i :: OccursAt(text, "price", i)) || (exists i :: OccursAt(text, "stock", i))
  }

  /**
   * `router_agent`: "stock" exactly when the lower-cased content of the
   * last entry contains "price" or "stock", otherwise "knowledge".
   */
  function RouterAgent(messages: seq<Entry>): (r: Result<string, RouteError>)
    ensures messages == [] <==> r.Failure?
    ensures r.Success? ==> r.value in RouteMap
    ensures r.Success? ==>
      (r.value == "stock" <==> AsksAboutStocks(Lower(messages[|messages| - 1].content)))
  {
    if messages == [] then Failure(NoMessages)
    else
      var userText := Lower(messages[|messages| - 1].content);
      var asksPrice := Contains(userText, "price") || Contains(userText, "stock");
      ContainsIff(userText, "price");
      ContainsIff(userText, "stock");
      assert asksPrice <==> AsksAboutStocks(userText);
      if asksPrice then Success("stock") else Success("knowledge")
  }

  /** Routing ignores case: upper-casing the last entry changes nothing. */
  lemma RouterIgnoresCase(history: seq<Entry>, role: string, content: string)
    ensures RouterAgent(history + [Entry(role, Upper(content))]) == RouterAgent(history + [Entry(role, content)])
  {
    LowerOfUpper(content);
  }

  /** Routing reads the last entry only. */
  lemma RouterReadsOnlyLast(a: seq<Entry>, b: seq<Entry>, last: Entry)
    ensures RouterAgent(a + [last]) == RouterAgent(b + [last])
  {
    assert (a + [last])[|a|] == last && (b + [last])[|b|] == last;
  }

  /** "PRICE" in capitals routes to the stock agent. */
  lemma ShoutedPriceRoutesToStock()
    ensures RouterAgent([Entry("user", "PRICE")]) == Success("stock")
  {
    assert Lower("PRICE") == "price";
    assert Contains("price", "price");
  }

  /** The graph: START→router, router→stock or knowledge, stock→tools or END, tools→stock, knowledge→END. */
  function Edges(n: Node): (succ: set<Node>)
    ensures Router in succ <==> n == Start
    ensures Stock in succ <==> n == Router || n == Tools
    ensures Knowledge in succ <==> n == Router
    ensures Tools in succ <==> n == Stock
    ensures End in succ <==> n == Stock || n == Knowledge
    ensures succ <= {Router, Stock, Knowledge, Tools, End}
  {
    match n
    case Start => {Router}
    case Router => {Stock, Knowledge}
    case Stock => {Tools, End}
    case Tools => {Stock}
    case Knowledge => {End}
    case _ => {}
  }

  /** Whatever the router answers is a key of the conditional-edge map, and the node it names follows the router. */
  lemma RouteIsAnEdge(messages: seq<Entry>)
    requires messages != []
    ensures RouterAgent(messages).value in RouteMap
    ensures RouteMap[RouterAgent(messages).value] in Edges(Router)
  {
  }

  /** The knowledge branch ends right after the knowledge agent and never reaches the tools. */
  lemma KnowledgeBranchEnds(p: seq<Node>)
    requires IsRun(Edges, p)
    requires |p| >= 3 && p[2] == Knowledge
    ensures |p| <= 4
    ensures Visits(p, Tools) == 0
  {
    assert p[1] == Router;
    assert Visits([End], Tools) == 0 by { assert [End][1..] == []; }
    assert Visits([Knowledge, End], Tools) == 0 by { assert [Knowledge, End][1..] == [End]; }
    assert Visits([Knowledge], Tools) == 0 by { assert [Knowledge][1..] == []; }
    if |p| == 3 {
      assert p == [Start, Router, Knowledge];
      assert p[1..][1..] == [Knowledge];
    } else {
      assert p[3] == End;
      RunStep(Edges, p, 3);
      assert p == [Start, Router, Knowledge, End];
      assert p[1..][1..] == [Knowledge, End];
    }
  }

  /** What the model returned: optional content and the tool calls it requested. */
  datatype LlmResponse = LlmResponse(content: Option<string>, toolCalls: seq<ToolCall>)

  /** KeyError from `tool_calls[0]["args"]["symbol"]`. */
  datatype AgentError = MissingSymbol

  /** "The current price of {symbol} stock is ${price}." */
  function PriceSentence(symbol: string, price: Stocks.Float): (s: string)
    ensures "The current price of " <= s && s[|s| - 1] == '.'
    ensures OccursAt(s, symbol, 21)
    ensures OccursAt(s, price.repr, |s| - 1 - |price.repr|)
  {
    "The current price of " + symbol + " stock is $" + price.repr + "."
  }

  /**
   * `stock_agent`: copies the transcript, appends the model's reply
   * (`response.content or ""`) and, when the model asked for a tool, one
   * more entry quoting the price of the first call's symbol.
   */
  method StockAgent(messages: seq<Entry>, response: LlmResponse) returns (r: Result<seq<Entry>, AgentError>)
    ensures r.Failure? <==> response.toolCalls != [] && "symbol" !in response.toolCalls[0].args
    ensures r.Success? ==> |messages| < |r.value| <= |messages| + 2 && r.value[..|messages|] == messages
    ensures r.Success? ==> r.value[|messages|] == Assistant(response.content.GetOr(""))
    ensures r.Success? ==> (|r.value| == |messages| + 2 <==> response.toolCalls != [])
    ensures r.Success? && response.toolCalls != [] ==>
      var symbol := response.toolCalls[0].args["symbol"];
      r.value[|messages| + 1] == Assistant(PriceSentence(symbol, GetStockPrice(symbol)))
  {
    var out := messages;
    out := out + [Assistant(response.content.GetOr(""))];
    if response.toolCalls != [] {
      var call := response.toolCalls[0];
      if "symbol" !in call.args {
        return Failure(MissingSymbol);
      }
      var symbol := call.args["symbol"];
      var price := GetStockPrice(symbol);
      out := out + [Assistant(PriceSentence(symbol, price))];
    }
    r := Success(out);
  }

  /** The example's graph state: the transcript and the router's choice. */
  class AgentState {
    var messages: seq<Entry>
    var route: Option<string>

    constructor (messages: seq<Entry>)
      ensures this.messages == messages && route == None
    {
      this.messages := messages;
      route := None;
    }
  }

  /**
   * `knowledge_agent`: appends the model's answer to the state's own list
   * and returns that list, so the state is changed in place.
   */
  method KnowledgeAgent(state: AgentState, reply: string) returns (update: seq<Entry>)
    modifies state
    ensures state.messages == old(state.messages) + [Assistant(reply)]
    ensures state.route == old(state.route)
    ensures update == state.messages
  {
    state.messages := state.messages + [Assistant(reply)];
    update := state.messages;
  }
}
