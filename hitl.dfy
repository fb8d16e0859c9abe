/**
 * The human-approval graph of the package (`build_graph`): the approval node
 * that turns a staged `REQUEST_BUY::` token into a confirmation or a
 * refusal, the decision normalisation of the demo driver, and the graph's
 * fixed topology. The framework's `interrupt(prompt)` becomes the explicit
 * `decision` argument: the node returns the prompt it raised together with
 * the message it produced once resumed with that decision.
 */
module Hitl {
  import opened Wrappers
  import opened Text
  import opened Graph
  import opened Chat
  import Stocks

  /** The last message is a tool result carrying a staged purchase. */
  predicate IsBuyRequest(m: Message) {
    m.ToolMessage? && Stocks.RequestPrefix <= m.content
  }

  /** The three fields unpacked from a request token, kept as the strings they were in the token. */
  datatype BuyFields = BuyFields(symbol: string, quantity: string, totalPrice: string)

  /** The exceptions `approval_node` can raise. */
  datatype NodeError =
    | EmptyTranscript           // IndexError from `state["messages"][-1]`
    | UnpackMismatch(got: nat)  // ValueError: the split did not give exactly four values
    | NotAFloat(field: string)  // ValueError from `float(total_price)` while building the prompt

  /** `_, symbol, quantity, total_price = content.split("::")`. */
  function ParseBuyRequest(content: string): (r: Result<BuyFields, NodeError>)
    ensures r.Success? <==> |Split(content)| == 4
    ensures r.Failure? ==> r.error == UnpackMismatch(|Split(content)|)
    ensures r.Success? ==>
      content == Join([Split(content)[0], r.value.symbol, r.value.quantity, r.value.totalPrice])
    ensures r.Success? ==> NoSep(r.value.symbol) && NoSep(r.value.quantity) && NoSep(r.value.totalPrice)
  {
    JoinSplit(content);
    SplitPartsNoSep(content);
    var parts := Split(content);
    if |parts| == 4 then
      assert parts == [parts[0], parts[1], parts[2], parts[3]];
      Success(BuyFields(parts[1], parts[2], parts[3]))
    else
      Failure(UnpackMismatch(|parts|))
  }

  /** The wording of the two replies; the package and the script differ only here. */
  datatype ReplyTexts = ReplyTexts(approvedMark: string, declined: string)

  /** The package's wording. */
  const PackageTexts := ReplyTexts("", "Trade declined by human.")

  /** The replies can be told apart: a refusal never reads as a confirmation. */
  predicate Distinguishable(texts: ReplyTexts) {
    !(texts.approvedMark + "Approved: " <= texts.declined)
  }

  lemma PackageTextsDistinguishable()
    ensures Distinguishable(PackageTexts)
  {
    var head := PackageTexts.approvedMark + "Approved: ";
    assert head[0] == 'A' && PackageTexts.declined[0] == 'T';
  }

  /** "Approved: Bought {quantity} shares of {symbol} for ${total_price}", fields used verbatim. */
  function ApprovedText(texts: ReplyTexts, f: BuyFields): (t: string)
    ensures texts.approvedMark + "Approved: " <= t
    ensures OccursAt(t, f.quantity, |texts.approvedMark| + 17)
    ensures OccursAt(t, f.symbol, |texts.approvedMark| + 28 + |f.quantity|)
    ensures OccursAt(t, f.totalPrice, |t| - |f.totalPrice|)
  {
    texts.approvedMark + "Approved: " + "Bought " + f.quantity + " shares of " + f.symbol + " for $" + f.totalPrice
  }

  /** The interrupt prompt, with `amount` the `:.2f` rendering of the price field. */
  function PromptText(f: BuyFields, amount: string): (p: string)
    ensures "Approve buying " <= p && p[|p| - 1] == '?'
    ensures OccursAt(p, f.quantity, 15)
    ensures OccursAt(p, f.symbol, 16 + |f.quantity|)
    ensures OccursAt(p, amount, |p| - 1 - |amount|)
  {
    "Approve buying " + f.quantity + " " + f.symbol + " stocks for $" + amount + "?"
  }

  /** A confirmation is recognised by its head. */
  predicate IsConfirmation(texts: ReplyTexts, m: Message) {
    m.AIMessage? && texts.approvedMark + "Approved: " <= m.content
  }

  /** What one call of the node does when it raises nothing. */
  datatype ApprovalStep =
    | NoUpdate                                  // `return {}`: no message and no interrupt
    | Reply(prompt: string, message: Message)   // `interrupt(prompt)`, then one AI message

  /** The messages the step adds to the transcript. */
  function Contributed(step: ApprovalStep): (added: seq<Message>)
    ensures |added| <= 1
    ensures |added| == 1 <==> step.Reply?
  {
    match step
    case NoUpdate => []
    case Reply(_, m) => [m]
  }

  /**
   * `approval_node`, for a wording `texts`. `formatPrice(field)` is
   * `f"{float(field):.2f}"`, or None where `float` raises; `decision` is
   * the value the interrupt is resumed with.
   */
  function Approve(texts: ReplyTexts, messages: seq<Message>, decision: string,
                    formatPrice: string -> Option<string>): (r: Result<ApprovalStep, NodeError>)
    ensures messages == [] <==> r == Failure(EmptyTranscript)
    ensures messages != [] && !IsBuyRequest(Last(messages)) ==> r == Success(NoUpdate)
    ensures r.Success? ==> messages != [] && (r.value.Reply? <==> IsBuyRequest(Last(messages)))
    ensures messages != [] && IsBuyRequest(Last(messages)) ==>
      match ParseBuyRequest(Last(messages).content)
      case Failure(e) => r == Failure(e)
      case Success(f) =>
        match formatPrice(f.totalPrice)
        case None => r == Failure(NotAFloat(f.totalPrice))
        case Some(amount) =>
          && r.Success? && r.value.Reply?
          && r.value.prompt == PromptText(f, amount)
          && r.value.message.AIMessage? && r.value.message.toolCalls == []
          && r.value.message.content == (if decision == "yes" then ApprovedText(texts, f) else texts.declined)
  {
    if messages == [] then Failure(EmptyTranscript)
    else
      var last := Last(messages);
      if !IsBuyRequest(last) then Success(NoUpdate)
      else
        match ParseBuyRequest(last.content)
        case Failure(e) => Failure(e)
        case Success(f) =>
          match formatPrice(f.totalPrice)
          case None => Failure(NotAFloat(f.totalPrice))
          case Some(amount) =>
            var content := if decision == "yes" then ApprovedText(texts, f) else texts.declined;
            Success(Reply(PromptText(f, amount), AIMessage(content, [])))
  }

  /**
   * Only the exact decision "yes" confirms; any other string, "Yes" and
   * " yes" included, gets the refusal.
   */
  lemma ConfirmsOnlyOnYes(texts: ReplyTexts, messages: seq<Message>, decision: string,
                          formatPrice: string -> Option<string>)
    requires Distinguishable(texts)
    requires Approve(texts, messages, decision, formatPrice).Success?
    requires Approve(texts, messages, decision, formatPrice).value.Reply?
    ensures IsConfirmation(texts, Approve(texts, messages, decision, formatPrice).value.message)
        <==> decision == "yes"
  {
    var f := ParseBuyRequest(Last(messages).content).value;
    assert ApprovedText(texts, f) == texts.approvedMark + "Approved: " + ("Bought " + f.quantity + " shares of " + f.symbol + " for $" + f.totalPrice);
  }

  /** The package's `approval_node`. */
  function ApprovalNode(messages: seq<Message>, decision: string,
                        formatPrice: string -> Option<string>): (r: Result<ApprovalStep, NodeError>)
    ensures r.Success? && r.value.Reply? ==>
      (r.value.message.content == "Trade declined by human." <==> decision != "yes")
    ensures r.Success? && r.value.Reply? ==>
      (IsConfirmation(PackageTexts, r.value.message) <==> decision == "yes")
  {
    var r := Approve(PackageTexts, messages, decision, formatPrice);
    if r.Success? && r.value.Reply? then
      PackageTextsDistinguishable();
      ConfirmsOnlyOnYes(PackageTexts, messages, decision, formatPrice);
      r
    else r
  }

  /**
   * The round trip through the graph: a token made by `prepare_buy` from
   * encodable fields is unpacked into exactly those fields, and the reply
   * quotes them verbatim.
   */
  lemma {:induction false} ApprovalOfPreparedBuy(texts: ReplyTexts, history: seq<Message>, symbol: string,
                                                 quantity: int, totalPrice: Stocks.Float, decision: string,
                                                 formatPrice: string -> Option<string>)
    requires Stocks.Encodable(symbol, totalPrice)
    requires formatPrice(totalPrice.repr).Some?
    ensures var f := BuyFields(symbol, IntToString(quantity), totalPrice.repr);
      Approve(texts, history + [ToolMessage(Stocks.PrepareBuy(symbol, quantity, totalPrice))], decision, formatPrice)
      == Success(Reply(PromptText(f, formatPrice(totalPrice.repr).value),
                       AIMessage(if decision == "yes" then ApprovedText(texts, f) else texts.declined, [])))
  {
    Stocks.SplitPrepareBuy(symbol, quantity, totalPrice);
  }

  /** A symbol holding "::" makes the node raise on the unpack, with more than four values. */
  lemma {:induction false} ApprovalOfSepInSymbol(texts: ReplyTexts, history: seq<Message>, symbol: string,
                                                 quantity: int, totalPrice: Stocks.Float, decision: string,
                                                 formatPrice: string -> Option<string>)
    requires !NoSep(symbol)
    ensures var r := Approve(texts, history + [ToolMessage(Stocks.PrepareBuy(symbol, quantity, totalPrice))],
                              decision, formatPrice);
      r.Failure? && r.error.UnpackMismatch? && r.error.got > 4
  {
    Stocks.SplitPrepareBuySepInSymbol(symbol, quantity, totalPrice);
  }

  /** The demo's prompt, word for word. */
  lemma DemoPrompt()
    ensures PromptText(BuyFields("MSFT", "10", "2003.0"), "2003.00") == "Approve buying 10 MSFT stocks for $2003.00?"
  {
    assert "Approve buying " + "10" == "Approve buying 10";
    assert "Approve buying 10" + " " + "MSFT" == "Approve buying 10 MSFT";
    assert "Approve buying 10 MSFT" + " stocks for $" == "Approve buying 10 MSFT stocks for $";
    assert "Approve buying 10 MSFT stocks for $" + "2003.00" + "?" == "Approve buying 10 MSFT stocks for $2003.00?";
  }

  /** The demo's confirmation, word for word. */
  lemma DemoConfirmation()
    ensures ApprovedText(PackageTexts, BuyFields("MSFT", "10", "2003.0")) == "Approved: Bought 10 shares of MSFT for $2003.0"
  {
    assert "" + "Approved: " + "Bought " == "Approved: Bought ";
    assert "Approved: Bought " + "10" + " shares of " == "Approved: Bought 10 shares of ";
    assert "Approved: Bought 10 shares of " + "MSFT" + " for $" == "Approved: Bought 10 shares of MSFT for $";
    assert "Approved: Bought 10 shares of MSFT for $" + "2003.0" == "Approved: Bought 10 shares of MSFT for $2003.0";
  }

  /**
   * The demo's purchase: 10 MSFT staged at 2003.0 and approved with "yes"
   * is confirmed as "Approved: Bought 10 shares of MSFT for $2003.0".
   */
  lemma ApprovedDemoPurchase(history: seq<Message>, formatPrice: string -> Option<string>)
    requires formatPrice("2003.0") == Some("2003.00")
    ensures ApprovalNode(history + [ToolMessage(Stocks.PrepareBuy("MSFT", 10, Stocks.Float("2003.0")))], "yes", formatPrice)
         == Success(Reply("Approve buying 10 MSFT stocks for $2003.00?",
                          AIMessage("Approved: Bought 10 shares of MSFT for $2003.0", [])))
  {
    assert IntToString(10) == "10";
    assert Clean("MSFT") by {
      forall i | 0 <= i < 4 ensures !SepAt("MSFT", i) { }
    }
    assert NoSep("2003.0") by {
      forall i | 0 <= i < 6 ensures !SepAt("2003.0", i) { }
    }
    var f := BuyFields("MSFT", "10", "2003.0");
    var messages := history + [ToolMessage(Stocks.PrepareBuy("MSFT", 10, Stocks.Float("2003.0")))];
    ApprovalOfPreparedBuy(PackageTexts, history, "MSFT", 10, Stocks.Float("2003.0"), "yes", formatPrice);
    DemoPrompt();
    DemoConfirmation();
    assert ApprovalNode(messages, "yes", formatPrice) == Approve(PackageTexts, messages, "yes", formatPrice);
  }

  /** `run_demo` reads the decision as `input(...).strip().lower()`. */
  function NormalizeDecision(input: string): (d: string)
    ensures |d| <= |input|
    ensures d == [] || (!IsSpace(d[0]) && !IsSpace(d[|d| - 1]))
    ensures forall k :: 0 <= k < |d| ==> !('A' <= d[k] <= 'Z')
  {
    Lower(Strip(input))
  }

  lemma LowerKeepsSpace(s: string)
    ensures forall k :: 0 <= k < |s| ==> (IsSpace(Lower(s)[k]) <==> IsSpace(s[k]))
  {
  }

  /** Normalising a normalised decision changes nothing. */
  lemma NormalizeIdempotent(input: string)
    ensures NormalizeDecision(NormalizeDecision(input)) == NormalizeDecision(input)
  {
    var d := NormalizeDecision(input);
    StripTrimmed(d);
    assert Lower(d) == d;
  }

  /** Thanks to the normalisation, " Yes " typed at the prompt approves the trade. */
  lemma PaddedYesApproves()
    ensures NormalizeDecision(" Yes ") == "yes"
  {
    assert SkipSpace(" Yes ", 0) == 1 && TrimEnd(" Yes ", 1, 5) == 4;
  }

  /** `build_graph`'s edges: START→chatbot, chatbot→tools or END (tools_condition), tools→approval, approval→END. */
  function Edges(n: Node): (succ: set<Node>)
    ensures Chatbot in succ <==> n == Start
    ensures Tools in succ <==> n == Chatbot
    ensures Approval in succ <==> n == Tools
    ensures End in succ <==> n == Chatbot || n == Approval
    ensures succ <= {Chatbot, Tools, Approval, End}
  {
    match n
    case Start => {Chatbot}
    case Chatbot => {Tools, End}
    case Tools => {Approval}
    case Approval => {End}
    case _ => {}
  }

  /** Every run of the graph is a prefix of one of its two complete runs. */
  lemma {:induction false} RunShape(p: seq<Node>)
    requires IsRun(Edges, p)
    ensures p <= [Start, Chatbot, End] || p <= [Start, Chatbot, Tools, Approval, End]
    decreases |p|
  {
    if |p| > 1 {
      var q := p[..|p| - 1];
      assert IsRun(Edges, q);
      RunShape(q);
      assert p[|p| - 1] in Edges(q[|q| - 1]);
      assert p == q + [p[|p| - 1]];
    }
  }

  /**
   * After `tools` the only way on is `approval` and then END: a run passes
   * through `tools` at most once, never returns to `chatbot` after it, and
   * has at most five steps.
   */
  lemma ToolsAtMostOnce(p: seq<Node>)
    requires IsRun(Edges, p)
    ensures Visits(p, Tools) <= 1
    ensures forall i, j :: 0 <= i < j < |p| && p[i] == Tools ==> p[j] != Chatbot
    ensures |p| <= 5
  {
    RunShape(p);
    var full := [Start, Chatbot, Tools, Approval, End];
    var short := [Start, Chatbot, End];
    assert Visits([End], Tools) == 0;
    assert Visits([Approval, End], Tools) == 0;
    assert Visits([Tools, Approval, End], Tools) == 1;
    assert Visits([Chatbot, Tools, Approval, End], Tools) == 1;
    assert Visits(full, Tools) == 1;
    assert Visits([Chatbot, End], Tools) == 0;
    assert Visits(short, Tools) == 0;
    if p <= full {
      VisitsPrefix(p, full, Tools);
    } else {
      VisitsPrefix(p, short, Tools);
    }
  }
}
