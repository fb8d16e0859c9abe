/**
 * The stand-alone approval script. Its first half repeats the package's
 * design with its own wording (an approval node after the tools); its
 * second half moves the interrupt into a `buy_stocks` tool and loops from
 * the tools back to the chatbot. Both price lookups of the script use the
 * package's table but do not upper-case the symbol.
 */
module HitlScript {
  import opened Wrappers
  import opened Text
  import opened Graph
  import opened Chat
  import Stocks
  import Hitl

  /**
   * The script's `get_stock_price` (defined twice, with the same table and
   * the same `.get(symbol, 0.0)`): a case-sensitive lookup.
   */
  function GetStockPrice(symbol: string): (price: Stocks.Float)
    ensures price != Stocks.Zero <==> symbol in Stocks.Prices
    ensures Upper(symbol) == symbol ==> price == Stocks.GetStockPrice(symbol)
  {
    if symbol in Stocks.Prices then Stocks.Prices[symbol] else Stocks.Zero
  }

  /** Unlike the package's lookup, a lower-case symbol finds nothing. */
  lemma LookupIsCaseSensitive()
    ensures GetStockPrice("msft") == Stocks.Zero
    ensures Stocks.GetStockPrice("msft") == Stocks.Float("200.3")
  {
    Stocks.LowerCaseSymbolFound();
  }

  /** The script's `prepare_buy`: the package's four-field token, character for character. */
  function PrepareBuy(symbol: string, quantity: int, totalPrice: Stocks.Float): (token: string)
    ensures token == Stocks.PrepareBuy(symbol, quantity, totalPrice)
  {
    "REQUEST_BUY::" + symbol + "::" + IntToString(quantity) + "::" + totalPrice.repr
  }

  /** The script's wording: a check mark before the confirmation, a cross before the refusal. */
  const ScriptTexts := Hitl.ReplyTexts("\U{2705} ", "\U{274C} Trade declined by human.")

  lemma ScriptTextsDistinguishable()
    ensures Hitl.Distinguishable(ScriptTexts)
  {
    var head := ScriptTexts.approvedMark + "Approved: ";
    assert head[0] == '\U{2705}' && ScriptTexts.declined[0] == '\U{274C}';
  }

  /**
   * The script's `approval_node`: the package's gating, unpacking and
   * prompt, only the reply wording differs.
   */
  function ApprovalNode(messages: seq<Message>, decision: string,
                        formatPrice: string -> Option<string>): (r: Result<Hitl.ApprovalStep, Hitl.NodeError>)
    ensures var p := Hitl.ApprovalNode(messages, decision, formatPrice);
      && (r.Failure? <==> p.Failure?)
      && (r.Failure? ==> r == p)
      && (r == Success(Hitl.NoUpdate) <==> p == Success(Hitl.NoUpdate))
      && (r.Success? && r.value.Reply? ==> p.Success? && p.value.Reply? && r.value.prompt == p.value.prompt)
    ensures r.Success? && r.value.Reply? ==>
      (r.value.message.content == "\U{274C} Trade declined by human." <==> decision != "yes")
    ensures r.Success? && r.value.Reply? ==>
      (Hitl.IsConfirmation(ScriptTexts, r.value.message) <==> decision == "yes")
  {
    var r := Hitl.Approve(ScriptTexts, messages, decision, formatPrice);
    if r.Success? && r.value.Reply? then
      ScriptTextsDistinguishable();
      Hitl.ConfirmsOnlyOnYes(ScriptTexts, messages, decision, formatPrice);
      r
    else r
  }

  /** A tool call of the second flow: the prompt it interrupted with and the text it returned. */
  datatype ToolRun = ToolRun(prompt: string, result: string)

  /** `buy_stocks`'s report of a purchase: the quantity, the symbol and the amount, each quoted at its position. */
  function PurchaseReport(quantity: string, symbol: string, amount: string): (r: string)
    ensures "You bought " <= r
    ensures OccursAt(r, quantity, 11)
    ensures OccursAt(r, symbol, 22 + |quantity|)
    ensures OccursAt(r, amount, |r| - |amount|)
  {
    var withQuantity := "You bought " + quantity + " shares of ";
    var withSymbol := withQuantity + symbol + " for a total price of $";
    OccursAtEnd("You bought ", quantity);
    OccursAtExtend("You bought " + quantity, " shares of ", quantity, 11);
    OccursAtExtend(withQuantity, symbol, quantity, 11);
    OccursAtEnd(withQuantity, symbol);
    OccursAtExtend(withQuantity + symbol, " for a total price of $", quantity, 11);
    OccursAtExtend(withQuantity + symbol, " for a total price of $", symbol, |withQuantity|);
    OccursAtExtend(withSymbol, amount, quantity, 11);
    OccursAtExtend(withSymbol, amount, symbol, |withQuantity|);
    OccursAtEnd(withSymbol, amount);
    withSymbol + amount
  }

  /**
   * `buy_stocks`: interrupts inside the tool, then reports the purchase for
   * the exact decision "yes" and "Buying declined." for anything else.
   * `twoDecimals(x)` is `f"{x:.2f}"`.
   */
  function BuyStocks(symbol: string, quantity: int, totalPrice: Stocks.Float, decision: string,
                     twoDecimals: Stocks.Float -> string): (run: ToolRun)
    ensures run.prompt == Hitl.PromptText(Hitl.BuyFields(symbol, IntToString(quantity), totalPrice.repr),
                                          twoDecimals(totalPrice))
    ensures run.result == "Buying declined." <==> decision != "yes"
    ensures decision == "yes" ==> "You bought " <= run.result
    ensures decision == "yes" ==>
      OccursAt(run.result, IntToString(quantity), 11) &&
      OccursAt(run.result, symbol, 22 + |IntToString(quantity)|) &&
      OccursAt(run.result, twoDecimals(totalPrice), |run.result| - |twoDecimals(totalPrice)|)
  {
    var prompt := "Approve buying " + IntToString(quantity) + " " + symbol + " stocks for $" + twoDecimals(totalPrice) + "?";
    var bought := PurchaseReport(IntToString(quantity), symbol, twoDecimals(totalPrice));
    assert bought[0] == 'Y';
    var result := if decision == "yes" then bought else "Buying declined.";
    ToolRun(prompt, result)
  }

  /**
   * The first flow strips and lower-cases the typed decision, the second
   * passes it through as typed: "Yes" approves a staged purchase in the
   * first and is declined in the second.
   */
  lemma CapitalYesDiffersBetweenFlows(history: seq<Message>, symbol: string, quantity: int,
                                      totalPrice: Stocks.Float, formatPrice: string -> Option<string>,
                                      twoDecimals: Stocks.Float -> string)
    requires Stocks.Encodable(symbol, totalPrice)
    requires formatPrice(totalPrice.repr).Some?
    ensures var r := ApprovalNode(history + [ToolMessage(PrepareBuy(symbol, quantity, totalPrice))],
                                  Hitl.NormalizeDecision("Yes"), formatPrice);
      r.Success? && r.value.Reply? && Hitl.IsConfirmation(ScriptTexts, r.value.message)
    ensures BuyStocks(symbol, quantity, totalPrice, "Yes", twoDecimals).result == "Buying declined."
  {
    StripTrimmed("Yes");
    assert Lower("Yes") == "yes";
    assert Hitl.NormalizeDecision("Yes") == "yes";
    Hitl.ApprovalOfPreparedBuy(ScriptTexts, history, symbol, quantity, totalPrice, "yes", formatPrice);
  }

  /** The first graph (chatbot, tools, approval): the package's edges. */
  function ApprovalGraphEdges(n: Node): (succ: set<Node>)
    ensures succ == Hitl.Edges(n)
  {
    match n
    case Start => {Chatbot}
    case Chatbot => {Tools, End}
    case Tools => {Approval}
    case Approval => {End}
    case _ => {}
  }

  /** So the first graph, too, ends after the approval node and runs its tools at most once. */
  lemma ApprovalGraphToolsAtMostOnce(p: seq<Node>)
    requires IsRun(ApprovalGraphEdges, p)
    ensures Visits(p, Tools) <= 1 && |p| <= 5
  {
    forall i | 0 <= i < |p| - 1 ensures p[i + 1] in Hitl.Edges(p[i]) {
      assert p[i + 1] in ApprovalGraphEdges(p[i]);
    }
    assert IsRun(Hitl.Edges, p);
    Hitl.ToolsAtMostOnce(p);
  }

  /** The second graph: START→chatbot, chatbot→tools or END, tools→chatbot. */
  function ToolLoopEdges(n: Node): (succ: set<Node>)
    ensures Chatbot in succ <==> n == Start || n == Tools
    ensures Tools in succ <==> n == Chatbot
    ensures End in succ <==> n == Chatbot
    ensures succ <= {Chatbot, Tools, End}
  {
    match n
    case Start => {Chatbot}
    case Chatbot => {Tools, End}
    case Tools => {Chatbot}
    case _ => {}
  }

  /** START, chatbot, then `n` rounds of tools and chatbot. */
  function ToolRounds(n: nat): (p: seq<Node>)
    ensures |p| == 2 * n + 2 && p[0] == Start && p[|p| - 1] == Chatbot
  {
    if n == 0 then [Start, Chatbot] else ToolRounds(n - 1) + [Tools, Chatbot]
  }

  /** Every such prefix is a run of the second graph, and it passes through tools once per round. */
  lemma {:induction false} ToolRoundsRun(n: nat)
    ensures IsRun(ToolLoopEdges, ToolRounds(n))
    ensures Visits(ToolRounds(n), Tools) == n
  {
    if n == 0 {
      assert Visits([Chatbot], Tools) == 0 by { assert [Chatbot][1..] == []; }
      assert ToolRounds(0)[1..] == [Chatbot];
    } else {
      var q := ToolRounds(n - 1);
      var p := q + [Tools, Chatbot];
      ToolRoundsRun(n - 1);
      forall i | 0 <= i < |p| - 1 ensures p[i + 1] in ToolLoopEdges(p[i]) {
        if i < |q| - 1 {
          assert p[i] == q[i] && p[i + 1] == q[i + 1];
        }
      }
      VisitsConcat(q, [Tools, Chatbot], Tools);
      assert Visits([Tools, Chatbot], Tools) == 1 by {
        assert [Tools, Chatbot][1..] == [Chatbot];
        assert [Chatbot][1..] == [];
      }
    }
  }

  /** The run that takes `n` tool rounds and then ends. */
  function LoopRun(n: nat): (p: seq<Node>)
    ensures |p| == 2 * n + 3 && p[0] == Start && p[|p| - 2] == Chatbot && p[|p| - 1] == End
  {
    ToolRounds(n) + [End]
  }

  /**
   * The second graph has no bound on tool rounds: for every `n` there is a
   * run through `tools` exactly `n` times.
   */
  lemma {:induction false} AnyNumberOfToolRounds(n: nat)
    ensures IsRun(ToolLoopEdges, LoopRun(n))
    ensures Visits(LoopRun(n), Tools) == n
  {
    var q := ToolRounds(n);
    var p := LoopRun(n);
    ToolRoundsRun(n);
    forall i | 0 <= i < |p| - 1 ensures p[i + 1] in ToolLoopEdges(p[i]) {
      if i < |q| - 1 {
        assert p[i] == q[i] && p[i + 1] == q[i + 1];
      }
    }
    VisitsConcat(q, [End], Tools);
    assert Visits([End], Tools) == 0 by { assert [End][1..] == []; }
  }
}
