# Stock-trading chat agents with a human approval gate, in Dafny

These tutorial scripts wire a chat model to two stock tools through a graph
framework. The framework runs a fixed graph of nodes. A human has to
approve every purchase before it is confirmed. This project models the
parts the scripts define themselves and proves what they promise.

- **The tools** (`Stocks`). `get_stock_price` looks an upper-cased symbol
  up in a four-entry table and returns `0.0` for any other symbol.
  `prepare_buy` stages a purchase as the token
  `REQUEST_BUY::<symbol>::<quantity>::<total_price>` and commits nothing.
- **The package's approval graph** (`Hitl`). The approval node recognises a
  staged token and unpacks it with `split("::")`. It raises the interrupt
  prompt and, once resumed, answers with a confirmation or a refusal. The
  demo driver normalises the typed decision. The graph's edges are fixed.
- **The stand-alone script** (`HitlScript`). Its first flow is the same
  design with its own wording and a case-sensitive price lookup. Its second
  flow moves the interrupt into a `buy_stocks` tool and loops from the
  tools back to the chatbot.
- **The two-agent example** (`MultiAgent`). A keyword router sends the
  conversation to a stock agent or a knowledge agent. The stock agent
  works on a copy of the transcript. The knowledge agent appends to the
  state's own list in place.

Supporting modules:

- `Text` holds the Python string operations the code relies on: `split`
  and its inverse, `in`, `upper`, `lower`, `strip` and `str(int)`.
- `Graph` holds node names and runs of a static edge relation.
- `Chat` holds the message classes.
- `Wrappers` holds `Option` and `Result`.

The framework's `interrupt(prompt)` becomes an explicit `decision`
argument. The node's result carries the prompt it raised.

A Python `float` is modelled only by its `str()` rendering (`Float(repr)`).
Two float operations are parameters:

- In the package node, `f"{float(field):.2f}"` is `formatPrice`. It returns
  `None` where `float()` raises.
- In `buy_stocks`, `f"{x:.2f}"` is `twoDecimals`.

Exceptions are `Result` failures:

- `IndexError` on an empty transcript;
- the `ValueError` of a four-way unpack that does not get four values;
- the `ValueError` from `float()`;
- the `KeyError` of a tool call without a `symbol` argument.

The decision is compared with the exact string `"yes"`. There is no
invalid-decision error: any other value is a refusal. The code sets no
bound on tool rounds (`HitlScript.AnyNumberOfToolRounds`). It keeps no busy
flag and uses no checkpoint store of its own.

The round trip of a token needs more than "no `::` in any field". A symbol
that ends in `:` moves the leftmost `::` one character to the left. For
example, `"MSFT:"` unpacks as symbol `"MSFT"` and quantity `":10"`
(`Stocks.SplitPrepareBuyColonSymbol`). The clean-field condition
`Text.Clean` therefore also excludes a trailing colon.

## Model

| member | source | states |
|---|---|---|
| Text.Split | src/langgraph_cb/graphs/hitl.py:43 | `split("::")` always gives at least one part, and the first part is a prefix of the input |
| Text.JoinSplit | src/langgraph_cb/graphs/hitl.py:43 | joining the parts of a split with "::" gives back the original string |
| Text.SplitPartsNoSep | src/langgraph_cb/graphs/hitl.py:43 | no part of a split contains "::" |
| Text.SplitJoin | src/langgraph_cb/graphs/hitl.py:43 | splitting a join gives back its parts when no part holds "::" and no part but the last ends in ':' |
| Text.SplitAfterClean | src/langgraph_cb/graphs/hitl.py:43 | a clean field followed by "::" is cut off exactly |
| Text.SplitLowerBound | src/langgraph_cb/graphs/hitl.py:43 | a string with k non-overlapping "::" splits into more than k parts |
| Text.ContainsIff | examples/chatbot_multiagent.py:44 | `w in s` holds exactly when `w` occurs at some index of `s` |
| Text.Upper | src/langgraph_cb/tools/stocks.py:13 | `upper()` keeps the length and maps each character on its own |
| Text.Lower | examples/chatbot_multiagent.py:42 | `lower()` keeps the length and maps each character on its own |
| Text.UpperIdempotent | src/langgraph_cb/tools/stocks.py:13 | upper-casing twice equals upper-casing once |
| Text.UpperOfLower | src/langgraph_cb/tools/stocks.py:13 | upper-casing undoes a previous lower-casing |
| Text.LowerOfUpper | examples/chatbot_multiagent.py:42 | lower-casing undoes a previous upper-casing |
| Text.SkipSpace | src/langgraph_cb/graphs/hitl.py:94 | the index reached skips only whitespace and stops at the end or at a non-whitespace character |
| Text.TrimEnd | src/langgraph_cb/graphs/hitl.py:94 | the end reached drops only whitespace and stops at the start or after a non-whitespace character |
| Text.Strip | src/langgraph_cb/graphs/hitl.py:94 | the result is the slice of the input between whitespace-only ends, and it has no whitespace at either end |
| Text.StripTrimmed | src/langgraph_cb/graphs/hitl.py:94 | a string with no whitespace at either end is its own strip |
| Text.NatToString | src/langgraph_cb/tools/stocks.py:19 | `str(n)` of a natural number is one or more decimal digits |
| Text.IntToString | src/langgraph_cb/tools/stocks.py:19 | `str(n)` is never empty and holds only digits and '-' |
| Text.NatToStringValue | src/langgraph_cb/tools/stocks.py:19 | the digits of `str(n)` read back as `n`, so the rendering loses nothing |
| Text.IntToStringClean | src/langgraph_cb/tools/stocks.py:19 | a rendered quantity is always a clean token field |
| Graph.VisitsConcat | src/langgraph_cb/graphs/hitl.py:72-75 | the visits of a node along a concatenated path add up |
| Graph.VisitsPrefix | src/langgraph_cb/graphs/hitl.py:72-75 | a prefix of a path visits a node no more often than the path |
| Stocks.GetStockPrice | src/langgraph_cb/tools/stocks.py:4-13 | gives the tabled price of the upper-cased symbol for MSFT, AAPL, AMZN and RIL, and `0.0` for every other symbol |
| Stocks.PriceIgnoresCase | src/langgraph_cb/tools/stocks.py:13 | a symbol, its upper-case form and its lower-case form have the same price |
| Stocks.PriceZeroIffUntabled | src/langgraph_cb/tools/stocks.py:7-13 | the result is `0.0` exactly when the upper-cased symbol is not in the table |
| Stocks.LowerCaseSymbolFound | src/langgraph_cb/tools/stocks.py:13 | "msft" costs 200.3 |
| Stocks.PrepareBuy | src/langgraph_cb/tools/stocks.py:16-19 | the token starts with "REQUEST_BUY::" and is the "::"-join of the head, the symbol, `str(quantity)` and `str(total_price)` |
| Stocks.SplitPrepareBuy | src/langgraph_cb/graphs/hitl.py:43 | round trip: splitting a token built from encodable fields gives exactly those four fields |
| Stocks.SplitPrepareBuySepInSymbol | src/langgraph_cb/graphs/hitl.py:43 | a symbol that holds "::" gives more than four parts |
| Stocks.ColonQuantityClean | src/langgraph_cb/graphs/hitl.py:43 | a colon followed by a rendered quantity is a clean field |
| Stocks.SplitPrepareBuyColonSymbol | src/langgraph_cb/graphs/hitl.py:43 | a clean symbol with one ':' appended loses that colon to the quantity when the token is split, for example "MSFT:" and 10 unpack as "MSFT" and ":10" |
| Stocks.SplitRequestHead | src/langgraph_cb/graphs/hitl.py:40-43 | every content that starts with "REQUEST_BUY::" splits with "REQUEST_BUY" as its first part |
| Hitl.ParseBuyRequest | src/langgraph_cb/graphs/hitl.py:43 | the unpack succeeds exactly when the split has four parts and fails reporting the number it got; the fields hold no "::" and re-join to the content |
| Hitl.Contributed | src/langgraph_cb/graphs/hitl.py:50-63 | a node call adds at most one message, and a reply adds exactly one; this follows from the shape of `ApprovalStep`, whose `Reply` holds exactly one message |
| Hitl.Approve | src/langgraph_cb/graphs/hitl.py:37-63 | fails exactly on an empty transcript; adds nothing unless the last message is a tool message starting with the request head; otherwise raises the unpack or `float` error, or prompts with quantity, symbol and two-decimal price and answers with the confirmation on "yes" and the refusal on anything else |
| Hitl.PackageTextsDistinguishable | src/langgraph_cb/graphs/hitl.py:49-61 | the package's refusal can never be read as a confirmation |
| Hitl.ConfirmsOnlyOnYes | src/langgraph_cb/graphs/hitl.py:49-61 | a reply is a confirmation exactly when the decision is "yes" |
| Hitl.PromptText | src/langgraph_cb/graphs/hitl.py:46 | the prompt starts with "Approve buying " and ends with "?"; the quantity, the symbol and the rendered amount appear verbatim at their positions |
| Hitl.ApprovedText | src/langgraph_cb/graphs/hitl.py:54-55 | the confirmation starts with the approval head "Approved: "; the quantity, the symbol and the price field appear verbatim at their positions, the price field last |
| Hitl.ApprovalNode | src/langgraph_cb/graphs/hitl.py:37-63 | with the package's wording, a reply is "Trade declined by human." exactly when the decision is not "yes", and is a confirmation exactly when it is |
| Hitl.ApprovalOfPreparedBuy | src/langgraph_cb/graphs/hitl.py:40-59 | a token from `prepare_buy` with encodable fields is unpacked into exactly those fields, and the prompt and reply quote them |
| Hitl.ApprovalOfSepInSymbol | src/langgraph_cb/graphs/hitl.py:43 | a symbol holding "::" makes the node fail on the unpack with more than four values |
| Hitl.DemoPrompt | src/langgraph_cb/graphs/hitl.py:45-47 | the prompt for 10 MSFT at 2003.0 reads "Approve buying 10 MSFT stocks for $2003.00?" |
| Hitl.DemoConfirmation | src/langgraph_cb/graphs/hitl.py:49-59 | the confirmation for 10 MSFT at 2003.0 reads "Approved: Bought 10 shares of MSFT for $2003.0" |
| Hitl.ApprovedDemoPurchase | src/langgraph_cb/graphs/hitl.py:84-97 | the demo purchase of 10 MSFT at 2003.0, approved with "yes", prompts "Approve buying 10 MSFT stocks for $2003.00?" and confirms "Approved: Bought 10 shares of MSFT for $2003.0" |
| Hitl.NormalizeDecision | src/langgraph_cb/graphs/hitl.py:94 | the normalised decision is no longer than the input, has no whitespace at either end and has no upper-case letter |
| Hitl.LowerKeepsSpace | src/langgraph_cb/graphs/hitl.py:94 | lower-casing turns no character into whitespace or out of it |
| Hitl.NormalizeIdempotent | src/langgraph_cb/graphs/hitl.py:94 | normalising twice equals normalising once |
| Hitl.PaddedYesApproves | src/langgraph_cb/graphs/hitl.py:94 | " Yes " typed at the prompt becomes "yes" |
| Hitl.Edges | src/langgraph_cb/graphs/hitl.py:72-75 | chatbot is entered only from START, tools only from chatbot, approval only from tools, END only from chatbot or approval; no other node is a successor |
| Hitl.RunShape | src/langgraph_cb/graphs/hitl.py:72-75 | every run is a prefix of START, chatbot, END or of START, chatbot, tools, approval, END |
| Hitl.ToolsAtMostOnce | src/langgraph_cb/graphs/hitl.py:72-75 | a run visits tools at most once, never returns to chatbot after tools, and has at most five steps |
| HitlScript.GetStockPrice | chatbot_hitl.py:27-36 | the script's lookup is nonzero exactly for the table's keys as written, and agrees with the package's lookup on upper-case symbols |
| HitlScript.LookupIsCaseSensitive | chatbot_hitl.py:36 | "msft" costs 0.0 in the script and 200.3 in the package |
| HitlScript.PrepareBuy | chatbot_hitl.py:39-45 | the script's token equals the package's, character for character |
| HitlScript.ScriptTextsDistinguishable | chatbot_hitl.py:82-89 | the script's refusal can never be read as a confirmation |
| HitlScript.ApprovalNode | chatbot_hitl.py:64-93 | fails, adds nothing and prompts exactly as the package's node; the reply is the cross-marked refusal exactly when the decision is not "yes", and a check-marked confirmation exactly when it is |
| HitlScript.PurchaseReport | chatbot_hitl.py:159 | the purchase report starts "You bought "; the quantity, the symbol and the amount appear verbatim at their positions, the amount last |
| HitlScript.BuyStocks | chatbot_hitl.py:151-161 | prompts like the approval node; answers "Buying declined." exactly when the decision is not "yes"; on "yes" the report starts "You bought " and quotes the quantity, the symbol and the rendered total at their positions, the total last |
| HitlScript.CapitalYesDiffersBetweenFlows | chatbot_hitl.py:218-221 | typed "Yes" confirms a staged purchase in the first flow, which strips and lower-cases the input, and is declined by `buy_stocks`, which takes it as typed |
| HitlScript.ApprovalGraphEdges | chatbot_hitl.py:104-107 | the first graph has exactly the package graph's edges |
| HitlScript.ApprovalGraphToolsAtMostOnce | chatbot_hitl.py:104-107 | the first graph visits tools at most once per run, and a run has at most five steps |
| HitlScript.ToolRounds | chatbot_hitl.py:190-192 | START and chatbot followed by `n` tools-chatbot rounds take `2n + 2` steps and end at chatbot |
| HitlScript.ToolLoopEdges | chatbot_hitl.py:190-193 | chatbot is entered only from START or tools, tools and END only from chatbot; no other node is a successor |
| HitlScript.ToolRoundsRun | chatbot_hitl.py:190-192 | those steps are a run of the second graph that visits tools exactly `n` times |
| HitlScript.LoopRun | chatbot_hitl.py:190-193 | the `n`-round run has `2n + 3` steps, starts at START and ends chatbot, END |
| HitlScript.AnyNumberOfToolRounds | chatbot_hitl.py:190-193 | for every `n`, the second graph has a run through tools exactly `n` times; it sets no bound |
| MultiAgent.GetStockPrice | examples/chatbot_multiagent.py:20-30 | agrees with the package's lookup except for RIL, which costs 0.0 here |
| MultiAgent.RilUnpriced | examples/chatbot_multiagent.py:25-30 | RIL costs 0.0 here and 87.6 in the package |
| MultiAgent.RouterAgent | examples/chatbot_multiagent.py:41-47 | fails exactly on an empty transcript; the route is always a key of the conditional-edge map; it is "stock" exactly when the lower-cased last content contains "price" or "stock" |
| MultiAgent.RouterIgnoresCase | examples/chatbot_multiagent.py:42 | upper-casing the last message does not change the route |
| MultiAgent.RouterReadsOnlyLast | examples/chatbot_multiagent.py:42 | the route depends on the last message only |
| MultiAgent.ShoutedPriceRoutesToStock | examples/chatbot_multiagent.py:42-45 | "PRICE" routes to the stock agent |
| MultiAgent.Edges | examples/chatbot_multiagent.py:92-107 | router is entered only from START, stock only from router or tools, knowledge only from router, tools only from stock, END only from stock or knowledge; no other node is a successor |
| MultiAgent.RouteIsAnEdge | examples/chatbot_multiagent.py:94-101 | every route names a node that follows the router |
| MultiAgent.KnowledgeBranchEnds | examples/chatbot_multiagent.py:92-107 | a run through the knowledge agent ends right after it and never reaches the tools |
| MultiAgent.PriceSentence | examples/chatbot_multiagent.py:66 | the sentence starts with "The current price of " and ends with "."; the symbol and the price's text appear verbatim at their positions |
| MultiAgent.StockAgent | examples/chatbot_multiagent.py:49-69 | the input transcript is kept as a prefix; the model's reply (or "") comes next; one more entry, the price sentence for the first tool call's symbol, comes exactly when there are tool calls; a missing "symbol" argument fails exactly then |
| MultiAgent.AgentState.constructor | examples/chatbot_multiagent.py:15-18 | a new state holds the given messages and no route |
| MultiAgent.KnowledgeAgent | examples/chatbot_multiagent.py:71-83 | the reply is appended to the state's own transcript in place, the route is unchanged, and the update returned is that same transcript |

## Left out

- Calls to the chat model (`invoke` on the model, with or without tools). Their responses are inputs: `LlmResponse`, `reply` and the tool messages in the transcript.
- `chatbot_node`: it only forwards the model's response. It is covered by the graph edges and the transcript inputs.
- The framework itself is not part of this model. This covers the graph builder, the prebuilt tool node, `tools_condition`, the `add_messages` reducer, `MemorySaver`, checkpoint threads, `Command(resume=...)` and how a node's returned update is merged into the state.
- Conditional edges: each is modelled as the set of its possible targets. Which target `tools_condition` picks is not modelled.
- In the two-agent graph, the stock agent's entries are plain dicts without tool calls. How the prebuilt `tools_condition` treats them is framework behaviour and not modelled, so the `stock → tools` edge is kept as written.
- Hitl.Approve: float formatting (`:.2f`) and `float()` parsing are the parameter `formatPrice`. The model does not compute them.
- HitlScript.BuyStocks: the `:.2f` rendering is the parameter `twoDecimals`.
- Float values and arithmetic (for example the model's total price) are not modelled. A price is known only by its `str()` text.
- Text.Upper, Text.Lower, Text.Strip: these follow Python only for ASCII. Python's Unicode case mapping and whitespace classes are wider.
- Terminal input and output (`input`, `print`, displaying the graph image) and the order of the demo invocations in the scripts.
- `load_env`, the `.env` loading in `config.py`, and environment variables.
- The second `get_stock_price` in chatbot_hitl.py (lines 140-148) has the same table and the same case-sensitive `.get`. It is covered by HitlScript.GetStockPrice.
- The other example scripts (simple chat, memory, mock and networked tools, tracing). They copy the patterns modelled here or call services.
