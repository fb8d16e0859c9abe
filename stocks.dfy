/**
 * The two tools of the package: the price lookup `get_stock_price` and the
 * buy-request encoder `prepare_buy`, which stages a purchase as the token
 * `REQUEST_BUY::<symbol>::<quantity>::<total_price>` and commits nothing.
 */
module Stocks {
  import opened Text

  /** A Python `float`, known only by its `str()` rendering; float arithmetic is not modelled. */
  datatype Float = Float(repr: string)

  /** The lookup's default, `0.0`. */
  const Zero := Float("0.0")

  /** The package's price table, keyed by upper-case symbol. */
  const Prices: map<string, Float> :=
    map["MSFT" := Float("200.3"), "AAPL" := Float("100.4"), "AMZN" := Float("150.0"), "RIL" := Float("87.6")]

  /** `get_stock_price`: the tabled price of the upper-cased symbol, `0.0` for any other symbol. */
  function GetStockPrice(symbol: string): (price: Float)
    ensures Upper(symbol) == "MSFT" ==> price == Float("200.3")
    ensures Upper(symbol) == "AAPL" ==> price == Float("100.4")
    ensures Upper(symbol) == "AMZN" ==> price == Float("150.0")
    ensures Upper(symbol) == "RIL" ==> price == Float("87.6")
    ensures Upper(symbol) !in {"MSFT", "AAPL", "AMZN", "RIL"} ==> price == Zero
  {
    var key := Upper(symbol);
    if key in Prices then Prices[key] else Zero
  }

  /** The lookup ignores case: a symbol, its upper-cased and its lower-cased form cost the same. */
  lemma PriceIgnoresCase(symbol: string)
    ensures GetStockPrice(Upper(symbol)) == GetStockPrice(symbol)
    ensures GetStockPrice(Lower(symbol)) == GetStockPrice(symbol)
  {
    UpperIdempotent(symbol);
    UpperOfLower(symbol);
  }

  /** The default `0.0` comes back exactly for the symbols off the table: no tabled price is zero. */
  lemma PriceZeroIffUntabled(symbol: string)
    ensures GetStockPrice(symbol) == Zero <==> Upper(symbol) !in Prices
  {
  }

  /** A lower-case query finds the table entry. */
  lemma LowerCaseSymbolFound()
    ensures GetStockPrice("msft") == Float("200.3")
  {
    assert Upper("msft") == "MSFT";
  }

  /** The token's constant head; `approval_node` gates on it. */
  const RequestPrefix := "REQUEST_BUY::"

  /** `prepare_buy`: the staged request as one string, the four fields joined by "::". */
  function PrepareBuy(symbol: string, quantity: int, totalPrice: Float): (token: string)
    ensures RequestPrefix <= token
    ensures token == Join(["REQUEST_BUY", symbol, IntToString(quantity), totalPrice.repr])
  {
    var fields := ["REQUEST_BUY", symbol, IntToString(quantity), totalPrice.repr];
    assert Join(fields[2..]) == IntToString(quantity) + "::" + totalPrice.repr by {
      assert fields[2..][1..] == [totalPrice.repr];
    }
    assert Join(fields[1..]) == symbol + "::" + Join(fields[2..]) by {
      assert fields[1..][1..] == fields[2..];
    }
    "REQUEST_BUY::" + symbol + "::" + IntToString(quantity) + "::" + totalPrice.repr
  }

  /**
   * The fields a token carries through `split("::")` unchanged: the symbol
   * holds no "::" and does not end in ':', the rendered price holds no "::".
   * (A rendered `int` always qualifies.)
   */
  predicate Encodable(symbol: string, totalPrice: Float) {
    Clean(symbol) && NoSep(totalPrice.repr)
  }

  lemma HeadClean()
    ensures Clean("REQUEST_BUY")
  {
    var h := "REQUEST_BUY";
    forall i | 0 <= i < |h| ensures !SepAt(h, i) {
      assert h[i] != ':';
    }
  }

  /** Round trip: splitting an encodable token gives back exactly its four fields. */
  lemma SplitPrepareBuy(symbol: string, quantity: int, totalPrice: Float)
    requires Encodable(symbol, totalPrice)
    ensures Split(PrepareBuy(symbol, quantity, totalPrice))
         == ["REQUEST_BUY", symbol, IntToString(quantity), totalPrice.repr]
  {
    HeadClean();
    IntToStringClean(quantity);
    SplitJoin(["REQUEST_BUY", symbol, IntToString(quantity), totalPrice.repr]);
  }

  /** A symbol holding "::" yields more than four fields, so a four-way unpack of the split fails. */
  lemma SplitPrepareBuySepInSymbol(symbol: string, quantity: int, totalPrice: Float)
    requires !NoSep(symbol)
    ensures |Split(PrepareBuy(symbol, quantity, totalPrice))| > 4
  {
    var i :| 0 <= i < |symbol| && SepAt(symbol, i);
    var q := IntToString(quantity);
    var token := PrepareBuy(symbol, quantity, totalPrice);
    assert token == "REQUEST_BUY::" + symbol + "::" + q + "::" + totalPrice.repr;
    var P := [11, 13 + i, 13 + |symbol|, 15 + |symbol| + |q|];
    assert SepAt(token, 11);
    assert SepAt(token, 13 + i) by {
      assert token[13 + i] == symbol[i] && token[14 + i] == symbol[i + 1];
    }
    assert SepAt(token, 13 + |symbol|);
    assert SepAt(token, 15 + |symbol| + |q|);
    assert Separated(token, P);
    SplitLowerBound(token, P);
  }

  /** A colon followed by a rendered integer is a clean field. */
  lemma ColonQuantityClean(quantity: int)
    ensures Clean(":" + IntToString(quantity))
  {
    var q := IntToString(quantity);
    var f := ":" + q;
    forall i | 0 <= i < |f| ensures !SepAt(f, i) {
      if i + 1 < |f| {
        assert f[i + 1] == q[i];
      }
    }
    assert f[|f| - 1] == q[|q| - 1];
  }

  lemma MoveColon(s: string, r: string)
    ensures (s + ":") + "::" + r == s + "::" + (":" + r)
  {
    assert (s + ":") + "::" == s + ":::";
    assert s + "::" + ":" == s + ":::";
  }

  /**
   * A symbol ending in one ':' is not a clean field: the leftmost "::"
   * starts one character early, so the symbol loses its colon and the
   * quantity gains it ("MSFT:" unpacks as "MSFT" and ":10").
   */
  lemma SplitPrepareBuyColonSymbol(symbol: string, quantity: int, totalPrice: Float)
    requires Clean(symbol) && NoSep(totalPrice.repr)
    ensures Split(PrepareBuy(symbol + ":", quantity, totalPrice))
         == ["REQUEST_BUY", symbol, ":" + IntToString(quantity), totalPrice.repr]
  {
    var q := IntToString(quantity);
    var p := totalPrice.repr;
    var fields := ["REQUEST_BUY", symbol, ":" + q, p];
    Join4("REQUEST_BUY", symbol + ":", q, p);
    Join4("REQUEST_BUY", symbol, ":" + q, p);
    MoveColon(symbol, q + "::" + p);
    assert ":" + (q + "::" + p) == (":" + q) + "::" + p;
    assert PrepareBuy(symbol + ":", quantity, totalPrice) == Join(fields);
    HeadClean();
    ColonQuantityClean(quantity);
    SplitJoin(fields);
  }

  /** Every token starting with the request head has "REQUEST_BUY" as its first field. */
  lemma SplitRequestHead(content: string)
    requires RequestPrefix <= content
    ensures Split(content)[0] == "REQUEST_BUY"
  {
    HeadClean();
    assert content == "REQUEST_BUY" + "::" + content[13..];
    SplitAfterClean("REQUEST_BUY", content[13..]);
  }
}
