/** The `Endpoint` facade: one request builder per REST method, and the
    decoding of the reply for the methods that decode it.

    Each builder copies the caller's options, writes its fixed keys over
    them and names the single client call the request goes to. The reply
    the HTTP client returns for that request is an argument of the
    `...Reply` functions, which pipe it into the matching decoder with
    `>>=`. Quantities and prices are the text the caller's number formats
    to. */
module Endpoint {
  import opened Monads
  import opened JsonValue
  import opened Decimal
  import opened Requests
  import opened Decoders

  /** The keys `order` always writes. */
  const OrderKeys: set<string> := {"side", "symbol", "quantity", "type"}

  // ----- market data (public) -----

  function Ping(): (r: Request)
    ensures Recognize(r.route) == Just(PingOp)
    ensures r.params == map[]
  {
    Request(RouteOf(PingOp), map[])
  }

  function Time(): (r: Request)
    ensures Recognize(r.route) == Just(TimeOp)
    ensures r.params == map[]
  {
    Request(RouteOf(TimeOp), map[])
  }

  /** `time()`: the server-time decoder applied to the reply, if any. */
  function TimeReply(reply: Maybe<Json>, asLong: Json -> int): (r: Maybe<int>)
    ensures reply.Nothing? ==> r.Nothing?
    ensures r.Just? <==> reply.Just? && Has(reply.value, "serverTime")
    ensures r.Just? ==> r.value == asLong(reply.value.fields["serverTime"])
  {
    Bind(reply, j => GetServerTime(j, asLong))
  }

  function OrderBookWith(symbol: string, options: Params): (r: Request)
    ensures Recognize(r.route) == Just(DepthOp)
    ensures Overwrites(r.params, options, map["symbol" := symbol])
  {
    var params := options;
    var params := params["symbol" := symbol];
    Request(RouteOf(DepthOp), params)
  }

  /** `order_book(symbol, limit)`: the limit as decimal text, and the
      symbol. */
  function OrderBookLimit(symbol: string, limit: Int32): (r: Request)
    ensures r == OrderBookWith(symbol, map["limit" := IntToString(limit as int)])
    ensures r.params.Keys == {"limit", "symbol"}
    ensures r.params["symbol"] == symbol
    ensures ParseInt(r.params["limit"]) == Just(limit as int)
  {
    IntToStringRoundTrip(limit as int);
    OrderBookWith(symbol, map["limit" := IntToString(limit as int)])
  }

  function OrderBook(symbol: string): (r: Request)
    ensures r == OrderBookWith(symbol, map[])
    ensures Recognize(r.route) == Just(DepthOp)
    ensures r.params == map["symbol" := symbol]
  {
    OrderBookWith(symbol, map[])
  }

  /** `order_book(...)`: the order-book decoder applied to the reply. */
  function OrderBookReply<B>(reply: Maybe<Json>, toBook: Json -> B): (r: Maybe<B>)
    ensures reply.Nothing? ==> r.Nothing?
    ensures r.Just? <==>
      (reply.Just? && Has(reply.value, "lastUpdateId") && Has(reply.value, "bids")
       && Has(reply.value, "asks"))
    ensures r.Just? ==> r.value == toBook(reply.value)
  {
    Bind(reply, j => GetOrderBook(j, toBook))
  }

  function AggTradesWith(symbol: string, options: Params): (r: Request)
    ensures Recognize(r.route) == Just(AggTradesOp)
    ensures Overwrites(r.params, options, map["symbol" := symbol])
  {
    var params := options;
    var params := params["symbol" := symbol];
    Request(RouteOf(AggTradesOp), params)
  }

  function AggTrades(symbol: string): (r: Request)
    ensures r == AggTradesWith(symbol, map[])
    ensures r.params == map["symbol" := symbol]
  {
    AggTradesWith(symbol, map[])
  }

  /** `agg_trades(...)`: the trades decoder applied to the reply. */
  function AggTradesReply<A>(reply: Maybe<Json>, toTrade: Json -> A): (r: Maybe<seq<A>>)
    ensures r.Just? <==> reply.Just? && reply.value.Arr?
    ensures r.Just? ==> |r.value| == |reply.value.items|
    ensures r.Just? ==>
      forall i :: 0 <= i < |r.value| ==> r.value[i] == toTrade(reply.value.items[i])
  {
    Bind(reply, j => GetAggTrades(j, toTrade))
  }

  function CandlestickBarsWith(symbol: string, interval: string, options: Params): (r: Request)
    ensures Recognize(r.route) == Just(KlinesOp)
    ensures Overwrites(r.params, options, map["symbol" := symbol, "interval" := interval])
  {
    var params := options;
    var params := params["symbol" := symbol];
    var params := params["interval" := interval];
    Request(RouteOf(KlinesOp), params)
  }

  function CandlestickBars(symbol: string, interval: string): (r: Request)
    ensures r == CandlestickBarsWith(symbol, interval, map[])
    ensures r.params == map["symbol" := symbol, "interval" := interval]
  {
    CandlestickBarsWith(symbol, interval, map[])
  }

  /** `candlestick_bars(...)`: the candlestick decoder applied to the
      reply. */
  function CandlestickBarsReply<C>(reply: Maybe<Json>, toCandle: Json -> C): (r: Maybe<seq<C>>)
    ensures r.Just? <==> reply.Just? && reply.value.Arr?
    ensures r.Just? ==> |r.value| == |reply.value.items|
    ensures r.Just? ==>
      forall i :: 0 <= i < |r.value| ==> r.value[i] == toCandle(reply.value.items[i])
  {
    Bind(reply, j => GetCandlesticks(j, toCandle))
  }

  function Ticker24hr(symbol: string): (r: Request)
    ensures Recognize(r.route) == Just(Ticker24hrOp)
    ensures r.params == map["symbol" := symbol]
  {
    Request(RouteOf(Ticker24hrOp), map["symbol" := symbol])
  }

  function TickerAllPrices(): (r: Request)
    ensures Recognize(r.route) == Just(AllPricesOp)
    ensures r.params == map[]
  {
    Request(RouteOf(AllPricesOp), map[])
  }

  /** `ticker_all_bool_tickers`: despite its name, the book tickers. */
  function TickerAllBoolTickers(): (r: Request)
    ensures Recognize(r.route) == Just(AllBookTickersOp)
    ensures r.params == map[]
  {
    Request(RouteOf(AllBookTickersOp), map[])
  }

  // ----- trading (signed) -----

  /** `order`: side, symbol, quantity and type written over the options,
      and `timeInForce=GTC` as well when the type is `LIMIT`; a signed
      POST to the order route. */
  function OrderWith(side: string, orderType: string, symbol: string, quantity: string,
                     options: Params): (r: Request)
    ensures Recognize(r.route) == Just(NewOrderOp)
    ensures r.params.Keys ==
      options.Keys + OrderKeys + (if orderType == "LIMIT" then {"timeInForce"} else {})
    ensures r.params["side"] == side && r.params["symbol"] == symbol
    ensures r.params["quantity"] == quantity && r.params["type"] == orderType
    ensures orderType == "LIMIT" ==> r.params["timeInForce"] == "GTC"
    ensures forall k ::
      (k in options && k !in OrderKeys && (k != "timeInForce" || orderType != "LIMIT"))
      ==> r.params[k] == options[k]
  {
    var params := options;
    var params := params["side" := side];
    var params := params["symbol" := symbol];
    var params := params["quantity" := quantity];
    var params := params["type" := orderType];
    var params := if orderType == "LIMIT" then params["timeInForce" := "GTC"] else params;
    Request(RouteOf(NewOrderOp), params)
  }

  /** Only a `LIMIT` order touches `timeInForce`: any other type leaves the
      caller's value, or its absence, as it was. */
  lemma OrderTimeInForce(side: string, orderType: string, symbol: string, quantity: string,
                         options: Params)
    ensures var p := OrderWith(side, orderType, symbol, quantity, options).params;
      && (orderType == "LIMIT" ==> "timeInForce" in p && p["timeInForce"] == "GTC")
      && (orderType != "LIMIT" ==>
            ("timeInForce" in p <==> "timeInForce" in options)
            && ("timeInForce" in options ==> p["timeInForce"] == options["timeInForce"]))
  {
  }

  function Order(side: string, orderType: string, symbol: string, quantity: string): (r: Request)
    ensures r == OrderWith(side, orderType, symbol, quantity, map[])
    ensures r.params.Keys == OrderKeys + (if orderType == "LIMIT" then {"timeInForce"} else {})
    ensures "timeInForce" in r.params <==> orderType == "LIMIT"
  {
    OrderWith(side, orderType, symbol, quantity, map[])
  }

  /** A limit order on `side`: the price written over the options, then
      `order(side, "LIMIT", ...)`. */
  function LimitOrder(side: string, symbol: string, quantity: string, price: string,
                      options: Params): (r: Request)
    ensures Recognize(r.route) == Just(NewOrderOp)
    ensures r.params.Keys == options.Keys + OrderKeys + {"price", "timeInForce"}
    ensures r.params["side"] == side && r.params["type"] == "LIMIT"
    ensures r.params["timeInForce"] == "GTC" && r.params["price"] == price
    ensures r.params["symbol"] == symbol && r.params["quantity"] == quantity
    ensures forall k ::
      (k in options && k !in OrderKeys + {"price", "timeInForce"}) ==> r.params[k] == options[k]
  {
    var params := options;
    var params := params["price" := price];
    OrderWith(side, "LIMIT", symbol, quantity, params)
  }

  /** A market order on `side`: the options go to `order` unchanged. */
  function MarketOrder(side: string, symbol: string, quantity: string, options: Params): (r: Request)
    ensures Recognize(r.route) == Just(NewOrderOp)
    ensures Overwrites(r.params, options,
      map["side" := side, "symbol" := symbol, "quantity" := quantity, "type" := "MARKET"])
  {
    OrderWith(side, "MARKET", symbol, quantity, options)
  }

  function BuyLimitWith(symbol: string, quantity: string, price: string, options: Params): (r: Request)
    ensures r == LimitOrder("BUY", symbol, quantity, price, options)
    ensures r.params["side"] == "BUY" && r.params["type"] == "LIMIT"
    ensures r.params["timeInForce"] == "GTC" && r.params["price"] == price
  {
    LimitOrder("BUY", symbol, quantity, price, options)
  }

  function BuyLimit(symbol: string, quantity: string, price: string): (r: Request)
    ensures r == BuyLimitWith(symbol, quantity, price, map[])
    ensures r.params == map["price" := price, "side" := "BUY", "symbol" := symbol,
      "quantity" := quantity, "type" := "LIMIT", "timeInForce" := "GTC"]
  {
    BuyLimitWith(symbol, quantity, price, map[])
  }

  function BuyMarketWith(symbol: string, quantity: string, options: Params): (r: Request)
    ensures r == MarketOrder("BUY", symbol, quantity, options)
    ensures r.params["side"] == "BUY" && r.params["type"] == "MARKET"
  {
    MarketOrder("BUY", symbol, quantity, options)
  }

  function BuyMarket(symbol: string, quantity: string): (r: Request)
    ensures r == BuyMarketWith(symbol, quantity, map[])
    ensures r.params == map["side" := "BUY", "symbol" := symbol,
      "quantity" := quantity, "type" := "MARKET"]
  {
    BuyMarketWith(symbol, quantity, map[])
  }

  function SellLimitWith(symbol: string, quantity: string, price: string, options: Params): (r: Request)
    ensures r == LimitOrder("SELL", symbol, quantity, price, options)
    ensures r.params["side"] == "SELL" && r.params["type"] == "LIMIT"
    ensures r.params["timeInForce"] == "GTC" && r.params["price"] == price
  {
    LimitOrder("SELL", symbol, quantity, price, options)
  }

  function SellLimit(symbol: string, quantity: string, price: string): (r: Request)
    ensures r == SellLimitWith(symbol, quantity, price, map[])
    ensures r.params == map["price" := price, "side" := "SELL", "symbol" := symbol,
      "quantity" := quantity, "type" := "LIMIT", "timeInForce" := "GTC"]
  {
    SellLimitWith(symbol, quantity, price, map[])
  }

  function SellMarketWith(symbol: string, quantity: string, options: Params): (r: Request)
    ensures r == MarketOrder("SELL", symbol, quantity, options)
    ensures r.params["side"] == "SELL" && r.params["type"] == "MARKET"
  {
    MarketOrder("SELL", symbol, quantity, options)
  }

  function SellMarket(symbol: string, quantity: string): (r: Request)
    ensures r == SellMarketWith(symbol, quantity, map[])
    ensures r.params == map["side" := "SELL", "symbol" := symbol,
      "quantity" := quantity, "type" := "MARKET"]
  {
    SellMarketWith(symbol, quantity, map[])
  }

  function OrderStatus(symbol: string, orderId: string): (r: Request)
    ensures Recognize(r.route) == Just(QueryOrderOp)
    ensures r.params.Keys == {"symbol", "orderId"}
    ensures r.params["symbol"] == symbol && r.params["orderId"] == orderId
  {
    Request(RouteOf(QueryOrderOp), map["symbol" := symbol, "orderId" := orderId])
  }

  /** `cancle_order` (so spelled in the library). */
  function CancelOrder(symbol: string, orderId: string): (r: Request)
    ensures Recognize(r.route) == Just(CancelOrderOp)
    ensures r.params.Keys == {"symbol", "orderId"}
    ensures r.params["symbol"] == symbol && r.params["orderId"] == orderId
  {
    Request(RouteOf(CancelOrderOp), map["symbol" := symbol, "orderId" := orderId])
  }

  function OpenOrders(symbol: string): (r: Request)
    ensures Recognize(r.route) == Just(OpenOrdersOp)
    ensures r.params == map["symbol" := symbol]
  {
    Request(RouteOf(OpenOrdersOp), map["symbol" := symbol])
  }

  function AllOrdersWith(symbol: string, options: Params): (r: Request)
    ensures Recognize(r.route) == Just(AllOrdersOp)
    ensures Overwrites(r.params, options, map["symbol" := symbol])
  {
    var params := options;
    var params := params["symbol" := symbol];
    Request(RouteOf(AllOrdersOp), params)
  }

  function AllOrders(symbol: string): (r: Request)
    ensures r == AllOrdersWith(symbol, map[])
    ensures r.params == map["symbol" := symbol]
  {
    AllOrdersWith(symbol, map[])
  }

  function MyAccount(): (r: Request)
    ensures Recognize(r.route) == Just(AccountOp)
    ensures r.params == map[]
  {
    Request(RouteOf(AccountOp), map[])
  }

  function MyTradesWith(symbol: string, options: Params): (r: Request)
    ensures Recognize(r.route) == Just(MyTradesOp)
    ensures Overwrites(r.params, options, map["symbol" := symbol])
  {
    var params := options;
    var params := params["symbol" := symbol];
    Request(RouteOf(MyTradesOp), params)
  }

  function MyTrades(symbol: string): (r: Request)
    ensures r == MyTradesWith(symbol, map[])
    ensures r.params == map["symbol" := symbol]
  {
    MyTradesWith(symbol, map[])
  }

  // ----- user data stream (API key only) -----

  function StartUserDataStream(): (r: Request)
    ensures Recognize(r.route) == Just(StartStreamOp)
    ensures r.params == map[]
  {
    Request(RouteOf(StartStreamOp), map[])
  }

  function KeepaliveUserDataStream(listenKey: string): (r: Request)
    ensures Recognize(r.route) == Just(KeepaliveStreamOp)
    ensures r.params == map["listenKey" := listenKey]
  {
    Request(RouteOf(KeepaliveStreamOp), map["listenKey" := listenKey])
  }

  function CloseUserDataStream(listenKey: string): (r: Request)
    ensures Recognize(r.route) == Just(CloseStreamOp)
    ensures r.params == map["listenKey" := listenKey]
  {
    Request(RouteOf(CloseStreamOp), map["listenKey" := listenKey])
  }
}
