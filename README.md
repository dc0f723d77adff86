# binance-cpp endpoint layer, modelled in Dafny

This project models the request-assembly and response-decoding layer of a
C++ client for the Binance exchange's REST and websocket APIs, together with
the JSON codec of the `TickerPrice` record.

- `monads.dfy` (`Monads`): the library's `Maybe<T>` and its `>>=`, and a
  `Result` for the JSON library's exceptions.
- `json.dfy` (`JsonValue`): a minimal JSON value (null, bool, integer,
  string, array, object) and the `j[key]` lookup.
- `decoders.dfy` (`Decoders`): `get_server_time`, `get_order_book`,
  `get_agg_trades` and `get_candlesticks`. Each is a total function to
  `Maybe`, present exactly when the reply has the expected shape.
- `requests.dfy` (`Requests`): the abstract request the facade hands to the
  HTTP client. It holds the verb, the client kind (public, signed or user),
  the path and the parameter map. It also holds the table of routes with
  its inverse, and `Overwrites`, the last-write-wins rule for parameter
  maps.
- `endpoint.dfy` (`Endpoint`): one function per `Endpoint` method. Each
  builds the request the method sends. The `...Reply` functions pipe the
  HTTP client's reply through the matching decoder. C++ overloads get
  distinct names: `XWith` takes the options map, `X` is the short form, and
  `OrderBookLimit` is `order_book(symbol, limit)`.
- `decimal.dfy` (`Decimal`): the decimal text `format("{}", limit)` gives an
  `int`, and its reading back.
- `streams.dfy` (`Streams`): the websocket stream paths, and `ParseStream`,
  which reads the topic back out of a path.
- `ticker_price.dfy` (`TickerPrices`): `TickerPrice`, `to_json` and
  `from_json`, with the JSON library's exceptions as `ReadError`s.

Each request builder is stated against independent definitions:
`Requests.Recognize` names the operation its route reaches, and
`Requests.Overwrites` relates its parameters to the caller's options. The
decoders are stated by the shape of the JSON they accept. The stream paths
are stated by `ParseStream`, and the limit text by `ParseInt`.

REST paths carry the `/api/v1/` prefix (market data and the user data
stream) or the `/api/v3/` prefix (orders and the account), for example
`/api/v1/ping`. Stream paths have the form `/ws/<name>`, for example
`/ws/BTCUSDT@depth`. An order of type `LIMIT` always gets `timeInForce=GTC`;
an order of any other type keeps whatever `timeInForce` the caller's options
hold, or none.

## Model

| member | source | states |
|---|---|---|
| Monads.Bind | include/binance/endpoint.hpp:150 | `>>=`: no reply gives no result; a reply is handed to the next step |
| JsonValue.Field | include/binance/endpoint.hpp:28 | `j[key]` is the member of an object that has the key, and null in every other case |
| Decoders.GetServerTime | include/binance/endpoint.hpp:27-35 | present iff `serverTime` is present and not null, and then it is the converted `serverTime` |
| Decoders.GetOrderBook | include/binance/endpoint.hpp:37-47 | present iff all of `lastUpdateId`, `bids` and `asks` are present and not null, and then it is the converted object |
| Decoders.DecodeEach | include/binance/endpoint.hpp:51 | converting an array gives one value per element, in order, with the same length |
| Decoders.GetAggTrades | include/binance/endpoint.hpp:49-57 | present iff the reply is an array, and then it has one converted trade per element, in order |
| Decoders.GetCandlesticks | include/binance/endpoint.hpp:59-67 | present iff the reply is an array, and then it has one converted candlestick per element, in order |
| Decimal.NatToString | include/binance/endpoint.hpp:160 | the decimal text of a natural number is non-empty, all digits, and has no leading zero |
| Decimal.NatToStringRoundTrip | include/binance/endpoint.hpp:160 | the digits of `n` denote `n` |
| Decimal.IntToString | include/binance/endpoint.hpp:160 | the text of an integer starts with `-` iff the integer is negative, is all digits otherwise, and has no leading zero (the shortest text) |
| Decimal.ShortestDigitsUnique | include/binance/endpoint.hpp:160 | digits without a leading zero are exactly the decimal text of the number they denote |
| Decimal.CanonicalIsIntToString | include/binance/endpoint.hpp:160 | every shortest integer text reads back as an integer and is that integer's text, so the text of `limit` is fully determined |
| Decimal.IntToStringRoundTrip | include/binance/endpoint.hpp:160 | reading back the text of an integer gives that integer |
| Decimal.IntToStringInjective | include/binance/endpoint.hpp:160 | distinct limits give distinct texts |
| Requests.RecognizeRouteOf | include/binance/endpoint.hpp:145-307 | every route the facade uses is recognised as its own operation |
| Requests.RecognizeExact | include/binance/endpoint.hpp:145-307 | a route recognised as an operation is exactly that operation's verb, client kind and path |
| Requests.RoutesDistinct | include/binance/endpoint.hpp:145-307 | no two operations share verb, client kind and path |
| Requests.OverwritesIsUnion | include/binance/endpoint.hpp:154-155 | copying the options and then writing fixed keys is union with the fixed keys winning; the result is unique |
| Endpoint.Ping | include/binance/endpoint.hpp:145-147 | a public GET of `/api/v1/ping` with no parameters |
| Endpoint.Time | include/binance/endpoint.hpp:149-151 | a public GET of `/api/v1/time` with no parameters |
| Endpoint.TimeReply | include/binance/endpoint.hpp:149-151 | no reply gives nothing; otherwise present iff the reply has a non-null `serverTime`, which is then the result |
| Endpoint.OrderBookWith | include/binance/endpoint.hpp:153-157 | a public GET of `/api/v1/depth`; params are the options with `symbol` written over them and every other option unchanged |
| Endpoint.OrderBookLimit | include/binance/endpoint.hpp:159-161 | exactly `{limit, symbol}`; `limit` is decimal text that reads back as the limit; it equals the options form with that one-key map |
| Endpoint.OrderBook | include/binance/endpoint.hpp:163-165 | equals the options form with an empty map: exactly `{symbol}` on the depth route |
| Endpoint.OrderBookReply | include/binance/endpoint.hpp:153-157 | no reply gives nothing; otherwise present iff the three order-book keys are present and not null |
| Endpoint.AggTradesWith | include/binance/endpoint.hpp:167-171 | a public GET of `/api/v1/aggTrades`; options with `symbol` written over them |
| Endpoint.AggTrades | include/binance/endpoint.hpp:173-175 | equals the options form with an empty map: exactly `{symbol}` |
| Endpoint.AggTradesReply | include/binance/endpoint.hpp:167-171 | present iff there is a reply and it is an array; one trade per element, in order |
| Endpoint.CandlestickBarsWith | include/binance/endpoint.hpp:177-182 | a public GET of `/api/v1/klines`; options with `symbol` and `interval` written over them |
| Endpoint.CandlestickBars | include/binance/endpoint.hpp:184-186 | equals the options form with an empty map: exactly `{symbol, interval}` |
| Endpoint.CandlestickBarsReply | include/binance/endpoint.hpp:177-182 | present iff there is a reply and it is an array; one candlestick per element, in order |
| Endpoint.Ticker24hr | include/binance/endpoint.hpp:188-190 | a public GET of `/api/v1/ticker/24hr` with exactly `{symbol}` |
| Endpoint.TickerAllPrices | include/binance/endpoint.hpp:192-194 | a public GET of `/api/v1/ticker/allPrices` with no parameters |
| Endpoint.TickerAllBoolTickers | include/binance/endpoint.hpp:196-198 | a public GET of `/api/v1/ticker/allBookTickers` with no parameters |
| Endpoint.OrderWith | include/binance/endpoint.hpp:200-210 | a signed POST of `/api/v3/order`; keys are the options plus side, symbol, quantity and type (and `timeInForce` for LIMIT); those hold the arguments; `timeInForce=GTC` for LIMIT; every other option is unchanged |
| Endpoint.OrderTimeInForce | include/binance/endpoint.hpp:204-208 | LIMIT forces `timeInForce=GTC`; any other type leaves the caller's `timeInForce`, or its absence, untouched |
| Endpoint.Order | include/binance/endpoint.hpp:212-214 | equals the options form with an empty map; `timeInForce` is present iff the type is LIMIT |
| Endpoint.LimitOrder | include/binance/endpoint.hpp:216-220 | `price` written over the options, then a LIMIT order: side, type LIMIT, GTC, price, symbol, quantity; other options unchanged |
| Endpoint.MarketOrder | include/binance/endpoint.hpp:226-228 | a MARKET order: side, symbol, quantity and type written over the options, everything else forwarded unchanged |
| Endpoint.BuyLimitWith | include/binance/endpoint.hpp:216-220 | a LIMIT order with side BUY, `timeInForce=GTC` and the given price |
| Endpoint.BuyLimit | include/binance/endpoint.hpp:222-224 | equals the options form with an empty map: exactly price, side BUY, symbol, quantity, type LIMIT, GTC |
| Endpoint.BuyMarketWith | include/binance/endpoint.hpp:226-228 | a MARKET order with side BUY, options forwarded |
| Endpoint.BuyMarket | include/binance/endpoint.hpp:230-232 | equals the options form with an empty map: exactly side BUY, symbol, quantity, type MARKET |
| Endpoint.SellLimitWith | include/binance/endpoint.hpp:234-238 | a LIMIT order with side SELL, `timeInForce=GTC` and the given price |
| Endpoint.SellLimit | include/binance/endpoint.hpp:240-242 | equals the options form with an empty map: exactly price, side SELL, symbol, quantity, type LIMIT, GTC |
| Endpoint.SellMarketWith | include/binance/endpoint.hpp:244-246 | a MARKET order with side SELL, options forwarded |
| Endpoint.SellMarket | include/binance/endpoint.hpp:248-250 | equals the options form with an empty map: exactly side SELL, symbol, quantity, type MARKET |
| Endpoint.OrderStatus | include/binance/endpoint.hpp:252-259 | a signed GET of `/api/v3/order` with exactly `{symbol, orderId}` |
| Endpoint.CancelOrder | include/binance/endpoint.hpp:261-268 | `cancle_order`: a signed DELETE of `/api/v3/order` with exactly `{symbol, orderId}` |
| Endpoint.OpenOrders | include/binance/endpoint.hpp:270-272 | a signed GET of `/api/v3/openOrders` with exactly `{symbol}` |
| Endpoint.AllOrdersWith | include/binance/endpoint.hpp:274-278 | a signed GET of `/api/v3/allOrders`; options with `symbol` written over them |
| Endpoint.AllOrders | include/binance/endpoint.hpp:280-282 | equals the options form with an empty map: exactly `{symbol}` |
| Endpoint.MyAccount | include/binance/endpoint.hpp:284-286 | a signed GET of `/api/v3/account` with no parameters |
| Endpoint.MyTradesWith | include/binance/endpoint.hpp:288-292 | a signed GET of `/api/v3/myTrades`; options with `symbol` written over them |
| Endpoint.MyTrades | include/binance/endpoint.hpp:294-296 | equals the options form with an empty map: exactly `{symbol}` |
| Endpoint.StartUserDataStream | include/binance/endpoint.hpp:298-300 | a user POST of `/api/v1/userDataStream` with no parameters |
| Endpoint.KeepaliveUserDataStream | include/binance/endpoint.hpp:302-304 | a user PUT of `/api/v1/userDataStream` with exactly `{listenKey}` |
| Endpoint.CloseUserDataStream | include/binance/endpoint.hpp:306-308 | a user DELETE of `/api/v1/userDataStream` with exactly `{listenKey}` |
| Streams.IndexOf | include/binance/endpoint.hpp:311 | reference reader used to split the paths built here at their first `@`: the first position of a character, or nothing iff it does not occur |
| Streams.ParseStream | include/binance/endpoint.hpp:310-324 | reference reader of the paths built here, not source code: a path that names a topic starts with `/ws/` |
| Streams.SplitTagged | include/binance/endpoint.hpp:310-320 | `/ws/<symbol>@<kind>` splits back into symbol and kind at the first `@` when the symbol has none |
| Streams.DepthPathParses | include/binance/endpoint.hpp:310-312 | `/ws/<symbol>@depth` reads back as the depth topic of an `@`-free symbol |
| Streams.KlinePathParses | include/binance/endpoint.hpp:314-316 | `/ws/<symbol>@kline_<interval>` reads back as the candlestick topic of an `@`-free symbol and the interval |
| Streams.TradesPathParses | include/binance/endpoint.hpp:318-320 | `/ws/<symbol>@aggTrade` reads back as the aggregated-trade topic of an `@`-free symbol |
| Streams.DepthWebsocket | include/binance/endpoint.hpp:310-312 | the path starts with `/ws/` and names the depth stream of the symbol |
| Streams.KlineWebsocket | include/binance/endpoint.hpp:314-316 | the path starts with `/ws/` and names the candlestick stream of the symbol at the interval |
| Streams.TradesWebsocket | include/binance/endpoint.hpp:318-320 | the path starts with `/ws/` and names the aggregated-trade stream of the symbol |
| Streams.UserDataWebsockets | include/binance/endpoint.hpp:322-324 | the path starts with `/ws/` and names the user-data stream of the listen key |
| Streams.StreamPathsDistinct | include/binance/endpoint.hpp:310-324 | different kinds of subscription never share a path |
| TickerPrices.ToJson | include/binance/types/ticker_price.hpp:17-22 | an object with exactly the keys `symbol` and `price`, holding the two fields as strings |
| TickerPrices.StringAt | include/binance/types/ticker_price.hpp:25-26 | `at(key).get<string>()` succeeds iff the key holds a string; otherwise the error names why (not an object, missing key, not a string) |
| TickerPrices.FromJson | include/binance/types/ticker_price.hpp:24-27 | succeeds iff both `symbol` and `price` are strings, giving them; otherwise the error of `symbol` first, then of `price` |
| TickerPrices.FromJsonToJson | include/binance/types/ticker_price.hpp:17-27 | `from_json(to_json(t)) == t` |
| TickerPrices.ToJsonFromJson | include/binance/types/ticker_price.hpp:17-27 | writing out a decoded ticker gives the input restricted to `symbol` and `price` |
| TickerPrices.FromJsonIgnoresOtherKeys | include/binance/types/ticker_price.hpp:24-27 | two objects that agree on `symbol` and `price` decode alike |

## Left out

- The HTTP client (`public_get`, `signed_*`, `user_*`): transport, timestamps, HMAC signing and API-key headers are not part of this model. A method's result is modelled as the request it sends, plus the decoding of whatever reply the client returns.
- The `Endpoint` constructor (include/binance/endpoint.hpp:141-143) only hands the key and secret to that client, so it is not modelled. The facade keeps no other state, so its methods are functions.
- `public_get(path)` without a parameter map is modelled as an empty parameter map.
- Websocket `subscribe` and its callback are event-driven I/O. Only the path they are given is modelled.
- The decoders' log messages are diagnostics only and are not modelled.
- `format("{}", double)` for quantity and price is floating-point formatting. Quantity and price are taken as the text they format to.
- The JSON library's conversions into typed records are parameters of the decoders: `get<long>()`, `OrderBook ob = j`, and one `AggTrade`/`CandleStick` per element. The exceptions they may throw, the 64-bit range of `long`, and the bid/ask structure of `OrderBook` are not modelled.
- JsonValue.Field, Decoders.GetServerTime, Decoders.GetOrderBook, Endpoint.TimeReply, Endpoint.OrderBookReply: the decoders read with the JSON library's read-only `operator[]`. On an object without the key, that operator asserts rather than returning null, and on a non-object it throws. The model reads both cases as null, so they give nothing. This is the behaviour the decoders' else-branches and messages are written for.
- JSON numbers are integers. Floating-point JSON numbers are not modelled.
- TickerPrices.FromJson: when the price fails to read, the C++ out-parameter already holds the new symbol. The model returns only the error.
- Streams.DepthWebsocket, Streams.KlineWebsocket, Streams.TradesWebsocket, Streams.UserDataWebsockets: the paths name their topic only when the symbol or listen key has no `@`. With an `@` in the name, `/ws/` + name + suffix can coincide for different arguments.
