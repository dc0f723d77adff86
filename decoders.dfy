/** The response decoders: total functions from a JSON reply to an optional
    typed value, present exactly when the reply has the expected shape.
    The JSON library's conversions of a whole value into a typed record
    (`get<long>()`, `OrderBook ob = j`, one `AggTrade` or `CandleStick` per
    array element) are passed in as functions. */
module Decoders {
  import opened Monads
  import opened JsonValue

  /** `get_server_time`: the converted `serverTime` property when it is
      present and not null, nothing otherwise. */
  function GetServerTime(j: Json, asLong: Json -> int): (r: Maybe<int>)
    ensures r.Just? <==> Has(j, "serverTime")
    ensures r.Just? ==> r.value == asLong(j.fields["serverTime"])
  {
    var st := Field(j, "serverTime");
    if st != Null then Just(asLong(st)) else Nothing
  }

  /** `get_order_book`: the whole object converted when `lastUpdateId`,
      `bids` and `asks` are all present and not null, nothing otherwise. */
  function GetOrderBook<B>(j: Json, toBook: Json -> B): (r: Maybe<B>)
    ensures r.Just? <==> Has(j, "lastUpdateId") && Has(j, "bids") && Has(j, "asks")
    ensures r.Just? ==> r.value == toBook(j)
  {
    if Field(j, "lastUpdateId") != Null && Field(j, "bids") != Null && Field(j, "asks") != Null
    then Just(toBook(j))
    else Nothing
  }

  /** Every element of an array converted, in order. */
  function DecodeEach<T>(items: seq<Json>, conv: Json -> T): (ts: seq<T>)
    ensures |ts| == |items|
    ensures forall i :: 0 <= i < |items| ==> ts[i] == conv(items[i])
  {
    if items == [] then [] else [conv(items[0])] + DecodeEach(items[1..], conv)
  }

  /** `get_agg_trades`: one trade per element when the reply is an array,
      nothing when it is any other kind of value. */
  function GetAggTrades<A>(j: Json, toTrade: Json -> A): (r: Maybe<seq<A>>)
    ensures r.Just? <==> j.Arr?
    ensures r.Just? ==> |r.value| == |j.items|
    ensures r.Just? ==> forall i :: 0 <= i < |j.items| ==> r.value[i] == toTrade(j.items[i])
  {
    if j.Arr? then Just(DecodeEach(j.items, toTrade)) else Nothing
  }

  /** `get_candlesticks`: one candlestick per element when the reply is an
      array, nothing when it is any other kind of value. */
  function GetCandlesticks<C>(j: Json, toCandle: Json -> C): (r: Maybe<seq<C>>)
    ensures r.Just? <==> j.Arr?
    ensures r.Just? ==> |r.value| == |j.items|
    ensures r.Just? ==> forall i :: 0 <= i < |j.items| ==> r.value[i] == toCandle(j.items[i])
  {
    if j.Arr? then Just(DecodeEach(j.items, toCandle)) else Nothing
  }
}
