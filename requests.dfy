/** The abstract request the endpoint layer hands to the HTTP client: which
    of the client's calls it uses (verb and kind), the path, and the
    parameter map. */
module Requests {
  import opened Monads

  datatype Verb = Get | Post | Put | Delete

  /** Which family of client calls is used: `public_*` (no credentials),
      `signed_*` (timestamped and signed) or `user_*` (API key only). */
  datatype Client = Public | Signed | User

  datatype Route = Route(verb: Verb, client: Client, path: string)

  type Params = map<string, string>

  datatype Request = Request(route: Route, params: Params)

  /** The remote operations the library can reach. */
  datatype Operation =
    | PingOp | TimeOp | DepthOp | AggTradesOp | KlinesOp
    | Ticker24hrOp | AllPricesOp | AllBookTickersOp
    | NewOrderOp | QueryOrderOp | CancelOrderOp | OpenOrdersOp | AllOrdersOp
    | AccountOp | MyTradesOp
    | StartStreamOp | KeepaliveStreamOp | CloseStreamOp

  /** The wire route of each operation: verb, client kind and path. */
  function RouteOf(op: Operation): Route
  {
    match op
    case PingOp => Route(Get, Public, "/api/v1/ping")
    case TimeOp => Route(Get, Public, "/api/v1/time")
    case DepthOp => Route(Get, Public, "/api/v1/depth")
    case AggTradesOp => Route(Get, Public, "/api/v1/aggTrades")
    case KlinesOp => Route(Get, Public, "/api/v1/klines")
    case Ticker24hrOp => Route(Get, Public, "/api/v1/ticker/24hr")
    case AllPricesOp => Route(Get, Public, "/api/v1/ticker/allPrices")
    case AllBookTickersOp => Route(Get, Public, "/api/v1/ticker/allBookTickers")
    case NewOrderOp => Route(Post, Signed, "/api/v3/order")
    case QueryOrderOp => Route(Get, Signed, "/api/v3/order")
    case CancelOrderOp => Route(Delete, Signed, "/api/v3/order")
    case OpenOrdersOp => Route(Get, Signed, "/api/v3/openOrders")
    case AllOrdersOp => Route(Get, Signed, "/api/v3/allOrders")
    case AccountOp => Route(Get, Signed, "/api/v3/account")
    case MyTradesOp => Route(Get, Signed, "/api/v3/myTrades")
    case StartStreamOp => Route(Post, User, "/api/v1/userDataStream")
    case KeepaliveStreamOp => Route(Put, User, "/api/v1/userDataStream")
    case CloseStreamOp => Route(Delete, User, "/api/v1/userDataStream")
  }

  /** The receiving side's view: which operation a route asks for. */
  function Recognize(route: Route): (r: Maybe<Operation>)
  {
    match route.client
    case Public =>
      if route.verb != Get then Nothing
      else if route.path == "/api/v1/ping" then Just(PingOp)
      else if route.path == "/api/v1/time" then Just(TimeOp)
      else if route.path == "/api/v1/depth" then Just(DepthOp)
      else if route.path == "/api/v1/aggTrades" then Just(AggTradesOp)
      else if route.path == "/api/v1/klines" then Just(KlinesOp)
      else if route.path == "/api/v1/ticker/24hr" then Just(Ticker24hrOp)
      else if route.path == "/api/v1/ticker/allPrices" then Just(AllPricesOp)
      else if route.path == "/api/v1/ticker/allBookTickers" then Just(AllBookTickersOp)
      else Nothing
    case Signed =>
      if route.path == "/api/v3/order" then
        match route.verb
        case Post => Just(NewOrderOp)
        case Get => Just(QueryOrderOp)
        case Delete => Just(CancelOrderOp)
        case Put => Nothing
      else if route.verb != Get then Nothing
      else if route.path == "/api/v3/openOrders" then Just(OpenOrdersOp)
      else if route.path == "/api/v3/allOrders" then Just(AllOrdersOp)
      else if route.path == "/api/v3/account" then Just(AccountOp)
      else if route.path == "/api/v3/myTrades" then Just(MyTradesOp)
      else Nothing
    case User =>
      if route.path != "/api/v1/userDataStream" then Nothing
      else
        match route.verb
        case Post => Just(StartStreamOp)
        case Put => Just(KeepaliveStreamOp)
        case Delete => Just(CloseStreamOp)
        case Get => Nothing
  }

  /** Every route of the table is recognised as its own operation. */
  lemma RecognizeRouteOf(op: Operation)
    ensures Recognize(RouteOf(op)) == Just(op)
  {
  }

  /** A recognised route is exactly the table's route of that operation:
      `Recognize` and `RouteOf` are inverse both ways. */
  lemma RecognizeExact(route: Route, op: Operation)
    requires Recognize(route) == Just(op)
    ensures route == RouteOf(op)
  {
  }

  /** No two operations share a route, so the exchange can tell every
      request the library sends apart by verb, client kind and path. */
  lemma RoutesDistinct(a: Operation, b: Operation)
    requires a != b
    ensures RouteOf(a) != RouteOf(b)
  {
    RecognizeRouteOf(a);
    RecognizeRouteOf(b);
  }

  /** `m` is `base` with every key of `fixed` written over it: the keys of
      both, the value from `fixed` where it has one (last write wins) and
      the value from `base` elsewhere. */
  predicate Overwrites(m: Params, base: Params, fixed: Params)
  {
    && m.Keys == base.Keys + fixed.Keys
    && (forall k :: k in fixed ==> m[k] == fixed[k])
    && (forall k :: k in base && k !in fixed ==> m[k] == base[k])
  }

  /** Overwriting is map union with the fixed keys on the right, so the
      result is determined by the base and the fixed keys. */
  lemma OverwritesIsUnion(m: Params, base: Params, fixed: Params)
    ensures Overwrites(m, base, fixed) <==> m == base + fixed
  {
  }
}
