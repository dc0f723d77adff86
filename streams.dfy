/** The stream paths the websocket methods subscribe to, and how a stream
    path names its topic. Subscribing itself is left to the websocket
    client; only the path is modelled. */
module Streams {
  import opened Monads

  /** What a stream carries. */
  datatype Topic =
    | Depth(symbol: string)
    | Kline(symbol: string, interval: string)
    | AggTrade(symbol: string)
    | UserData(listenKey: string)

  /** The position of the first `c` in `s`, if any. */
  function IndexOf(s: string, c: char): (r: Maybe<nat>)
    ensures r.Nothing? <==> c !in s
    ensures r.Just? ==> r.value < |s| && s[r.value] == c && c !in s[..r.value]
  {
    if s == [] then Nothing
    else if s[0] == c then Just(0)
    else
      match IndexOf(s[1..], c)
      case Nothing => Nothing
      case Just(i) =>
        assert s[..i + 1] == [s[0]] + s[1..][..i];
        Just(i + 1)
  }

  /** The topic a path under `/ws/` names: the text before the first `@`
      is the symbol and the rest the stream kind; with no `@` the whole
      name is a listen key. */
  function ParseStream(path: string): (r: Maybe<Topic>)
    ensures r.Just? ==> |path| >= 4 && path[..4] == "/ws/"
  {
    if |path| < 4 || path[..4] != "/ws/" then Nothing
    else
      var name := path[4..];
      match IndexOf(name, '@')
      case Nothing => Just(UserData(name))
      case Just(i) =>
        var symbol, kind := name[..i], name[i + 1..];
        if kind == "depth" then Just(Depth(symbol))
        else if kind == "aggTrade" then Just(AggTrade(symbol))
        else if |kind| >= 6 && kind[..6] == "kline_" then Just(Kline(symbol, kind[6..]))
        else Nothing
  }

  /** A path `/ws/<symbol>@<kind>` splits back into its symbol and kind
      when the symbol has no `@`. */
  lemma SplitTagged(symbol: string, kind: string)
    requires '@' !in symbol
    ensures var name := ("/ws/" + symbol + "@" + kind)[4..];
      && IndexOf(name, '@') == Just(|symbol|)
      && name[..|symbol|] == symbol
      && name[|symbol| + 1..] == kind
  {
    var path := "/ws/" + symbol + "@" + kind;
    var name := path[4..];
    assert name == symbol + "@" + kind;
    assert name[|symbol|] == '@';
    assert name[..|symbol|] == symbol;
    var i := IndexOf(name, '@').value;
    assert forall k :: 0 <= k < |symbol| ==> name[k] != '@';
    assert forall k :: 0 <= k < i ==> name[..i][k] != '@';
  }

  /** The depth path of an `@`-free symbol reads back as its depth topic. */
  lemma DepthPathParses(symbol: string)
    ensures '@' !in symbol ==> ParseStream("/ws/" + symbol + "@depth") == Just(Depth(symbol))
  {
    if '@' !in symbol {
      SplitTagged(symbol, "depth");
      assert "/ws/" + symbol + "@depth" == "/ws/" + symbol + "@" + "depth";
    }
  }

  /** The candlestick path of an `@`-free symbol reads back as its
      candlestick topic, whatever the interval. */
  lemma KlinePathParses(symbol: string, interval: string)
    ensures '@' !in symbol ==>
      ParseStream("/ws/" + symbol + "@kline_" + interval) == Just(Kline(symbol, interval))
  {
    if '@' !in symbol {
      var kind := "kline_" + interval;
      SplitTagged(symbol, kind);
      assert "/ws/" + symbol + "@kline_" + interval == "/ws/" + symbol + "@" + kind;
      assert kind[..6] == "kline_" && kind[6..] == interval && kind[0] == 'k';
      assert kind != "depth" && kind != "aggTrade";
    }
  }

  /** The aggregated-trade path of an `@`-free symbol reads back as its
      trade topic. */
  lemma TradesPathParses(symbol: string)
    ensures '@' !in symbol ==> ParseStream("/ws/" + symbol + "@aggTrade") == Just(AggTrade(symbol))
  {
    if '@' !in symbol {
      SplitTagged(symbol, "aggTrade");
      assert "/ws/" + symbol + "@aggTrade" == "/ws/" + symbol + "@" + "aggTrade";
    }
  }

  /** `depth_websocket`: the depth stream of `symbol`. */
  function DepthWebsocket(symbol: string): (path: string)
    ensures |path| >= 4 && path[..4] == "/ws/"
    ensures '@' !in symbol ==> ParseStream(path) == Just(Depth(symbol))
  {
    DepthPathParses(symbol);
    "/ws/" + symbol + "@depth"
  }

  /** `kline_websocket`: the candlestick stream of `symbol` at `interval`. */
  function KlineWebsocket(symbol: string, interval: string): (path: string)
    ensures |path| >= 4 && path[..4] == "/ws/"
    ensures '@' !in symbol ==> ParseStream(path) == Just(Kline(symbol, interval))
  {
    KlinePathParses(symbol, interval);
    "/ws/" + symbol + "@kline_" + interval
  }

  /** `trades_websocket`: the aggregated-trade stream of `symbol`. */
  function TradesWebsocket(symbol: string): (path: string)
    ensures |path| >= 4 && path[..4] == "/ws/"
    ensures '@' !in symbol ==> ParseStream(path) == Just(AggTrade(symbol))
  {
    TradesPathParses(symbol);
    "/ws/" + symbol + "@aggTrade"
  }

  /** `user_data_websockets`: the account stream of a listen key. */
  function UserDataWebsockets(listenKey: string): (path: string)
    ensures |path| >= 4 && path[..4] == "/ws/"
    ensures '@' !in listenKey ==> ParseStream(path) == Just(UserData(listenKey))
  {
    var path := "/ws/" + listenKey;
    assert path[4..] == listenKey;
    path
  }

  /** Without `@` in the names, different subscriptions never share a
      path. */
  lemma StreamPathsDistinct(s1: string, i1: string, s2: string)
    requires '@' !in s1 && '@' !in s2
    ensures DepthWebsocket(s1) != KlineWebsocket(s2, i1)
    ensures DepthWebsocket(s1) != TradesWebsocket(s2)
    ensures KlineWebsocket(s1, i1) != TradesWebsocket(s2)
    ensures UserDataWebsockets(s1) != DepthWebsocket(s2)
    ensures UserDataWebsockets(s1) != KlineWebsocket(s2, i1)
    ensures UserDataWebsockets(s1) != TradesWebsocket(s2)
  {
  }
}
