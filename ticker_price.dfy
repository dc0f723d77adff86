/** The `TickerPrice` record and its JSON conversions. */
module TickerPrices {
  import opened Monads
  import opened JsonValue

  /** A symbol and its last price, both as the exchange's text. */
  datatype TickerPrice = TickerPrice(symbol: string, price: string)

  /** What reading a ticker out of JSON throws: `at` on a value that is
      not an object, `at` on a missing key, or `get<string>` on a member
      that is not a string. */
  datatype ReadError = NotAnObject | KeyNotFound(key: string) | NotAString(key: string)

  /** `to_json`: an object with exactly the keys `symbol` and `price`. */
  function ToJson(t: TickerPrice): (j: Json)
    ensures j.Obj? && j.fields.Keys == {"symbol", "price"}
    ensures j.fields["symbol"] == Str(t.symbol) && j.fields["price"] == Str(t.price)
  {
    Obj(map["symbol" := Str(t.symbol), "price" := Str(t.price)])
  }

  /** `j` has a string under `key`. */
  predicate HasString(j: Json, key: string)
  {
    j.Obj? && key in j.fields && j.fields[key].Str?
  }

  /** `j.at(key).get<string>()`. */
  function StringAt(j: Json, key: string): (r: Result<string, ReadError>)
    ensures r.Ok? <==> HasString(j, key)
    ensures r.Ok? ==> r.value == j.fields[key].s
    ensures !j.Obj? ==> r == Err(NotAnObject)
    ensures j.Obj? && key !in j.fields ==> r == Err(KeyNotFound(key))
    ensures j.Obj? && key in j.fields && !j.fields[key].Str? ==> r == Err(NotAString(key))
  {
    if !j.Obj? then Err(NotAnObject)
    else if key !in j.fields then Err(KeyNotFound(key))
    else if !j.fields[key].Str? then Err(NotAString(key))
    else Ok(j.fields[key].s)
  }

  /** `from_json`: the symbol is read first, then the price; the first
      failure is the error. */
  function FromJson(j: Json): (r: Result<TickerPrice, ReadError>)
    ensures r.Ok? <==> HasString(j, "symbol") && HasString(j, "price")
    ensures r.Ok? ==> r.value == TickerPrice(j.fields["symbol"].s, j.fields["price"].s)
    ensures !HasString(j, "symbol") ==> r == Err(StringAt(j, "symbol").error)
    ensures HasString(j, "symbol") && !HasString(j, "price") ==> r == Err(StringAt(j, "price").error)
  {
    match StringAt(j, "symbol")
    case Err(e) => Err(e)
    case Ok(symbol) =>
      match StringAt(j, "price")
      case Err(e) => Err(e)
      case Ok(price) => Ok(TickerPrice(symbol, price))
  }

  /** Reading back what `to_json` wrote gives the same ticker. */
  lemma FromJsonToJson(t: TickerPrice)
    ensures FromJson(ToJson(t)) == Ok(t)
  {
  }

  /** Writing out what `from_json` read gives the input object restricted
      to the two keys: nothing else of it is kept. */
  lemma ToJsonFromJson(j: Json, t: TickerPrice)
    requires FromJson(j) == Ok(t)
    ensures ToJson(t) == Obj(map k | k in j.fields && k in {"symbol", "price"} :: j.fields[k])
  {
  }

  /** `from_json` looks at no key but `symbol` and `price`: two objects
      that agree on those decode alike. */
  lemma FromJsonIgnoresOtherKeys(j1: Json, j2: Json)
    requires j1.Obj? && j2.Obj?
    requires SameAt(j1, j2, "symbol") && SameAt(j1, j2, "price")
    ensures FromJson(j1) == FromJson(j2)
  {
  }

  /** Both objects lack `key`, or both hold the same value under it. */
  predicate SameAt(j1: Json, j2: Json, key: string)
    requires j1.Obj? && j2.Obj?
  {
    (key in j1.fields <==> key in j2.fields)
    && (key in j1.fields ==> j1.fields[key] == j2.fields[key])
  }
}
