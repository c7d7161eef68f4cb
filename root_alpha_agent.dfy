/** The earlier, top-level AlphaVantage agent (alpha_agent.py): no key check,
    `None` instead of an exception when the response is empty, and the response
    passed through unconverted. */
module RootAlpha {
  import opened Values
  import opened Upstream

  datatype AlphaAgent = AlphaAgent(apiKey: string)

  /** `AlphaAgent()`: the key is `ALPHAVANTAGE_KEY`, or `"demo"` when unset. */
  function New(env: Option<string>): (a: AlphaAgent)
    ensures env.None? ==> a.apiKey == "demo"
    ensures env.Some? ==> a.apiKey == env.value
  {
    AlphaAgent(EnvOr(env, "demo"))
  }

  function OverviewUrl(key: string, ticker: string): string {
    "https://www.alphavantage.co/query?function=OVERVIEW&symbol=" + ticker + "&apikey=" + key
  }

  /** `fetch(ticker)`: raises only when the request itself fails; `None` when the
      response has no `Name`. */
  function Fetch(agent: AlphaAgent, ticker: string, http: string -> JsonResponse): Attempt<Option<Dict>> {
    var url := OverviewUrl(agent.apiKey, ticker);
    match http(url)
    case HttpFailed => Attempt(Err(NetworkError), [url])
    case JsonBody(data) =>
      if "Name" !in data then Attempt(Ok(None), [url])
      else
        Attempt(Ok(Some(map[
          "raw_quote" := Object(data),
          "symbol" := Str(ticker),
          "price" := Get(data, "50DayMovingAverage", Null),
          "pe_ratio" := Get(data, "PERatio", Null),
          "market_cap" := Get(data, "MarketCapitalization", Null),
          "source" := Str("AlphaVantage")])), [url])
  }

  /** Exactly one request is made, whatever the key; a response without `Name`
      returns `None`; one with `Name` returns the whole response as `raw_quote`,
      the ticker verbatim as `symbol`, the three fields unconverted (null when
      absent), tagged `"AlphaVantage"`. */
  lemma FetchShape(agent: AlphaAgent, ticker: string, http: string -> JsonResponse)
    ensures var a := Fetch(agent, ticker, http);
      var response := http(OverviewUrl(agent.apiKey, ticker));
      a.requests == [OverviewUrl(agent.apiKey, ticker)] &&
      (a.outcome.Err? <==> response.HttpFailed?) &&
      (response.JsonBody? ==>
        (a.outcome == Ok(None) <==> "Name" !in response.data)) &&
      (a.outcome.Ok? && a.outcome.value.Some? ==>
        var d := a.outcome.value.value;
        d["raw_quote"] == Object(response.data) &&
        d["symbol"] == Str(ticker) &&
        d["price"] == Get(response.data, "50DayMovingAverage", Null) &&
        d["pe_ratio"] == Get(response.data, "PERatio", Null) &&
        d["market_cap"] == Get(response.data, "MarketCapitalization", Null) &&
        d["source"] == Str("AlphaVantage"))
  {
  }
}
