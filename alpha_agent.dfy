/** The AlphaVantage fallback provider used by the Master Agent
    (src/providers/alpha_agent.py). */
module AlphaProvider {
  import opened Values
  import opened Upstream

  /** An AlphaAgent holds only its API key, read once at construction. */
  datatype AlphaAgent = AlphaAgent(apiKey: string)

  /** `AlphaAgent()`: the key is `ALPHA_API_KEY`, or empty when unset. */
  function New(env: Option<string>): AlphaAgent {
    AlphaAgent(EnvOr(env, ""))
  }

  const Base := "https://www.alphavantage.co/query"

  function OverviewUrl(key: string, ticker: string): string {
    Base + "?function=OVERVIEW&symbol=" + ticker + "&apikey=" + key
  }

  /** The `raw_quote` built from an OVERVIEW response that has a `Symbol`. */
  function RawQuote(data: Dict, parse: string -> Option<real>): Result<Dict>
    requires "Symbol" in data
  {
    var price :- Field(data, "50DayMovingAverage", parse);
    var pe :- Field(data, "PERatio", parse);
    var cap :- Field(data, "MarketCapitalization", parse);
    var eps :- Field(data, "QuarterlyEarningsGrowthYOY", parse);
    var rev :- Field(data, "QuarterlyRevenueGrowthYOY", parse);
    Ok(map[
      "symbol" := data["Symbol"],
      "price" := Num(price),
      "pe" := Num(pe),
      "market_cap" := Num(cap),
      "eps_growth" := Num(eps),
      "rev_growth" := Num(rev)])
  }

  /** `fetch(ticker)`, with `http` answering each URL requested. */
  function Fetch(agent: AlphaAgent, ticker: string, http: string -> JsonResponse, parse: string -> Option<real>): Attempt<Dict> {
    if agent.apiKey == "" then
      Attempt(Err(RuntimeError("AlphaVantage key not set")), [])
    else
      var url := OverviewUrl(agent.apiKey, ticker);
      match http(url)
      case HttpFailed => Attempt(Err(NetworkError), [url])
      case JsonBody(data) =>
        if "Symbol" !in data then
          Attempt(Err(RuntimeError("AlphaVantage returned no data")), [url])
        else
          match RawQuote(data, parse)
          case Err(e) => Attempt(Err(e), [url])
          case Ok(raw) => Attempt(Ok(map["raw_quote" := Object(raw), "source" := Str("AlphaVantage")]), [url])
  }

  /** Without a key nothing is requested and the call raises; with one, exactly the
      OVERVIEW URL is requested. */
  lemma KeyGuard(agent: AlphaAgent, ticker: string, http: string -> JsonResponse, parse: string -> Option<real>)
    ensures var a := Fetch(agent, ticker, http, parse);
      (agent.apiKey == "" <==> a.requests == []) &&
      (agent.apiKey == "" ==> a.outcome == Err(RuntimeError("AlphaVantage key not set"))) &&
      (agent.apiKey != "" ==> a.requests == [OverviewUrl(agent.apiKey, ticker)])
  {
  }

  /** A success comes only from a response with a `Symbol`, is tagged
      `"AlphaVantage"`, takes its symbol from the response rather than from the
      ticker, and always carries a non-empty six-key `raw_quote`. */
  lemma SuccessShape(agent: AlphaAgent, ticker: string, http: string -> JsonResponse, parse: string -> Option<real>)
    ensures var a := Fetch(agent, ticker, http, parse);
      a.outcome.Ok? ==>
        var data := http(OverviewUrl(agent.apiKey, ticker)).data;
        agent.apiKey != "" &&
        http(OverviewUrl(agent.apiKey, ticker)).JsonBody? && "Symbol" in data &&
        a.outcome.value.Keys == {"raw_quote", "source"} &&
        a.outcome.value["source"] == Str("AlphaVantage") &&
        a.outcome.value["raw_quote"].Object? &&
        a.outcome.value["raw_quote"].fields.Keys == QuoteKeys &&
        a.outcome.value["raw_quote"].fields["symbol"] == data["Symbol"] &&
        Truthy(a.outcome.value["raw_quote"]) &&
        NumericQuote(a.outcome.value)
  {
  }

  /** A response without `Symbol` raises. */
  lemma NoSymbolRaises(agent: AlphaAgent, ticker: string, http: string -> JsonResponse, parse: string -> Option<real>)
    requires agent.apiKey != ""
    requires http(OverviewUrl(agent.apiKey, ticker)).JsonBody?
    requires "Symbol" !in http(OverviewUrl(agent.apiKey, ticker)).data
    ensures Fetch(agent, ticker, http, parse).outcome == Err(RuntimeError("AlphaVantage returned no data"))
  {
  }

  /** Missing numeric fields read as 0, and the price is the 50-day moving average. */
  lemma MissingFieldsDefault(data: Dict, parse: string -> Option<real>)
    requires "Symbol" in data
    requires RawQuote(data, parse).Ok?
    ensures var raw := RawQuote(data, parse).value;
      ("50DayMovingAverage" !in data ==> raw["price"] == Num(0.0)) &&
      ("PERatio" !in data ==> raw["pe"] == Num(0.0)) &&
      ("MarketCapitalization" !in data ==> raw["market_cap"] == Num(0.0)) &&
      ("QuarterlyEarningsGrowthYOY" !in data ==> raw["eps_growth"] == Num(0.0)) &&
      ("QuarterlyRevenueGrowthYOY" !in data ==> raw["rev_growth"] == Num(0.0)) &&
      ("50DayMovingAverage" in data && data["50DayMovingAverage"].Num? ==>
        raw["price"] == data["50DayMovingAverage"])
  {
  }
}
