/** The Finnhub provider: a quote plus a three-way news-sentiment label
    (src/providers/finnhub_agent.py). */
module FinnhubProvider {
  import opened Values
  import opened Upstream

  datatype FinnhubAgent = FinnhubAgent(apiKey: string)

  /** `FinnhubAgent()`: the key is `FINNHUB_API_KEY`, or empty when unset. */
  function New(env: Option<string>): FinnhubAgent {
    FinnhubAgent(EnvOr(env, ""))
  }

  const Base := "https://finnhub.io/api/v1"

  function QuoteUrl(key: string, ticker: string): string {
    Base + "/quote?symbol=" + ticker + "&token=" + key
  }

  function SentimentUrl(key: string, ticker: string): string {
    Base + "/news-sentiment?symbol=" + ticker + "&token=" + key
  }

  datatype Sentiment = Positive | Negative | Neutral

  function SentimentName(s: Sentiment): string {
    match s
    case Positive => "Positive"
    case Negative => "Negative"
    case Neutral => "Neutral"
  }

  /** The if/elif chain on the sentiment score. */
  function Label(score: real): (s: Sentiment)
    ensures s == Positive <==> score > 0.3
    ensures s == Negative <==> score < -0.3
    ensures s == Neutral <==> -0.3 <= score <= 0.3
  {
    if score > 0.3 then Positive
    else if score < -0.3 then Negative
    else Neutral
  }

  /** The labels are ordered as the scores are. */
  lemma LabelMonotone(a: real, b: real)
    requires a <= b
    ensures Label(a) == Positive ==> Label(b) == Positive
    ensures Label(b) == Negative ==> Label(a) == Negative
  {
  }

  /** `(sentiment.get("sentiment") or {}).get("companyNewsScore", 0)`, as far as
      comparing it with 0.3 goes: a number (or bool) is the score, a null or other
      non-number fails the comparison, a truthy non-object has no `.get`. */
  function Score(response: Dict): Result<real> {
    match Or(Get(response, "sentiment", Null), Object(map[]))
    case Object(m) =>
      (match Get(m, "companyNewsScore", Num(0.0))
       case Num(x) => Ok(x)
       case Bool(b) => Ok(if b then 1.0 else 0.0)
       case _ => Err(TypeError))
    case _ => Err(AttributeError)
  }

  /** A missing or null `sentiment` object, or one without `companyNewsScore`,
      scores 0 and is labelled Neutral. */
  lemma MissingScoreIsNeutral(response: Dict)
    requires "sentiment" !in response || response["sentiment"] == Null ||
             (response["sentiment"].Object? && "companyNewsScore" !in response["sentiment"].fields)
    ensures Score(response) == Ok(0.0) && Label(Score(response).value) == Neutral
  {
  }

  /** `fetch(ticker)`, with `http` answering each URL requested. */
  function Fetch(agent: FinnhubAgent, ticker: string, http: string -> JsonResponse): Attempt<Dict> {
    if agent.apiKey == "" then
      Attempt(Err(RuntimeError("Finnhub API key missing")), [])
    else
      var quoteUrl := QuoteUrl(agent.apiKey, ticker);
      match http(quoteUrl)
      case HttpFailed => Attempt(Err(NetworkError), [quoteUrl])
      case JsonBody(data) =>
        if "c" !in data then
          Attempt(Err(RuntimeError("Invalid Finnhub response")), [quoteUrl])
        else
          var sentimentUrl := SentimentUrl(agent.apiKey, ticker);
          var requests := [quoteUrl, sentimentUrl];
          match http(sentimentUrl)
          case HttpFailed => Attempt(Err(NetworkError), requests)
          case JsonBody(sentiment) =>
            match Score(sentiment)
            case Err(e) => Attempt(Err(e), requests)
            case Ok(score) =>
              Attempt(Ok(map[
                "raw_quote" := Object(map[
                  "symbol" := Str(ticker),
                  "price" := Get(data, "c", Null),
                  "high" := Get(data, "h", Null),
                  "low" := Get(data, "l", Null),
                  "sentiment" := Str(SentimentName(Label(score)))]),
                "source" := Str("Finnhub")]), requests)
  }

  /** Without a key nothing is requested and the call raises. */
  lemma KeyGuard(agent: FinnhubAgent, ticker: string, http: string -> JsonResponse)
    ensures var a := Fetch(agent, ticker, http);
      (agent.apiKey == "" <==> a.requests == []) &&
      (agent.apiKey == "" ==> a.outcome == Err(RuntimeError("Finnhub API key missing"))) &&
      (agent.apiKey != "" ==> a.requests[0] == QuoteUrl(agent.apiKey, ticker) && |a.requests| <= 2)
  {
  }

  /** A quote without `"c"` raises before the sentiment is requested. */
  lemma NoPriceRaises(agent: FinnhubAgent, ticker: string, http: string -> JsonResponse)
    requires agent.apiKey != ""
    requires http(QuoteUrl(agent.apiKey, ticker)).JsonBody?
    requires "c" !in http(QuoteUrl(agent.apiKey, ticker)).data
    ensures Fetch(agent, ticker, http) ==
      Attempt(Err(RuntimeError("Invalid Finnhub response")), [QuoteUrl(agent.apiKey, ticker)])
  {
  }

  /** A success copies price/high/low from c/h/l, echoes the ticker as symbol,
      labels the score, and is tagged `"Finnhub"`. */
  lemma SuccessShape(agent: FinnhubAgent, ticker: string, http: string -> JsonResponse)
    ensures var a := Fetch(agent, ticker, http);
      a.outcome.Ok? ==>
        var data := http(QuoteUrl(agent.apiKey, ticker)).data;
        var sentiment := http(SentimentUrl(agent.apiKey, ticker)).data;
        var raw := a.outcome.value["raw_quote"].fields;
        agent.apiKey != "" && "c" in data && Score(sentiment).Ok? &&
        a.outcome.value["source"] == Str("Finnhub") &&
        raw["symbol"] == Str(ticker) &&
        raw["price"] == data["c"] &&
        raw["high"] == Get(data, "h", Null) &&
        raw["low"] == Get(data, "l", Null) &&
        raw["sentiment"] == Str(SentimentName(Label(Score(sentiment).value)))
  {
  }
}
