/** The `/analyze` endpoint of the AI Analyzer Server (ai_analyzer_server.py):
    it normalises the ticker, asks the Master Agent for a quote, turns four of
    the quote's fields into three sub-scores and an overall score, and maps that
    score to a stance. */
module Analyzer {
  import opened Values
  import opened Text
  import Master
  import AlphaProvider

  /** `safe_float(value, default)`: `float(value or 0)`, or `default` when the
      conversion raises. */
  function SafeFloat(v: Value, parse: string -> Option<real>, default: real := 0.0): (r: real)
    ensures !Truthy(v) ==> r == 0.0
    ensures v.Num? ==> r == v.n
    ensures Truthy(v) && (v.List? || v.Object?) ==> r == default
    ensures v.Str? && v.s != "" ==> r == (if parse(v.s).Some? then parse(v.s).value else default)
  {
    match ToFloat(Or(v, Num(0.0)), parse)
    case Ok(x) => x
    case Err(_) => default
  }

  function Max(a: real, b: real): real { if a >= b then a else b }
  function Min(a: real, b: real): real { if a <= b then a else b }
  function Abs(a: real): real { if a >= 0.0 then a else -a }

  /** The dict `compute_scores` returns; `overall` is before `round(…, 2)`. */
  datatype Scores = Scores(quant: real, quality: real, catalyst: real, overall: real)

  /** `compute_scores(pe, eps, pm, roe, rsi)` */
  function ComputeScores(pe: real, eps: real, pm: real, roe: real, rsi: real): (s: Scores)
    ensures s.quant >= 0.0
    ensures pe >= 0.0 ==> s.quant <= 100.0
    ensures pe >= 200.0 ==> s.quant == 0.0
    ensures s.quality <= 100.0
    ensures s.catalyst <= 100.0 && (s.catalyst == 100.0 <==> rsi == 50.0)
    ensures 40.0 <= rsi <= 60.0 ==> 90.0 <= s.catalyst
  {
    var quant := Max(0.0, 100.0 - Min(pe, 200.0) / 2.0);
    var quality := Min(100.0, (eps + pm + roe) / 3.0);
    var catalyst := 100.0 - Abs(rsi - 50.0);
    Scores(quant, quality, catalyst, quant * 0.4 + quality * 0.4 + catalyst * 0.2)
  }

  /** The overall score weighs quant and quality at 0.4 and catalyst at 0.2,
      never exceeds 100 when the P/E is not negative, and is the same for an
      RSI the same distance above or below 50. */
  lemma OverallScore(pe: real, eps: real, pm: real, roe: real, rsi: real, d: real)
    ensures var s := ComputeScores(pe, eps, pm, roe, rsi);
      s.overall == 0.4 * s.quant + 0.4 * s.quality + 0.2 * s.catalyst
    ensures pe >= 0.0 ==> ComputeScores(pe, eps, pm, roe, rsi).overall <= 100.0
    ensures ComputeScores(pe, eps, pm, roe, 50.0 + d) == ComputeScores(pe, eps, pm, roe, 50.0 - d)
  {
  }

  /** A higher P/E never raises the quant score, nor higher inputs lower the
      quality score. */
  lemma ScoresMonotone(pe1: real, pe2: real, eps: real, pm: real, roe: real, rsi: real, gain: real)
    requires pe1 <= pe2 && gain >= 0.0
    ensures ComputeScores(pe2, eps, pm, roe, rsi).quant <= ComputeScores(pe1, eps, pm, roe, rsi).quant
    ensures ComputeScores(pe1, eps, pm, roe, rsi).quality <= ComputeScores(pe1, eps + gain, pm, roe, rsi).quality
  {
  }

  datatype Stance = Buy | Hold | Wait

  function StanceName(s: Stance): string {
    match s
    case Buy => "Buy"
    case Hold => "Hold"
    case Wait => "Wait"
  }

  /** `stance_from_overall(score)` */
  function StanceOf(score: real): (s: Stance)
    ensures s == Buy <==> score >= 75.0
    ensures s == Hold <==> 50.0 <= score < 75.0
    ensures s == Wait <==> score < 50.0
  {
    if score >= 75.0 then Buy
    else if score >= 50.0 then Hold
    else Wait
  }

  function Rank(s: Stance): nat {
    match s
    case Wait => 0
    case Hold => 1
    case Buy => 2
  }

  /** A higher score never gives a weaker stance. */
  lemma StanceMonotone(a: real, b: real)
    requires a <= b
    ensures Rank(StanceOf(a)) <= Rank(StanceOf(b))
  {
  }

  /** `req.ticker.upper().strip()` */
  function Normalise(ticker: string): string {
    Strip(Upper(ticker))
  }

  lemma UpperOfUpperCase(s: string)
    requires forall i :: 0 <= i < |s| ==> !IsAsciiLower(s[i])
    ensures Upper(s) == s
  {
  }

  /** A normalised ticker has no lower-case letter. */
  lemma NormalisedUpperCase(ticker: string)
    ensures var t := Normalise(ticker); forall i :: 0 <= i < |t| ==> !IsAsciiLower(t[i])
  {
    var u := Upper(ticker);
    var t := Normalise(ticker);
    TrimKeepsChars(u);
    TrimKeepsChars(TrimStart(u));
    forall i | 0 <= i < |t|
      ensures !IsAsciiLower(t[i])
    {
      assert t[i] in u;
    }
  }

  /** A normalised ticker has no lower-case letter and no surrounding space,
      and normalising it again changes nothing. */
  lemma NormaliseIdempotent(ticker: string)
    ensures var t := Normalise(ticker);
      (forall i :: 0 <= i < |t| ==> !IsAsciiLower(t[i])) &&
      (t == [] || (!IsSpace(t[0]) && !IsSpace(t[|t| - 1]))) &&
      Normalise(t) == t
  {
    var t := Normalise(ticker);
    NormalisedUpperCase(ticker);
    UpperOfUpperCase(t);
    StripNormalises(Upper(ticker));
  }

  /** `base_data`: what the Master Agent returned, or `{}` when it raised. */
  function BaseData(outcome: Result<Dict>): Dict {
    match outcome
    case Ok(d) => d
    case Err(_) => map[]
  }

  function Repeat<T>(s: seq<T>, n: nat): (r: seq<T>)
    ensures |r| == |s| * n
  {
    if n == 0 then [] else s + Repeat(s, n - 1)
  }

  /** Position `i * |s| + k` of `n` copies of `s` holds `s[k]`, for every copy
      `i` and every `k`: the copies follow each other unchanged. */
  lemma {:induction false} RepeatAt<T>(s: seq<T>, n: nat, i: nat, k: nat)
    requires i < n && k < |s|
    ensures i * |s| + k < |Repeat(s, n)| && Repeat(s, n)[i * |s| + k] == s[k]
    decreases n
  {
    assert |s| * n == |s| + |s| * (n - 1);
    if i > 0 {
      RepeatAt(s, n - 1, i - 1, k);
      assert i * |s| + k == |s| + ((i - 1) * |s| + k);
    }
  }

  /** `v * 100`: numbers scale, strings and lists repeat, `None` and dicts raise. */
  function Times100(v: Value): Result<Value> {
    match v
    case Null => Err(TypeError)
    case Bool(b) => Ok(Num(if b then 100.0 else 0.0))
    case Num(n) => Ok(Num(n * 100.0))
    case Str(s) => Ok(Str(Repeat(s, 100)))
    case List(xs) => Ok(List(Repeat(xs, 100)))
    case Object(_) => Err(TypeError)
  }

  /** `v / 1e12`: only numbers divide. */
  function PerTrillion(v: Value): Result<Value> {
    match v
    case Bool(b) => Ok(Num(if b then 1.0 / 1000000000000.0 else 0.0))
    case Num(n) => Ok(Num(n / 1000000000000.0))
    case _ => Err(TypeError)
  }

  /** The four inputs `analyze` reads from `raw_quote`: `pe`, `eps`, `pm`, `roe`. */
  datatype Inputs = Inputs(pe: real, eps: real, pm: real, roe: real)

  /** Lines 62-65: a missing growth field is `None`, and `None * 100` raises
      before `safe_float` can catch it; so does `None / 1e12`. */
  function InputsOf(raw: Dict, parse: string -> Option<real>): (r: Result<Inputs>)
    ensures r.Err? <==> !Times100(Get(raw, "eps_growth", Null)).Ok? ||
                        !Times100(Get(raw, "rev_growth", Null)).Ok? ||
                        !PerTrillion(Get(raw, "market_cap", Null)).Ok?
    ensures r.Err? ==> r.error == TypeError
  {
    var eps :- Times100(Get(raw, "eps_growth", Null));
    var pm :- Times100(Get(raw, "rev_growth", Null));
    var roe :- PerTrillion(Get(raw, "market_cap", Null));
    Ok(Inputs(SafeFloat(Get(raw, "pe", Null), parse), SafeFloat(eps, parse), SafeFloat(pm, parse), SafeFloat(roe, parse)))
  }

  /** What `/analyze` answers: the error record, the analysis, or an exception
      that escapes the handler. The `timestamp` is not modelled. */
  datatype Response =
    | NoData(message: string, ticker: string)
    | Analysis(ticker: string, scores: Scores, stance: Stance, source: Value)
    | Crashed(error: PyError)

  /** `analyze(req)` once the Master Agent has answered with `base`; `rsi` is
      the value `random.uniform(40, 60)` drew. */
  function Analyze(request: string, base: Dict, rsi: real, parse: string -> Option<real>): Response
    requires 40.0 <= rsi <= 60.0
  {
    var ticker := Normalise(request);
    var raw := Get(base, "raw_quote", Object(map[]));
    if !Truthy(raw) then NoData("No data returned from agents", ticker)
    else Assess(ticker, raw, Get(base, "source", Str("Unknown")), rsi, parse)
  }

  /** Lines 61-77 of the handler, for a truthy `raw_quote`: it is read as a
      dict, scored, and never answered with the error record. */
  function Assess(ticker: string, raw: Value, source: Value, rsi: real, parse: string -> Option<real>): (r: Response)
    requires Truthy(raw) && 40.0 <= rsi <= 60.0
    ensures !r.NoData?
    ensures !raw.Object? ==> r == Crashed(AttributeError)
  {
    if !raw.Object? then Crashed(AttributeError)
    else
      match InputsOf(raw.fields, parse)
      case Err(e) => Crashed(e)
      case Ok(x) =>
        var scores := ComputeScores(x.pe, x.eps, x.pm, x.roe, rsi);
        Analysis(ticker, scores, StanceOf(scores.overall), source)
  }

  /** The error record comes back exactly when the quote has no (truthy)
      `raw_quote`, and it names the normalised ticker. */
  lemma AnalyzeNoData(request: string, base: Dict, rsi: real, parse: string -> Option<real>)
    requires 40.0 <= rsi <= 60.0
    ensures var r := Analyze(request, base, rsi, parse);
      (r.NoData? <==> !Truthy(Get(base, "raw_quote", Null))) &&
      (r.NoData? ==> r == NoData("No data returned from agents", Normalise(request)))
  {
    assert Truthy(Get(base, "raw_quote", Object(map[]))) <==> Truthy(Get(base, "raw_quote", Null));
  }

  /** When the Master Agent raises, the handler answers with the error record. */
  lemma MasterFailureIsNoData(request: string, e: PyError, rsi: real, parse: string -> Option<real>)
    requires 40.0 <= rsi <= 60.0
    ensures Analyze(request, BaseData(Err(e)), rsi, parse) == NoData("No data returned from agents", Normalise(request))
  {
  }

  /** An analysis carries the normalised ticker, scores computed from the
      quote with a catalyst in [90, 100], the stance of its overall score, and
      the quote's source, `"Unknown"` when it names none. */
  lemma AnalysisShape(request: string, base: Dict, rsi: real, parse: string -> Option<real>)
    requires 40.0 <= rsi <= 60.0
    ensures var r := Analyze(request, base, rsi, parse);
      r.Analysis? ==>
        "raw_quote" in base && base["raw_quote"].Object? &&
        var x := InputsOf(base["raw_quote"].fields, parse);
        x.Ok? &&
        r.ticker == Normalise(request) &&
        r.scores == ComputeScores(x.value.pe, x.value.eps, x.value.pm, x.value.roe, rsi) &&
        90.0 <= r.scores.catalyst <= 100.0 &&
        r.stance == StanceOf(r.scores.overall) &&
        r.source == Get(base, "source", Str("Unknown"))
  {
  }

  /** A `raw_quote` whose three scaled fields are numbers is always analysed,
      with those numbers scaled as the handler scales them. */
  lemma NumericQuoteAnalyses(request: string, base: Dict, rsi: real, parse: string -> Option<real>)
    requires 40.0 <= rsi <= 60.0
    requires NumericQuote(base)
    ensures var r := Analyze(request, base, rsi, parse);
      var raw := base["raw_quote"].fields;
      r.Analysis? &&
      r.scores == ComputeScores(SafeFloat(Get(raw, "pe", Null), parse), raw["eps_growth"].n * 100.0,
                                raw["rev_growth"].n * 100.0, raw["market_cap"].n / 1000000000000.0, rsi)
  {
    var raw := base["raw_quote"].fields;
    var x := Inputs(SafeFloat(Get(raw, "pe", Null), parse), raw["eps_growth"].n * 100.0,
                    raw["rev_growth"].n * 100.0, raw["market_cap"].n / 1000000000000.0);
    assert InputsOf(raw, parse) == Ok(x);
    assert Get(base, "raw_quote", Object(map[])) == base["raw_quote"];
  }

  /** A quote whose `raw_quote` lacks `eps_growth` makes the handler raise. */
  lemma MissingGrowthCrashes(request: string, base: Dict, rsi: real, parse: string -> Option<real>)
    requires 40.0 <= rsi <= 60.0
    requires "raw_quote" in base && base["raw_quote"].Object? && Truthy(base["raw_quote"])
    requires "eps_growth" !in base["raw_quote"].fields
    ensures Analyze(request, base, rsi, parse) == Crashed(TypeError)
  {
  }

  /** As written, the Master Agent awaits its synchronous agents' fetches and
      always raises, so every request is answered with the error record. */
  lemma AwaitedAnalyzeIsNoData(request: string, p: Master.Pool, ans: Master.Answers, rsi: real,
                               parse: string -> Option<real>)
    requires Master.ValidPool(p) && 40.0 <= rsi <= 60.0
    ensures Analyze(request, BaseData(Master.MasterFetch(p, Master.AwaitedAnswers(ans)).outcome), rsi, parse) ==
            NoData("No data returned from agents", Normalise(request))
  {
    var outcome := Master.MasterFetch(p, Master.AwaitedAnswers(ans)).outcome;
    Master.AwaitedFetchRaises(p, ans);
    MasterFailureIsNoData(request, outcome.error, rsi, parse);
  }

  /** The request path once the Master Agent's calls are not awaited: whenever
      it returns a quote for the normalised ticker, from a Yahoo agent or from
      AlphaVantage, the handler answers with an analysis of that quote, naming
      the agent or `"AlphaVantage"` as its source; when it raises, the handler
      answers with the error record. */
  lemma ServedRequestAnalysed(request: string, p: Master.Pool, alpha: AlphaProvider.AlphaAgent, w: Master.World,
                              rsi: real, parse: string -> Option<real>)
    requires Master.ValidPool(p) && 40.0 <= rsi <= 60.0
    ensures var R := Master.MasterFetch(p, Master.AnswersFor(Normalise(request), alpha, w));
      var r := Analyze(request, BaseData(R.outcome), rsi, parse);
      (r.Analysis? <==> R.outcome.Ok?) &&
      (R.outcome.Err? ==> r == NoData("No data returned from agents", Normalise(request))) &&
      match Master.Served(R.calls)
      case Some(i) => i < |p.agents| && r.Analysis? && r.source == Str(p.agents[i].name)
      case None => r.Analysis? ==> r.source == Str("AlphaVantage")
  {
    var R := Master.MasterFetch(p, Master.AnswersFor(Normalise(request), alpha, w));
    Master.MasterFetchSource(p, Normalise(request), alpha, w);
    if R.outcome.Ok? {
      NumericQuoteAnalyses(request, R.outcome.value, rsi, parse);
      AnalysisShape(request, R.outcome.value, rsi, parse);
    } else {
      MasterFailureIsNoData(request, R.outcome.error, rsi, parse);
    }
  }

  /** `analyze(req)` end to end: the Master Agent is asked for the normalised
      ticker, with `w` answering its requests, and the handler answers from
      what it returned. */
  method AnalyzeRequest(agent: Master.MasterAgent, request: string, w: Master.World, rsi: real,
                        parse: string -> Option<real>) returns (r: Response)
    requires agent.Valid() && 40.0 <= rsi <= 60.0
    modifies agent, agent.yahooAgents
    ensures agent.Valid()
    ensures var R := Master.MasterFetch(old(agent.Model()), Master.AnswersFor(Normalise(request), agent.alpha, w));
      agent.Model() == R.pool && r == Analyze(request, BaseData(R.outcome), rsi, parse) &&
      (r.Analysis? <==> R.outcome.Ok?)
  {
    var ticker := Normalise(request);
    ghost var p := agent.Model();
    var outcome, _ := agent.Fetch(ticker, w);
    r := Analyze(request, BaseData(outcome), rsi, parse);
    ServedRequestAnalysed(request, p, agent.alpha, w, rsi, parse);
  }
}
