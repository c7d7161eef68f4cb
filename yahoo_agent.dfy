/** One Yahoo Finance fetcher with its cooldown window
    (src/providers/yahoo_agent.py). */
module YahooProvider {
  import opened Values
  import opened Upstream
  import opened Text

  /** `set_cooldown`'s default duration, in seconds. */
  const DefaultCooldown: real := 300.0
  /** The cooldown an agent puts itself into when its own fetch fails. */
  const FailureCooldown: real := 180.0

  /** `f"YahooAgent-{agent_id}"` */
  function AgentName(agentId: nat): string {
    "YahooAgent-" + NatToString(agentId)
  }

  /** Agents with different ids have different names. */
  lemma AgentNamesDistinct(a: nat, b: nat)
    requires a != b
    ensures AgentName(a) != AgentName(b)
  {
    NumberedNamesDiffer("YahooAgent-", a, b);
  }

  /** The observable state of one agent. */
  datatype AgentState = AgentState(name: string, lastUsed: real, cooldownUntil: real)

  /** `is_available()` at time `now`. */
  predicate Available(a: AgentState, now: real) {
    now >= a.cooldownUntil
  }

  /** `set_cooldown(seconds)` at time `now`. */
  function WithCooldown(a: AgentState, now: real, seconds: real): AgentState {
    a.(cooldownUntil := now + seconds)
  }

  /** A cooldown of `s > 0` seconds set at `t` blocks the agent on `[t, t + s)`
      and on no later instant; it changes nothing but the deadline. */
  lemma CooldownWindow(a: AgentState, t: real, s: real, now: real)
    requires s > 0.0
    ensures t <= now < t + s ==> !Available(WithCooldown(a, t, s), now)
    ensures now >= t + s ==> Available(WithCooldown(a, t, s), now)
    ensures WithCooldown(a, t, s).name == a.name && WithCooldown(a, t, s).lastUsed == a.lastUsed
  {
  }

  /** The last cooldown set wins, even when it is shorter than the one in force. */
  lemma CooldownLastWriteWins(a: AgentState, t1: real, s1: real, t2: real, s2: real)
    ensures WithCooldown(WithCooldown(a, t1, s1), t2, s2) == WithCooldown(a, t2, s2)
  {
  }

  /** `float(info.get(key, 0) or 0)`: a null growth rate reads as 0. */
  function Growth(info: Dict, key: string, parse: string -> Option<real>): Result<real> {
    ToFloat(Or(Get(info, key, Num(0.0)), Num(0.0)), parse)
  }

  /** What `fetch(ticker)` returns or raises, given yfinance's answer `up`. */
  function QuoteOf(name: string, ticker: string, up: YfAnswer, parse: string -> Option<real>): Result<Dict> {
    match up
    case YfFailed => Err(UpstreamError)
    case YfData(info, n) =>
      if n == 0 then Err(ValueError("No historical data"))
      else
        var price :- Field(info, "currentPrice", parse);
        var pe :- Field(info, "trailingPE", parse);
        var cap :- Field(info, "marketCap", parse);
        var eps :- Growth(info, "earningsQuarterlyGrowth", parse);
        var rev :- Growth(info, "revenueGrowth", parse);
        Ok(map[
          "raw_quote" := Object(map[
            "symbol" := Str(Upper(ticker)),
            "price" := Num(price),
            "pe" := Num(pe),
            "market_cap" := Num(cap),
            "eps_growth" := Num(eps),
            "rev_growth" := Num(rev)]),
          "history_points" := Num(n as real),
          "agent" := Str(name)])
  }

  /** A fetch succeeds exactly when yfinance answered with a non-empty history and
      every numeric field converts; the result then carries a six-key `raw_quote`
      whose symbol is the upper-cased ticker, and the agent's name. */
  lemma QuoteShape(name: string, ticker: string, up: YfAnswer, parse: string -> Option<real>)
    ensures var r := QuoteOf(name, ticker, up, parse);
      r.Ok? <==>
        up.YfData? && up.historyLength > 0 &&
        Field(up.info, "currentPrice", parse).Ok? && Field(up.info, "trailingPE", parse).Ok? &&
        Field(up.info, "marketCap", parse).Ok? &&
        Growth(up.info, "earningsQuarterlyGrowth", parse).Ok? &&
        Growth(up.info, "revenueGrowth", parse).Ok?
    ensures var r := QuoteOf(name, ticker, up, parse);
      r.Ok? ==>
        "raw_quote" in r.value && r.value["raw_quote"].Object? &&
        r.value["raw_quote"].fields.Keys == QuoteKeys &&
        r.value["raw_quote"].fields["symbol"] == Str(Upper(ticker)) &&
        r.value["agent"] == Str(name) &&
        r.value["history_points"] == Num(up.historyLength as real) &&
        NumericQuote(r.value)
  {
  }

  /** An empty history is a failure, whatever `.info` holds. */
  lemma EmptyHistoryFails(name: string, ticker: string, info: Dict, parse: string -> Option<real>)
    ensures QuoteOf(name, ticker, YfData(info, 0), parse) == Err(ValueError("No historical data"))
  {
  }

  /** A null or missing growth rate becomes 0 in a successful result. */
  lemma NullGrowthIsZero(name: string, ticker: string, up: YfAnswer, parse: string -> Option<real>)
    requires QuoteOf(name, ticker, up, parse).Ok?
    ensures Get(up.info, "earningsQuarterlyGrowth", Null) == Null ==>
      QuoteOf(name, ticker, up, parse).value["raw_quote"].fields["eps_growth"] == Num(0.0)
    ensures Get(up.info, "revenueGrowth", Null) == Null ==>
      QuoteOf(name, ticker, up, parse).value["raw_quote"].fields["rev_growth"] == Num(0.0)
  {
  }

  /** The state after `fetch` at `now` with outcome `r`: `last_used` is always
      stamped, and a failure puts the agent into its own 180 s cooldown. */
  function AfterFetch(a: AgentState, now: real, r: Result<Dict>): AgentState {
    var used := a.(lastUsed := now);
    if r.Err? then WithCooldown(used, now, FailureCooldown) else used
  }

  /** A fetch never renames the agent and always records `now`; it moves the
      deadline only on failure, to exactly `now + 180`. */
  lemma FetchEffect(a: AgentState, now: real, r: Result<Dict>)
    ensures AfterFetch(a, now, r).name == a.name && AfterFetch(a, now, r).lastUsed == now
    ensures r.Ok? ==> AfterFetch(a, now, r).cooldownUntil == a.cooldownUntil
    ensures r.Err? ==> AfterFetch(a, now, r).cooldownUntil == now + FailureCooldown
    ensures r.Err? ==> !Available(AfterFetch(a, now, r), now)
  {
  }

  class YahooAgent {
    const name: string
    var lastUsed: real
    var cooldownUntil: real

    function State(): AgentState
      reads this
    {
      AgentState(name, lastUsed, cooldownUntil)
    }

    constructor (agentId: nat)
      ensures State() == AgentState(AgentName(agentId), 0.0, 0.0)
    {
      name := AgentName(agentId);
      lastUsed := 0.0;
      cooldownUntil := 0.0;
    }

    predicate IsAvailable(now: real)
      reads this
    {
      Available(State(), now)
    }

    method SetCooldown(now: real, seconds: real := DefaultCooldown)
      modifies this
      ensures State() == WithCooldown(old(State()), now, seconds)
    {
      cooldownUntil := now + seconds;
    }

    /** `fetch(ticker)` at time `now`, with yfinance answering `up`. */
    method Fetch(ticker: string, now: real, up: YfAnswer, parse: string -> Option<real>) returns (r: Result<Dict>)
      modifies this
      ensures r == QuoteOf(name, ticker, up, parse)
      ensures State() == AfterFetch(old(State()), now, r)
    {
      lastUsed := now;
      r := QuoteOf(name, ticker, up, parse);
      if r.Err? {
        SetCooldown(now, FailureCooldown);
      }
    }
  }
}
