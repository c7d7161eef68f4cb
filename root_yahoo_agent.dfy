/** The earlier, top-level Yahoo agent (yahoo_agent.py): a strict availability
    test, no cooldown of its own, and the whole `.info` record passed through. */
module RootYahoo {
  import opened Values
  import opened Upstream
  import opened Text

  /** `f"YahooAgent#{id}"` */
  function AgentName(id: int): string {
    "YahooAgent#" + IntToString(id)
  }

  /** `is_available()` at `now`: strictly after the deadline. */
  predicate Available(cooldownUntil: real, now: real) {
    now > cooldownUntil
  }

  /** A cooldown of `s` seconds set at `t` blocks the agent on `[t, t + s]`, the
      deadline itself included; so even `set_cooldown(0)` blocks the agent at `t`. */
  lemma CooldownWindow(t: real, s: real, now: real)
    requires s >= 0.0
    ensures t <= now <= t + s ==> !Available(t + s, now)
    ensures now > t + s ==> Available(t + s, now)
    ensures !Available(t + 0.0, t)
  {
  }

  /** What `fetch(ticker)` returns or raises, given yfinance's answer `up`. */
  function QuoteOf(name: string, ticker: string, up: YfAnswer): Result<Dict> {
    match up
    case YfFailed => Err(UpstreamError)
    case YfData(info, n) =>
      Ok(map[
        "raw_quote" := Object(info),
        "symbol" := Str(ticker),
        "price" := Get(info, "currentPrice", Null),
        "pe_ratio" := Get(info, "trailingPE", Null),
        "market_cap" := Get(info, "marketCap", Null),
        "history_len" := Num(n as real),
        "source" := Str(name)])
  }

  /** A fetch fails only when yfinance does, even on an empty history; a result is
      tagged with the agent's name, echoes the ticker as given, and carries the
      whole `.info` record as `raw_quote`. */
  lemma QuoteShape(name: string, ticker: string, up: YfAnswer)
    ensures QuoteOf(name, ticker, up).Ok? <==> up.YfData?
    ensures QuoteOf(name, ticker, up).Ok? ==>
      var d := QuoteOf(name, ticker, up).value;
      d["source"] == Str(name) && d["symbol"] == Str(ticker) &&
      d["raw_quote"] == Object(up.info) && d["history_len"] == Num(up.historyLength as real)
  {
  }

  class YahooAgent {
    const id: int
    const name: string
    var cooldownUntil: real

    constructor (id: int)
      ensures this.id == id && name == AgentName(id) && cooldownUntil == 0.0
    {
      this.id := id;
      name := AgentName(id);
      cooldownUntil := 0.0;
    }

    predicate IsAvailable(now: real)
      reads this
    {
      Available(cooldownUntil, now)
    }

    method SetCooldown(now: real, seconds: real)
      modifies this
      ensures cooldownUntil == now + seconds
    {
      cooldownUntil := now + seconds;
    }

    /** `fetch(ticker)`; it reads the agent's name and changes no state. */
    method Fetch(ticker: string, up: YfAnswer) returns (r: Result<Dict>)
      ensures r == QuoteOf(name, ticker, up)
      ensures r.Ok? <==> up.YfData?
      ensures r.Ok? ==> r.value["source"] == Str(name) && r.value["symbol"] == Str(ticker) &&
                        r.value["raw_quote"] == Object(up.info)
    {
      r := QuoteOf(name, ticker, up);
    }
  }
}
