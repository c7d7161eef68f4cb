# Stockron provider orchestration, in Dafny

This project models the part of the Stockron backend that fetches market data
and news and scores a ticker.

- **Yahoo Finance agents.** Each agent has its own cooldown window.
  `YahooProvider` models the current agent; `RootYahoo` models the earlier
  top-level one.
- **AlphaVantage fallback.** `AlphaProvider` models the current agent;
  `RootAlpha` models the earlier top-level one.
- **Finnhub agent** (`FinnhubProvider`). It returns a quote and a three-way
  news-sentiment label.
- **Master Agent** (`Master`). It keeps ten Yahoo agents behind a round-robin
  cursor. An agent whose fetch raised cools down for 300 s. A request falls
  back to AlphaVantage when no Yahoo agent serves it.
- **News Master Agent** (`News`). It tries three RSS agents in rotation and
  translates the headlines of the first that answers. Both copies of the file
  are modelled. They behave alike except for the Google News query;
  concurrency and logging are left out of both.
- **`/analyze` endpoint** (`Analyzer`). It normalises the ticker, asks the
  Master Agent for a quote, computes three sub-scores and an overall score, and
  maps that score to a stance.

Python values are modelled as follows:

- JSON values and dicts are the `Values.Value` datatype and `map`s.
- An exception is the `Err` case of a `Result`.
- The network, yfinance, the XML parser, the translator and Python's
  string-to-float conversion are function parameters. `Upstream` defines what
  they answer.
- The clock is a `now: real` parameter, and a request sees one instant.

Where the source updates objects in place, the model does too:

- `YahooProvider.YahooAgent`, `RootYahoo.YahooAgent`,
  `Master.MasterAgent` and `News.NewsMasterAgent` are classes.
- Their methods are proved against specification functions:
  - `Master.MasterFetch` and `Master.Run` for the Master Agent.
  - `News.GetNewsSpec` for the News Master Agent.
  - `YahooProvider.QuoteOf` and `YahooProvider.AfterFetch` for the Yahoo agent.
- Lemmas then state what those functions guarantee.

The Master Agent's proof has three layers:

- **The request function.** `Master.Run` is the `for attempt` loop, written
  over an abstract loop pass. `Master.Dispatch` is the pass `fetch` actually
  makes.
- **The method.** `Master.MasterAgent.Fetch` is shown to compute exactly
  `Master.MasterFetch`: its outcome, its dispatches and the new states of the
  agents and the cursor.
- **The properties.** The `Run…` lemmas prove what the request function
  guarantees.

## Model

| member | source | states |
|---|---|---|
| Values.ToFloat | src/providers/yahoo_agent.py:33-37 | `float(v)`: a number converts to itself; `None`, a list or a dict raises `TypeError` |
| Text.UpperNormalises | ai_analyzer_server.py:52 | `upper()` keeps the length, leaves no lower-case ASCII letter and is idempotent |
| Text.TrimStart | ai_analyzer_server.py:52 | `lstrip()` returns a suffix of the input that does not start with a space, and only spaces were dropped |
| Text.TrimEnd | ai_analyzer_server.py:52 | `rstrip()` returns a prefix of the input that does not end with a space, and only spaces were dropped |
| Text.StripNormalises | ai_analyzer_server.py:52 | `strip()` returns a slice of its input with no surrounding space, and stripping again changes nothing |
| Text.Remove | src/providers/news_master_agent.py:52 | `replace(c, "")` keeps exactly the characters other than `c` and never lengthens the string (their order: `Text.RemoveConcat`) |
| Text.RemoveChar | src/providers/news_master_agent.py:52 | `replace(c, "")` of the empty string is empty; of one character, it keeps the character iff it is not `c` |
| Text.RemoveConcat | src/providers/news_master_agent.py:52 | `replace(c, "")` distributes over concatenation, so the kept characters stay in order |
| Text.RemoveAbsent | src/providers/news_master_agent.py:52 | removing a character that does not occur changes nothing |
| Text.NatToString | src/providers/yahoo_agent.py:9 | the decimal rendering of a number has at least one digit, and exactly one below 10 |
| Text.NatToStringInjective | src/providers/yahoo_agent.py:9 | different numbers render differently |
| Text.NumberedNamesDiffer | src/providers/yahoo_agent.py:9 | names built from one prefix and two different ids differ |
| YahooProvider.AgentNamesDistinct | src/providers/yahoo_agent.py:9 | agents with different ids have different names |
| YahooProvider.CooldownWindow | src/providers/yahoo_agent.py:13-17 | a cooldown of `s` seconds set at `t` makes the agent unavailable on `[t, t+s)` and available from `t+s` on; it changes only the deadline |
| YahooProvider.CooldownLastWriteWins | src/providers/yahoo_agent.py:16-17 | the last cooldown set replaces any earlier one, even a longer one |
| YahooProvider.QuoteShape | src/providers/yahoo_agent.py:20-42 | a fetch succeeds iff yfinance answered with a non-empty history and every numeric field converts; a result carries a six-key `raw_quote` whose symbol is the upper-cased ticker and whose growth rates and market cap are numbers, the history length and the agent's name |
| YahooProvider.EmptyHistoryFails | src/providers/yahoo_agent.py:27-28 | an empty history raises `ValueError("No historical data")` |
| YahooProvider.NullGrowthIsZero | src/providers/yahoo_agent.py:36-37 | a missing or null growth rate becomes 0 in a result |
| YahooProvider.FetchEffect | src/providers/yahoo_agent.py:20-22 | a fetch always stamps `last_used` with `now`; only a failure moves the deadline, to exactly `now + 180`, which makes the agent unavailable at `now` |
| YahooProvider.YahooAgent.constructor | src/providers/yahoo_agent.py:8-11 | a new agent is named `YahooAgent-<id>`, with `last_used` and `cooldown_until` both 0 |
| YahooProvider.YahooAgent.SetCooldown | src/providers/yahoo_agent.py:16-17 | the agent's state becomes `WithCooldown(old state, now, seconds)` |
| YahooProvider.YahooAgent.Fetch | src/providers/yahoo_agent.py:20-47 | returns or raises `QuoteOf`, and the agent's new state is `AfterFetch` of the old one |
| RootYahoo.CooldownWindow | yahoo_agent.py:9-13 | the strict test blocks the agent on `[t, t+s]`, deadline included, so even a zero cooldown blocks it at `t` |
| RootYahoo.QuoteShape | yahoo_agent.py:15-27 | a fetch fails only when yfinance does, even on an empty history; a result is tagged with the agent's name, echoes the ticker and passes `.info` through as `raw_quote` |
| RootYahoo.YahooAgent.constructor | yahoo_agent.py:4-7 | a new agent is named `YahooAgent#<id>`, with deadline 0 |
| RootYahoo.YahooAgent.SetCooldown | yahoo_agent.py:12-13 | the deadline becomes `now + seconds` |
| RootYahoo.YahooAgent.Fetch | yahoo_agent.py:15-27 | returns `QuoteOf`; it succeeds iff yfinance answered, with the name, ticker and `.info` in place |
| AlphaProvider.KeyGuard | src/providers/alpha_agent.py:13-17 | without a key nothing is requested and the call raises; with one, exactly the OVERVIEW URL is requested |
| AlphaProvider.SuccessShape | src/providers/alpha_agent.py:20-33 | a success needs a response with `Symbol`; it is tagged `"AlphaVantage"`, takes its symbol from the response, and carries a non-empty six-key `raw_quote` whose growth rates and market cap are numbers |
| AlphaProvider.NoSymbolRaises | src/providers/alpha_agent.py:20-21 | a response without `Symbol` raises `RuntimeError("AlphaVantage returned no data")` |
| AlphaProvider.MissingFieldsDefault | src/providers/alpha_agent.py:26-30 | missing numeric fields read as 0, and the price is the 50-day moving average |
| RootAlpha.New | alpha_agent.py:5-6 | the key is `ALPHAVANTAGE_KEY`, or `"demo"` when unset |
| RootAlpha.FetchShape | alpha_agent.py:8-22 | one request is made whatever the key; the call raises iff the request fails; a response without `Name` gives `None`; otherwise the whole response is `raw_quote`, the ticker is echoed, the three fields are copied unconverted, and the result is tagged `"AlphaVantage"` |
| FinnhubProvider.Label | src/providers/finnhub_agent.py:26-32 | Positive iff the score > 0.3, Negative iff < -0.3, Neutral iff in [-0.3, 0.3] |
| FinnhubProvider.LabelMonotone | src/providers/finnhub_agent.py:27-32 | a higher score never gives a more negative label |
| FinnhubProvider.MissingScoreIsNeutral | src/providers/finnhub_agent.py:26 | a missing or null `sentiment`, or one without `companyNewsScore`, scores 0 and is Neutral |
| FinnhubProvider.KeyGuard | src/providers/finnhub_agent.py:13-24 | without a key nothing is requested and the call raises; with one, the quote URL is requested first, and at most two requests are made |
| FinnhubProvider.NoPriceRaises | src/providers/finnhub_agent.py:20-21 | a quote without `"c"` raises before the sentiment is requested |
| FinnhubProvider.SuccessShape | src/providers/finnhub_agent.py:34-43 | a success copies price, high and low from `c`, `h`, `l`, echoes the ticker, labels the score and is tagged `"Finnhub"` |
| Master.InitialPoolShape | src/providers/stockron_master_agent.py:10-13 | a new Master Agent holds ten fresh agents with ids 1..10 in order, all names distinct, and the cursor at 0 |
| Master.Next | src/providers/stockron_master_agent.py:20 | the advanced cursor stays inside the pool |
| Master.OffsetIsMod | src/providers/stockron_master_agent.py:20 | the model's cursor step is `(i + 1) % n`, and `k` steps are `(start + k) % n` |
| Master.FirstAvailable | src/providers/stockron_master_agent.py:17-23 | the offset found is in range and its agent is available |
| Master.FirstAvailableSkipsBusy | src/providers/stockron_master_agent.py:17-23 | every offset passed over, or every offset when none is found, is cooling down |
| Master.Select | src/providers/stockron_master_agent.py:15-24 | a pick is available and leaves the cursor just after it; no pick leaves the cursor where it was |
| Master.SelectComplete | src/providers/stockron_master_agent.py:15-24 | selection fails iff every agent is cooling down |
| Master.YahooAnswersAccepted | src/providers/stockron_master_agent.py:34 | every Yahoo result that is not an exception passes the `raw_quote` check |
| Master.Dispatch | src/providers/stockron_master_agent.py:29-41 | a pass keeps the pool and its names; an AlphaVantage call ends with its answer; a Yahoo dispatch goes to an available agent and ends the request only with accepted data tagged with that agent's name |
| Master.DispatchYahoo | src/providers/stockron_master_agent.py:29-41 | an AlphaVantage call leaves the agents as they were; a Yahoo dispatch ends the request iff the agent returned data passing the `raw_quote` check, then with that data tagged; the agent is always stamped with `now`, and cools down until `now + 300` only if it raised, so data failing the check leaves its deadline as it was |
| Master.DispatchOk | src/providers/stockron_master_agent.py:29-41 | the Master Agent's pass meets what the loop lemmas require of a pass |
| Master.DispatchEffect | src/providers/stockron_master_agent.py:38-40 | with accepted answers, a dispatched agent that does not serve the request ends cooling down for 300 s, overwriting its own 180 s |
| Master.Run | src/providers/stockron_master_agent.py:28-44 | the loop keeps the pool valid and its size |
| Master.MasterFetch | src/providers/stockron_master_agent.py:26-44 | a request keeps the pool valid and its size |
| Master.RunShape | src/providers/stockron_master_agent.py:28-44 | every dispatch but the last is a Yahoo one, and agents keep their names |
| Master.RunFallsBack | src/providers/stockron_master_agent.py:43-44 | a request ending with AlphaVantage made at most one Yahoo dispatch per remaining attempt, and its outcome is AlphaVantage's |
| Master.RunServed | src/providers/stockron_master_agent.py:34-37 | a request ending with a Yahoo dispatch returns accepted data tagged with that agent's name |
| Master.RunSkipsBusy | src/providers/stockron_master_agent.py:21-23 | no agent cooling down at the start of the request is dispatched |
| Master.RunNoRepeat | src/providers/stockron_master_agent.py:38-41 | no agent is dispatched twice in one request |
| Master.RunEffectAt | src/providers/stockron_master_agent.py:33-41 | an agent is untouched if not dispatched, only stamped if it served, and stamped and cooling down until `now + 300` otherwise |
| Master.EffectAfterRaise | src/providers/stockron_master_agent.py:38-41 | the per-agent effect carries across a pass whose agent raised |
| Master.RunEffects | src/providers/stockron_master_agent.py:33-41 | the per-agent effect holds for every agent of the pool |
| Master.MasterFetchShape | src/providers/stockron_master_agent.py:26-44 | a request makes at most n Yahoo dispatches and then at most one AlphaVantage call, last; AlphaVantage's answer is the outcome; a request served by Yahoo made at most n dispatches in all, and its answer is tagged with its agent |
| Master.RunNumeric | src/providers/stockron_master_agent.py:28-44 | a request returns only what a pass ended it with or AlphaVantage's answer, so it returns a scorable quote when all of those are scorable |
| Master.DispatchNumeric | src/providers/stockron_master_agent.py:34-37 | tagging a scorable Yahoo answer with the agent's name keeps it scorable |
| Master.MasterFetchNumeric | src/providers/stockron_master_agent.py:26-44 | with the Yahoo and AlphaVantage agents, whatever a request returns carries a non-empty `raw_quote` with numeric growth rates and market cap |
| Master.MasterFetchSource | src/providers/stockron_master_agent.py:34-44 | a returned quote names its source: the Yahoo agent that served it, or `"AlphaVantage"` when none did |
| Master.MasterFetchEffects | src/providers/stockron_master_agent.py:26-44 | busy agents are skipped, none is dispatched twice, and each agent ends untouched, stamped, or stamped and cooling down as it fared |
| Master.FirstDispatchServes | src/providers/stockron_master_agent.py:19-22 | an available agent under the cursor that answers serves alone; the cursor moves one place, and only its `last_used` changes |
| Master.AdvanceIsMod | src/providers/stockron_master_agent.py:20 | `j` steps of the cursor from `i` land on `(i + j) % n` |
| Master.CyclicOrder | src/providers/stockron_master_agent.py:15-24 | with all agents available and answering, successive requests are served in strict cyclic order from the cursor |
| Master.RunNeverServed | src/providers/stockron_master_agent.py:43-44 | when no Yahoo pass ends the request, its outcome is AlphaVantage's, called last |
| Master.Awaited | src/providers/stockron_master_agent.py:33 | awaiting a synchronous fetch always raises: exactly `TypeError` on a returned value, the exception itself otherwise |
| Master.AwaitedPassNeverServes | src/providers/stockron_master_agent.py:33-41 | with every answer awaited, no Yahoo pass ends the request |
| Master.AwaitedFetchRaises | src/providers/stockron_master_agent.py:33-44 | as written, `fetch` always raises, and every agent it dispatched ends cooling down for 300 s |
| Master.MasterAgent.constructor | src/providers/stockron_master_agent.py:10-13 | the new object stands for `InitialPool`, with the AlphaVantage agent built from the environment |
| Master.MasterAgent.GetNextYahoo | src/providers/stockron_master_agent.py:15-24 | picks the agent `Select` picks and leaves the cursor where `Select` does; agent states are unchanged |
| Master.MasterAgent.TryNextYahoo | src/providers/stockron_master_agent.py:29-41 | one loop pass does exactly what `Dispatch` specifies: the new pool, the call made and the result |
| Master.MasterAgent.YahooRounds | src/providers/stockron_master_agent.py:28-42 | the loop ends exactly as `Run` does: served with its pool, outcome and calls, or handing over to AlphaVantage |
| Master.MasterAgent.Fetch | src/providers/stockron_master_agent.py:26-44 | the outcome, the dispatches and the new pool are those of `MasterFetch` for the answers the world gives |
| News.ClassNamesDistinct | src/providers/news_master_agent.py:94-99 | class names identify the agents, and none is `"None"` |
| News.GoogleQuery | src/providers/news_master_agent.py:52 | the query has no `^` or `.`, and keeps every other character of the ticker (their order: `News.GoogleQueryConcat`) |
| News.GoogleQueryChar | src/providers/news_master_agent.py:52 | the query keeps one character iff it is neither `^` nor `.` |
| News.GoogleQueryConcat | src/providers/news_master_agent.py:52 | the query of a concatenation is the concatenation of the queries, so kept characters stay in order |
| News.GoogleQueryPlain | src/providers/news_master_agent.py:52 | a ticker without `^` or `.` is its own query |
| News.EditionsAgree | news_master_agent.py:45 | the two editions request the same feed iff the agent is not Google News or the ticker has no `^` or `.` |
| News.ItemOf | src/providers/news_master_agent.py:21-26 | an item converts iff it has title, link and pubDate, into exactly their texts and the source; otherwise it raises `AttributeError` |
| News.ItemsOf | src/providers/news_master_agent.py:19-27 | a feed converts iff every item is complete, item by item; otherwise it raises `AttributeError` |
| News.ItemsOfErrSticky | src/providers/news_master_agent.py:20-26 | once an item raises, later items do not matter |
| News.ParseItems | src/providers/news_master_agent.py:19-27 | the loop computes `ItemsOf` |
| News.Parse | src/providers/news_master_agent.py:35-48 | computes `ParseFeed`: a malformed feed raises; MarketWatch and Google turn any error into `[]` |
| News.Fetch | src/providers/news_master_agent.py:12-15 | computes `FetchNews`: a failed request raises; otherwise the feed is parsed |
| News.FetchNewsShape | src/providers/news_master_agent.py:11-70 | at most eight items, each with the agent's label and untranslated; MarketWatch and Google fail iff the request does; Yahoo succeeds iff the feed parses and its first eight items are complete |
| News.FetchNewsKeepsItems | src/providers/news_master_agent.py:11-27 | a parsed feed whose first eight items are complete is answered by every agent with exactly those items, in order |
| News.LenientFeedAnswersEmpty | src/providers/news_master_agent.py:47-48 | a malformed MarketWatch or Google feed answers `[]` |
| News.Translated | src/providers/news_master_agent.py:83-89 | translation keeps the number of items |
| News.TranslatedKeepsItems | src/providers/news_master_agent.py:84-89 | every item is kept in order with all fields; a Hebrew headline is added exactly where the translation succeeded |
| News.TranslateAll | src/providers/news_master_agent.py:83-89 | the loop computes `Translated` |
| News.FirstServing | src/providers/news_master_agent.py:78-98 | finds the first agent, from the cursor on, whose fetch does not raise, having passed only agents that raised; none is found only when all raise |
| News.GetNewsRotation | src/providers/news_master_agent.py:77-99 | the source is `"None"` iff all three agents raise; the cursor then stays; otherwise the first agent that answers serves its translated items with their count, and the cursor advances by one |
| News.GetNewsBounded | src/providers/news_master_agent.py:77-96 | an answer holds at most eight items, all labelled by the agent named as its source |
| News.RotationCoversAll | src/providers/news_master_agent.py:78-79 | the three offsets from any cursor reach the three agents |
| News.NewsMasterAgent.constructor | src/providers/news_master_agent.py:73-75 | the cursor starts at 0 |
| News.NewsMasterAgent.GetNews | src/providers/news_master_agent.py:77-99 | the answer and the new cursor are those of `GetNewsSpec` |
| Analyzer.SafeFloat | ai_analyzer_server.py:19-23 | a falsy value gives 0; a number gives itself; a non-empty list or dict gives the default; a string gives its parse or the default |
| Analyzer.ComputeScores | ai_analyzer_server.py:25-30 | quant is at least 0, at most 100 for a non-negative P/E, and 0 from P/E 200 up; quality is at most 100; catalyst is at most 100, equals 100 iff RSI is 50, and is at least 90 for an RSI in [40, 60] |
| Analyzer.OverallScore | ai_analyzer_server.py:29 | the overall score is weighted 0.4/0.4/0.2, is at most 100 for a non-negative P/E, and is the same for RSI 50±d |
| Analyzer.ScoresMonotone | ai_analyzer_server.py:26-27 | a higher P/E never raises quant; higher inputs never lower quality |
| Analyzer.StanceOf | ai_analyzer_server.py:32-35 | Buy iff ≥ 75, Hold iff in [50, 75), Wait iff < 50 |
| Analyzer.StanceMonotone | ai_analyzer_server.py:32-35 | a higher score never gives a weaker stance |
| Analyzer.UpperOfUpperCase | ai_analyzer_server.py:52 | upper-casing a string with no lower-case letter changes nothing |
| Analyzer.NormalisedUpperCase | ai_analyzer_server.py:52 | a normalised ticker has no lower-case letter |
| Analyzer.NormaliseIdempotent | ai_analyzer_server.py:52 | a normalised ticker has no surrounding space, and normalising it again changes nothing |
| Analyzer.Repeat | ai_analyzer_server.py:63-64 | `s * n` has `n` times the length |
| Analyzer.RepeatAt | ai_analyzer_server.py:63-64 | `s * n` holds `n` unchanged copies of `s`, one after the other |
| Analyzer.InputsOf | ai_analyzer_server.py:62-65 | the inputs raise iff a growth field or the market cap is of a type that cannot be scaled, and then with `TypeError` |
| Analyzer.Assess | ai_analyzer_server.py:61-77 | a truthy quote never gives the error record; one that is not a dict raises `AttributeError` |
| Analyzer.AnalyzeNoData | ai_analyzer_server.py:58-60 | the error record comes back iff `raw_quote` is missing or falsy, and it names the normalised ticker |
| Analyzer.MasterFailureIsNoData | ai_analyzer_server.py:37-44 | when the Master Agent raises, the handler answers with the error record |
| Analyzer.AnalysisShape | ai_analyzer_server.py:62-77 | an analysis carries the normalised ticker, scores computed from the quote with catalyst in [90, 100], the stance of its overall score, and the quote's source (`"Unknown"` if none) |
| Analyzer.NumericQuoteAnalyses | ai_analyzer_server.py:62-68 | a quote whose scaled fields are numbers is analysed with them scaled by 100, 100 and 1e-12 |
| Analyzer.MissingGrowthCrashes | ai_analyzer_server.py:63 | a quote without `eps_growth` makes the handler raise `TypeError` |
| Analyzer.AwaitedAnalyzeIsNoData | ai_analyzer_server.py:40 | as written, every request is answered with the error record |
| Analyzer.ServedRequestAnalysed | ai_analyzer_server.py:37-77 | without the `await`s, a request is analysed iff the Master Agent returns a quote, naming the serving Yahoo agent or `"AlphaVantage"` as its source; otherwise the handler answers with the error record |
| Analyzer.AnalyzeRequest | ai_analyzer_server.py:50-77 | end to end: the Master Agent's new pool is `MasterFetch`'s for the normalised ticker, the response is `Analyze` of what it returned, and it is an analysis iff the Master Agent returned a quote |

## Left out

- Timestamps (`_iso()`, `strftime`, `utcnow`) are not modelled; they are the only part of a response left out.
- Analyzer.OverallScore: states the overall score before `round(…, 2)`; rounding is floating point.
- Floating point in general: numbers are exact reals.
- `random.uniform(40, 60)` is a parameter, `rsi`, required to lie in that range.
- The clock is one `now` per request: no time passes between the dispatches of one request.
- Concurrency is not modelled. Requests are sequential, and the race between concurrent requests on the shared cursor and cooldowns is not.
- `await` of a synchronous fetch in the Master Agent is modelled once, as the finding below. Everywhere else the fetch is taken as the synchronous call it was evidently meant to be.
- `upper()` and `strip()` are modelled on ASCII only: Unicode case mapping and Unicode white space are not.
- The translator is a parameter `translate` answering each headline or failing. The googletrans service is not modelled.
- Network calls, yfinance, JSON decoding and the XML parser are parameters. Timeouts are folded into the request failing.
- `print` output and logging are not modelled.
- Environment lookups (`os.getenv`) are parameters of the constructors.
- The FastAPI application, the `home` endpoint and request validation are not modelled.
- src/providers/test_master.py is not part of this model: it calls methods no agent defines.
- `MASTER_AGENT` as a module-level singleton is not modelled: `AnalyzeRequest` takes the agent as a parameter.
- News items are built from the three child elements `_parse` reads. Other elements of a feed are not modelled.

## Findings

| source | as written | input that shows it | evidently intended | confidence | as-written member | corrected member |
|---|---|---|---|---|---|---|
| src/providers/stockron_master_agent.py:33 | `await agent.fetch(ticker)` awaits the plain dict a synchronous fetch returns, which raises `TypeError`; the handler catches it and cools the agent down for 300 s | any request in which a Yahoo agent returns data: every dispatched agent is cooled down, and the request moves on to AlphaVantage | call the synchronous fetch without `await` and return its data, tagged | high, not executed | Master.AwaitedFetchRaises | Master.MasterAgent.Fetch |
| src/providers/stockron_master_agent.py:44 | `return await self.alpha.fetch(ticker)` also awaits a dict, so the request raises; `fetch_from_master` turns that into `{}` | any ticker at all: `/analyze` answers "No data returned from agents" | return AlphaVantage's data, so that the handler can score it | high, not executed | Analyzer.AwaitedAnalyzeIsNoData | Analyzer.ServedRequestAnalysed |
