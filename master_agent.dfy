/** The Master Agent (src/providers/stockron_master_agent.py): a pool of ten
    Yahoo agents behind a round-robin cursor, a 300 s cooldown for an agent whose
    fetch raised, and a single AlphaVantage call when the pool yields nothing.

    `Run` states what one `fetch` does to the pool and what it returns; the
    class `MasterAgent` is proved to do exactly that, and the lemmas below state
    what `Run` guarantees. */
module Master {
  import opened Values
  import opened Upstream
  import opened YahooProvider
  import Alpha = AlphaProvider

  /** `range(1, 11)` agents. */
  const PoolSize: nat := 10
  /** The cooldown the Master Agent gives an agent whose fetch raised. */
  const RateLimitCooldown: real := 300.0

  /** The agents' states, in pool order, and the rotation cursor. */
  datatype Pool = Pool(agents: seq<AgentState>, index: nat)

  predicate ValidPool(p: Pool) {
    0 < |p.agents| && p.index < |p.agents|
  }

  /** The pool right after `MasterAgent()`. */
  function InitialPool(): Pool {
    Pool(seq(PoolSize, i requires 0 <= i < PoolSize => AgentState(AgentName(i + 1), 0.0, 0.0)), 0)
  }

  /** A new Master Agent holds ten fresh agents named by ids 1..10 in order, all
      with distinct names, and its cursor is at the first of them. */
  lemma InitialPoolShape()
    ensures ValidPool(InitialPool()) && |InitialPool().agents| == 10 && InitialPool().index == 0
    ensures forall i :: 0 <= i < 10 ==> InitialPool().agents[i] == AgentState(AgentName(i + 1), 0.0, 0.0)
    ensures forall i, j :: 0 <= i < j < 10 ==> InitialPool().agents[i].name != InitialPool().agents[j].name
  {
    forall i, j | 0 <= i < j < 10
      ensures InitialPool().agents[i].name != InitialPool().agents[j].name
    {
      AgentNamesDistinct(i + 1, j + 1);
    }
  }

  /** `x % n` is the remainder of any division of `x` by `n`. */
  lemma ModOf(x: nat, q: nat, r: nat, n: nat)
    requires 0 <= r < n && x == q * n + r
    ensures x % n == r
  {
    var q', r' := x / n, x % n;
    assert x == q' * n + r';
    if q' < q {
      MulAtLeast(q - q', n);
      assert false;
    } else if q < q' {
      MulAtLeast(q' - q, n);
      assert false;
    }
  }

  lemma MulAtLeast(a: nat, n: nat)
    requires a >= 1
    ensures a * n >= n
  {
  }

  /** `(i + 1) % n` for a position `i` of a pool of `n` agents. */
  function Next(i: nat, n: nat): (j: nat)
    requires i < n
    ensures j < n
  {
    if i + 1 < n then i + 1 else 0
  }

  /** The position `k` steps of `Next` after `start`, for `k` up to `n`. */
  function Offset(start: nat, k: nat, n: nat): (j: nat)
    requires start < n && k <= n
    ensures j < n || (k == n && j == start)
  {
    if start + k < n then start + k else start + k - n
  }

  /** `Next` is the source's `(i + 1) % n`, and `Offset` below `n` steps is
      `(start + k) % n`. */
  lemma OffsetIsMod(start: nat, k: nat, n: nat)
    requires start < n && k < n
    ensures Next(start, n) == (start + 1) % n
    ensures Offset(start, k, n) == (start + k) % n
  {
    ModOf(start + 1, if start + 1 < n then 0 else 1, Next(start, n), n);
    ModOf(start + k, if start + k < n then 0 else 1, Offset(start, k, n), n);
  }

  /** One more step of `Next` is one more step of `Offset`. */
  lemma OffsetStep(start: nat, k: nat, n: nat)
    requires start < n && k < n
    ensures Next(Offset(start, k, n), n) == Offset(start, k + 1, n)
  {
  }

  /** Whether the agent `k` places after `start`, cyclically, is available at `now`. */
  predicate FreeAt(agents: seq<AgentState>, now: real, start: nat, k: nat)
    requires start < |agents| && k < |agents|
  {
    Available(agents[Offset(start, k, |agents|)], now)
  }

  /** The offset from `start` of the first agent available at `now`, looking at
      offsets `k` up to the pool's size; `None` when none of them is. */
  function FirstAvailable(agents: seq<AgentState>, now: real, start: nat, k: nat): (r: Option<nat>)
    requires start < |agents| && k <= |agents|
    ensures r.Some? ==> k <= r.value < |agents| && FreeAt(agents, now, start, r.value)
    decreases |agents| - k
  {
    if k == |agents| then None
    else if FreeAt(agents, now, start, k) then Some(k)
    else FirstAvailable(agents, now, start, k + 1)
  }

  /** The search passes over busy agents only: every offset before the one found,
      or every offset at all when none is found, is cooling down. */
  lemma {:induction false} FirstAvailableSkipsBusy(agents: seq<AgentState>, now: real, start: nat, k: nat)
    requires start < |agents| && k <= |agents|
    ensures var r := FirstAvailable(agents, now, start, k);
      (r.Some? ==> forall j :: k <= j < r.value ==> !FreeAt(agents, now, start, j)) &&
      (r.None? ==> forall j :: k <= j < |agents| ==> !FreeAt(agents, now, start, j))
    decreases |agents| - k
  {
    if k < |agents| && !FreeAt(agents, now, start, k) {
      FirstAvailableSkipsBusy(agents, now, start, k + 1);
    }
  }

  /** What `_get_next_yahoo` picks (a position in the pool), and where it leaves the cursor. */
  datatype Selection = Selection(pick: Option<nat>, index: nat)

  function Select(p: Pool, now: real): (s: Selection)
    requires ValidPool(p)
    ensures s.index < |p.agents|
    ensures s.pick.Some? ==> s.pick.value < |p.agents| && Available(p.agents[s.pick.value], now)
    ensures s.pick.Some? ==> s.index == Next(s.pick.value, |p.agents|)
    ensures s.pick.None? ==> s.index == p.index
  {
    match FirstAvailable(p.agents, now, p.index, 0)
    case None => Selection(None, p.index)
    case Some(k) =>
      var pos := Offset(p.index, k, |p.agents|);
      Selection(Some(pos), Next(pos, |p.agents|))
  }

  /** Selection fails only when every agent is cooling down: it never passes over
      an available agent. */
  lemma {:induction false} SelectComplete(p: Pool, now: real)
    requires ValidPool(p)
    ensures Select(p, now).pick.None? <==> forall i :: 0 <= i < |p.agents| ==> !Available(p.agents[i], now)
  {
    var n := |p.agents|;
    FirstAvailableSkipsBusy(p.agents, now, p.index, 0);
    if FirstAvailable(p.agents, now, p.index, 0).None? {
      forall i | 0 <= i < n
        ensures !Available(p.agents[i], now)
      {
        var j := if i >= p.index then i - p.index else i - p.index + n;
        assert Offset(p.index, j, n) == i;
        assert !FreeAt(p.agents, now, p.index, j);
      }
    }
  }

  /** One dispatch, as the request records it. */
  datatype Call = YahooCall(position: nat) | AlphaCall

  /** What the dispatches of one request come back with: the clock, what the
      agent named `name` returns or raises on the `k`-th dispatch, and what
      `self.alpha.fetch(ticker)` returns or raises. */
  datatype Answers = Answers(now: real, yahoo: (string, nat) -> Result<Dict>, alpha: Result<Dict>)

  /** What the outside world answers during one request: the clock, yfinance's
      answer to the `k`-th dispatch, AlphaVantage's HTTP endpoint, and Python's
      string-to-float conversion. */
  datatype World = World(
    now: real,
    yahoo: nat -> YfAnswer,
    alphaHttp: string -> JsonResponse,
    parse: string -> Option<real>)

  /** The answers that the Yahoo agents and the AlphaVantage agent give for
      `ticker` in world `w`. */
  function AnswersFor(ticker: string, alpha: Alpha.AlphaAgent, w: World): Answers {
    Answers(
      w.now,
      (name: string, k: nat) => QuoteOf(name, ticker, w.yahoo(k), w.parse),
      Alpha.Fetch(alpha, ticker, w.alphaHttp, w.parse).outcome)
  }

  /** `ans` holds what the Yahoo agents answer for `ticker` in world `w`. */
  ghost predicate Answering(ans: Answers, ticker: string, w: World) {
    ans.now == w.now &&
    forall name: string, k: nat :: ans.yahoo(name, k) == QuoteOf(name, ticker, w.yahoo(k), w.parse)
  }

  /** The pool after a request, what the request returned or raised, and the
      dispatches it made in order. */
  datatype Request = Request(pool: Pool, outcome: Result<Dict>, calls: seq<Call>)

  /** `data and data.get("raw_quote")` */
  predicate Accepted(data: Dict) {
    data != map[] && Truthy(Get(data, "raw_quote", Null))
  }

  /** Every Yahoo answer that is not an exception passes the `raw_quote` check. */
  ghost predicate AllAccepted(ans: Answers) {
    forall name, k :: ans.yahoo(name, k).Ok? ==> Accepted(ans.yahoo(name, k).value)
  }

  /** A Yahoo agent that does not raise always returns data the Master Agent
      accepts, so the "no raw_quote" branch of `fetch` is never taken with the
      agents of src/providers/yahoo_agent.py. */
  lemma YahooAnswersAccepted(ticker: string, alpha: Alpha.AlphaAgent, w: World)
    ensures AllAccepted(AnswersFor(ticker, alpha, w))
  {
    forall name, k | QuoteOf(name, ticker, w.yahoo(k), w.parse).Ok?
      ensures Accepted(QuoteOf(name, ticker, w.yahoo(k), w.parse).value)
    {
      QuoteShape(name, ticker, w.yahoo(k), w.parse);
      assert "symbol" in QuoteOf(name, ticker, w.yahoo(k), w.parse).value["raw_quote"].fields;
    }
  }

  /** `return await self.alpha.fetch(ticker)`, after the Yahoo dispatches. */
  function Fallback(p: Pool, ans: Answers): Request {
    Request(p, ans.alpha, [AlphaCall])
  }

  /** A Yahoo answer that ends the request: accepted data, tagged with the name
      of the agent that produced it. */
  predicate Tagged(r: Result<Dict>, name: string) {
    r.Ok? && Accepted(r.value) && "source" in r.value && r.value["source"] == Str(name)
  }

  /** One pass of the loop body of `fetch`: the pool after it, the dispatch it
      made, and, when the pass ends the request, what the request returns or
      raises. */
  datatype Step = Step(pool: Pool, call: Call, result: Option<Result<Dict>>)

  /** One pass of the loop body on attempt `attempt`. An AlphaVantage call ends
      the request with its answer; a Yahoo dispatch goes to an available agent
      and ends the request only with accepted data tagged with that agent's
      name. */
  function Dispatch(p: Pool, ans: Answers, attempt: nat): (s: Step)
    requires ValidPool(p)
    ensures ValidPool(s.pool) && |s.pool.agents| == |p.agents|
    ensures forall i :: 0 <= i < |p.agents| ==> s.pool.agents[i].name == p.agents[i].name
    ensures s.call == AlphaCall ==> s.result == Some(ans.alpha)
    ensures s.call.YahooCall? ==>
      s.call.position < |p.agents| && Available(p.agents[s.call.position], ans.now) &&
      (s.result.Some? ==> Tagged(s.result.value, p.agents[s.call.position].name))
  {
    var sel := Select(p, ans.now);
    match sel.pick
    case None => Step(Pool(p.agents, sel.index), AlphaCall, Some(ans.alpha))
    case Some(pos) =>
      var agent := p.agents[pos];
      var r := ans.yahoo(agent.name, attempt);
      var used := AfterFetch(agent, ans.now, r);
      if r.Err? then
        Step(Pool(p.agents[pos := WithCooldown(used, ans.now, RateLimitCooldown)], sel.index), YahooCall(pos), None)
      else if Accepted(r.value) then
        assert r.value["source" := Str(agent.name)]["raw_quote"] == r.value["raw_quote"];
        Step(Pool(p.agents[pos := used], sel.index), YahooCall(pos), Some(Ok(r.value["source" := Str(agent.name)])))
      else
        Step(Pool(p.agents[pos := used], sel.index), YahooCall(pos), None)
  }

  /** A Yahoo dispatch ends the request exactly when the agent returned data
      that passes the `raw_quote` check, and then with that data tagged with
      the agent's name. The agent is stamped with `now` in every case and
      cools down until `now + 300` only when its fetch raised: data that fails
      the check leaves its deadline as it was. An AlphaVantage call leaves
      every agent as it was. */
  lemma DispatchYahoo(p: Pool, ans: Answers, attempt: nat)
    requires ValidPool(p)
    ensures var s := Dispatch(p, ans, attempt);
      (s.call == AlphaCall ==> s.pool.agents == p.agents) &&
      (s.call.YahooCall? ==>
        var pos := s.call.position;
        var r := ans.yahoo(p.agents[pos].name, attempt);
        (s.result.Some? <==> r.Ok? && Accepted(r.value)) &&
        (s.result.Some? ==> s.result.value == Ok(r.value["source" := Str(p.agents[pos].name)])) &&
        s.pool.agents == p.agents[pos :=
          if r.Err? then p.agents[pos].(lastUsed := ans.now, cooldownUntil := ans.now + RateLimitCooldown)
          else p.agents[pos].(lastUsed := ans.now)])
  {
  }

  /** The pass of the loop body that `fetch` makes with answers `ans`, as a
      function of the pool and the attempt number (a pool that is not valid
      never reaches it; it is then left as it is). */
  function PassOf(ans: Answers): (Pool, nat) -> Step {
    (q: Pool, k: nat) => if ValidPool(q) then Dispatch(q, ans, k) else Step(q, AlphaCall, Some(ans.alpha))
  }

  /** `pass` is the Master Agent's pass with answers `ans`. */
  ghost predicate Implements(pass: (Pool, nat) -> Step, ans: Answers) {
    forall q: Pool, k: nat {:trigger Dispatch(q, ans, k)} :: ValidPool(q) ==> pass(q, k) == Dispatch(q, ans, k)
  }

  lemma PassOfImplements(ans: Answers)
    ensures Implements(PassOf(ans), ans)
  {
  }

  /** A pass keeps every valid pool valid and its size. */
  ghost predicate PassValid(pass: (Pool, nat) -> Step) {
    forall q, k :: ValidPool(q) ==> ValidPool(pass(q, k).pool) && |pass(q, k).pool.agents| == |q.agents|
  }

  /** What one pass from pool `q` may do: keep the pool valid, its size and its
      agents' names; end the request with `alpha` when it calls AlphaVantage;
      dispatch only to an agent available at `now`, and end the request on a
      Yahoo dispatch only with accepted data tagged with that agent's name. */
  predicate StepOk(q: Pool, s: Step, now: real, alpha: Result<Dict>)
    requires ValidPool(q)
  {
    ValidPool(s.pool) && |s.pool.agents| == |q.agents| &&
    (forall i :: 0 <= i < |q.agents| ==> s.pool.agents[i].name == q.agents[i].name) &&
    (s.call == AlphaCall ==> s.result == Some(alpha)) &&
    (s.call.YahooCall? ==>
      s.call.position < |q.agents| && Available(q.agents[s.call.position], now) &&
      (s.result.Some? ==> Tagged(s.result.value, q.agents[s.call.position].name)))
  }

  ghost predicate PassOk(pass: (Pool, nat) -> Step, now: real, alpha: Result<Dict>) {
    forall q, k :: ValidPool(q) ==> StepOk(q, pass(q, k), now, alpha)
  }

  /** What one pass from pool `q` does to the agents: nothing when it calls
      AlphaVantage; otherwise it stamps the dispatched agent with `now` and,
      unless the pass ends the request, cools it down until `now + 300`. */
  predicate StepEffect(q: Pool, s: Step, now: real)
    requires ValidPool(q)
  {
    (s.call == AlphaCall ==> s.pool.agents == q.agents) &&
    (s.call.YahooCall? ==>
      s.call.position < |q.agents| &&
      s.pool.agents == q.agents[s.call.position :=
        if s.result.Some? then q.agents[s.call.position].(lastUsed := now)
        else q.agents[s.call.position].(lastUsed := now, cooldownUntil := now + RateLimitCooldown)])
  }

  ghost predicate PassEffect(pass: (Pool, nat) -> Step, now: real) {
    forall q, k :: ValidPool(q) ==> StepEffect(q, pass(q, k), now)
  }

  /** The Master Agent's pass does what the loop lemmas need of a pass. */
  lemma DispatchOk(ans: Answers)
    ensures PassValid(PassOf(ans)) && PassOk(PassOf(ans), ans.now, ans.alpha)
  {
  }

  /** When every non-raising Yahoo answer is accepted (as for the agents of
      src/providers/yahoo_agent.py), a dispatched agent that does not serve the
      request raised, and the Master Agent's 300 s cooldown overwrites the
      agent's own 180 s. */
  lemma DispatchEffect(ans: Answers)
    requires AllAccepted(ans)
    ensures PassEffect(PassOf(ans), ans.now)
  {
  }

  /** The `for attempt` loop of `fetch`, from attempt `attempt` on, each pass
      made by `pass`: the pool after it, what it returns or raises, and the
      dispatches it makes in order. After the last attempt, or once a pass finds
      no available agent, the AlphaVantage answer `alpha` is the outcome. */
  function Run(p: Pool, pass: (Pool, nat) -> Step, alpha: Result<Dict>, attempt: nat): (r: Request)
    requires ValidPool(p) && attempt <= |p.agents| && PassValid(pass)
    ensures ValidPool(r.pool) && |r.pool.agents| == |p.agents|
    decreases |p.agents| - attempt
  {
    if attempt == |p.agents| then Request(p, alpha, [AlphaCall])
    else
      var s := pass(p, attempt);
      if s.result.Some? then Request(s.pool, s.result.value, [s.call])
      else
        var rest := Run(s.pool, pass, alpha, attempt + 1);
        Request(rest.pool, rest.outcome, [s.call] + rest.calls)
  }

  /** One call of `MasterAgent.fetch(ticker)` on pool `p`, with answers `ans`. */
  function MasterFetch(p: Pool, ans: Answers): (r: Request)
    requires ValidPool(p)
    ensures ValidPool(r.pool) && |r.pool.agents| == |p.agents|
  {
    DispatchOk(ans);
    Run(p, PassOf(ans), ans.alpha, 0)
  }

  /** The agent that served the request, if the last dispatch was a Yahoo one. */
  function Served(calls: seq<Call>): Option<nat> {
    if calls != [] && calls[|calls| - 1].YahooCall? then Some(calls[|calls| - 1].position) else None
  }

  /** Every dispatch of a request but the last is a Yahoo one, and the pool
      keeps its agents' names. */
  lemma {:induction false} RunShape(p: Pool, pass: (Pool, nat) -> Step, now: real, alpha: Result<Dict>, attempt: nat)
    requires ValidPool(p) && attempt <= |p.agents| && PassValid(pass) && PassOk(pass, now, alpha)
    ensures var R := Run(p, pass, alpha, attempt);
      0 < |R.calls| && (forall k :: 0 <= k < |R.calls| - 1 ==> R.calls[k].YahooCall?) &&
      (forall i :: 0 <= i < |p.agents| ==> R.pool.agents[i].name == p.agents[i].name)
    decreases |p.agents| - attempt
  {
    if attempt < |p.agents| {
      var s := pass(p, attempt);
      assert StepOk(p, s, now, alpha);
      if s.result.None? {
        RunShape(s.pool, pass, now, alpha, attempt + 1);
      }
    }
  }

  /** A request that ends with an AlphaVantage call made at most one Yahoo
      dispatch per remaining attempt before it, and its outcome is the
      AlphaVantage answer. */
  lemma {:induction false} RunFallsBack(p: Pool, pass: (Pool, nat) -> Step, now: real, alpha: Result<Dict>, attempt: nat)
    requires ValidPool(p) && attempt <= |p.agents| && PassValid(pass) && PassOk(pass, now, alpha)
    ensures var R := Run(p, pass, alpha, attempt);
      0 < |R.calls| &&
      (R.calls[|R.calls| - 1] == AlphaCall ==> |R.calls| <= |p.agents| - attempt + 1 && R.outcome == alpha)
    decreases |p.agents| - attempt
  {
    var R := Run(p, pass, alpha, attempt);
    if attempt == |p.agents| {
      assert R.calls == [AlphaCall] && R.outcome == alpha;
    } else {
      var s := pass(p, attempt);
      assert StepOk(p, s, now, alpha);
      if s.result.Some? {
        assert R.calls == [s.call] && R.outcome == s.result.value;
      } else {
        RunFallsBack(s.pool, pass, now, alpha, attempt + 1);
        var rest := Run(s.pool, pass, alpha, attempt + 1);
        assert R.calls == [s.call] + rest.calls && R.outcome == rest.outcome;
        assert R.calls[|R.calls| - 1] == rest.calls[|rest.calls| - 1];
      }
    }
  }

  /** A request whose last dispatch went to a Yahoo agent made at most one
      dispatch per remaining attempt, and returns accepted data tagged with
      that agent's name; it made no AlphaVantage call. */
  lemma {:induction false} RunServed(p: Pool, pass: (Pool, nat) -> Step, now: real, alpha: Result<Dict>, attempt: nat)
    requires ValidPool(p) && attempt <= |p.agents| && PassValid(pass) && PassOk(pass, now, alpha)
    ensures var R := Run(p, pass, alpha, attempt);
      0 < |R.calls| &&
      var last := R.calls[|R.calls| - 1];
      last.YahooCall? ==>
        |R.calls| <= |p.agents| - attempt && last.position < |p.agents| &&
        Tagged(R.outcome, p.agents[last.position].name)
    decreases |p.agents| - attempt
  {
    var R := Run(p, pass, alpha, attempt);
    if attempt == |p.agents| {
      assert R.calls == [AlphaCall] && R.outcome == alpha;
    } else {
      var s := pass(p, attempt);
      assert StepOk(p, s, now, alpha);
      if s.result.Some? {
        assert R.calls == [s.call] && R.outcome == s.result.value;
      } else {
        RunServed(s.pool, pass, now, alpha, attempt + 1);
        var rest := Run(s.pool, pass, alpha, attempt + 1);
        assert R.calls == [s.call] + rest.calls && R.outcome == rest.outcome;
        var last := rest.calls[|rest.calls| - 1];
        assert R.calls[|R.calls| - 1] == last;
        if last.YahooCall? {
          assert s.pool.agents[last.position].name == p.agents[last.position].name;
        }
      }
    }
  }

  /** No agent that is cooling down when the request starts is dispatched. */
  lemma {:induction false} RunSkipsBusy(p: Pool, pass: (Pool, nat) -> Step, now: real, alpha: Result<Dict>, attempt: nat)
    requires ValidPool(p) && attempt <= |p.agents| && PassValid(pass)
    requires PassOk(pass, now, alpha) && PassEffect(pass, now)
    ensures var R := Run(p, pass, alpha, attempt);
      forall i :: 0 <= i < |p.agents| && !Available(p.agents[i], now) ==> YahooCall(i) !in R.calls
    decreases |p.agents| - attempt
  {
    if attempt < |p.agents| {
      var s := pass(p, attempt);
      assert StepOk(p, s, now, alpha) && StepEffect(p, s, now);
      if s.result.None? {
        RunSkipsBusy(s.pool, pass, now, alpha, attempt + 1);
      }
    }
  }

  /** No agent is dispatched twice in one request: an agent that raised is
      cooling down for the rest of the request. */
  lemma {:induction false} RunNoRepeat(p: Pool, pass: (Pool, nat) -> Step, now: real, alpha: Result<Dict>, attempt: nat)
    requires ValidPool(p) && attempt <= |p.agents| && PassValid(pass)
    requires PassOk(pass, now, alpha) && PassEffect(pass, now)
    ensures var R := Run(p, pass, alpha, attempt);
      forall a, b :: 0 <= a < b < |R.calls| ==> R.calls[a] != R.calls[b]
    decreases |p.agents| - attempt
  {
    if attempt < |p.agents| {
      var s := pass(p, attempt);
      assert StepOk(p, s, now, alpha) && StepEffect(p, s, now);
      if s.result.None? {
        RunNoRepeat(s.pool, pass, now, alpha, attempt + 1);
        RunSkipsBusy(s.pool, pass, now, alpha, attempt + 1);
        assert !Available(s.pool.agents[s.call.position], now);
      }
    }
  }

  /** A request makes at least one dispatch. */
  lemma {:induction false} RunNonEmpty(p: Pool, pass: (Pool, nat) -> Step, alpha: Result<Dict>, attempt: nat)
    requires ValidPool(p) && attempt <= |p.agents| && PassValid(pass)
    ensures 0 < |Run(p, pass, alpha, attempt).calls|
    decreases |p.agents| - attempt
  {
    if attempt < |p.agents| {
      var s := pass(p, attempt);
      if s.result.None? {
        RunNonEmpty(s.pool, pass, alpha, attempt + 1);
      }
    }
  }

  /** What a request does to agent `i`: if it never dispatched it, the agent is
      left as it was; if the agent served the request, only its `last_used` is
      stamped; otherwise the agent ends stamped and cooling down until
      `now + 300`. */
  ghost predicate EffectAt(p: Pool, R: Request, now: real, i: nat)
    requires i < |p.agents| && i < |R.pool.agents|
  {
    R.pool.agents[i] ==
      if YahooCall(i) !in R.calls then p.agents[i]
      else if Served(R.calls) == Some(i) then p.agents[i].(lastUsed := now)
      else p.agents[i].(lastUsed := now, cooldownUntil := now + RateLimitCooldown)
  }

  lemma {:induction false} RunEffectAt(p: Pool, pass: (Pool, nat) -> Step, now: real, alpha: Result<Dict>, attempt: nat, i: nat)
    requires ValidPool(p) && attempt <= |p.agents| && PassValid(pass) && i < |p.agents|
    requires PassOk(pass, now, alpha) && PassEffect(pass, now)
    ensures EffectAt(p, Run(p, pass, alpha, attempt), now, i)
    decreases |p.agents| - attempt
  {
    var R := Run(p, pass, alpha, attempt);
    if attempt == |p.agents| {
      assert R.calls == [AlphaCall] && R.pool == p;
    } else {
      var s := pass(p, attempt);
      assert StepOk(p, s, now, alpha) && StepEffect(p, s, now);
      if s.result.Some? {
        assert R.calls == [s.call] && R.pool == s.pool;
      } else {
        RunEffectAt(s.pool, pass, now, alpha, attempt + 1, i);
        EffectAfterRaise(p, pass, now, alpha, attempt, i);
      }
    }
  }

  /** `RunEffectAt` across a pass whose agent raised, given it for the rest
      of the request. */
  lemma EffectAfterRaise(p: Pool, pass: (Pool, nat) -> Step, now: real, alpha: Result<Dict>, attempt: nat, i: nat)
    requires ValidPool(p) && attempt < |p.agents| && PassValid(pass) && i < |p.agents|
    requires PassOk(pass, now, alpha) && PassEffect(pass, now)
    requires pass(p, attempt).result.None?
    requires EffectAt(pass(p, attempt).pool, Run(pass(p, attempt).pool, pass, alpha, attempt + 1), now, i)
    ensures EffectAt(p, Run(p, pass, alpha, attempt), now, i)
  {
    var s := pass(p, attempt);
    assert StepOk(p, s, now, alpha) && StepEffect(p, s, now);
    var R := Run(p, pass, alpha, attempt);
    var pos := s.call.position;
    var rest := Run(s.pool, pass, alpha, attempt + 1);
    assert R.calls == [s.call] + rest.calls && R.pool == rest.pool;
    RunNonEmpty(s.pool, pass, alpha, attempt + 1);
    assert Served(R.calls) == Served(rest.calls);
    assert YahooCall(i) in R.calls <==> i == pos || YahooCall(i) in rest.calls;
    if i == pos {
      RunSkipsBusy(s.pool, pass, now, alpha, attempt + 1);
      assert !Available(s.pool.agents[pos], now);
      assert rest.calls[|rest.calls| - 1] in rest.calls;
      assert Served(rest.calls) != Some(pos);
    } else {
      assert s.pool.agents[i] == p.agents[i];
    }
  }

  /** `RunEffectAt` for every agent. */
  lemma RunEffects(p: Pool, pass: (Pool, nat) -> Step, now: real, alpha: Result<Dict>, attempt: nat)
    requires ValidPool(p) && attempt <= |p.agents| && PassValid(pass)
    requires PassOk(pass, now, alpha) && PassEffect(pass, now)
    ensures var R := Run(p, pass, alpha, attempt);
      forall i :: 0 <= i < |p.agents| ==>
        R.pool.agents[i] ==
          if YahooCall(i) !in R.calls then p.agents[i]
          else if Served(R.calls) == Some(i) then p.agents[i].(lastUsed := now)
          else p.agents[i].(lastUsed := now, cooldownUntil := now + RateLimitCooldown)
  {
    forall i | 0 <= i < |p.agents|
      ensures var R := Run(p, pass, alpha, attempt);
        R.pool.agents[i] ==
          if YahooCall(i) !in R.calls then p.agents[i]
          else if Served(R.calls) == Some(i) then p.agents[i].(lastUsed := now)
          else p.agents[i].(lastUsed := now, cooldownUntil := now + RateLimitCooldown)
    {
      RunEffectAt(p, pass, now, alpha, attempt, i);
    }
  }

  /** `fetch(ticker)` tries each Yahoo agent at most once, in rotation, and
      falls back to AlphaVantage exactly once and last, and only when no Yahoo
      answer was accepted; its outcome is then AlphaVantage's. A Yahoo answer
      is returned tagged with the serving agent's name. */
  lemma MasterFetchShape(p: Pool, ans: Answers)
    requires ValidPool(p)
    ensures var R := MasterFetch(p, ans);
      var last := R.calls[|R.calls| - 1];
      0 < |R.calls| <= |p.agents| + 1 &&
      (forall k :: 0 <= k < |R.calls| - 1 ==> R.calls[k].YahooCall?) &&
      (forall i :: 0 <= i < |p.agents| ==> R.pool.agents[i].name == p.agents[i].name) &&
      (last == AlphaCall ==> R.outcome == ans.alpha) &&
      (last.YahooCall? ==>
        |R.calls| <= |p.agents| && last.position < |p.agents| &&
        Tagged(R.outcome, p.agents[last.position].name))
  {
    DispatchOk(ans);
    RunShape(p, PassOf(ans), ans.now, ans.alpha, 0);
    RunFallsBack(p, PassOf(ans), ans.now, ans.alpha, 0);
    RunServed(p, PassOf(ans), ans.now, ans.alpha, 0);
  }

  /** With every non-raising answer accepted, as for the Yahoo agents, each
      agent ends a request untouched if it was not dispatched, stamped if it
      served the request, and stamped and cooling down until `now + 300` if it
      raised; agents cooling down are skipped, and none is dispatched twice. */
  lemma MasterFetchEffects(p: Pool, ans: Answers)
    requires ValidPool(p)
    requires AllAccepted(ans)
    ensures var R := MasterFetch(p, ans);
      (forall i :: 0 <= i < |p.agents| && !Available(p.agents[i], ans.now) ==> YahooCall(i) !in R.calls) &&
      (forall a, b :: 0 <= a < b < |R.calls| ==> R.calls[a] != R.calls[b]) &&
      (forall i :: 0 <= i < |p.agents| ==>
        R.pool.agents[i] ==
          if YahooCall(i) !in R.calls then p.agents[i]
          else if Served(R.calls) == Some(i) then p.agents[i].(lastUsed := ans.now)
          else p.agents[i].(lastUsed := ans.now, cooldownUntil := ans.now + RateLimitCooldown))
  {
    DispatchOk(ans);
    DispatchEffect(ans);
    RunSkipsBusy(p, PassOf(ans), ans.now, ans.alpha, 0);
    RunNoRepeat(p, PassOf(ans), ans.now, ans.alpha, 0);
    RunEffects(p, PassOf(ans), ans.now, ans.alpha, 0);
  }

  /** A returned value carries a `raw_quote` the analyzer can score. */
  predicate NumericOutcome(r: Result<Dict>) {
    r.Ok? ==> NumericQuote(r.value)
  }

  /** A request returns only what a pass ended it with or the AlphaVantage
      answer, so it returns a scorable value when all of those are scorable. */
  lemma {:induction false} RunNumeric(p: Pool, pass: (Pool, nat) -> Step, alpha: Result<Dict>, attempt: nat)
    requires ValidPool(p) && attempt <= |p.agents| && PassValid(pass)
    requires NumericOutcome(alpha)
    requires forall q, k :: ValidPool(q) && pass(q, k).result.Some? ==> NumericOutcome(pass(q, k).result.value)
    ensures NumericOutcome(Run(p, pass, alpha, attempt).outcome)
    decreases |p.agents| - attempt
  {
    if attempt < |p.agents| {
      var s := pass(p, attempt);
      if s.result.None? {
        RunNumeric(s.pool, pass, alpha, attempt + 1);
      }
    }
  }

  /** Tagging a scorable Yahoo answer with the agent's name keeps it scorable. */
  lemma DispatchNumeric(ans: Answers)
    requires NumericOutcome(ans.alpha)
    requires forall name, k :: NumericOutcome(ans.yahoo(name, k))
    ensures forall q, k :: ValidPool(q) && PassOf(ans)(q, k).result.Some? ==>
      NumericOutcome(PassOf(ans)(q, k).result.value)
  {
    forall q: Pool, k: nat | ValidPool(q) && PassOf(ans)(q, k).result.Some?
      ensures NumericOutcome(PassOf(ans)(q, k).result.value)
    {
      DispatchYahoo(q, ans, k);
      var s := Dispatch(q, ans, k);
      if s.call.YahooCall? {
        var r := ans.yahoo(q.agents[s.call.position].name, k);
        assert r.value["source" := Str(q.agents[s.call.position].name)]["raw_quote"] == r.value["raw_quote"];
      }
    }
  }

  /** With the agents of src/providers/yahoo_agent.py and
      src/providers/alpha_agent.py, whatever `fetch(ticker)` returns, from
      either provider, carries a non-empty `raw_quote` whose growth rates and
      market capitalisation are numbers. */
  lemma MasterFetchNumeric(p: Pool, ticker: string, alpha: Alpha.AlphaAgent, w: World)
    requires ValidPool(p)
    ensures NumericOutcome(MasterFetch(p, AnswersFor(ticker, alpha, w)).outcome)
  {
    var ans := AnswersFor(ticker, alpha, w);
    forall name: string, k: nat
      ensures NumericOutcome(ans.yahoo(name, k))
    {
      QuoteShape(name, ticker, w.yahoo(k), w.parse);
    }
    Alpha.SuccessShape(alpha, ticker, w.alphaHttp, w.parse);
    DispatchOk(ans);
    DispatchNumeric(ans);
    RunNumeric(p, PassOf(ans), ans.alpha, 0);
  }

  /** With those agents, a value `fetch(ticker)` returns names its source: the
      Yahoo agent that served it, or `"AlphaVantage"` when no Yahoo agent did. */
  lemma MasterFetchSource(p: Pool, ticker: string, alpha: Alpha.AlphaAgent, w: World)
    requires ValidPool(p)
    ensures var R := MasterFetch(p, AnswersFor(ticker, alpha, w));
      NumericOutcome(R.outcome) &&
      match Served(R.calls)
      case Some(i) => i < |p.agents| && Tagged(R.outcome, p.agents[i].name)
      case None => R.outcome.Ok? ==> "source" in R.outcome.value && R.outcome.value["source"] == Str("AlphaVantage")
  {
    var ans := AnswersFor(ticker, alpha, w);
    MasterFetchShape(p, ans);
    MasterFetchNumeric(p, ticker, alpha, w);
    Alpha.SuccessShape(alpha, ticker, w.alphaHttp, w.parse);
  }

  /** One more pass of the loop, seen from a request that has made the
      dispatches `calls` and will end as `target`. */
  lemma LoopStep(p: Pool, pass: (Pool, nat) -> Step, now: real, alpha: Result<Dict>, attempt: nat, calls: seq<Call>, target: Request)
    requires ValidPool(p) && attempt < |p.agents| && PassValid(pass) && PassOk(pass, now, alpha)
    requires var R := Run(p, pass, alpha, attempt); target == Request(R.pool, R.outcome, calls + R.calls)
    ensures var s := pass(p, attempt);
      (s.call == AlphaCall ==> target == Request(s.pool, alpha, calls + [AlphaCall])) &&
      (s.call.YahooCall? && s.result.Some? ==> target == Request(s.pool, s.result.value, calls + [s.call])) &&
      (s.call.YahooCall? && s.result.None? ==>
        var R := Run(s.pool, pass, alpha, attempt + 1);
        target == Request(R.pool, R.outcome, (calls + [s.call]) + R.calls))
  {
    var s := pass(p, attempt);
    assert StepOk(p, s, now, alpha);
    if s.result.None? {
      var R := Run(s.pool, pass, alpha, attempt + 1);
      assert calls + ([s.call] + R.calls) == (calls + [s.call]) + R.calls;
    }
  }

  /** With the agent under the cursor available and its answer accepted, the
      request is served by that agent alone, the cursor moves one place, and the
      only state change is that agent's `last_used`. */
  lemma FirstDispatchServes(p: Pool, ans: Answers)
    requires ValidPool(p)
    requires Available(p.agents[p.index], ans.now)
    requires ans.yahoo(p.agents[p.index].name, 0).Ok? && Accepted(ans.yahoo(p.agents[p.index].name, 0).value)
    ensures var R := MasterFetch(p, ans);
      R.calls == [YahooCall(p.index)] &&
      R.pool == Pool(p.agents[p.index := p.agents[p.index].(lastUsed := ans.now)], Next(p.index, |p.agents|)) &&
      R.outcome == Ok(ans.yahoo(p.agents[p.index].name, 0).value["source" := Str(p.agents[p.index].name)])
  {
    assert FreeAt(p.agents, ans.now, p.index, 0);
  }

  /** Successive requests against one pool, each with its own answers. */
  function Serve(p: Pool, jobs: seq<Answers>): (rs: seq<Request>)
    requires ValidPool(p)
    ensures |rs| == |jobs|
    decreases |jobs|
  {
    if jobs == [] then []
    else
      var r := MasterFetch(p, jobs[0]);
      [r] + Serve(r.pool, jobs[1..])
  }

  /** The position `j` steps of `Next` after `i`. */
  function Advance(i: nat, j: nat, n: nat): (r: nat)
    requires i < n
    ensures r < n
    decreases j
  {
    if j == 0 then i else Next(Advance(i, j - 1, n), n)
  }

  /** `j` steps of `Next` from `i` are `i + j` less a whole number of laps. */
  lemma {:induction false} AdvanceLaps(i: nat, j: nat, n: nat) returns (laps: nat)
    requires i < n
    ensures i + j == laps * n + Advance(i, j, n)
    decreases j
  {
    if j == 0 {
      laps := 0;
    } else {
      laps := AdvanceLaps(i, j - 1, n);
      if Advance(i, j - 1, n) + 1 == n {
        assert (laps + 1) * n == laps * n + n;
        laps := laps + 1;
      }
    }
  }

  /** `j` steps of `Next` from `i` land on `(i + j) % n`. */
  lemma AdvanceIsMod(i: nat, j: nat, n: nat)
    requires i < n
    ensures Advance(i, j, n) == (i + j) % n
  {
    var laps := AdvanceLaps(i, j, n);
    ModOf(i + j, laps, Advance(i, j, n), n);
  }

  /** With every agent available and every first answer accepted, successive
      requests are served by the agents in strict cyclic order from the cursor:
      the `j`-th by the agent `j` places on, that is at `(index + j) % n` by
      `AdvanceIsMod`. */
  lemma {:induction false} CyclicOrder(p: Pool, jobs: seq<Answers>)
    requires ValidPool(p)
    requires forall j, i :: 0 <= j < |jobs| && 0 <= i < |p.agents| ==> Available(p.agents[i], jobs[j].now)
    requires forall j, name :: 0 <= j < |jobs| ==>
      jobs[j].yahoo(name, 0).Ok? && Accepted(jobs[j].yahoo(name, 0).value)
    ensures forall j :: 0 <= j < |jobs| ==>
      Serve(p, jobs)[j].calls == [YahooCall(Advance(p.index, j, |p.agents|))]
    decreases |jobs|
  {
    if jobs != [] {
      var n := |p.agents|;
      FirstDispatchServes(p, jobs[0]);
      var r := MasterFetch(p, jobs[0]);
      assert forall i :: 0 <= i < n ==> r.pool.agents[i].cooldownUntil == p.agents[i].cooldownUntil;
      CyclicOrder(r.pool, jobs[1..]);
      forall j | 0 <= j < |jobs|
        ensures Serve(p, jobs)[j].calls == [YahooCall(Advance(p.index, j, n))]
      {
        if j > 0 {
          assert Serve(p, jobs)[j] == Serve(r.pool, jobs[1..])[j - 1];
          AdvanceShift(p.index, j - 1, n);
        }
      }
    }
  }

  /** Advancing from the next position is advancing one step more. */
  lemma {:induction false} AdvanceShift(i: nat, j: nat, n: nat)
    requires i < n
    ensures Advance(Next(i, n), j, n) == Advance(i, j + 1, n)
    decreases j
  {
    if j > 0 {
      AdvanceShift(i, j - 1, n);
    }
  }

  /** A request none of whose Yahoo passes ends it falls back to AlphaVantage:
      its outcome is the AlphaVantage answer and its last dispatch the
      AlphaVantage call. */
  lemma {:induction false} RunNeverServed(p: Pool, pass: (Pool, nat) -> Step, now: real, alpha: Result<Dict>, attempt: nat)
    requires ValidPool(p) && attempt <= |p.agents| && PassValid(pass) && PassOk(pass, now, alpha)
    requires forall q, k :: ValidPool(q) && pass(q, k).call.YahooCall? ==> pass(q, k).result.None?
    ensures var R := Run(p, pass, alpha, attempt);
      R.outcome == alpha && 0 < |R.calls| && R.calls[|R.calls| - 1] == AlphaCall
    decreases |p.agents| - attempt
  {
    if attempt < |p.agents| {
      var s := pass(p, attempt);
      assert StepOk(p, s, now, alpha);
      if s.result.None? {
        RunNeverServed(s.pool, pass, now, alpha, attempt + 1);
        var rest := Run(s.pool, pass, alpha, attempt + 1);
        assert Run(p, pass, alpha, attempt).calls == [s.call] + rest.calls;
      }
    }
  }

  /** `await` applied to what a synchronous fetch returned: a dict cannot be
      awaited, so a returned value raises `TypeError`; an exception the fetch
      raised passes through. */
  function Awaited(r: Result<Dict>): (a: Result<Dict>)
    ensures a.Err? && (r.Err? ==> a == r) && (r.Ok? ==> a == Err(TypeError))
  {
    if r.Ok? then Err(TypeError) else r
  }

  /** The answers `fetch` sees as written, where both the Yahoo fetch (line 33)
      and the AlphaVantage fetch (line 44) are awaited. */
  function AwaitedAnswers(ans: Answers): Answers {
    Answers(ans.now, (name: string, k: nat) => Awaited(ans.yahoo(name, k)), Awaited(ans.alpha))
  }

  /** No Yahoo pass ends a request when every answer is awaited. */
  lemma AwaitedPassNeverServes(ans: Answers)
    ensures forall q, k :: ValidPool(q) && PassOf(AwaitedAnswers(ans))(q, k).call.YahooCall? ==>
      PassOf(AwaitedAnswers(ans))(q, k).result.None?
  {
    var A := AwaitedAnswers(ans);
    forall q: Pool, k: nat | ValidPool(q) && PassOf(A)(q, k).call.YahooCall?
      ensures PassOf(A)(q, k).result.None?
    {
      var pos := Dispatch(q, A, k).call.position;
      assert A.yahoo(q.agents[pos].name, k) == Awaited(ans.yahoo(q.agents[pos].name, k));
    }
  }

  /** As written, `fetch` never succeeds: every dispatched Yahoo agent ends
      cooling down until `now + 300`, whether its fetch returned data or
      raised, and the request raises what the awaited AlphaVantage call
      raises. */
  lemma AwaitedFetchRaises(p: Pool, ans: Answers)
    requires ValidPool(p)
    ensures var R := MasterFetch(p, AwaitedAnswers(ans));
      R.outcome.Err? && R.calls[|R.calls| - 1] == AlphaCall &&
      forall i :: 0 <= i < |p.agents| && YahooCall(i) in R.calls ==>
        R.pool.agents[i].cooldownUntil == ans.now + RateLimitCooldown
  {
    var A := AwaitedAnswers(ans);
    assert forall name: string, k: nat :: A.yahoo(name, k) == Awaited(ans.yahoo(name, k));
    assert AllAccepted(A);
    DispatchOk(A);
    AwaitedPassNeverServes(ans);
    RunNeverServed(p, PassOf(A), A.now, A.alpha, 0);
    MasterFetchEffects(p, A);
  }

  /** The states of a sequence of agents, in order. */
  ghost function States(agents: seq<YahooAgent>): (s: seq<AgentState>)
    reads agents
    ensures |s| == |agents| && forall i :: 0 <= i < |agents| ==> s[i] == agents[i].State()
  {
    seq(|agents|, i requires 0 <= i < |agents| reads agents => agents[i].State())
  }

  class MasterAgent {
    const yahooAgents: seq<YahooAgent>
    const alpha: Alpha.AlphaAgent
    var index: nat

    ghost predicate Valid()
      reads this
    {
      |yahooAgents| == PoolSize && index < PoolSize &&
      forall i, j :: 0 <= i < j < |yahooAgents| ==> yahooAgents[i] != yahooAgents[j]
    }

    /** The pool this object stands for. */
    ghost function Model(): Pool
      reads this, yahooAgents
    {
      Pool(States(yahooAgents), index)
    }

    /** `MasterAgent()`, with the AlphaVantage key the environment holds. */
    constructor (alphaEnv: Option<string>)
      ensures Valid() && Model() == InitialPool() && alpha == Alpha.New(alphaEnv)
      ensures forall i :: 0 <= i < |yahooAgents| ==> fresh(yahooAgents[i])
    {
      var agents: seq<YahooAgent> := [];
      var id := 1;
      while id <= PoolSize
        invariant 1 <= id <= PoolSize + 1 && |agents| == id - 1
        invariant forall k :: 0 <= k < |agents| ==>
          fresh(agents[k]) && agents[k].State() == AgentState(AgentName(k + 1), 0.0, 0.0)
        invariant forall k, l :: 0 <= k < l < |agents| ==> agents[k] != agents[l]
      {
        var a := new YahooAgent(id);
        agents := agents + [a];
        id := id + 1;
      }
      yahooAgents := agents;
      alpha := Alpha.New(alphaEnv);
      index := 0;
    }

    /** `_get_next_yahoo()` at time `now`: the agent picked and its position. */
    method GetNextYahoo(now: real) returns (agent: YahooAgent?, position: nat)
      requires Valid()
      modifies this
      ensures Valid() && Model().agents == old(Model()).agents
      ensures var sel := Select(old(Model()), now);
        index == sel.index &&
        (sel.pick.None? ==> agent == null) &&
        (sel.pick.Some? ==> agent == yahooAgents[sel.pick.value] && position == sel.pick.value)
    {
      ghost var agents := Model().agents;
      ghost var start := index;
      var n := |yahooAgents|;
      var attempts := 0;
      position := 0;
      while attempts < n
        invariant Valid() && 0 <= attempts <= n && Model().agents == agents
        invariant index == Offset(start, attempts, n)
        invariant FirstAvailable(agents, now, start, attempts) == FirstAvailable(agents, now, start, 0)
      {
        position := index;
        agent := yahooAgents[index];
        OffsetStep(start, attempts, n);
        OffsetIsMod(index, 0, n);
        index := (index + 1) % n;
        assert index == Next(position, n);
        if agent.IsAvailable(now) {
          assert FreeAt(agents, now, start, attempts);
          return;
        }
        attempts := attempts + 1;
      }
      agent := null;
    }

    /** One pass of the `for attempt` loop of `fetch(ticker)`, `pass` being
        the Master Agent's pass with the answers `ans` that world `w` gives:
        pick the next available agent and dispatch to it, cooling it down for
        300 s if it raises. `AlphaCall` reports that no agent was available,
        and `result` is what the request returns or raises when the pass ends
        it. */
    method TryNextYahoo(ticker: string, w: World, ghost ans: Answers, ghost pass: (Pool, nat) -> Step, attempt: nat)
      returns (call: Call, result: Option<Result<Dict>>)
      requires Valid() && Answering(ans, ticker, w) && Implements(pass, ans)
      modifies this, yahooAgents
      ensures Valid()
      ensures var s := pass(old(Model()), attempt);
        Model() == s.pool && call == s.call && (call.YahooCall? ==> result == s.result)
    {
      ghost var before := Model();
      ghost var step := Dispatch(before, ans, attempt);
      var agent, pos := GetNextYahoo(w.now);
      result := None;
      if agent == null {
        call := AlphaCall;
        return;
      }
      call := YahooCall(pos);
      var r := agent.Fetch(ticker, w.now, w.yahoo(attempt), w.parse);
      assert r == ans.yahoo(agent.name, attempt);
      if r.Err? {
        agent.SetCooldown(w.now, RateLimitCooldown);
      } else if Accepted(r.value) {
        result := Some(Ok(r.value["source" := Str(agent.name)]));
      }
      assert Model() == Pool(before.agents[pos := agent.State()], index);
    }

    /** The `for attempt` loop of `fetch(ticker)`, with `pass` as in
        `TryNextYahoo`: the Yahoo dispatches it made and, when an agent served
        the request, what it returns; otherwise the request goes on to
        AlphaVantage. */
    method YahooRounds(ticker: string, w: World, ghost ans: Answers, ghost pass: (Pool, nat) -> Step)
      returns (served: Option<Result<Dict>>, calls: seq<Call>)
      requires Valid() && Answering(ans, ticker, w) && Implements(pass, ans)
      requires PassValid(pass) && PassOk(pass, ans.now, ans.alpha)
      modifies this, yahooAgents
      ensures Valid()
      ensures var R := Run(old(Model()), pass, ans.alpha, 0);
        if served.Some? then Model() == R.pool && served.value == R.outcome && calls == R.calls
        else R == Request(Model(), ans.alpha, calls + [AlphaCall])
    {
      ghost var target := Run(Model(), pass, ans.alpha, 0);
      calls := [];
      served := None;
      var attempt := 0;
      while attempt < |yahooAgents| && served.None?
        invariant Valid() && attempt <= |yahooAgents|
        invariant served.None? ==> var R := Run(Model(), pass, ans.alpha, attempt);
          target == Request(R.pool, R.outcome, calls + R.calls)
        invariant served.Some? ==> target == Request(Model(), served.value, calls)
        decreases |yahooAgents| - attempt, if served.None? then 1 else 0
      {
        LoopStep(Model(), pass, ans.now, ans.alpha, attempt, calls, target);
        var call, result := TryNextYahoo(ticker, w, ans, pass, attempt);
        if call == AlphaCall {
          return;
        }
        calls := calls + [call];
        if result.Some? {
          served := result;
        } else {
          attempt := attempt + 1;
        }
      }
    }

    /** `fetch(ticker)` in world `w`: what it returns or raises, and the
        dispatches it made. */
    method Fetch(ticker: string, w: World) returns (outcome: Result<Dict>, calls: seq<Call>)
      requires Valid()
      modifies this, yahooAgents
      ensures Valid()
      ensures var R := MasterFetch(old(Model()), AnswersFor(ticker, alpha, w));
        Model() == R.pool && outcome == R.outcome && calls == R.calls
    {
      ghost var ans := AnswersFor(ticker, alpha, w);
      DispatchOk(ans);
      PassOfImplements(ans);
      var served;
      served, calls := YahooRounds(ticker, w, ans, PassOf(ans));
      if served.Some? {
        outcome := served.value;
      } else {
        outcome := Alpha.Fetch(alpha, ticker, w.alphaHttp, w.parse).outcome;
        calls := calls + [AlphaCall];
      }
    }
  }
}
