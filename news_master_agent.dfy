/** The news agents and the News Master Agent (src/providers/news_master_agent.py,
    and the earlier top-level news_master_agent.py, which differs from it only in
    the Google News query): three RSS feeds tried in rotation, the first that
    answers serving the request, its headlines translated one by one. */
module News {
  import opened Values
  import opened Upstream
  import opened Text

  /** `root.findall(".//item")[:8]`: at most eight items per feed. */
  const MaxItems: nat := 8

  /** Which copy of the News Master Agent: the one under src/providers/, or the
      earlier top-level one. */
  datatype Edition = Providers | TopLevel

  datatype Agent = YahooNewsAgent | MarketWatchAgent | GoogleNewsAgent

  /** `[YahooNewsAgent(), MarketWatchAgent(), GoogleNewsAgent()]` */
  const Agents: seq<Agent> := [YahooNewsAgent, MarketWatchAgent, GoogleNewsAgent]

  /** `agent.__class__.__name__` */
  function ClassName(a: Agent): string {
    match a
    case YahooNewsAgent => "YahooNewsAgent"
    case MarketWatchAgent => "MarketWatchAgent"
    case GoogleNewsAgent => "GoogleNewsAgent"
  }

  /** The `source` each agent writes into its items. */
  function SourceLabel(a: Agent): string {
    match a
    case YahooNewsAgent => "Yahoo Finance"
    case MarketWatchAgent => "MarketWatch"
    case GoogleNewsAgent => "Google News"
  }

  /** The class names tell the agents apart, and none is `"None"`, the source of
      an empty answer. */
  lemma ClassNamesDistinct(a: Agent, b: Agent)
    ensures ClassName(a) == ClassName(b) <==> a == b
    ensures ClassName(a) != "None"
  {
  }

  /** `ticker.replace("^", "").replace(".", "")` */
  function GoogleQuery(ticker: string): (q: string)
    ensures '^' !in q && '.' !in q
    ensures forall c :: c in q <==> c in ticker && c != '^' && c != '.'
  {
    Remove(Remove(ticker, '^'), '.')
  }

  /** A ticker without `^` or `.` is its own query. */
  lemma GoogleQueryPlain(ticker: string)
    requires '^' !in ticker && '.' !in ticker
    ensures GoogleQuery(ticker) == ticker
  {
    RemoveAbsent(ticker, '^');
    RemoveAbsent(ticker, '.');
  }

  /** The query keeps a character exactly when it is neither `^` nor `.`. */
  lemma GoogleQueryChar(x: char)
    ensures GoogleQuery([x]) == if x == '^' || x == '.' then [] else [x]
  {
    RemoveChar(x, '^');
    RemoveChar(x, '.');
  }

  /** The query of a concatenation is the concatenation of the queries, so the
      kept characters stay in their order. */
  lemma GoogleQueryConcat(a: string, b: string)
    ensures GoogleQuery(a + b) == GoogleQuery(a) + GoogleQuery(b)
  {
    RemoveConcat(a, b, '^');
    RemoveConcat(Remove(a, '^'), Remove(b, '^'), '.');
  }

  /** The feed each agent requests for `ticker`. Only the Providers edition
      strips `^` and `.` from the Google News query. */
  function FeedUrl(edition: Edition, a: Agent, ticker: string): string {
    match a
    case YahooNewsAgent =>
      "https://feeds.finance.yahoo.com/rss/2.0/headline?s=" + ticker + "&region=US&lang=en-US"
    case MarketWatchAgent =>
      "https://feeds.marketwatch.com/marketwatch/stock/" + ticker
    case GoogleNewsAgent =>
      var query := if edition == Providers then GoogleQuery(ticker) else ticker;
      "https://news.google.com/rss/search?q=" + query + "+stock"
  }

  /** The two editions request the same feeds, except Google News for a
      ticker holding a `^` or a `.`. */
  lemma EditionsAgree(a: Agent, ticker: string)
    ensures FeedUrl(Providers, a, ticker) == FeedUrl(TopLevel, a, ticker) <==>
      a != GoogleNewsAgent || ('^' !in ticker && '.' !in ticker)
  {
    if a == GoogleNewsAgent {
      if '^' !in ticker && '.' !in ticker {
        GoogleQueryPlain(ticker);
      } else if FeedUrl(Providers, a, ticker) == FeedUrl(TopLevel, a, ticker) {
        SameAffixes("https://news.google.com/rss/search?q=", GoogleQuery(ticker), ticker, "+stock");
        assert false;
      }
    }
  }

  /** One news item: the dict built from an `<item>`, and the Hebrew headline
      added when its translation succeeds. */
  datatype NewsItem = NewsItem(
    headline: Option<string>,
    url: Option<string>,
    datetime: Option<string>,
    source: string,
    headlineHe: Option<string>)

  /** `item.find(tag).text`: a missing child has no `.text`. */
  function ChildText(e: Elem): Result<Option<string>> {
    match e
    case Absent => Err(AttributeError)
    case Present(text) => Ok(text)
  }

  predicate Complete(item: RssItem) {
    item.title.Present? && item.link.Present? && item.pubDate.Present?
  }

  /** The dict one `<item>` becomes. */
  function ItemOf(item: RssItem, source: string): (r: Result<NewsItem>)
    ensures r.Ok? <==> Complete(item)
    ensures r.Ok? ==> r.value == NewsItem(item.title.text, item.link.text, item.pubDate.text, source, None)
    ensures r.Err? ==> r.error == AttributeError
  {
    var title :- ChildText(item.title);
    var link :- ChildText(item.link);
    var date :- ChildText(item.pubDate);
    Ok(NewsItem(title, link, date, source, None))
  }

  /** The loop of `_parse` over `items`: the first incomplete item raises. */
  function ItemsOf(items: seq<RssItem>, source: string): (r: Result<seq<NewsItem>>)
    ensures r.Ok? <==> forall k :: 0 <= k < |items| ==> Complete(items[k])
    ensures r.Ok? ==> (|r.value| == |items| &&
      forall k :: 0 <= k < |items| ==> Ok(r.value[k]) == ItemOf(items[k], source))
    ensures r.Err? ==> r.error == AttributeError
  {
    if items == [] then Ok([])
    else
      var init :- ItemsOf(items[..|items| - 1], source);
      var last :- ItemOf(items[|items| - 1], source);
      Ok(init + [last])
  }

  /** Once an item raises, the rest of the feed does not matter. */
  lemma {:induction false} ItemsOfErrSticky(items: seq<RssItem>, source: string, j: nat)
    requires j <= |items| && ItemsOf(items[..j], source).Err?
    ensures ItemsOf(items, source) == ItemsOf(items[..j], source)
    decreases |items|
  {
    if j < |items| {
      var init := items[..|items| - 1];
      assert init[..j] == items[..j];
      ItemsOfErrSticky(init, source, j);
    } else {
      assert items[..j] == items;
    }
  }

  /** The `for item in ...` loop of `_parse`. */
  method ParseItems(items: seq<RssItem>, source: string) returns (r: Result<seq<NewsItem>>)
    ensures r == ItemsOf(items, source)
  {
    var acc: seq<NewsItem> := [];
    var k := 0;
    while k < |items|
      invariant 0 <= k <= |items|
      invariant ItemsOf(items[..k], source) == Ok(acc)
    {
      var item := ItemOf(items[k], source);
      assert items[..k + 1][..k] == items[..k];
      if item.Err? {
        ItemsOfErrSticky(items, source, k + 1);
        return Err(item.error);
      }
      acc := acc + [item.value];
      k := k + 1;
    }
    assert items[..k] == items;
    return Ok(acc);
  }

  /** The items `_parse` reads from a parsed feed: the first eight. */
  function Head(items: seq<RssItem>): seq<RssItem> {
    if |items| <= MaxItems then items else items[..MaxItems]
  }

  /** `_parse(text, source)` of one agent. Yahoo's lets every error escape;
      MarketWatch's and Google's turn any error into an empty list. */
  function ParseFeed(a: Agent, doc: Document): (r: Result<seq<NewsItem>>) {
    var parsed := match doc
      case Malformed => Err(ParseError)
      case Parsed(items) => ItemsOf(Head(items), SourceLabel(a));
    if a != YahooNewsAgent && parsed.Err? then Ok([]) else parsed
  }

  /** `_parse`, as a method running its loop. */
  method Parse(a: Agent, doc: Document) returns (r: Result<seq<NewsItem>>)
    ensures r == ParseFeed(a, doc)
  {
    if doc.Malformed? {
      r := Err(ParseError);
    } else {
      r := ParseItems(Head(doc.items), SourceLabel(a));
    }
    if a != YahooNewsAgent && r.Err? {
      r := Ok([]);
    }
  }

  /** `agent.fetch(ticker)`, with `feed` answering each URL requested. */
  function FetchNews(edition: Edition, a: Agent, ticker: string, feed: string -> FeedResponse): Result<seq<NewsItem>> {
    match feed(FeedUrl(edition, a, ticker))
    case FeedFailed => Err(NetworkError)
    case FeedBody(doc) => ParseFeed(a, doc)
  }

  /** `agent.fetch(ticker)`, as a method running `_parse`'s loop. */
  method Fetch(edition: Edition, a: Agent, ticker: string, feed: string -> FeedResponse) returns (r: Result<seq<NewsItem>>)
    ensures r == FetchNews(edition, a, ticker, feed)
  {
    var answer := feed(FeedUrl(edition, a, ticker));
    if answer.FeedFailed? {
      return Err(NetworkError);
    }
    r := Parse(a, answer.doc);
  }

  /** A fetch returns at most eight items, each tagged with the agent's source
      label and not yet translated. MarketWatch and Google fail only when the
      request does; Yahoo fails also on a malformed feed or on an incomplete
      item among the first eight. */
  lemma FetchNewsShape(edition: Edition, a: Agent, ticker: string, feed: string -> FeedResponse)
    ensures var r := FetchNews(edition, a, ticker, feed);
      r.Ok? ==> (|r.value| <= MaxItems &&
        forall k :: 0 <= k < |r.value| ==> r.value[k].source == SourceLabel(a) && r.value[k].headlineHe.None?)
    ensures var r := FetchNews(edition, a, ticker, feed);
      a != YahooNewsAgent ==> (r.Err? <==> feed(FeedUrl(edition, a, ticker)).FeedFailed?)
    ensures var r := FetchNews(edition, a, ticker, feed);
      var answer := feed(FeedUrl(edition, a, ticker));
      a == YahooNewsAgent ==>
        (r.Ok? <==> (answer.FeedBody? && answer.doc.Parsed? &&
           forall k :: 0 <= k < |Head(answer.doc.items)| ==> Complete(Head(answer.doc.items)[k])))
  {
  }

  /** A parsed feed whose first eight items are complete is answered, by every
      agent, with exactly those items in their order. */
  lemma FetchNewsKeepsItems(edition: Edition, a: Agent, ticker: string, feed: string -> FeedResponse)
    requires feed(FeedUrl(edition, a, ticker)).FeedBody? && feed(FeedUrl(edition, a, ticker)).doc.Parsed?
    ensures var items := Head(feed(FeedUrl(edition, a, ticker)).doc.items);
      var r := FetchNews(edition, a, ticker, feed);
      (forall k :: 0 <= k < |items| ==> Complete(items[k])) ==>
        r.Ok? && |r.value| == |items| &&
        forall k :: 0 <= k < |items| ==> Ok(r.value[k]) == ItemOf(items[k], SourceLabel(a))
  {
  }

  /** A MarketWatch or Google feed that cannot be parsed still answers, with no
      items, so the rotation stops at it. */
  lemma LenientFeedAnswersEmpty(edition: Edition, a: Agent, ticker: string, feed: string -> FeedResponse)
    requires a != YahooNewsAgent
    requires feed(FeedUrl(edition, a, ticker)) == FeedBody(Malformed)
    ensures FetchNews(edition, a, ticker, feed) == Ok([])
  {
  }

  /** `{**n, "headline_he": hebrew}` when the translation of the headline
      succeeds, `n` unchanged when it raises (a missing headline cannot be
      translated). `translate` answers each headline, or fails. */
  function WithHebrew(n: NewsItem, translate: string -> Option<string>): NewsItem {
    match n.headline
    case None => n
    case Some(h) =>
      match translate(h)
      case None => n
      case Some(he) => n.(headlineHe := Some(he))
  }

  /** The translation loop's result. */
  function Translated(items: seq<NewsItem>, translate: string -> Option<string>): (r: seq<NewsItem>)
    ensures |r| == |items|
  {
    seq(|items|, k requires 0 <= k < |items| => WithHebrew(items[k], translate))
  }

  /** Translation keeps every item, in order, with all its fields; it adds a
      Hebrew headline exactly to the items whose headline translated. */
  lemma TranslatedKeepsItems(items: seq<NewsItem>, translate: string -> Option<string>)
    ensures var r := Translated(items, translate);
      |r| == |items| &&
      forall k :: 0 <= k < |items| ==>
        r[k].(headlineHe := items[k].headlineHe) == items[k] &&
        (items[k].headline.Some? && translate(items[k].headline.value).Some? ==>
          r[k].headlineHe == translate(items[k].headline.value)) &&
        (items[k].headline.None? || translate(items[k].headline.value).None? ==>
          r[k] == items[k])
  {
  }

  /** The `for n in raw_news` loop of `get_news`. */
  method TranslateAll(items: seq<NewsItem>, translate: string -> Option<string>) returns (out: seq<NewsItem>)
    ensures out == Translated(items, translate)
  {
    out := [];
    var k := 0;
    while k < |items|
      invariant 0 <= k <= |items|
      invariant out == Translated(items[..k], translate)
    {
      var n := items[k];
      if n.headline.Some? && translate(n.headline.value).Some? {
        out := out + [n.(headlineHe := translate(n.headline.value))];
      } else {
        out := out + [n];
      }
      k := k + 1;
    }
    assert items[..k] == items;
  }

  /** The dict `get_news` returns (its `timestamp` is not modelled). */
  datatype NewsResult = NewsResult(ticker: string, count: nat, items: seq<NewsItem>, source: string)

  /** The answer when every agent raised. */
  function NoNews(ticker: string): NewsResult {
    NewsResult(ticker, 0, [], "None")
  }

  /** The agent `i` places after the cursor. */
  function AgentAt(start: nat, i: nat): Agent {
    Agents[(start + i) % |Agents|]
  }

  /** Each agent's `fetch(ticker)` in one edition, for one ticker and one set
      of feed answers. */
  function Fetcher(edition: Edition, ticker: string, feed: string -> FeedResponse): Agent -> Result<seq<NewsItem>> {
    a => FetchNews(edition, a, ticker, feed)
  }

  /** `fetch` answers for each agent as that agent's `fetch(ticker)` does. */
  ghost predicate Serves(fetch: Agent -> Result<seq<NewsItem>>, edition: Edition, ticker: string,
                         feed: string -> FeedResponse)
  {
    forall a {:trigger FetchNews(edition, a, ticker, feed)} :: fetch(a) == FetchNews(edition, a, ticker, feed)
  }

  lemma FetcherServes(edition: Edition, ticker: string, feed: string -> FeedResponse)
    ensures Serves(Fetcher(edition, ticker, feed), edition, ticker, feed)
  {
  }

  /** An agent's fetch as the rotation sees it: through `fetch`. */
  method FetchServed(edition: Edition, a: Agent, ticker: string, feed: string -> FeedResponse,
                     ghost fetch: Agent -> Result<seq<NewsItem>>) returns (r: Result<seq<NewsItem>>)
    requires Serves(fetch, edition, ticker, feed)
    ensures r == fetch(a)
  {
    r := Fetch(edition, a, ticker, feed);
  }

  /** The first offset from `i` on whose agent's fetch does not raise, and what
      it returned; `None` when all raise. */
  function FirstServing(start: nat, fetch: Agent -> Result<seq<NewsItem>>, i: nat): (r: Option<(nat, seq<NewsItem>)>)
    requires i <= |Agents|
    ensures r.Some? ==> (i <= r.value.0 < |Agents| && fetch(AgentAt(start, r.value.0)) == Ok(r.value.1))
    ensures r.Some? ==> forall j :: i <= j < r.value.0 ==> fetch(AgentAt(start, j)).Err?
    ensures r.None? ==> forall j :: i <= j < |Agents| ==> fetch(AgentAt(start, j)).Err?
    decreases |Agents| - i
  {
    if i == |Agents| then None
    else
      match fetch(AgentAt(start, i))
      case Ok(raw) => Some((i, raw))
      case Err(_) => FirstServing(start, fetch, i + 1)
  }

  /** `get_news(ticker)` from cursor `start`, `fetch` standing for the agents'
      fetches: the answer and the new cursor. */
  function GetNewsSpec(ticker: string, start: nat, fetch: Agent -> Result<seq<NewsItem>>,
                       translate: string -> Option<string>): (NewsResult, nat)
  {
    match FirstServing(start, fetch, 0)
    case None => (NoNews(ticker), start)
    case Some((i, raw)) =>
      var items := Translated(raw, translate);
      (NewsResult(ticker, |items|, items, ClassName(AgentAt(start, i))), (start + 1) % |Agents|)
  }

  /** The rotation: the agents are tried from the cursor on, and the first whose
      fetch does not raise serves the request with its items, translated, and
      their number as the count; the cursor then moves one place, whichever
      agent served. The answer is the empty one, and the cursor stays, exactly
      when all three raise. */
  lemma GetNewsRotation(ticker: string, start: nat, fetch: Agent -> Result<seq<NewsItem>>,
                        translate: string -> Option<string>)
    requires start < |Agents|
    ensures var (r, next) := GetNewsSpec(ticker, start, fetch, translate);
      r.ticker == ticker && r.count == |r.items| &&
      (r.source == "None" <==> forall j :: 0 <= j < |Agents| ==> fetch(AgentAt(start, j)).Err?) &&
      (r.source == "None" ==> r == NoNews(ticker) && next == start) &&
      (r.source != "None" ==>
        next == (start + 1) % |Agents| &&
        exists i :: 0 <= i < |Agents| &&
          r.source == ClassName(AgentAt(start, i)) &&
          (forall j :: 0 <= j < i ==> fetch(AgentAt(start, j)).Err?) &&
          fetch(AgentAt(start, i)).Ok? &&
          r.items == Translated(fetch(AgentAt(start, i)).value, translate))
  {
    match FirstServing(start, fetch, 0)
    case None =>
    case Some((i, raw)) =>
      ClassNamesDistinct(AgentAt(start, i), AgentAt(start, i));
  }

  /** With the real agents, an answer holds at most eight items, each carrying
      the source label of the agent named as its source. */
  lemma GetNewsBounded(edition: Edition, ticker: string, start: nat, feed: string -> FeedResponse,
                       translate: string -> Option<string>)
    requires start < |Agents|
    ensures var (r, _) := GetNewsSpec(ticker, start, Fetcher(edition, ticker, feed), translate);
      r.count <= MaxItems &&
      (r.source != "None" ==>
        exists a :: a in Agents && ClassName(a) == r.source &&
          (forall k :: 0 <= k < |r.items| ==> r.items[k].source == SourceLabel(a)))
  {
    var fetch := Fetcher(edition, ticker, feed);
    match FirstServing(start, fetch, 0)
    case None =>
    case Some((i, raw)) =>
      var a := AgentAt(start, i);
      FetchNewsShape(edition, a, ticker, feed);
      TranslatedKeepsItems(raw, translate);
      assert a in Agents;
  }

  /** The three agents, seen from one cursor, are the three distinct agents. */
  lemma RotationCoversAll(start: nat)
    ensures {AgentAt(start, 0), AgentAt(start, 1), AgentAt(start, 2)} == {YahooNewsAgent, MarketWatchAgent, GoogleNewsAgent}
  {
    var n := start % 3;
    assert (start + 1) % 3 == (n + 1) % 3 && (start + 2) % 3 == (n + 2) % 3;
  }

  class NewsMasterAgent {
    const edition: Edition
    var index: nat

    ghost predicate Valid()
      reads this
    {
      index < |Agents|
    }

    /** `NewsMasterAgent()`: the cursor starts at the Yahoo agent. */
    constructor (edition: Edition)
      ensures Valid() && this.edition == edition && index == 0
    {
      this.edition := edition;
      index := 0;
    }

    /** `get_news(ticker)`, with `feed` answering each feed URL and `translate`
        each headline; `fetch` stands for the agents' fetches (`Fetcher`). */
    method GetNews(ticker: string, feed: string -> FeedResponse, translate: string -> Option<string>,
                   ghost fetch: Agent -> Result<seq<NewsItem>>)
      returns (r: NewsResult)
      requires Valid() && Serves(fetch, edition, ticker, feed)
      modifies this
      ensures Valid()
      ensures (r, index) == GetNewsSpec(ticker, old(index), fetch, translate)
    {
      var i := 0;
      while i < |Agents|
        invariant 0 <= i <= |Agents| && index == old(index)
        invariant FirstServing(index, fetch, i) == FirstServing(index, fetch, 0)
      {
        var agent := Agents[(index + i) % |Agents|];
        var raw := FetchServed(edition, agent, ticker, feed, fetch);
        assert agent == AgentAt(index, i);
        if raw.Ok? {
          index := (index + 1) % |Agents|;
          var translated := TranslateAll(raw.value, translate);
          return NewsResult(ticker, |translated|, translated, ClassName(agent));
        }
        i := i + 1;
      }
      r := NoNews(ticker);
    }
  }
}
