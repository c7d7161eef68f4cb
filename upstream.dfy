/** What the outside world answers: HTTP endpoints returning JSON, yfinance, and
    RSS feeds as parsed by xml.etree.ElementTree. Each is an oracle input of the
    model; the network and the libraries themselves are not modelled. */
module Upstream {
  import opened Values

  /** `httpx.get(url).json()`: a failure (timeout, connection error, a body that
      does not decode to a JSON object), or the decoded object. */
  datatype JsonResponse = HttpFailed | JsonBody(data: Dict)

  /** `yf.Ticker(t)`: `.info` and the number of rows of `.history(...)`,
      or the exception yfinance raised. */
  datatype YfAnswer = YfFailed | YfData(info: Dict, historyLength: nat)

  /** A child element looked up with `item.find(tag)`: missing, or present with
      its `.text` (which is `None` for an empty element). */
  datatype Elem = Absent | Present(text: Option<string>)

  /** An RSS 2.0 `<item>` with the three children the feeds read. */
  datatype RssItem = RssItem(title: Elem, link: Elem, pubDate: Elem)

  /** `ET.fromstring(text)`: a parse error, or the `<item>` elements that
      `root.findall(".//item")` returns, in document order. */
  datatype Document = Malformed | Parsed(items: seq<RssItem>)

  /** `httpx.get(url).text` fed to the parser, or a failed request. */
  datatype FeedResponse = FeedFailed | FeedBody(doc: Document)
}
