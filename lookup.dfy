/**
 * The stock-lookup card: a ticker is looked up through the language model, the quote and its
 * chart are shown, a news item with a sentiment score is filed, and the stock can be added to
 * the watchlist. Also the candle shape its chart draws.
 */
module Lookup {
  import opened Wrappers
  import opened Strings
  import opened Entities
  import opened Base44
  import opened Thinking

  const NotFound: string := "Could not find stock data. Please check the symbol and try again."
  const Headline: string := "Latest Market Update"
  const NoNews: string := "No recent news"
  const NeutralText: string := "neutral"
  const NewsSource: string := "Bloom AI"
  const PopularTickers: seq<string> := ["AAPL", "TSLA", "MSFT", "GOOGL", "AMZN", "NVDA"]

  /** The narrator's steps while `symbol` is looked up. */
  function LookupSteps(symbol: string): seq<ThinkingStep> {
    [ThinkingStep("database", "Uploading resources to Captain", "Initializing..."),
     ThinkingStep("sparkles", "Fetching real-time stock data", "Looking up " + ToUpper(symbol) + "..."),
     ThinkingStep("brain", "Analyzing news sentiment", "Scanning headlines..."),
     ThinkingStep("chart", "Compiling results", "Almost done...")]
  }

  // ---------------------------------------------------------------- the news item

  /** `text || fallback` on a string: a missing or empty text gives the fallback. */
  function TextOr(text: Option<string>, fallback: string): (r: string)
    ensures text.None? || text.value == [] ==> r == fallback
    ensures text.Some? && text.value != [] ==> r == text.value
  {
    if text.Some? && text.value != [] then text.value else fallback
  }

  /** The `sentiment_score` filed with a lookup: 0.7 for "positive", -0.7 for "negative", else 0. */
  function SentimentScore(sentiment: Option<string>): (score: real)
    ensures score == 0.7 <==> sentiment == Some("positive")
    ensures score == -0.7 <==> sentiment == Some("negative")
    ensures score == 0.0 <==> sentiment != Some("positive") && sentiment != Some("negative")
  {
    if sentiment == Some("positive") then 0.7
    else if sentiment == Some("negative") then -0.7
    else 0.0
  }

  /** The news item a successful lookup files. */
  function NewsFor(stock: Stock): (item: NewsItem)
    ensures item.symbol == stock.symbol && item.headline == Headline && item.source == NewsSource
    ensures item.summary != [] && item.sentiment != []
    ensures stock.newsSummary.Some? && stock.newsSummary.value != [] ==> item.summary == stock.newsSummary.value
    ensures item.sentimentScore == SentimentScore(stock.sentiment)
  {
    NewsItem(stock.symbol, Headline, TextOr(stock.newsSummary, NoNews),
             TextOr(stock.sentiment, NeutralText), SentimentScore(stock.sentiment), NewsSource)
  }

  /**
   * The filed item's score agrees with its filed sentiment: positive exactly for "positive",
   * negative exactly for "negative", zero otherwise (a missing or empty sentiment is filed as
   * "neutral" with score 0).
   */
  lemma NewsScoreAgrees(stock: Stock)
    ensures var item := NewsFor(stock);
            && (item.sentimentScore > 0.0 <==> item.sentiment == "positive")
            && (item.sentimentScore < 0.0 <==> item.sentiment == "negative")
            && -0.7 <= item.sentimentScore <= 0.7
  {
    var item := NewsFor(stock);
    assert NeutralText != "positive" && NeutralText != "negative" by {
      assert NeutralText[0] != "positive"[0];
      assert NeutralText[2] != "negative"[2];
    }
  }

  // ---------------------------------------------------------------- the candle shape

  datatype CandleColor = Green | Red

  /**
   * One drawn candle: a vertical wick at `wickX` from `wickTop` to `wickBottom`, and a body
   * rectangle with top-left corner (`bodyX`, `bodyTop`).
   */
  datatype Candle = Candle(color: CandleColor, wickX: real, wickTop: real, wickBottom: real,
                           bodyX: real, bodyTop: real, bodyWidth: real, bodyHeight: real)

  function Min(a: real, b: real): real { if a <= b then a else b }
  function Max(a: real, b: real): real { if a >= b then a else b }
  function Abs(a: real): real { if a < 0.0 then -a else a }

  /** A row with all four prices present. */
  predicate Complete(row: OhlcRow) {
    row.open.Some? && row.close.Some? && row.high.Some? && row.low.Some?
  }

  /**
   * `CustomCandlestick` for the bar slot (`x`, `y`, `width`, `height`): nothing without a complete
   * row; otherwise a green candle when the close is at least the open and a red one when it is
   * below, with the wick running down the slot's middle from `y` to `y + height` and the body
   * filling the slot from its upper edge, at least one unit tall.
   */
  function CustomCandlestick(x: real, y: real, width: real, height: real, payload: Option<OhlcRow>): (c: Option<Candle>)
    ensures c.None? <==> payload.None? || !Complete(payload.value)
    ensures c.Some? ==> && (c.value.color == Green <==> payload.value.close.value >= payload.value.open.value)
                        && c.value.wickX == x + width / 2.0
                        && c.value.wickTop == y && c.value.wickBottom == y + height
                        && c.value.bodyX == x && c.value.bodyWidth == width
                        && c.value.bodyTop == Min(y, y + height)
                        && c.value.bodyHeight == Max(1.0, Abs(height)) >= 1.0
  {
    if payload.None? || !Complete(payload.value) then None
    else
      var row := payload.value;
      var rising := row.close.value >= row.open.value;
      var highY := y;
      var lowY := y + height;
      var openY := if rising then y + height else y;
      var closeY := if rising then y else y + height;
      Some(Candle(if rising then Green else Red, x + width / 2.0, highY, lowY,
                  x, Min(openY, closeY), width, Max(1.0, Abs(closeY - openY))))
  }

  /**
   * The body always spans the whole slot: when the slot is at least one unit tall the body
   * covers the wick from end to end, whatever the prices.
   */
  lemma CandleBodyCoversWick(x: real, y: real, width: real, height: real, row: OhlcRow)
    requires Complete(row) && Abs(height) >= 1.0
    ensures var c := CustomCandlestick(x, y, width, height, Some(row)).value;
            && c.bodyTop == Min(c.wickTop, c.wickBottom)
            && c.bodyTop + c.bodyHeight == Max(c.wickTop, c.wickBottom)
  {
  }

  /** Only the colour depends on the prices: two complete rows in the same slot differ in nothing else. */
  lemma CandleShapeIgnoresPrices(x: real, y: real, width: real, height: real, a: OhlcRow, b: OhlcRow)
    requires Complete(a) && Complete(b)
    ensures CustomCandlestick(x, y, width, height, Some(a)).value.(color := Green)
            == CustomCandlestick(x, y, width, height, Some(b)).value.(color := Green)
  {
  }

  // ---------------------------------------------------------------- the component

  /** A string without lower-case ASCII letters is its own upper case. */
  lemma UpperWhenNoLower(s: string)
    requires forall i :: 0 <= i < |s| ==> !IsLowerAscii(s[i])
    ensures ToUpper(s) == s
  {
  }

  /** The popular tickers are already upper case. */
  lemma PopularTickersUpper()
    ensures forall t :: t in PopularTickers ==> ToUpper(t) == t
  {
    forall t | t in PopularTickers
      ensures ToUpper(t) == t
    {
      UpperWhenNoLower(t);
    }
  }

  class StockLookup {
    var symbol: string
    var isSearching: bool
    var stockData: Option<Stock>
    var chartData: seq<OhlcRow>
    var error: Option<string>
    var thinkingSteps: seq<ThinkingStep>

    /** The symbol field only ever holds upper-case text. */
    predicate SymbolUpper()
      reads this
    {
      ToUpper(symbol) == symbol
    }

    constructor()
      ensures symbol == [] && !isSearching && stockData.None? && chartData == [] && error.None? && thinkingSteps == []
      ensures SymbolUpper()
    {
      symbol := [];
      isSearching := false;
      stockData := None;
      chartData := [];
      error := None;
      thinkingSteps := [];
    }

    /** The symbol field's `onChange`: the typed text is upper-cased. */
    method OnSymbolChange(text: string)
      modifies this`symbol
      ensures symbol == ToUpper(text)
      ensures SymbolUpper()
    {
      ToUpperIdempotent(text);
      symbol := ToUpper(text);
    }

    /** A click on one of the popular tickers. */
    method SelectTicker(ticker: string)
      requires ticker in PopularTickers
      modifies this`symbol
      ensures symbol == ticker
      ensures SymbolUpper()
    {
      PopularTickersUpper();
      symbol := ticker;
    }

    /**
     * `handleSearch` up to its `await`: a blank symbol changes nothing; otherwise the previous
     * result and error are cleared, searching starts, the narrator gets the lookup steps and the
     * upper-cased symbol is returned for the request.
     */
    method BeginSearch() returns (query: Option<string>)
      modifies this`isSearching, this`error, this`stockData, this`chartData, this`thinkingSteps
      ensures query.None? <==> Trim(symbol) == []
      ensures query.None? ==> (isSearching == old(isSearching) && error == old(error) && stockData == old(stockData)
                               && chartData == old(chartData) && thinkingSteps == old(thinkingSteps))
      ensures query.Some? ==> (query.value == ToUpper(symbol) && isSearching && error.None? && stockData.None?
                               && chartData == [] && thinkingSteps == LookupSteps(symbol))
    {
      if Trim(symbol) == [] {
        return None;
      }
      isSearching := true;
      error := None;
      stockData := None;
      chartData := [];
      thinkingSteps := LookupSteps(symbol);
      query := Some(ToUpper(symbol));
    }

    /**
     * `handleSearch` after its `await`: exactly one quote request; on success the stock and its
     * chart rows (none when missing) are shown and its news item is filed, best effort; on
     * failure the fixed error text is shown. Searching ends and the narrator is cleared either way.
     */
    method FinishSearch(query: string, svc: Services) returns (result: Result<Stock>)
      modifies this`isSearching, this`error, this`stockData, this`chartData, this`thinkingSteps
      modifies svc`requests, svc`newsItems
      ensures svc.requests == old(svc.requests) + [QuoteRequest(query)]
      ensures result.Success? ==>
                && stockData == Some(result.value)
                && chartData == result.value.chartData.GetOr([])
                && error == old(error)
                && (svc.newsItems == old(svc.newsItems) || svc.newsItems == old(svc.newsItems) + [NewsFor(result.value)])
      ensures result.Failure? ==>
                && stockData == old(stockData) && chartData == old(chartData)
                && error == Some(NotFound) && svc.newsItems == old(svc.newsItems)
      ensures !isSearching && thinkingSteps == []
    {
      result := svc.InvokeLLMQuote(query);
      if result.Success? {
        stockData := Some(result.value);
        chartData := result.value.chartData.GetOr([]);
        var _ := svc.CreateNewsItem(NewsFor(result.value));
      } else {
        error := Some(NotFound);
      }
      isSearching := false;
      thinkingSteps := [];
    }

    /**
     * A whole `handleSearch`: a blank symbol issues no request and changes nothing; otherwise
     * one request for the upper-cased symbol, and the search ends with searching off, no
     * narrator steps, and either the stock, its chart rows and at most its news item, or the
     * error with nothing shown and nothing filed.
     */
    method HandleSearch(svc: Services) returns (result: Option<Result<Stock>>)
      modifies this`isSearching, this`error, this`stockData, this`chartData, this`thinkingSteps
      modifies svc`requests, svc`newsItems
      ensures result.None? <==> Trim(symbol) == []
      ensures result.None? ==> unchanged(this) && unchanged(svc)
      ensures result.Some? ==>
                && svc.requests == old(svc.requests) + [QuoteRequest(ToUpper(symbol))]
                && !isSearching && thinkingSteps == []
                && (result.value.Success? ==>
                      && stockData == Some(result.value.value) && error.None?
                      && chartData == result.value.value.chartData.GetOr([])
                      && (svc.newsItems == old(svc.newsItems)
                          || svc.newsItems == old(svc.newsItems) + [NewsFor(result.value.value)]))
                && (result.value.Failure? ==>
                      && stockData.None? && chartData == [] && error == Some(NotFound)
                      && svc.newsItems == old(svc.newsItems))
    {
      var query := BeginSearch();
      if query.None? {
        return None;
      }
      var r := FinishSearch(query.value, svc);
      result := Some(r);
    }

    /**
     * `handleAddToWatchlist`: with no stock shown nothing happens; otherwise the stock is added
     * and, when that succeeds, the card is cleared for the next lookup.
     */
    method HandleAddToWatchlist(svc: Services) returns (added: bool)
      modifies this`stockData, this`symbol, svc`watchlist
      ensures old(stockData).None? ==> !added && unchanged(this) && unchanged(svc)
      ensures added ==> old(stockData).Some? && svc.watchlist == old(svc.watchlist) + [old(stockData).value]
                        && stockData.None? && symbol == []
      ensures !added ==> stockData == old(stockData) && symbol == old(symbol) && svc.watchlist == old(svc.watchlist)
      ensures SymbolUpper() == (added || old(SymbolUpper()))
    {
      if stockData.None? {
        return false;
      }
      added := svc.CreateStock(stockData.value);
      if added {
        stockData := None;
        symbol := [];
      }
    }
  }
}
