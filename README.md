# Bloom dashboard core, modelled in Dafny

Bloom is a market dashboard whose components talk to a language-model service and to an entity
store. This project models the behaviour of five of its components:

- **CopilotPanel**, the conversation controller:
  - the `handleSend` turn: the guard, the user message, the busy flag, the assistant answer or the apology;
  - the capped query history;
  - the keyword classifier `detectCategory`;
  - the `VISUALIZATION:` parser;
  - the visualize button.
- **PersonalizedInsights**:
  - interest detection from the watchlist and the recent queries;
  - the insight request;
  - the filter against, and rotation of, the shown-insights log;
  - dismissals.
- **ThinkingAnimation**: a step counter advanced by a timer, the completed/current/pending status of each step, and the icon lookup.
- **TechnicalIndicators**: the RSI, stochastic and MACD labels, the `0..100` clamp, and the per-row RSI and MACD series.
- **StockLookup**:
  - the search guard and flow;
  - the filed news item and its sentiment score;
  - adding to the watchlist;
  - the candlestick geometry.

## Modelling choices

- Remote calls are methods of the class `Base44.Services`. These are `auth.me`, the
  `UserPreference` filter/update/create calls, `NewsItem.create`, `Stock.create` and `InvokeLLM`.
  Each method chooses nondeterministically between success and failure, and picks the service's
  answer the same way. So every handler is verified against every outcome. The store contents are
  fields of that class, and each completion request is appended to `requests` as an abstract
  `LlmRequest`.
- `JSON.parse` is a function-typed parameter `decode: string -> Option<Json>`. `None` stands for a
  thrown `SyntaxError`.
- Each async handler is split at its first `await`. The two halves are `BeginSend`/`FinishSend`,
  `Start`/`Complete` and `BeginSearch`/`FinishSearch`. This makes the busy-flag guards observable:
  a second `BeginSend` while the first turn is in flight changes nothing (`DoubleSubmit`).
- JavaScript's `||` defaults, truthiness and `split` are written out:
  - a zero reading counts as missing;
  - an empty string counts as missing;
  - `split(...)[1]` stops at the second delimiter.
- The 800 ms timer is an explicit `Tick()` method on the `ThinkingAnimation` class, whose
  `pendingTimers` field records the scheduled timer.

## Model

| member | source | states |
|---|---|---|
| Strings.Trim | src/components/dashboard/CopilotPanel.jsx:122 | `trim` never lengthens a string, and what it returns neither starts nor ends with whitespace |
| Strings.TrimEmptyIffAllSpace | src/components/dashboard/CopilotPanel.jsx:40 | `!s.trim()` holds exactly for whitespace-only strings, the empty string included |
| Strings.TrimIdempotent | src/components/dashboard/CopilotPanel.jsx:122 | trimming twice is trimming once |
| Strings.IndexOf | src/components/dashboard/CopilotPanel.jsx:120 | `includes`/`indexOf`: returns the first position where the pattern occurs, or none when it occurs nowhere |
| Strings.Split | src/components/dashboard/CopilotPanel.jsx:121 | `split` returns at least one piece; the first piece is the text before the first delimiter; no piece contains the delimiter; a string without the delimiter is returned whole |
| Strings.JoinSplit | src/components/dashboard/CopilotPanel.jsx:121 | joining the pieces of a split with the delimiter gives back the string |
| Strings.SecondPiece | src/components/dashboard/CopilotPanel.jsx:121-124 | `parts[1]` is the text from just after the first delimiter up to the next delimiter, or up to the end |
| Strings.ToUpperIdempotent | src/components/dashboard/StockLookup.jsx:186 | upper-casing an upper-cased string changes nothing |
| Seqs.LastN | src/components/dashboard/CopilotPanel.jsx:76 | `slice(-n)` keeps the last `min(n, length)` elements |
| Seqs.LastNAppend | src/components/dashboard/CopilotPanel.jsx:67-76 | capping before an append and capping after it give the same list |
| Seqs.DedupFacts | src/components/dashboard/PersonalizedInsights.jsx:80-94 | the insertion-ordered set has no repeats and holds exactly the inserted values |
| Seqs.DedupPrefix | src/components/dashboard/PersonalizedInsights.jsx:80-94 | values inserted later never disturb the order of those inserted first |
| Seqs.WithoutSeen | src/components/dashboard/PersonalizedInsights.jsx:61 | the fresh insights are no more than the candidates, and none of them is in the shown log |
| Seqs.WithoutSeenFacts | src/components/dashboard/PersonalizedInsights.jsx:61 | the fresh insights are exactly the candidates that are not in the shown log |
| Seqs.WithoutSeenOrdered | src/components/dashboard/PersonalizedInsights.jsx:61 | the fresh insights keep the candidates' order |
| Seqs.WithoutSeenAllSeen | src/components/dashboard/PersonalizedInsights.jsx:61 | candidates that are all in the log leave nothing fresh |
| Json.Field | src/components/dashboard/CopilotPanel.jsx:168-170 | a property read yields a value exactly when the value is an object holding that key |
| Entities.OwnedBy | src/components/dashboard/CopilotPanel.jsx:63 | the filter by `created_by` returns exactly the user's records |
| Entities.ReplaceById | src/components/dashboard/CopilotPanel.jsx:74-77 | an update replaces every record with that id and nothing else |
| Base44.Services.Me | src/components/dashboard/CopilotPanel.jsx:62 | a successful `auth.me` returns the signed-in user |
| Base44.Services.FilterPreferences | src/components/dashboard/PersonalizedInsights.jsx:25 | a successful filter returns the user's records |
| Base44.Services.UpdatePreference | src/components/dashboard/CopilotPanel.jsx:74-77 | the store changes by exactly the update, or not at all |
| Base44.Services.CreatePreference | src/components/dashboard/CopilotPanel.jsx:79-83 | the store gains exactly the new record, owned by the signed-in user, or nothing |
| Base44.Services.CreateNewsItem | src/components/dashboard/StockLookup.jsx:88-96 | the news list gains exactly the item, or nothing |
| Base44.Services.CreateStock | src/components/dashboard/StockLookup.jsx:113 | the watchlist gains exactly the stock, or nothing |
| Base44.Services.InvokeLLM | src/components/dashboard/CopilotPanel.jsx:98-115 | every call logs exactly one chat request for the query |
| Base44.Services.InvokeLLMInsights | src/components/dashboard/PersonalizedInsights.jsx:35-55 | every call logs exactly one insight request for the interests |
| Base44.Services.InvokeLLMQuote | src/components/dashboard/StockLookup.jsx:37-78 | every call logs exactly one quote request for the symbol |
| Classifier.DetectCategory | src/components/dashboard/CopilotPanel.jsx:152-164 | the result is tech exactly when a tech keyword occurs in the lower-cased query. It is finance exactly when no tech keyword occurs and a finance keyword does, and energy exactly when neither occurs and an energy keyword does; otherwise it is general |
| Classifier.DetectCategoryIgnoresCase | src/components/dashboard/CopilotPanel.jsx:153 | a query and its upper-cased form get the same category |
| Classifier.ContainsInContext | src/components/dashboard/CopilotPanel.jsx:154 | a keyword still matches when text is added on either side |
| Classifier.TechWins | src/components/dashboard/CopilotPanel.jsx:154-156 | a tech keyword anywhere makes the query tech, whatever else it mentions |
| Classifier.MissingLetter | src/components/dashboard/CopilotPanel.jsx:154-160 | a keyword that uses a letter absent from the text cannot match |
| Classifier.EnergyWithoutLetters | src/components/dashboard/CopilotPanel.jsx:154-161 | a query whose lower-cased text names an energy keyword and lacks the letters of every tech and finance keyword is energy |
| Classifier.GeneralWithoutLetters | src/components/dashboard/CopilotPanel.jsx:152-164 | a query that lacks a letter of every keyword is general |
| Classifier.TechExample | src/components/dashboard/CopilotPanel.jsx:154-156 | "thoughts on nvidia earnings?" is tech |
| Classifier.AaplExample | src/components/dashboard/CopilotPanel.jsx:153-156 | "What's AAPL doing?" is tech: the upper-case ticker matches once the query is lower-cased |
| Classifier.EnergyExample | src/components/dashboard/CopilotPanel.jsx:160-161 | "Chevron outlook?" is energy |
| Classifier.GeneralExample | src/components/dashboard/CopilotPanel.jsx:163 | "weather today" is general |
| Copilot.RecordQuery | src/components/dashboard/CopilotPanel.jsx:66-77 | recording a query puts the new entry last after the newest earlier entries, with the length capped at 50 |
| Copilot.RecordAllKeepsNewest | src/components/dashboard/CopilotPanel.jsx:66-77 | after any run of recorded queries, the history is exactly the newest 50 of all entries |
| Copilot.RecordAllOverflow | src/components/dashboard/CopilotPanel.jsx:76 | from an empty history, 50 or more queries leave exactly the last 50 |
| Copilot.ParseResponse | src/components/dashboard/CopilotPanel.jsx:117-129 | a non-string reply, or one without the delimiter, is kept verbatim with no directive. Otherwise the content is the trimmed text before the first delimiter, and the directive is the decoding of the trimmed second piece. The reply counts as decoded exactly when decoding succeeds |
| Copilot.DelimiterAfter | src/components/dashboard/CopilotPanel.jsx:120-121 | in "A VISUALIZATION: B" with no delimiter in A, the first delimiter is right after A |
| Copilot.ParseOneDelimiter | src/components/dashboard/CopilotPanel.jsx:120-129 | "A VISUALIZATION: B" parses to trim(A) and the decoding of trim(B), whether or not B decodes |
| Copilot.SegmentOfTwo | src/components/dashboard/CopilotPanel.jsx:121 | the second split piece of "A D B D C" is B |
| Copilot.ParseTwoDelimiters | src/components/dashboard/CopilotPanel.jsx:121-124 | with a second delimiter, only the text between the first two delimiters is decoded |
| Copilot.AssistantMessage | src/components/dashboard/CopilotPanel.jsx:131-145 | a failed request yields the fixed apology with no directive; a successful one yields the parsed content and directive |
| Copilot.ChartType | src/components/dashboard/CopilotPanel.jsx:170 | the requested chart kind is always truthy: the directive's truthy `type`, otherwise "correlation" |
| Copilot.CopilotPanel.constructor | src/components/dashboard/CopilotPanel.jsx:12-22 | a new panel holds only the greeting, with an empty input, nothing loading and no directive |
| Copilot.CopilotPanel.SetInput | src/components/dashboard/CopilotPanel.jsx:182-184 | a suggested prompt or a keystroke sets the input |
| Copilot.CopilotPanel.BeginSend | src/components/dashboard/CopilotPanel.jsx:39-58 | a blank input or a request in flight changes nothing. Otherwise exactly one user message with the raw input is appended, the input is cleared, loading starts and the chat steps are shown |
| Copilot.CopilotPanel.SaveHistory | src/components/dashboard/CopilotPanel.jsx:61-87 | the store is either unchanged or holds the user's first record with the classified entry recorded, or a new record with only that entry |
| Copilot.CopilotPanel.FinishSend | src/components/dashboard/CopilotPanel.jsx:60-149 | one history write at most, then exactly one chat request and exactly one assistant message (the parsed reply or the apology). Loading ends and the steps are cleared. The directive flag is set exactly when a directive decoded |
| Copilot.CopilotPanel.HandleSend | src/components/dashboard/CopilotPanel.jsx:39-150 | a rejected send changes nothing and calls nothing. An accepted send appends exactly the user message and one assistant message, clears the input, leaves the store unchanged or with the classified query recorded, issues one chat request, and ends with loading off, no steps, and the visualize button shown exactly when it was or a directive decoded |
| Copilot.CopilotPanel.HandleVisualize | src/components/dashboard/CopilotPanel.jsx:166-180 | when the last message carries a truthy directive, its chart kind is requested and the button is hidden; otherwise nothing happens |
| Copilot.DoubleSubmit | src/components/dashboard/CopilotPanel.jsx:40 | a second submission while the first is in flight adds no message |
| Thinking.GetIcon | src/components/dashboard/ThinkingAnimation.jsx:17-25 | "database", "brain", "sparkles" and "chart" map to the database, brain, sparkles and line-chart icons; any other name to the spinner; no name maps to the check icon |
| Thinking.StatusOf | src/components/dashboard/ThinkingAnimation.jsx:35-36 | a step is completed iff its index is below the counter, current iff equal to it, and pending iff above it |
| Thinking.ViewOf | src/components/dashboard/ThinkingAnimation.jsx:33-71 | a step is completed iff its index is below the counter and current iff equal. A completed step shows the check icon, and only the current step spins and shows its subtext |
| Thinking.Advance | src/components/dashboard/ThinkingAnimation.jsx:9-11 | one firing moves the counter up by one while it is below the last index, and otherwise leaves it; a counter on a step stays on a step |
| Thinking.AdvanceByFromStart | src/components/dashboard/ThinkingAnimation.jsx:6-15 | k timer firings from step 0 reach step min(k, last index) |
| Thinking.ExactlyOneCurrent | src/components/dashboard/ThinkingAnimation.jsx:35-36 | with a valid counter exactly one step is current; earlier steps are completed, later ones pending |
| Thinking.ThinkingAnimation.constructor | src/components/dashboard/ThinkingAnimation.jsx:6-15 | the counter starts at 0, and a timer is scheduled only when there is a second step |
| Thinking.ThinkingAnimation.Tick | src/components/dashboard/ThinkingAnimation.jsx:9-13 | a firing moves the counter up by one only while it is below the last index. At most one timer is ever pending |
| Thinking.ThinkingAnimation.Unmount | src/components/dashboard/ThinkingAnimation.jsx:13 | teardown cancels the pending timer and keeps the counter |
| Thinking.ThinkingAnimation.Views | src/components/dashboard/ThinkingAnimation.jsx:33-36 | one rendered row per step, in order, each with that step's status |
| Thinking.FourStepsTwoTicks | src/components/dashboard/ThinkingAnimation.jsx:9-12 | with four steps and two firings, steps 0 and 1 are completed, 2 is current (spinning) and 3 is pending |
| Insights.Label | src/components/dashboard/PersonalizedInsights.jsx:88-91 | only general queries contribute no interest label |
| Insights.Symbols | src/components/dashboard/PersonalizedInsights.jsx:83-85 | the watchlist's symbols, one per stock, in order |
| Insights.DedupSnoc | src/components/dashboard/PersonalizedInsights.jsx:84 | adding to the set appends the value exactly when it is new |
| Insights.Interests | src/components/dashboard/PersonalizedInsights.jsx:79-95 | `detectInterests` names at most five interests |
| Insights.DetectInterests | src/components/dashboard/PersonalizedInsights.jsx:79-95 | the two loops filling the set and the final slice compute the first five distinct values of the symbols followed by the labels |
| Insights.LabelsMembership | src/components/dashboard/PersonalizedInsights.jsx:88-91 | a label is among the labels exactly when some query has its category |
| Insights.LabelsEmptyIff | src/components/dashboard/PersonalizedInsights.jsx:88-91 | there are no labels exactly when every query is general |
| Insights.InterestsFacts | src/components/dashboard/PersonalizedInsights.jsx:80-94 | the interests number at most five, have no repeats, and each is a symbol or a label; when there are at most five distinct values, all of them appear |
| Insights.WatchlistFirst | src/components/dashboard/PersonalizedInsights.jsx:82-94 | the interests begin with the first five distinct watchlist symbols |
| Insights.GeneralAddsNothing | src/components/dashboard/PersonalizedInsights.jsx:88-91 | a general query changes no interest |
| Insights.InterestsEmptyIff | src/components/dashboard/PersonalizedInsights.jsx:34 | there are no interests, and so no request, exactly when the watchlist is empty and every recent query is general |
| Insights.RotateLogFacts | src/components/dashboard/PersonalizedInsights.jsx:69 | the rewritten log holds at most 50 entries, ends with the fresh insights, and is preceded by the newest part of the old log |
| Insights.NoRepeatAfterRotation | src/components/dashboard/PersonalizedInsights.jsx:57-69 | insights just logged are not fresh on the next generation |
| Insights.KeptIndices | src/components/dashboard/PersonalizedInsights.jsx:101 | the kept positions lie below the number of insights |
| Insights.KeptFacts | src/components/dashboard/PersonalizedInsights.jsx:101 | the kept positions are exactly the undismissed ones, in increasing order |
| Insights.Visible | src/components/dashboard/PersonalizedInsights.jsx:101 | the visible insights are never more than the insights, and each of them is one of the insights |
| Insights.KeptSameDismissals | src/components/dashboard/PersonalizedInsights.jsx:101 | which insights are visible depends only on which positions are dismissed |
| Insights.KeptWithout | src/components/dashboard/PersonalizedInsights.jsx:97-101 | dismissing the p-th kept position removes exactly that entry from the kept positions |
| Insights.KeptWithoutStep | src/components/dashboard/PersonalizedInsights.jsx:97-101 | the inductive step of `KeptWithout` |
| Insights.KeptWithoutLast | src/components/dashboard/PersonalizedInsights.jsx:97-101 | dismissing the last kept position removes the last entry |
| Insights.DismissAsWritten | src/components/dashboard/PersonalizedInsights.jsx:97-99 | as written, the visible position is appended to the dismissals unchanged |
| Insights.DismissAsWrittenNoEffect | src/components/dashboard/PersonalizedInsights.jsx:97-101 | as written, recording an already dismissed position changes nothing on screen |
| Insights.DismissAsWrittenExample | src/components/dashboard/PersonalizedInsights.jsx:97-101 | as written, with a, b, c shown, two clicks on the first visible insight leave b and c on screen |
| Insights.DismissHidesOne | src/components/dashboard/PersonalizedInsights.jsx:97-101 | corrected: dismissing the visible insight at a position hides exactly that insight |
| Insights.VisibleWithoutDismissals | src/components/dashboard/PersonalizedInsights.jsx:101 | with nothing dismissed, every insight is visible, in order |
| Insights.KeptAll | src/components/dashboard/PersonalizedInsights.jsx:101 | with nothing dismissed, the kept positions are 0 to n-1 |
| Insights.StaleDismissalExample | src/components/dashboard/PersonalizedInsights.jsx:63 | as written, position 0 dismissed earlier hides the first of two newly generated insights |
| Insights.StaleDismissalHidesFirst | src/components/dashboard/PersonalizedInsights.jsx:63 | as written, a surviving dismissal of position 0 hides the first fresh insight whatever the model proposed: position 0 is not kept, one card fewer is shown, and without repeats the first fresh insight is not on screen |
| Insights.KeptLength | src/components/dashboard/PersonalizedInsights.jsx:101 | a dismissed position below n leaves fewer than n positions kept |
| Insights.PersonalizedInsights.constructor | src/components/dashboard/PersonalizedInsights.jsx:9-11 | no insights, nothing generating, nothing dismissed |
| Insights.PersonalizedInsights.Start | src/components/dashboard/PersonalizedInsights.jsx:19-22 | a generation in flight makes the call return; otherwise generating starts |
| Insights.PersonalizedInsights.Complete | src/components/dashboard/PersonalizedInsights.jsx:23-76 | corrected: when the user or their records cannot be fetched, no request is made and nothing shown changes. Otherwise the interests come from the last ten queries and the watchlist: exactly one request names them when there are some, and none is made when there are none. The fresh candidates become the insights and the dismissals are cleared (the code as written keeps them); the log is rewritten only for a record holder with something fresh. A failed call changes nothing shown, and generating always ends |
| Insights.PersonalizedInsights.GenerateInsights | src/components/dashboard/PersonalizedInsights.jsx:19-77 | corrected, as `Complete`: nothing at all happens while another generation runs; otherwise the generation runs to completion, with exactly the fetch outcome, the request (one exactly when the fetched records and the watchlist give interests), the fresh insights, the cleared dismissals and the log rewrite that `Complete` states |
| Insights.PersonalizedInsights.OnStocksChanged | src/components/dashboard/PersonalizedInsights.jsx:13-17 | corrected, as `Complete`: a generation is attempted exactly for a non-empty watchlist while none runs, and then has the effect `Complete` states, including exactly one insight request whenever the records were fetched and there are interests; otherwise nothing changes |
| Insights.PersonalizedInsights.HandleDismiss | src/components/dashboard/PersonalizedInsights.jsx:97-101 | corrected: the clicked insight is hidden, and only it |
| Indicators.RsiLabel | src/components/analysis/TechnicalIndicators.jsx:14-18 | the label is Overbought iff RSI > 70, Oversold iff RSI < 30, and Neutral iff 30 <= RSI <= 70 |
| Indicators.RsiColor | src/components/analysis/TechnicalIndicators.jsx:8-12 | red iff RSI > 70, green iff RSI < 30 |
| Indicators.RsiColorAgrees | src/components/analysis/TechnicalIndicators.jsx:8-18 | the colour and the label agree case for case |
| Indicators.StochasticLabel | src/components/analysis/TechnicalIndicators.jsx:20-24 | the label is Overbought iff %K > 80, Oversold iff %K < 20, and Neutral in between, bounds included |
| Indicators.LabelsMonotone | src/components/analysis/TechnicalIndicators.jsx:14-24 | a higher reading never gets a lower label |
| Indicators.MacdSignal | src/components/analysis/TechnicalIndicators.jsx:26-31 | Bullish iff a MACD reading has a positive histogram, Bearish iff a negative one; otherwise neutral |
| Indicators.OrElse | src/components/analysis/TechnicalIndicators.jsx:60 | `x \|\| d` gives d for a missing or zero reading, and the reading otherwise |
| Indicators.RatedRsi | src/components/analysis/TechnicalIndicators.jsx:60-63 | the RSI value that picks the colour and the label is never 0: the reading when it is present and non-zero, 50 otherwise |
| Indicators.MissingIsNeutral | src/components/analysis/TechnicalIndicators.jsx:60-63 | a missing or zero RSI is coloured and labelled as 50: Neutral, yellow |
| Indicators.MissingStochasticIsNeutral | src/components/analysis/TechnicalIndicators.jsx:85 | a missing or zero %K is labelled Neutral |
| Indicators.Clamp | src/components/analysis/TechnicalIndicators.jsx:36 | the result lies in [0, 100], equals the input inside that range, and is the nearer bound outside it |
| Indicators.ClampIdempotentMonotone | src/components/analysis/TechnicalIndicators.jsx:36 | clamping twice is clamping once, and clamping preserves order |
| Indicators.RsiSeries | src/components/analysis/TechnicalIndicators.jsx:34-37 | one point per chart row, carrying that row's date, in order, every RSI point in [0, 100] |
| Indicators.RsiSeriesNearReading | src/components/analysis/TechnicalIndicators.jsx:36 | with draws in [0, 1] and a reading in [10, 90], each point is within 10 of the reading |
| Indicators.MacdSeries | src/components/analysis/TechnicalIndicators.jsx:39-44 | one point per chart row, carrying that row's date, in order |
| Indicators.MacdSeriesNearReading | src/components/analysis/TechnicalIndicators.jsx:41-43 | with draws in [0, 1], the MACD and signal lines stay within 1 of the reading, and the histogram within 0.5 |
| Lookup.TextOr | src/components/dashboard/StockLookup.jsx:91-92 | a missing or empty text gives the fallback, and any other text is kept |
| Lookup.SentimentScore | src/components/dashboard/StockLookup.jsx:93 | 0.7 exactly for "positive", -0.7 exactly for "negative", 0 for anything else |
| Lookup.NewsFor | src/components/dashboard/StockLookup.jsx:88-96 | the filed item carries the stock's symbol, the fixed headline and source, a non-empty summary (the stock's own when it has one) and sentiment, and the sentiment's score |
| Lookup.NewsScoreAgrees | src/components/dashboard/StockLookup.jsx:88-96 | the filed score is positive exactly when the filed sentiment is "positive" and negative exactly when it is "negative"; it lies in [-0.7, 0.7] |
| Lookup.CustomCandlestick | src/components/dashboard/StockLookup.jsx:130-169 | nothing is drawn unless open, close, high and low are all present. The candle is green iff close >= open. The wick runs from y to y+height at the slot's middle. The body top is min(y, y+height) and the body height is max(1, abs(height)), at least 1 |
| Lookup.CandleBodyCoversWick | src/components/dashboard/StockLookup.jsx:143-163 | for a slot at least one unit tall, the body covers the wick end to end |
| Lookup.CandleShapeIgnoresPrices | src/components/dashboard/StockLookup.jsx:134-163 | only the colour depends on the prices |
| Lookup.UpperWhenNoLower | src/components/dashboard/StockLookup.jsx:186 | a string with no lower-case letter is its own upper case |
| Lookup.PopularTickersUpper | src/components/dashboard/StockLookup.jsx:323 | the popular tickers are already upper case |
| Lookup.StockLookup.constructor | src/components/dashboard/StockLookup.jsx:14-19 | an empty symbol, no result, no chart, no error, not searching |
| Lookup.StockLookup.OnSymbolChange | src/components/dashboard/StockLookup.jsx:186 | the symbol field holds the typed text upper-cased, so it stays upper case |
| Lookup.StockLookup.SelectTicker | src/components/dashboard/StockLookup.jsx:326 | a popular ticker is put in the field, which stays upper case |
| Lookup.StockLookup.BeginSearch | src/components/dashboard/StockLookup.jsx:21-34 | a blank symbol changes nothing. Otherwise the previous result and error are cleared, searching starts, the lookup steps are shown, and the upper-cased symbol is requested |
| Lookup.StockLookup.FinishSearch | src/components/dashboard/StockLookup.jsx:36-106 | exactly one quote request. Success shows the stock and its chart rows (empty when missing) and files at most its news item. Failure shows the fixed error text. Searching ends and the steps are cleared either way |
| Lookup.StockLookup.HandleSearch | src/components/dashboard/StockLookup.jsx:21-107 | a blank symbol issues no request and changes nothing. Otherwise one request for the upper-cased symbol, ending with searching off and no steps. Success shows the stock and its chart rows (empty when missing) with no error and files at most its news item; failure shows the error with no stock, no chart and no news filed |
| Lookup.StockLookup.HandleAddToWatchlist | src/components/dashboard/StockLookup.jsx:109-120 | with no stock shown, nothing happens. Otherwise the stock is added, and after a successful add the card and the symbol are cleared |

## Left out

- Timestamps (`new Date()`) on messages, history entries, news items and quotes: a clock reading no decision depends on.
- Prompt text, the market-data context and the response schemas of the completion requests: each request is recorded as the query, the interests or the symbol it carries.
- Logging (`console.log`/`console.error`), scrolling, animation and all rendering beyond what a row shows (status, icon, spin, subtext).
- `handleVisualize`'s twenty-point synthetic series from `Math.random` and the market data: only the requested chart kind and the button flag are modelled.
- The `onStockAdded` and `onVisualizationRequest` callbacks into the parent page.
- Concurrency: interleaved `await`s of different handlers, and lost updates between the two components that rewrite the same `UserPreference` record.
- React's stale closures: `generateInsights` reads `isGenerating` from the render that scheduled it. The model reads the current field.
- `Strings.ToLower`, `Strings.ToUpper`: only ASCII letters change case. JavaScript also maps other letters (for example the Kelvin sign, which lower-cases to `k` and could create a keyword match).
- `Thinking.GetIcon`: inherited object-prototype keys such as "constructor" are not modelled; in JavaScript they look up a truthy non-icon value.
- Floating point: readings and coordinates are exact reals, so NaN, rounding and `toFixed`/`toLocaleString` formatting are not modelled.
- `Math.random` draws are parameters of the series functions.
- The printed RSI and %K figures (`toFixed(1) || "50.0"`): a zero reading prints as "0.0", while its colour and label use 50. The model covers the colour, the label and the series base, not the printed text.
- Stock records keep only the fields a branch depends on (symbol, sentiment, news summary, chart rows). Name, price, change, volume and market cap are carried by the service but not modelled.
- `queryHistory.push` mutates the fetched array in place before the write. The model computes the new history as a value, because the array is not observed elsewhere.
- A `ThinkingAnimation` whose `steps` prop changes while it is mounted: each narrator keeps the steps it was created with.
- src/components/analysis/CandlestickChart.jsx is not part of this model. It repeats the candle geometry without the missing-price guard.
- `Lookup.CustomCandlestick`: a `null` price is treated as missing, so nothing is drawn. The source's `=== undefined` guard lets a `null` through, and `close >= open` then compares it as 0.
- `Insights.PersonalizedInsights.HandleDismiss` requires a position among the visible insights, because the component only offers dismiss buttons for those.

## Findings

| source | as written | input that shows it | evidently intended | confidence | as-written member | corrected member |
|---|---|---|---|---|---|---|
| src/components/dashboard/PersonalizedInsights.jsx:97-101,123-135 | the dismiss button passes the insight's position in the visible list, but the filter compares recorded positions against positions in the full list | insights a, b, c: click the first visible insight (a), then click the first visible insight again (b). The second click records position 0 again, and b stays on screen | the clicked insight is hidden: the visible position is mapped back to its position in the full list | high (not executed) | Insights.DismissAsWrittenExample | Insights.DismissHidesOne |
| src/components/dashboard/PersonalizedInsights.jsx:11,63 | `dismissed` is never cleared, and a regeneration replaces `insights` | position 0 dismissed earlier, then a watchlist change yields new insights x, y: x is never shown | a new set of insights starts with nothing dismissed | medium (not executed) | Insights.StaleDismissalHidesFirst | Insights.VisibleWithoutDismissals |

The component model uses the corrected behaviour:
- `Insights.PersonalizedInsights.HandleDismiss` records the position in the full list;
- `Insights.PersonalizedInsights.Complete` clears the dismissals whenever it replaces the insights.
