# Market sentiment analyzer — a Dafny model of the merge and the signal

The dashboard fetches a stock's daily prices and a page of news headlines,
scores each headline with a lexicon-based sentiment analyzer, averages the
scores per calendar day, left-joins those daily averages onto the price rows
(days without news get 0), and shows a Strong Positive / Neutral / Strong
Negative signal for the most recent day.

This project models that pipeline as pure functions over immutable records:

- `frames.dfy` (module `Frames`): the tables. Prices are `PriceRow(date, close)`.
  Headlines are `NewsRow(publishedAt, title, sentiment)` inside a
  `NewsFrame(hasTitle, hasSentiment, rows)`. The two flags record whether the
  table has a title column and a sentiment column at all, as pandas treats
  each as a whole column. A timestamp is an already-parsed (calendar date,
  second of day) pair, and `CalendarDate` drops the time of day. Scores and
  prices are `real`.
- `sentiment_analyzer.dfy` (module `SentimentAnalyzer`): `AnalyzeSentiment`
  and `ProcessAndMerge` with their steps. The steps are the date bucketing, the
  group-by accumulator `GroupSums`, the per-day mean `DailySentiment`, the left
  `Join` and `FillNa`. The reference definitions are `ScoresOn` (the scores of
  one calendar day), `Sum` and `Mean`. The group-by and the merge are proved
  against them.
- `merge_properties.dfy` (module `MergeProperties`): properties that relate
  several merges. The empty-news short-circuit equals an all-miss join.
  Headlines on dates with no price row are ignored. Only the calendar date of
  a timestamp matters. Headline order does not matter. Merged values stay
  within the range of the scores.
- `app.dfy` (module `App`): the signal rule `Classify` and one analysis
  request `RunAnalysis`. The request stops with `NoData` when either fetch is
  empty. Otherwise it scores, merges and classifies the last merged row.

The sentiment scorer is a parameter `score: string -> real`. The two fetch
results are parameters of `RunAnalysis`.

## Model

| member | source | states |
|---|---|---|
| SentimentAnalyzer.ScoreRows | sentiment_analyzer.py:52 | one score per row, computed from that row's own title; timestamp and title unchanged; same row count |
| SentimentAnalyzer.AnalyzeSentiment | sentiment_analyzer.py:44-53 | a table without a title column comes back unchanged; otherwise it gains a sentiment column, with the same rows in the same order, each carrying exactly the score of its title |
| SentimentAnalyzer.SentimentColumn | sentiment_analyzer.py:63-65 | the (timestamp, score) columns can be read exactly when the table has a sentiment column, and then they pair each row's timestamp with its score |
| SentimentAnalyzer.AnalyzedColumnIsScoredHeadlines | sentiment_analyzer.py:48-52 | scoring a titled table and reading its sentiment column back gives every headline, in order, paired with the score of its own title |
| SentimentAnalyzer.ScoresOnNonEmptyIff | sentiment_analyzer.py:63-65 | a calendar day's bucket is non-empty exactly when some headline's timestamp falls on that day |
| SentimentAnalyzer.GroupSums | sentiment_analyzer.py:65 | the group-by accumulator has a key for exactly the dates that have headlines, holding the sum and the count of that day's scores |
| SentimentAnalyzer.DailySentiment | sentiment_analyzer.py:63-65 | one entry per date that has headlines, equal to the arithmetic mean of that day's scores |
| SentimentAnalyzer.Join | sentiment_analyzer.py:67 | left join on the date: one row per price row in order, with date and close unchanged, and a value exactly when the date has a daily mean |
| SentimentAnalyzer.FillNa | sentiment_analyzer.py:68 | missing values become the fill value, present ones and the price fields are untouched, and the row count is kept |
| SentimentAnalyzer.ProcessAndMerge | sentiment_analyzer.py:55-70 | one output row per price row, in the same order, with the same date and close; the sentiment is the mean of that calendar day's headline scores, or 0 when that day has none; with no headlines every row gets 0 |
| MergeProperties.ShortCircuitIsAllMissJoin | sentiment_analyzer.py:59-61 | skipping the join for an empty headline table gives the same rows as joining an empty daily table and filling with 0 |
| MergeProperties.UnmatchedHeadlinesContributeNothing | sentiment_analyzer.py:67 | dropping every headline whose date matches no price row leaves the merged table unchanged |
| MergeProperties.TimeOfDayIgnored | sentiment_analyzer.py:63 | headline tables that differ only in the time of day of their timestamps give the same merged table |
| MergeProperties.SameDayHeadlinesShareBucket | sentiment_analyzer.py:63-65 | two headlines on the same date land in one bucket, whatever their times, and that day's value is their average |
| MergeProperties.BucketPermutationInvariant | sentiment_analyzer.py:65 | under any reordering of the headlines, every day's bucket keeps its size and its sum |
| MergeProperties.HeadlineOrderIrrelevant | sentiment_analyzer.py:65 | any reordering of the headline table (the same multiset of headlines) gives the same merged table |
| MergeProperties.MeanWithin | sentiment_analyzer.py:65 | a mean of scores that all lie in [lo, hi] lies in [lo, hi] |
| MergeProperties.MergedSentimentWithin | sentiment_analyzer.py:65-68 | when all scores lie in a range containing 0, every merged sentiment lies in that range |
| App.Classify | app.py:52-57 | strictly above 0.2 is Strong Positive, strictly below -0.2 is Strong Negative, and the closed band [-0.2, 0.2] is Neutral; exactly one holds for every value |
| App.ClassifyMirrored | app.py:52-57 | negating the sentiment swaps Strong Positive and Strong Negative and keeps Neutral |
| App.ClassifyMonotone | app.py:52-57 | a higher sentiment never yields a more negative signal |
| App.ClassifyBoundaries | app.py:52-57 | 0.21 is Strong Positive, -0.21 is Strong Negative, and 0.2, -0.2 and 0 are Neutral |
| App.RunAnalysis | app.py:35-57 | the request fails with NoData exactly when the price or headline table is empty, and with the generic failure exactly when both are non-empty and the headline table has no title column; otherwise the merged table is the merge of the headlines scored by their titles, with one row per price row and the prices unchanged, the latest value is the last merged row's and the signal is its classification |
| App.PlottedSentimentIsDailyMean | app.py:14 | every plotted sentiment is the mean score of the headlines dated on that row's price date, or 0 when there are none |
| App.LatestSignalIsLastPriceDate | app.py:51 | the classified value is the mean score of the headlines dated on the last price date, or 0 when there are none |
| App.SentimentStaysOnAxis | app.py:14-19 | with a scorer bounded to [-1, 1], every plotted sentiment lies on the chart's fixed [-1, 1] axis |
| App.TwoDayScenario | sentiment_analyzer.py:63-68 | prices on two days and headlines scoring 0.5 and -0.1 on the first day at different times merge to 0.2 and 0, and the latest day is Neutral |

## Left out

- Price fetching (`get_stock_data`, sentiment_analyzer.py:7-15): network I/O through a market-data library. Its result is the `prices` parameter. The other price columns (open, high, low, volume) are not modelled; the join passes them through unchanged like the close.
- Headline fetching (`get_news_headlines`, sentiment_analyzer.py:17-42): network I/O and an environment credential. Its result is the `news` parameter. A missing credential makes that function return an empty table, so it reaches the model as the `NoData` outcome and not as a separate configuration error.
- The lexicon scorer (sentiment_analyzer.py:51-52): a foreign library. It is the opaque `score` parameter. Its [-1, 1] range is assumed only where a lemma says so.
- Timestamp parsing and time zones in `pd.to_datetime` (sentiment_analyzer.py:63): a timestamp is modelled as an already-parsed (date, second of day) pair.
- In-place mutation of the input tables: `process_and_merge_data` adds a `date` column to the headline table and, on the empty path, a `mean_sentiment` column to the price table it returns. The model returns new values instead.
- Floating point: scores, prices and means are exact `real`s, so rounding in the mean is not modelled.
- Streamlit layout, Plotly chart construction, message formatting to two decimals and the idle message (app.py:3-33, 44-50, 59-65): UI side effects.
- Of the top-level exception handler (app.py:62-63), only the failures reachable from the two tables are modelled. A non-empty headline table without a title column ends in `Failed`: unscored, the merge cannot read its sentiment column (sentiment_analyzer.py:65); scored, the headline display cannot read its title column (app.py:60). No result of the headline fetcher reaches this path, since sentiment_analyzer.py:39-40 gives every non-empty result a title column. Provider exceptions are out of scope with the fetchers.
- App.RunAnalysis: for a non-empty headline table that has a sentiment column but no title column, `analyze_sentiment` returns it unchanged, the merge succeeds, and app.py draws the chart (app.py:47-48) and shows the signal banner for the last merged row (app.py:51-57) before the headline display raises KeyError (app.py:60). The model returns only `Err(Failed)` on that path, so that chart and banner are not part of its result. No result of the headline fetcher reaches this path (sentiment_analyzer.py:39-40).
- SentimentAnalyzer.SentimentColumn: a sentiment column holding missing values (NaN), which `groupby().mean()` would skip, is not modelled. Every score comes from the scorer, which always returns a number.
- Repeatability of a request with the same inputs needs no lemma: every member is a pure function.
