/**
  The dashboard's analysis request: refuse to analyse when either fetch came
  back empty, otherwise score the headlines, merge them onto the prices and
  turn the latest day's mean sentiment into a three-way signal.
 */
module App {
  import opened Frames
  import opened SentimentAnalyzer
  import MergeProperties

  // ---------------------------------------------------------------------------
  // The signal rule
  // ---------------------------------------------------------------------------

  /** The banner shown for the latest day's mean sentiment. */
  datatype Signal = StrongPositive | Neutral | StrongNegative

  /** A signal is strong only strictly beyond this distance from zero. */
  const SignalThreshold: real := 0.2

  /**
    Above the threshold is strongly positive, below its negation strongly
    negative, and the closed band between them, both ends included, neutral.
   */
  function Classify(latest: real): (s: Signal)
    ensures s == StrongPositive <==> latest > SignalThreshold
    ensures s == StrongNegative <==> latest < -SignalThreshold
    ensures s == Neutral <==> -SignalThreshold <= latest <= SignalThreshold
  {
    if latest > SignalThreshold then StrongPositive
    else if latest < -SignalThreshold then StrongNegative
    else Neutral
  }

  /** The signal of the opposite polarity. */
  function Mirror(s: Signal): Signal {
    match s
    case StrongPositive => StrongNegative
    case Neutral => Neutral
    case StrongNegative => StrongPositive
  }

  /** Signals ordered from most negative to most positive. */
  function Rank(s: Signal): int {
    match s
    case StrongNegative => -1
    case Neutral => 0
    case StrongPositive => 1
  }

  /** The rule is symmetric: negating the sentiment mirrors the signal. */
  lemma ClassifyMirrored(latest: real)
    ensures Classify(-latest) == Mirror(Classify(latest))
  {
  }

  /** A higher sentiment never yields a more negative signal. */
  lemma ClassifyMonotone(x: real, y: real)
    requires x <= y
    ensures Rank(Classify(x)) <= Rank(Classify(y))
  {
  }

  /** The boundary values: only strictly beyond 0.2 in magnitude is a signal strong. */
  lemma ClassifyBoundaries()
    ensures Classify(0.21) == StrongPositive
    ensures Classify(-0.21) == StrongNegative
    ensures Classify(0.2) == Neutral
    ensures Classify(-0.2) == Neutral
    ensures Classify(0.0) == Neutral
  {
  }

  // ---------------------------------------------------------------------------
  // The analysis request
  // ---------------------------------------------------------------------------

  /**
    `NoData` is the "could not retrieve data" message shown when either fetch
    is empty; `Failed` is the generic message for an exception caught at the
    top level, here the KeyError raised when a non-empty headline table has no
    title column.
   */
  datatype AppError = NoData | Failed

  datatype Result<T> = Ok(value: T) | Err(error: AppError)

  /** What one request displays: the scored headlines, the merged series, the latest value and its signal. */
  datatype Analysis = Analysis(headlines: NewsFrame, merged: seq<MergedRow>, latest: real, signal: Signal)

  /**
    One press of the analyse button, given the two fetch results and the
    headline scorer. Either empty fetch stops the request before any merge.
    An untitled headline table fails: without scores the merge cannot read the
    sentiment column, and with them the headline display cannot read the
    title column. Otherwise the merged series is the merge of the headlines
    scored by their titles, and the signal is that of its last row.
   */
  function RunAnalysis(prices: seq<PriceRow>, news: NewsFrame, score: string -> real): (r: Result<Analysis>)
    ensures r == Err(NoData) <==> |prices| == 0 || |news.rows| == 0
    ensures r == Err(Failed) <==> |prices| > 0 && |news.rows| > 0 && !news.hasTitle
    ensures r.Ok? ==> r.value.headlines == AnalyzeSentiment(news, score)
    ensures r.Ok? ==> r.value.merged == ProcessAndMerge(prices, ScoreHeadlines(news.rows, score))
    ensures r.Ok? ==> |r.value.merged| == |prices| > 0
    ensures r.Ok? ==> forall i :: 0 <= i < |prices| ==>
              r.value.merged[i].date == prices[i].date && r.value.merged[i].close == prices[i].close
    ensures r.Ok? ==> r.value.latest == r.value.merged[|prices| - 1].meanSentiment
    ensures r.Ok? ==> r.value.signal == Classify(r.value.latest)
  {
    if |prices| == 0 || |news.rows| == 0 then Err(NoData)
    else
      var withSentiment := AnalyzeSentiment(news, score);
      match SentimentColumn(withSentiment)
      case None => Err(Failed)
      case Some(scored) =>
        if !withSentiment.hasTitle then Err(Failed)
        else
          AnalyzedColumnIsScoredHeadlines(news, score);
          var merged := ProcessAndMerge(prices, scored);
          var latest := merged[|prices| - 1].meanSentiment;
          Ok(Analysis(withSentiment, merged, latest, Classify(latest)))
  }

  /**
    Every plotted sentiment is the mean score of the headlines published on
    that row's price date, or 0 when none was.
   */
  lemma PlottedSentimentIsDailyMean(prices: seq<PriceRow>, news: NewsFrame, score: string -> real)
    requires news.hasTitle && |prices| > 0 && |news.rows| > 0
    ensures RunAnalysis(prices, news, score).Ok?
    ensures forall i :: 0 <= i < |prices| ==>
              var on := ScoresOn(ScoreHeadlines(news.rows, score), prices[i].date);
              RunAnalysis(prices, news, score).value.merged[i].meanSentiment == if |on| > 0 then Mean(on) else 0.0
  {
  }

  /**
    The latest value is the mean score of the headlines published on the last
    price date, or 0 when none was, and the signal is its classification.
   */
  lemma LatestSignalIsLastPriceDate(prices: seq<PriceRow>, news: NewsFrame, score: string -> real)
    requires news.hasTitle && |prices| > 0 && |news.rows| > 0
    ensures RunAnalysis(prices, news, score).Ok?
    ensures var on := ScoresOn(ScoreHeadlines(news.rows, score), prices[|prices| - 1].date);
            RunAnalysis(prices, news, score).value.latest == if |on| > 0 then Mean(on) else 0.0
  {
    PlottedSentimentIsDailyMean(prices, news, score);
  }

  /**
    With a scorer bounded to [-1, 1], every plotted sentiment stays on the
    chart's fixed [-1, 1] sentiment axis.
   */
  lemma SentimentStaysOnAxis(prices: seq<PriceRow>, news: NewsFrame, score: string -> real)
    requires forall t :: -1.0 <= score(t) <= 1.0
    ensures var r := RunAnalysis(prices, news, score);
            r.Ok? ==> forall i :: 0 <= i < |prices| ==> -1.0 <= r.value.merged[i].meanSentiment <= 1.0
  {
    var r := RunAnalysis(prices, news, score);
    if r.Ok? {
      var scored := ScoreHeadlines(news.rows, score);
      assert forall i :: 0 <= i < |scored| ==> -1.0 <= scored[i].sentiment <= 1.0;
      MergeProperties.MergedSentimentWithin(prices, scored, -1.0, 1.0);
    }
  }

  /**
    Two price days, two headlines on the first day at different times scoring
    0.5 and -0.1: the first day averages to 0.2, the second has no news and
    gets 0, and the latest (second) day's 0 is neutral.
   */
  lemma TwoDayScenario()
    ensures
      var d1 := Date(2024, 1, 1);
      var d2 := Date(2024, 1, 2);
      var prices := [PriceRow(d1, 100.0), PriceRow(d2, 102.0)];
      var news := [Scored(Timestamp(d1, 9 * 3600), 0.5), Scored(Timestamp(d1, 15 * 3600), -0.1)];
      && ProcessAndMerge(prices, news) == [MergedRow(d1, 100.0, 0.2), MergedRow(d2, 102.0, 0.0)]
      && Classify(ProcessAndMerge(prices, news)[1].meanSentiment) == Neutral
  {
    var d1 := Date(2024, 1, 1);
    var d2 := Date(2024, 1, 2);
    var prices := [PriceRow(d1, 100.0), PriceRow(d2, 102.0)];
    var news := [Scored(Timestamp(d1, 9 * 3600), 0.5), Scored(Timestamp(d1, 15 * 3600), -0.1)];
    MergeProperties.SameDayHeadlinesShareBucket(news[0], news[1]);
    assert news[1..] == [news[1]];
    assert ScoresOn(news, d2) == [];
    var merged := ProcessAndMerge(prices, news);
    assert merged[0] == MergedRow(d1, 100.0, 0.2);
    assert merged[1] == MergedRow(d2, 102.0, 0.0);
  }
}
