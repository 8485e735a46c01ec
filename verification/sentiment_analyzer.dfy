/**
  Headline scoring and the daily-sentiment merge.

  `AnalyzeSentiment` attaches one score per headline using an opaque scorer;
  `ProcessAndMerge` buckets scored headlines by calendar date, averages each
  bucket, left-joins the averages onto the price rows and fills days without
  news with 0.
 */
module SentimentAnalyzer {
  import opened Frames

  // ---------------------------------------------------------------------------
  // Scoring
  // ---------------------------------------------------------------------------

  /** Scores every row with `score` applied to its title, keeping everything else. */
  function ScoreRows(rows: seq<NewsRow>, score: string -> real): (r: seq<NewsRow>)
    ensures |r| == |rows|
    ensures forall i :: 0 <= i < |rows| ==>
              r[i].publishedAt == rows[i].publishedAt && r[i].title == rows[i].title
    ensures forall i :: 0 <= i < |rows| ==> r[i].sentiment == score(rows[i].title)
  {
    if |rows| == 0 then []
    else [rows[0].(sentiment := score(rows[0].title))] + ScoreRows(rows[1..], score)
  }

  /**
    A table without a title column comes back unchanged; otherwise it gains a
    sentiment column holding, for every row, the score of its own title.
   */
  function AnalyzeSentiment(frame: NewsFrame, score: string -> real): (r: NewsFrame)
    ensures !frame.hasTitle ==> r == frame
    ensures frame.hasTitle ==> r.hasTitle && r.hasSentiment
    ensures |r.rows| == |frame.rows|
    ensures forall i :: 0 <= i < |frame.rows| ==>
              r.rows[i].publishedAt == frame.rows[i].publishedAt && r.rows[i].title == frame.rows[i].title
    ensures frame.hasTitle ==>
              forall i :: 0 <= i < |frame.rows| ==> r.rows[i].sentiment == score(frame.rows[i].title)
  {
    if !frame.hasTitle then frame
    else NewsFrame(true, true, ScoreRows(frame.rows, score))
  }

  /**
    Reads the (timestamp, sentiment) columns the merge needs. None when the
    table has no sentiment column, where looking the column up raises KeyError.
   */
  function SentimentColumn(frame: NewsFrame): (r: Option<seq<Scored>>)
    ensures r.Some? <==> frame.hasSentiment
    ensures r.Some? ==> |r.value| == |frame.rows|
    ensures r.Some? ==> forall i :: 0 <= i < |frame.rows| ==>
              r.value[i] == Scored(frame.rows[i].publishedAt, frame.rows[i].sentiment)
  {
    if !frame.hasSentiment then None
    else Some(seq(|frame.rows|, i requires 0 <= i < |frame.rows| =>
                    Scored(frame.rows[i].publishedAt, frame.rows[i].sentiment)))
  }

  /** The headlines of a table, each paired with the score of its title. */
  function ScoreHeadlines(rows: seq<NewsRow>, score: string -> real): (r: seq<Scored>)
    ensures |r| == |rows|
    ensures forall i :: 0 <= i < |rows| ==> r[i] == Scored(rows[i].publishedAt, score(rows[i].title))
  {
    if |rows| == 0 then []
    else [Scored(rows[0].publishedAt, score(rows[0].title))] + ScoreHeadlines(rows[1..], score)
  }

  /**
    Scoring a titled table and reading back its sentiment column yields each
    headline paired with the score of its own title, in table order.
   */
  lemma {:induction false} AnalyzedColumnIsScoredHeadlines(news: NewsFrame, score: string -> real)
    requires news.hasTitle
    ensures SentimentColumn(AnalyzeSentiment(news, score)) == Some(ScoreHeadlines(news.rows, score))
  {
    var column := SentimentColumn(AnalyzeSentiment(news, score)).value;
    var expected := ScoreHeadlines(news.rows, score);
    assert column == expected;
  }

  // ---------------------------------------------------------------------------
  // Reference definitions: the scores of one calendar day, and their mean
  // ---------------------------------------------------------------------------

  function Sum(xs: seq<real>): real {
    if |xs| == 0 then 0.0 else xs[0] + Sum(xs[1..])
  }

  /** The arithmetic mean of a non-empty sequence of scores. */
  function Mean(xs: seq<real>): real
    requires |xs| > 0
  {
    Sum(xs) / (|xs| as real)
  }

  /** The date a scored headline is attributed to: its publish date, time dropped. */
  function DateOf(h: Scored): Date {
    CalendarDate(h.publishedAt)
  }

  /** The scores of the headlines published on calendar date `d`, in input order. */
  function ScoresOn(news: seq<Scored>, d: Date): (r: seq<real>)
    ensures |r| <= |news|
  {
    if |news| == 0 then []
    else
      var rest := ScoresOn(news[1..], d);
      if DateOf(news[0]) == d then [news[0].sentiment] + rest else rest
  }

  /** A day's bucket is non-empty exactly when some headline is published that day. */
  lemma {:induction false} ScoresOnNonEmptyIff(news: seq<Scored>, d: Date)
    ensures |ScoresOn(news, d)| > 0 <==> exists i :: 0 <= i < |news| && DateOf(news[i]) == d
  {
    if |news| > 0 {
      ScoresOnNonEmptyIff(news[1..], d);
      assert forall i :: 1 <= i < |news| ==> news[i] == news[1..][i - 1];
    }
  }

  /** True when at least one headline is dated `d`. */
  predicate HasNewsOn(news: seq<Scored>, d: Date) {
    |ScoresOn(news, d)| > 0
  }

  // ---------------------------------------------------------------------------
  // process_and_merge_data
  // ---------------------------------------------------------------------------

  /** A headline in front extends the bucket of its own day and no other. */
  lemma ScoresOnFront(news: seq<Scored>)
    requires |news| > 0
    ensures forall d :: d != DateOf(news[0]) ==> ScoresOn(news, d) == ScoresOn(news[1..], d)
    ensures ScoresOn(news, DateOf(news[0])) == [news[0].sentiment] + ScoresOn(news[1..], DateOf(news[0]))
    ensures Sum(ScoresOn(news, DateOf(news[0]))) == news[0].sentiment + Sum(ScoresOn(news[1..], DateOf(news[0])))
  {
    var bucket := ScoresOn(news, DateOf(news[0]));
    assert bucket[1..] == ScoresOn(news[1..], DateOf(news[0]));
  }

  /** The running total and number of the scores seen for one date. */
  datatype Bucket = Bucket(sum: real, count: nat)

  /**
    The group-by accumulator: for every date that has headlines, the sum and
    the count of their scores, built one headline at a time.
   */
  function GroupSums(news: seq<Scored>): (g: map<Date, Bucket>)
    ensures forall d :: d in g <==> |ScoresOn(news, d)| > 0
    ensures forall d :: d in g ==> g[d] == Bucket(Sum(ScoresOn(news, d)), |ScoresOn(news, d)|)
  {
    if |news| == 0 then map[]
    else
      var rest := GroupSums(news[1..]);
      var d := DateOf(news[0]);
      var entry := if d in rest then Bucket(news[0].sentiment + rest[d].sum, rest[d].count + 1)
                   else Bucket(news[0].sentiment, 1);
      ScoresOnFront(news);
      rest[d := entry]
  }

  /** Per-date mean sentiment: one entry per date that has headlines. */
  function DailySentiment(news: seq<Scored>): (daily: map<Date, real>)
    ensures forall d :: d in daily <==> HasNewsOn(news, d)
    ensures forall d :: d in daily ==> |ScoresOn(news, d)| > 0 && daily[d] == Mean(ScoresOn(news, d))
  {
    var g := GroupSums(news);
    map d | d in g :: g[d].sum / (g[d].count as real)
  }

  /** Left join on the date: every price row kept, in order, with its day's value if any. */
  function Join(prices: seq<PriceRow>, daily: map<Date, real>): (r: seq<JoinedRow>)
    ensures |r| == |prices|
    ensures forall i :: 0 <= i < |prices| ==>
              r[i].date == prices[i].date && r[i].close == prices[i].close
    ensures forall i :: 0 <= i < |prices| ==>
              (r[i].meanSentiment.Some? <==> prices[i].date in daily)
    ensures forall i :: 0 <= i < |prices| && prices[i].date in daily ==>
              r[i].meanSentiment == Some(daily[prices[i].date])
  {
    if |prices| == 0 then []
    else
      var p := prices[0];
      var v := if p.date in daily then Some(daily[p.date]) else None;
      [JoinedRow(p.date, p.close, v)] + Join(prices[1..], daily)
  }

  /** Replaces every missing sentiment by `fill`, leaving present ones and the price fields alone. */
  function FillNa(rows: seq<JoinedRow>, fill: real): (r: seq<MergedRow>)
    ensures |r| == |rows|
    ensures forall i :: 0 <= i < |rows| ==>
              r[i].date == rows[i].date && r[i].close == rows[i].close
    ensures forall i :: 0 <= i < |rows| && rows[i].meanSentiment.Some? ==>
              r[i].meanSentiment == rows[i].meanSentiment.value
    ensures forall i :: 0 <= i < |rows| && rows[i].meanSentiment.None? ==>
              r[i].meanSentiment == fill
  {
    if |rows| == 0 then []
    else
      var j := rows[0];
      [MergedRow(j.date, j.close, j.meanSentiment.GetOr(fill))] + FillNa(rows[1..], fill)
  }

  /**
    The merged table: one row per price row, in the same order, with the same
    date and close; its sentiment is the mean score of the headlines of that
    calendar day, or 0 when that day has none. With no headlines at all the
    join is skipped and every row gets 0.
   */
  function ProcessAndMerge(prices: seq<PriceRow>, news: seq<Scored>): (merged: seq<MergedRow>)
    ensures |merged| == |prices|
    ensures forall i :: 0 <= i < |prices| ==>
              merged[i].date == prices[i].date && merged[i].close == prices[i].close
    ensures forall i :: 0 <= i < |prices| && HasNewsOn(news, prices[i].date) ==>
              merged[i].meanSentiment == Mean(ScoresOn(news, prices[i].date))
    ensures forall i :: 0 <= i < |prices| && !HasNewsOn(news, prices[i].date) ==>
              merged[i].meanSentiment == 0.0
    ensures |news| == 0 ==> forall i :: 0 <= i < |prices| ==> merged[i].meanSentiment == 0.0
  {
    if |news| == 0 then
      seq(|prices|, i requires 0 <= i < |prices| => MergedRow(prices[i].date, prices[i].close, 0.0))
    else
      FillNa(Join(prices, DailySentiment(news)), 0.0)
  }
}
