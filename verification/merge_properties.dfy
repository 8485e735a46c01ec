/**
  Properties of the daily-sentiment merge that relate several calls: the
  empty-news short-circuit agrees with an all-miss join, headlines on dates
  without a price row are ignored, only the calendar date of a timestamp
  matters, the order of headlines does not matter, and every merged value
  stays within the range of the scores.
 */
module MergeProperties {
  import opened Frames
  import opened SentimentAnalyzer

  // ---------------------------------------------------------------------------
  // Helpers on the reference definitions
  // ---------------------------------------------------------------------------

  lemma {:induction false} SumAppend(a: seq<real>, b: seq<real>)
    ensures Sum(a + b) == Sum(a) + Sum(b)
  {
    if |a| == 0 {
      assert a + b == b;
    } else {
      assert (a + b)[1..] == a[1..] + b;
      SumAppend(a[1..], b);
    }
  }

  lemma {:induction false} ScoresOnAppend(a: seq<Scored>, b: seq<Scored>, d: Date)
    ensures ScoresOn(a + b, d) == ScoresOn(a, d) + ScoresOn(b, d)
  {
    if |a| == 0 {
      assert a + b == b;
    } else {
      assert (a + b)[1..] == a[1..] + b;
      ScoresOnAppend(a[1..], b, d);
    }
  }

  /** Two merges agree when every price date sees the same bucket size and bucket sum. */
  lemma SameBucketsSameMerge(prices: seq<PriceRow>, a: seq<Scored>, b: seq<Scored>)
    requires forall i :: 0 <= i < |prices| ==>
               |ScoresOn(a, prices[i].date)| == |ScoresOn(b, prices[i].date)|
               && Sum(ScoresOn(a, prices[i].date)) == Sum(ScoresOn(b, prices[i].date))
    ensures ProcessAndMerge(prices, a) == ProcessAndMerge(prices, b)
  {
    var l := ProcessAndMerge(prices, a);
    var r := ProcessAndMerge(prices, b);
    forall i | 0 <= i < |prices|
      ensures l[i] == r[i]
    {
      var d := prices[i].date;
      assert |ScoresOn(a, d)| == |ScoresOn(b, d)|;
    }
  }

  // ---------------------------------------------------------------------------
  // The short-circuit
  // ---------------------------------------------------------------------------

  /** Skipping the join when there are no headlines gives what an all-miss join would. */
  lemma ShortCircuitIsAllMissJoin(prices: seq<PriceRow>)
    ensures ProcessAndMerge(prices, []) == FillNa(Join(prices, map[]), 0.0)
  {
    var l := ProcessAndMerge(prices, []);
    var r := FillNa(Join(prices, map[]), 0.0);
    assert forall i :: 0 <= i < |prices| ==> l[i] == r[i];
  }

  // ---------------------------------------------------------------------------
  // Headlines dated on no price row
  // ---------------------------------------------------------------------------

  /** The dates of the price table. */
  function PriceDates(prices: seq<PriceRow>): (dates: set<Date>)
    ensures forall i :: 0 <= i < |prices| ==> prices[i].date in dates
    ensures forall d :: d in dates ==> exists i :: 0 <= i < |prices| && prices[i].date == d
  {
    if |prices| == 0 then {} else {prices[0].date} + PriceDates(prices[1..])
  }

  /** The headlines whose calendar date is in `keep`, in input order. */
  function OnDates(news: seq<Scored>, keep: set<Date>): (r: seq<Scored>)
    ensures |r| <= |news|
    ensures forall k :: 0 <= k < |r| ==> DateOf(r[k]) in keep
  {
    if |news| == 0 then []
    else (if DateOf(news[0]) in keep then [news[0]] else []) + OnDates(news[1..], keep)
  }

  lemma {:induction false} ScoresOnKept(news: seq<Scored>, keep: set<Date>, d: Date)
    requires d in keep
    ensures ScoresOn(OnDates(news, keep), d) == ScoresOn(news, d)
  {
    if |news| > 0 {
      var head := if DateOf(news[0]) in keep then [news[0]] else [];
      ScoresOnAppend(head, OnDates(news[1..], keep), d);
      ScoresOnKept(news[1..], keep, d);
    }
  }

  /**
    Headlines whose calendar date matches no price row contribute nothing:
    dropping them all leaves the merged table unchanged.
   */
  lemma UnmatchedHeadlinesContributeNothing(prices: seq<PriceRow>, news: seq<Scored>)
    ensures ProcessAndMerge(prices, news) == ProcessAndMerge(prices, OnDates(news, PriceDates(prices)))
  {
    var kept := OnDates(news, PriceDates(prices));
    forall i | 0 <= i < |prices|
      ensures ScoresOn(kept, prices[i].date) == ScoresOn(news, prices[i].date)
    {
      ScoresOnKept(news, PriceDates(prices), prices[i].date);
    }
    SameBucketsSameMerge(prices, news, kept);
  }

  // ---------------------------------------------------------------------------
  // Only the calendar date of a timestamp matters
  // ---------------------------------------------------------------------------

  /** Two headline tables that agree on every headline's calendar date and score. */
  ghost predicate SameDatesAndScores(a: seq<Scored>, b: seq<Scored>) {
    && |a| == |b|
    && forall i :: 0 <= i < |a| ==> DateOf(a[i]) == DateOf(b[i]) && a[i].sentiment == b[i].sentiment
  }

  lemma {:induction false} ScoresOnIgnoresTime(a: seq<Scored>, b: seq<Scored>, d: Date)
    requires SameDatesAndScores(a, b)
    ensures ScoresOn(a, d) == ScoresOn(b, d)
  {
    if |a| > 0 {
      assert SameDatesAndScores(a[1..], b[1..]) by {
        forall i | 0 <= i < |a| - 1
          ensures DateOf(a[1..][i]) == DateOf(b[1..][i]) && a[1..][i].sentiment == b[1..][i].sentiment
        {
          assert a[1..][i] == a[i + 1] && b[1..][i] == b[i + 1];
        }
      }
      ScoresOnIgnoresTime(a[1..], b[1..], d);
    }
  }

  /**
    A headline is attributed to its calendar date only: changing the time of
    day of any headline, without changing its date, leaves the merge unchanged.
   */
  lemma TimeOfDayIgnored(prices: seq<PriceRow>, a: seq<Scored>, b: seq<Scored>)
    requires SameDatesAndScores(a, b)
    ensures ProcessAndMerge(prices, a) == ProcessAndMerge(prices, b)
  {
    forall i | 0 <= i < |prices|
      ensures ScoresOn(a, prices[i].date) == ScoresOn(b, prices[i].date)
    {
      ScoresOnIgnoresTime(a, b, prices[i].date);
    }
    SameBucketsSameMerge(prices, a, b);
  }

  /** Two headlines on the same calendar date, whatever their times, share one bucket and are averaged. */
  lemma SameDayHeadlinesShareBucket(h1: Scored, h2: Scored)
    requires DateOf(h1) == DateOf(h2)
    ensures DateOf(h1) in DailySentiment([h1, h2])
    ensures DailySentiment([h1, h2])[DateOf(h1)] == (h1.sentiment + h2.sentiment) / 2.0
  {
    var news := [h1, h2];
    assert news[1..] == [h2];
    var scores := [h1.sentiment, h2.sentiment];
    assert ScoresOn(news, DateOf(h1)) == scores;
    assert scores[1..] == [h2.sentiment];
    assert [h2.sentiment][1..] == [];
    assert Sum([h2.sentiment]) == h2.sentiment;
    assert Sum(scores) == h1.sentiment + h2.sentiment;
  }

  // ---------------------------------------------------------------------------
  // The order of the headlines does not matter
  // ---------------------------------------------------------------------------

  /** Taking one headline out of a table removes exactly that headline from its multiset. */
  lemma RemoveAtMultiset(b: seq<Scored>, j: nat)
    requires j < |b|
    ensures multiset(b[..j] + b[j + 1..]) == multiset(b) - multiset{b[j]}
  {
    assert b == b[..j] + [b[j]] + b[j + 1..];
  }

  /** A day's bucket of a table splits into that of one headline and that of the rest of the table. */
  lemma {:induction false} BucketRemoveAt(b: seq<Scored>, j: nat, d: Date)
    requires j < |b|
    ensures |ScoresOn(b, d)| == |ScoresOn([b[j]], d)| + |ScoresOn(b[..j] + b[j + 1..], d)|
    ensures Sum(ScoresOn(b, d)) == Sum(ScoresOn([b[j]], d)) + Sum(ScoresOn(b[..j] + b[j + 1..], d))
  {
    var left, h, right := b[..j], [b[j]], b[j + 1..];
    assert b == (left + h) + right;
    ScoresOnAppend(left + h, right, d);
    ScoresOnAppend(left, h, d);
    ScoresOnAppend(left, right, d);
    SumAppend(ScoresOn(left, d) + ScoresOn(h, d), ScoresOn(right, d));
    SumAppend(ScoresOn(left, d), ScoresOn(h, d));
    SumAppend(ScoresOn(left, d), ScoresOn(right, d));
  }

  /** A day's bucket has the same size and the same sum under any reordering of the headlines. */
  lemma {:induction false} BucketPermutationInvariant(a: seq<Scored>, b: seq<Scored>, d: Date)
    requires multiset(a) == multiset(b)
    ensures |ScoresOn(a, d)| == |ScoresOn(b, d)|
    ensures Sum(ScoresOn(a, d)) == Sum(ScoresOn(b, d))
    decreases |a|
  {
    if |a| == 0 {
      assert |b| == |multiset(b)| == 0;
    } else {
      var h, tail := a[0], a[1..];
      assert a == [h] + tail;
      assert h in multiset(b) by { assert h in multiset(a); }
      var j :| 0 <= j < |b| && b[j] == h;
      var rest := b[..j] + b[j + 1..];
      assert multiset(tail) == multiset(rest) by {
        RemoveAtMultiset(b, j);
        assert multiset(a) == multiset{h} + multiset(tail);
      }
      BucketPermutationInvariant(tail, rest, d);
      ScoresOnAppend([h], tail, d);
      SumAppend(ScoresOn([h], d), ScoresOn(tail, d));
      BucketRemoveAt(b, j, d);
    }
  }

  /** Any reordering of the headline table, such as the provider's sort order, gives the same merged table. */
  lemma HeadlineOrderIrrelevant(prices: seq<PriceRow>, a: seq<Scored>, b: seq<Scored>)
    requires multiset(a) == multiset(b)
    ensures ProcessAndMerge(prices, a) == ProcessAndMerge(prices, b)
  {
    forall i | 0 <= i < |prices|
      ensures |ScoresOn(a, prices[i].date)| == |ScoresOn(b, prices[i].date)|
      ensures Sum(ScoresOn(a, prices[i].date)) == Sum(ScoresOn(b, prices[i].date))
    {
      BucketPermutationInvariant(a, b, prices[i].date);
    }
    SameBucketsSameMerge(prices, a, b);
  }

  // ---------------------------------------------------------------------------
  // Range of the merged sentiment
  // ---------------------------------------------------------------------------

  lemma {:induction false} SumWithin(xs: seq<real>, lo: real, hi: real)
    requires forall k :: 0 <= k < |xs| ==> lo <= xs[k] <= hi
    ensures (|xs| as real) * lo <= Sum(xs) <= (|xs| as real) * hi
  {
    if |xs| > 0 {
      SumWithin(xs[1..], lo, hi);
      assert (|xs| as real) * lo == lo + (|xs[1..]| as real) * lo;
      assert (|xs| as real) * hi == hi + (|xs[1..]| as real) * hi;
    }
  }

  /** The mean of scores that all lie in [lo, hi] lies in [lo, hi]. */
  lemma MeanWithin(xs: seq<real>, lo: real, hi: real)
    requires |xs| > 0
    requires forall k :: 0 <= k < |xs| ==> lo <= xs[k] <= hi
    ensures lo <= Mean(xs) <= hi
  {
    SumWithin(xs, lo, hi);
    var n := |xs| as real;
    assert Sum(xs) / n >= (n * lo) / n;
    assert Sum(xs) / n <= (n * hi) / n;
  }

  lemma {:induction false} ScoresOnWithin(news: seq<Scored>, d: Date, lo: real, hi: real)
    requires forall i :: 0 <= i < |news| ==> lo <= news[i].sentiment <= hi
    ensures forall k :: 0 <= k < |ScoresOn(news, d)| ==> lo <= ScoresOn(news, d)[k] <= hi
  {
    if |news| > 0 {
      assert forall i :: 0 <= i < |news[1..]| ==> news[1..][i] == news[i + 1];
      ScoresOnWithin(news[1..], d, lo, hi);
    }
  }

  /**
    When every headline score lies in [lo, hi] and that range contains the
    fill value 0, every merged sentiment lies in [lo, hi] too; with scores in
    [-1, 1] the merged sentiment is in [-1, 1].
   */
  lemma MergedSentimentWithin(prices: seq<PriceRow>, news: seq<Scored>, lo: real, hi: real)
    requires lo <= 0.0 <= hi
    requires forall i :: 0 <= i < |news| ==> lo <= news[i].sentiment <= hi
    ensures forall i :: 0 <= i < |prices| ==>
              lo <= ProcessAndMerge(prices, news)[i].meanSentiment <= hi
  {
    var merged := ProcessAndMerge(prices, news);
    forall i | 0 <= i < |prices|
      ensures lo <= merged[i].meanSentiment <= hi
    {
      var d := prices[i].date;
      if HasNewsOn(news, d) {
        ScoresOnWithin(news, d, lo, hi);
        MeanWithin(ScoresOn(news, d), lo, hi);
      }
    }
  }
}
