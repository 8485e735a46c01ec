/**
  The tables the dashboard works on, as immutable records.

  A price table is a date-indexed sequence of closing prices; a news table is a
  sequence of headlines with a publish timestamp, a title and (after scoring) a
  sentiment value. Only the columns the merge and the signal read are modelled.
 */
module Frames {

  datatype Option<T> = None | Some(value: T) {
    /** The value, or `default` when there is none (pandas' `fillna`). */
    function GetOr(default: T): T {
      match this
      case Some(v) => v
      case None => default
    }
  }

  /** A calendar date without a time of day. Only equality of dates is ever used. */
  datatype Date = Date(year: int, month: int, day: int)

  /** An already-parsed publish timestamp: its calendar date and the second within that day. */
  datatype Timestamp = Timestamp(date: Date, secondOfDay: nat)

  /** The calendar date of a timestamp, with the time of day dropped. */
  function CalendarDate(t: Timestamp): Date {
    t.date
  }

  /** One row of the price history, indexed by its trading date. */
  datatype PriceRow = PriceRow(date: Date, close: real)

  /** One fetched headline with its score; the score means something only in a table that has a sentiment column. */
  datatype NewsRow = NewsRow(publishedAt: Timestamp, title: string, sentiment: real)

  /**
    A headline table. `hasTitle` says whether the table has a title column at
    all (an empty fetch result has no columns) and `hasSentiment` whether it
    has a sentiment column; where a column is absent the corresponding field
    of the rows carries no meaning.
   */
  datatype NewsFrame = NewsFrame(hasTitle: bool, hasSentiment: bool, rows: seq<NewsRow>)

  /** A headline reduced to what the merge reads: its timestamp and its score. */
  datatype Scored = Scored(publishedAt: Timestamp, sentiment: real)

  /** A price row after the left join, before missing sentiment is filled. */
  datatype JoinedRow = JoinedRow(date: Date, close: real, meanSentiment: Option<real>)

  /** A price row carrying the day's mean headline sentiment. */
  datatype MergedRow = MergedRow(date: Date, close: real, meanSentiment: real)
}
