/** The records the components read from and write to the entity store. */
module Entities {
  import opened Wrappers

  /** The interest category a query is filed under. */
  datatype Category = Tech | Finance | Energy | General

  /** One entry of `query_history` (its timestamp is not modelled). */
  datatype HistoryEntry = HistoryEntry(query: string, category: Category)

  /** A `UserPreference` record; `createdBy` is the owner's e-mail address that the store records. */
  datatype UserPreference = UserPreference(
    id: nat,
    createdBy: string,
    queryHistory: seq<HistoryEntry>,
    insightsShown: seq<string>,
    favoriteSectors: seq<string>)

  /** One row of daily chart data; each price may be missing. */
  datatype OhlcRow = OhlcRow(
    date: string,
    open: Option<real>,
    high: Option<real>,
    low: Option<real>,
    close: Option<real>)

  /**
   * A stock as the lookup service reports it and as the watchlist stores it. Only the fields the
   * components branch on are kept; `sentiment`, `news_summary` and `chart_data` may be missing.
   */
  datatype Stock = Stock(
    symbol: string,
    sentiment: Option<string>,
    newsSummary: Option<string>,
    chartData: Option<seq<OhlcRow>>)

  /** A `NewsItem` record (its publication date is not modelled). */
  datatype NewsItem = NewsItem(
    symbol: string,
    headline: string,
    summary: string,
    sentiment: string,
    sentimentScore: real,
    source: string)

  /** `UserPreference.filter({ created_by: email })`: the records owned by `email`, in store order. */
  function OwnedBy(records: seq<UserPreference>, email: string): (r: seq<UserPreference>)
    ensures forall p :: p in r <==> p in records && p.createdBy == email
    decreases |records|
  {
    if records == [] then []
    else
      var rest := OwnedBy(records[1..], email);
      assert forall p :: p in records <==> p == records[0] || p in records[1..];
      if records[0].createdBy == email then [records[0]] + rest else rest
  }

  /** `UserPreference.update(id, record)`: every record with that id is replaced wholesale. */
  function ReplaceById(records: seq<UserPreference>, id: nat, record: UserPreference): (r: seq<UserPreference>)
    ensures |r| == |records|
    ensures forall i :: 0 <= i < |r| ==> r[i] == if records[i].id == id then record else records[i]
  {
    seq(|records|, i requires 0 <= i < |records| => if records[i].id == id then record else records[i])
  }
}
