/** Revenue per calendar day: `df.groupby(df['OrderDate'].dt.date)['Price'].sum()` (app.py:103). */
module Daily {
  import opened Wrappers
  import opened Grouping
  import opened Ordering
  import opened Transactions

  /** One group per calendar day, ascending; a group's `total` is that day's revenue. Rows without a date are dropped. */
  function DailySales(rows: seq<Row>): seq<Group<Day>> {
    GroupBy(rows, DayKey, Price, IntLt)
  }

  /** The rows dated on `day`. */
  function RowsOnDay(rows: seq<Row>, day: Day): seq<Row> {
    Matching(rows, DayKey, day)
  }

  /** The rows with a date. */
  function Dated(rows: seq<Row>): seq<Row> {
    Keyed(rows, DayKey)
  }

  /** The rows whose date is null. */
  function Undated(rows: seq<Row>): seq<Row> {
    if rows == [] then []
    else if rows[0].orderDate.None? then [rows[0]] + Undated(rows[1..])
    else Undated(rows[1..])
  }

  /** The calendar days on which some row is dated. */
  function DaysPresent(rows: seq<Row>): set<Day> {
    set r | r in rows && r.orderDate.Some? :: DayOf(r.orderDate.value)
  }

  /** Each row is either dated or undated, so the two views share the revenue out. */
  lemma {:induction false} DatedUndatedSplit(rows: seq<Row>)
    ensures |Dated(rows)| + |Undated(rows)| == |rows|
    ensures Revenue(Dated(rows)) + Revenue(Undated(rows)) == Revenue(rows)
  {
    if rows != [] {
      DatedUndatedSplit(rows[1..]);
    }
  }

  lemma DayKeys(rows: seq<Row>)
    ensures KeysOf(rows, DayKey) == DaysPresent(rows)
  {
    forall d ensures d in KeysOf(rows, DayKey) <==> d in DaysPresent(rows) {
      KeysOfMembers(rows, DayKey, d);
      if d in DaysPresent(rows) {
        var r :| r in rows && r.orderDate.Some? && DayOf(r.orderDate.value) == d;
        var i :| 0 <= i < |rows| && rows[i] == r;
        assert DayKey(rows[i]) == Some(d);
      }
    }
  }

  /**
   * One entry per distinct calendar day with a dated row, days ascending and
   * absent days not filled in; each entry is the price sum of the rows dated
   * that day (and of nothing else); the entries add up to the revenue of the
   * dated rows, which with the undated rows' revenue makes the total revenue.
   */
  lemma DailySalesCorrect(rows: seq<Row>)
    ensures var d := DailySales(rows);
      && (forall i, j :: 0 <= i < j < |d| ==> d[i].key < d[j].key)
      && GroupKeys(d) == DaysPresent(rows)
      && |d| == |DaysPresent(rows)|
      && (forall i :: 0 <= i < |d| ==> d[i].total == Revenue(RowsOnDay(rows, d[i].key)) && |RowsOnDay(rows, d[i].key)| > 0)
      && SumTotals(d) == Revenue(Dated(rows))
      && SumTotals(d) + Revenue(Undated(rows)) == Revenue(rows)
  {
    IntLtIsStrictTotalOrder();
    GroupByCorrect(rows, DayKey, Price, IntLt);
    DayKeys(rows);
    DatedUndatedSplit(rows);
  }

  /** The rows of a day's entry are exactly the rows whose date falls on that day. */
  lemma RowsOnDayMembers(rows: seq<Row>, day: Day, r: Row)
    ensures r in RowsOnDay(rows, day) <==> r in rows && r.orderDate.Some? && DayOf(r.orderDate.value) == day
  {
    MatchingMembers(rows, DayKey, day, r);
  }
}
