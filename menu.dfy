/**
 * The menu-engineering table: per dish its popularity (row count) and revenue
 * (price sum), and the two means drawn as reference lines (app.py:109-111, 117-118).
 */
module Menu {
  import opened Wrappers
  import opened Grouping
  import opened Ordering
  import opened Transactions

  /** `df.groupby('Dish').agg(Popularity=count, Revenue=sum)`: per dish, `count` is its popularity and `total` its revenue. */
  function MenuAnalysis(rows: seq<Row>): seq<Group<string>> {
    GroupBy(rows, DishKey, Price, StrLt)
  }

  /** The rows that sold `dish`. */
  function RowsWithDish(rows: seq<Row>, dish: string): seq<Row> {
    Matching(rows, DishKey, dish)
  }

  /** `menu_analysis['Popularity'].mean()`: NaN (`None`) for an empty menu. */
  function AvgPopularity(menu: seq<Group<string>>): (m: Option<real>)
    ensures m.Some? <==> menu != []
    ensures m.Some? ==> m.value * |menu| as real == SumCounts(menu) as real
  {
    if menu == [] then None else Some(SumCounts(menu) as real / |menu| as real)
  }

  /** `menu_analysis['Revenue'].mean()`: NaN (`None`) for an empty menu. */
  function AvgRevenue(menu: seq<Group<string>>): (m: Option<real>)
    ensures m.Some? <==> menu != []
    ensures m.Some? ==> m.value * |menu| as real == SumTotals(menu) as real
  {
    if menu == [] then None else Some(SumTotals(menu) as real / |menu| as real)
  }

  /**
   * Exactly one entry per distinct dish, in name order; each dish's popularity
   * is the number of its rows (at least one) and its revenue their price sum;
   * popularities add up to the row count and revenues to the total revenue.
   */
  lemma MenuAnalysisCorrect(rows: seq<Row>)
    ensures var m := MenuAnalysis(rows);
      && (forall i, j :: 0 <= i < j < |m| ==> StrLt(m[i].key, m[j].key))
      && GroupKeys(m) == Dishes(rows)
      && |m| == |Dishes(rows)|
      && (forall i :: 0 <= i < |m| ==>
            && m[i].count == |RowsWithDish(rows, m[i].key)| > 0
            && m[i].total == Revenue(RowsWithDish(rows, m[i].key)))
      && SumCounts(m) == |rows|
      && SumTotals(m) == Revenue(rows)
  {
    StrLtIsStrictTotalOrder();
    GroupByCorrect(rows, DishKey, Price, StrLt);
    DishKeys(rows);
  }

  /**
   * The means are taken over dishes, not rows: the row count and the total
   * revenue divided by the number of distinct dishes (of which there is one
   * exactly when there is a row); both are NaN exactly when the table is empty.
   */
  lemma MenuMeans(rows: seq<Row>)
    ensures rows == [] <==> |Dishes(rows)| == 0
    ensures var m := MenuAnalysis(rows);
      && (rows == [] ==> AvgPopularity(m) == None && AvgRevenue(m) == None)
      && (rows != [] ==>
            && AvgPopularity(m) == Some(|rows| as real / |Dishes(rows)| as real)
            && AvgRevenue(m) == Some(Revenue(rows) as real / |Dishes(rows)| as real))
  {
    MenuAnalysisCorrect(rows);
    if rows != [] {
      assert rows[0].dish in Dishes(rows);
    }
  }
}
