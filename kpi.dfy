/** The headline figures: total revenue, number of orders, average check (app.py:92-94). */
module Kpi {
  import opened Grouping
  import opened Ordering
  import opened Transactions

  datatype Kpis = Kpis(totalRevenue: int, numberOfOrders: nat, averageCheck: real)

  /** `total_revenue / number_of_orders if number_of_orders > 0 else 0`: never divides by zero. */
  function AverageCheck(totalRevenue: int, numberOfOrders: nat): (a: real)
    ensures numberOfOrders > 0 ==> a * numberOfOrders as real == totalRevenue as real
    ensures numberOfOrders == 0 ==> a == 0.0
    ensures totalRevenue >= 0 ==> a >= 0.0
  {
    if numberOfOrders > 0 then totalRevenue as real / numberOfOrders as real else 0.0
  }

  /** `df['Price'].sum()`, `df['OrderID'].nunique()` and the average check. */
  function ComputeKpis(rows: seq<Row>): Kpis {
    var total := Revenue(rows);
    var orders := |OrderIds(rows)|;
    Kpis(total, orders, AverageCheck(total, orders))
  }

  /** Each group of a group-by holds at least one item, so there are no more groups than items. */
  lemma {:induction false} GroupsAtMostItems<K>(g: seq<Group<K>>)
    requires forall i :: 0 <= i < |g| ==> g[i].count > 0
    ensures |g| <= SumCounts(g)
  {
    if g != [] {
      GroupsAtMostItems(g[1..]);
    }
  }

  /** Grouping by `OrderID` makes one group per distinct order id, each with at least one row. */
  lemma OrdersAtMostRows(rows: seq<Row>)
    ensures |OrderIds(rows)| <= |rows|
  {
    var g := GroupBy(rows, OrderKey, Price, IntLt);
    IntLtIsStrictTotalOrder();
    GroupByCorrect(rows, OrderKey, Price, IntLt);
    OrderKeys(rows);
    GroupsAtMostItems(g);
  }

  /**
   * There is an order exactly when there is a row, never more orders than rows;
   * the average check times the number of orders is the revenue, and an empty
   * table has average check 0.  With no negative price the average is not negative.
   */
  lemma KpisCorrect(rows: seq<Row>)
    ensures var k := ComputeKpis(rows);
      && k.totalRevenue == Revenue(rows)
      && k.numberOfOrders == |OrderIds(rows)| <= |rows|
      && (k.numberOfOrders == 0 <==> rows == [])
      && (rows == [] ==> k.totalRevenue == 0 && k.averageCheck == 0.0)
      && (rows != [] ==> k.averageCheck * k.numberOfOrders as real == k.totalRevenue as real)
      && ((forall r :: r in rows ==> r.price >= 0) ==> k.averageCheck >= 0.0)
  {
    OrdersAtMostRows(rows);
    if rows != [] {
      assert rows[0].orderId in OrderIds(rows);
    }
    if forall r :: r in rows ==> r.price >= 0 {
      RevenueNonNegative(rows);
    }
  }
}
