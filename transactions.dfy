/**
 * The transaction table after loading: one row per line item, with the four
 * columns the analytics read.  `OrderDate` has already gone through
 * `pd.to_datetime`; a null date (NaT) is `None`.
 */
module Transactions {
  import opened Wrappers
  import opened Grouping

  type OrderId = int

  /** A point in time, in seconds since 1970-01-01 00:00 of the table's own (naive) clock. */
  type Timestamp = int

  /** A calendar day, in days since 1970-01-01. */
  type Day = int

  const SecondsPerDay: int := 86400

  /** `.dt.date`: the calendar day a timestamp falls in, its time of day discarded. */
  function DayOf(t: Timestamp): (d: Day)
    ensures d * SecondsPerDay <= t < d * SecondsPerDay + SecondsPerDay
  {
    t / SecondsPerDay
  }

  /** One line item: `OrderID`, `OrderDate`, `Dish`, `Price` (in tenge). */
  datatype Row = Row(orderId: OrderId, orderDate: Option<Timestamp>, dish: string, price: int)

  // Group keys and the summed value, as the group-bys of the analytics use them.

  function OrderKey(r: Row): Option<OrderId> {
    Some(r.orderId)
  }

  function DishKey(r: Row): Option<string> {
    Some(r.dish)
  }

  /** The calendar day of the row's date; null when the date is. */
  function DayKey(r: Row): Option<Day> {
    if r.orderDate.Some? then Some(DayOf(r.orderDate.value)) else None
  }

  function PairKey(r: Row): Option<(OrderId, string)> {
    Some((r.orderId, r.dish))
  }

  function Price(r: Row): int {
    r.price
  }

  /** The sum of the `Price` column. */
  function Revenue(rows: seq<Row>): int {
    SumOf(rows, Price)
  }

  function OrderIds(rows: seq<Row>): set<OrderId> {
    set r | r in rows :: r.orderId
  }

  function Dishes(rows: seq<Row>): set<string> {
    set r | r in rows :: r.dish
  }

  lemma {:induction false} RevenueNonNegative(rows: seq<Row>)
    requires forall r :: r in rows ==> r.price >= 0
    ensures Revenue(rows) >= 0
  {
    if rows != [] {
      assert rows[0] in rows;
      RevenueNonNegative(rows[1..]);
    }
  }

  /** Grouping by `OrderID` sees every row and exactly the order ids of the rows. */
  lemma OrderKeys(rows: seq<Row>)
    ensures KeysOf(rows, OrderKey) == OrderIds(rows)
    ensures Keyed(rows, OrderKey) == rows
  {
    forall o ensures o in KeysOf(rows, OrderKey) <==> o in OrderIds(rows) {
      KeysOfMembers(rows, OrderKey, o);
      if o in OrderIds(rows) {
        var r :| r in rows && r.orderId == o;
        var i :| 0 <= i < |rows| && rows[i] == r;
        assert OrderKey(rows[i]) == Some(o);
      }
    }
    KeyedTotal(rows, OrderKey);
  }

  /** Grouping by `Dish` sees every row and exactly the dishes of the rows. */
  lemma DishKeys(rows: seq<Row>)
    ensures KeysOf(rows, DishKey) == Dishes(rows)
    ensures Keyed(rows, DishKey) == rows
  {
    forall d ensures d in KeysOf(rows, DishKey) <==> d in Dishes(rows) {
      KeysOfMembers(rows, DishKey, d);
      if d in Dishes(rows) {
        var r :| r in rows && r.dish == d;
        var i :| 0 <= i < |rows| && rows[i] == r;
        assert DishKey(rows[i]) == Some(d);
      }
    }
    KeyedTotal(rows, DishKey);
  }
}
