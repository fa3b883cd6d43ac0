/**
 * The market basket: the order × dish table of app.py:127-129 and the check
 * at app.py:132 that decides whether association mining is attempted.
 */
module Basket {
  import opened Wrappers
  import opened Grouping
  import opened Ordering
  import opened Transactions

  /** A table indexed by `orders` (rows) and `dishes` (columns); `cells[i][j]` belongs to order i and dish j. */
  datatype Basket = Basket(orders: seq<OrderId>, dishes: seq<string>, cells: seq<seq<int>>)

  /**
   * `df.groupby(['OrderID', 'Dish'])['OrderID'].count()`: how many rows each
   * (order, dish) pair has.  Only the groups' `count` is read; the generic
   * group-by also sums a value, which here is the price and goes unused.
   */
  function PairCounts(rows: seq<Row>): seq<Group<(OrderId, string)>> {
    GroupBy(rows, PairKey, Price, PairLt)
  }

  /** The unstacked table's index: the distinct order ids, ascending. */
  function OrderIndex(rows: seq<Row>): seq<OrderId> {
    Keys(GroupBy(rows, OrderKey, Price, IntLt))
  }

  /** The unstacked table's columns: the distinct dishes, in name order. */
  function DishColumns(rows: seq<Row>): seq<string> {
    Keys(GroupBy(rows, DishKey, Price, StrLt))
  }

  /** A cell of `.unstack().fillna(0)`: the pair's count, or 0 where the pair never occurs. */
  function CellCount(counts: seq<Group<(OrderId, string)>>, o: OrderId, d: string): nat {
    match Find(counts, (o, d))
    case Some(g) => g.count
    case None => 0
  }

  function Unstack(counts: seq<Group<(OrderId, string)>>, orders: seq<OrderId>, dishes: seq<string>): seq<seq<int>> {
    seq(|orders|, i requires 0 <= i < |orders| =>
      seq(|dishes|, j requires 0 <= j < |dishes| => CellCount(counts, orders[i], dishes[j]) as int))
  }

  /** `basket`: the count of each (order, dish) pair. */
  function CountTable(rows: seq<Row>): Basket {
    var orders := OrderIndex(rows);
    var dishes := DishColumns(rows);
    Basket(orders, dishes, Unstack(PairCounts(rows), orders, dishes))
  }

  /** The name of the unstacked table's index, which `reset_index()` turns back into a column. */
  const IndexName: string := "OrderID"

  /** `reset_index()` cannot insert the index as a column when a column of that name already exists. */
  datatype BasketError = CannotInsertIndex(name: string)

  /**
   * `.reset_index().fillna(0).set_index('OrderID')` on the unstacked table:
   * it raises when some dish is itself named "OrderID"; otherwise the index
   * goes out and comes back unchanged (the fill with 0 is done by `Unstack`).
   */
  function ResetIndex(b: Basket): (r: Result<Basket, BasketError>)
    ensures r.Failure? <==> IndexName in b.dishes
    ensures r.Success? ==> r.value == b
    ensures r.Failure? ==> r.error == CannotInsertIndex(IndexName)
  {
    if IndexName in b.dishes then Failure(CannotInsertIndex(IndexName)) else Success(b)
  }

  /** `encode_units`: a quantity becomes 1 when at least one was bought, 0 otherwise. */
  function EncodeUnits(x: int): (b: int)
    ensures b == 0 || b == 1
    ensures b == 1 <==> x >= 1
  {
    if x >= 1 then 1 else 0
  }

  /** `applymap(encode_units)`: the same table with every cell encoded. */
  function ApplyEncode(b: Basket): Basket {
    var cells := b.cells;
    Basket(b.orders, b.dishes,
      seq(|cells|, i requires 0 <= i < |cells| => seq(|cells[i]|, j requires 0 <= j < |cells[i]| => EncodeUnits(cells[i][j]))))
  }

  /** `basket_sets`, when the table can be built. */
  function BasketSets(rows: seq<Row>): Basket {
    ApplyEncode(CountTable(rows))
  }

  /** Lines 127-129 as they run: the table is built and encoded, or `reset_index()` raises. */
  function BuildBasketSets(rows: seq<Row>): Result<Basket, BasketError> {
    match ResetIndex(CountTable(rows))
    case Failure(e) => Failure(e)
    case Success(b) => Success(ApplyEncode(b))
  }

  /** Some row of order `o` sold `d`. */
  predicate Bought(rows: seq<Row>, o: OrderId, d: string) {
    exists r :: r in rows && r.orderId == o && r.dish == d
  }

  /** The distinct dishes of order `o`. */
  function DishesOfOrder(rows: seq<Row>, o: OrderId): set<string> {
    set r | r in rows && r.orderId == o :: r.dish
  }

  /** Some order holds two different dishes: a receipt with more than one item. */
  predicate MultiItemReceipt(rows: seq<Row>) {
    exists r1, r2 :: r1 in rows && r2 in rows && r1.orderId == r2.orderId && r1.dish != r2.dish
  }

  // ---------------------------------------------------------------------------
  // The mining guard

  function CellValue(x: int): int {
    x
  }

  /** `basket_sets.sum(axis=1)`. */
  function RowSums(cells: seq<seq<int>>): seq<int> {
    seq(|cells|, i requires 0 <= i < |cells| => SumOf(cells[i], CellValue))
  }

  /** `.max()`: the largest element, or NaN (`None`) for an empty series. */
  function MaxOf(xs: seq<int>): (m: Option<int>)
    ensures m.None? <==> xs == []
    ensures m.Some? ==> (exists i :: 0 <= i < |xs| && xs[i] == m.value) && (forall i :: 0 <= i < |xs| ==> xs[i] <= m.value)
  {
    if xs == [] then None
    else
      match MaxOf(xs[1..])
      case None => Some(xs[0])
      case Some(m) => Some(if xs[0] >= m then xs[0] else m)
  }

  /** `x < bound` for a value that may be NaN: every comparison with NaN is false. */
  predicate LessThan(x: Option<int>, bound: int) {
    x.Some? && x.value < bound
  }

  /** `basket_sets.shape[1] > 0 and not basket_sets.sum(axis=1).max() < 2`. */
  predicate ShouldMine(b: Basket) {
    |b.dishes| > 0 && !LessThan(MaxOf(RowSums(b.cells)), 2)
  }

  // ---------------------------------------------------------------------------
  // Proofs

  /** The pair counts are the number of rows of each (order, dish) pair, positive exactly when the pair was bought. */
  lemma PairCountCorrect(rows: seq<Row>, o: OrderId, d: string)
    ensures CellCount(PairCounts(rows), o, d) == |Matching(rows, PairKey, (o, d))|
    ensures CellCount(PairCounts(rows), o, d) > 0 <==> Bought(rows, o, d)
  {
    PairLtIsStrictTotalOrder();
    GroupByCorrect(rows, PairKey, Price, PairLt);
    GroupByContents(rows, PairKey, Price, PairLt);
    FindCount(PairCounts(rows), (o, d));
    MatchingNonEmpty(rows, PairKey, (o, d));
    KeysOfMembers(rows, PairKey, (o, d));
    if Bought(rows, o, d) {
      var r :| r in rows && r.orderId == o && r.dish == d;
      var i :| 0 <= i < |rows| && rows[i] == r;
      assert PairKey(rows[i]) == Some((o, d));
    }
  }

  /**
   * The index is every distinct order id once, ascending, and the columns every
   * distinct dish once, in name order; each row of the table has one cell per dish.
   */
  lemma CountTableShape(rows: seq<Row>)
    ensures var b := CountTable(rows);
      && (forall i, j :: 0 <= i < j < |b.orders| ==> b.orders[i] < b.orders[j])
      && (forall o :: o in b.orders <==> o in OrderIds(rows))
      && |b.orders| == |OrderIds(rows)|
      && (forall i, j :: 0 <= i < j < |b.dishes| ==> StrLt(b.dishes[i], b.dishes[j]))
      && (forall d :: d in b.dishes <==> d in Dishes(rows))
      && |b.dishes| == |Dishes(rows)|
      && |b.cells| == |b.orders|
      && (forall i :: 0 <= i < |b.cells| ==> |b.cells[i]| == |b.dishes|)
  {
    var og := GroupBy(rows, OrderKey, Price, IntLt);
    var dg := GroupBy(rows, DishKey, Price, StrLt);
    IntLtIsStrictTotalOrder();
    StrLtIsStrictTotalOrder();
    GroupByCorrect(rows, OrderKey, Price, IntLt);
    GroupByCorrect(rows, DishKey, Price, StrLt);
    OrderKeys(rows);
    DishKeys(rows);
    forall o ensures o in Keys(og) <==> o in OrderIds(rows) {
      KeysMembers(og, o);
    }
    forall d ensures d in Keys(dg) <==> d in Dishes(rows) {
      KeysMembers(dg, d);
    }
  }

  /** Before encoding, a cell counts the rows of its (order, dish) pair: the quantity bought. */
  lemma CountTableCells(rows: seq<Row>, i: nat, j: nat)
    requires i < |CountTable(rows).orders| && j < |CountTable(rows).dishes|
    ensures var b := CountTable(rows);
      b.cells[i][j] == |Matching(rows, PairKey, (b.orders[i], b.dishes[j]))|
  {
    var b := CountTable(rows);
    PairCountCorrect(rows, b.orders[i], b.dishes[j]);
  }

  /**
   * `basket_sets` has the same index and columns as `basket`, every cell is 0
   * or 1, and a cell is 1 exactly when the order bought the dish, however many.
   */
  lemma BasketSetsCorrect(rows: seq<Row>)
    ensures var b := BasketSets(rows);
      && b.orders == CountTable(rows).orders
      && b.dishes == CountTable(rows).dishes
      && |b.cells| == |b.orders|
      && (forall i :: 0 <= i < |b.cells| ==> |b.cells[i]| == |b.dishes|)
      && (forall i, j :: 0 <= i < |b.orders| && 0 <= j < |b.dishes| ==>
            && (b.cells[i][j] == 0 || b.cells[i][j] == 1)
            && (b.cells[i][j] == 1 <==> Bought(rows, b.orders[i], b.dishes[j])))
  {
    var c := CountTable(rows);
    var b := BasketSets(rows);
    CountTableShape(rows);
    forall i, j | 0 <= i < |b.orders| && 0 <= j < |b.dishes|
      ensures b.cells[i][j] == 1 <==> Bought(rows, b.orders[i], b.dishes[j])
    {
      PairCountCorrect(rows, c.orders[i], c.dishes[j]);
    }
  }

  /** A 0/1 row over distinct labels sums to the number of labels marked 1. */
  lemma {:induction false} IndicatorSum(row: seq<int>, ds: seq<string>, s: set<string>)
    requires |row| == |ds|
    requires forall i, j :: 0 <= i < j < |ds| ==> ds[i] != ds[j]
    requires forall x :: x in s ==> x in ds
    requires forall j :: 0 <= j < |ds| ==> row[j] == if ds[j] in s then 1 else 0
    ensures SumOf(row, CellValue) == |s|
  {
    if ds == [] {
      assert s == {};
    } else {
      var rest := s - {ds[0]};
      forall x | x in rest ensures x in ds[1..] {
        var j :| 0 <= j < |ds| && ds[j] == x;
        assert ds[1..][j - 1] == x;
      }
      forall j | 0 <= j < |ds[1..]| ensures row[1..][j] == if ds[1..][j] in rest then 1 else 0 {
        assert ds[1..][j] == ds[j + 1];
      }
      IndicatorSum(row[1..], ds[1..], rest);
      if ds[0] in s {
        assert s == rest + {ds[0]};
      } else {
        assert rest == s;
      }
    }
  }

  /** Building the basket fails exactly when some dish is named like the index; otherwise it yields `basket_sets`. */
  lemma BuildBasketSetsCorrect(rows: seq<Row>)
    ensures BuildBasketSets(rows).Failure? <==> IndexName in Dishes(rows)
    ensures BuildBasketSets(rows).Success? ==> BuildBasketSets(rows).value == BasketSets(rows)
  {
    CountTableShape(rows);
  }

  /** A row sum of `basket_sets` is the number of distinct dishes in that order. */
  lemma RowSumIsDistinctDishes(rows: seq<Row>, i: nat)
    requires i < |BasketSets(rows).orders|
    ensures var b := BasketSets(rows);
      RowSums(b.cells)[i] == |DishesOfOrder(rows, b.orders[i])|
  {
    var b := BasketSets(rows);
    var o := b.orders[i];
    BasketSetsCorrect(rows);
    CountTableShape(rows);
    StrLtIsStrictTotalOrder();
    forall x | x in DishesOfOrder(rows, o) ensures x in b.dishes {
      var r :| r in rows && r.orderId == o && r.dish == x;
      assert x in Dishes(rows);
    }
    forall j | 0 <= j < |b.dishes| ensures b.cells[i][j] == if b.dishes[j] in DishesOfOrder(rows, o) then 1 else 0 {
      if Bought(rows, o, b.dishes[j]) {
        var r :| r in rows && r.orderId == o && r.dish == b.dishes[j];
        assert b.dishes[j] in DishesOfOrder(rows, o);
      }
    }
    IndicatorSum(b.cells[i], b.dishes, DishesOfOrder(rows, o));
  }

  lemma TwoElements(s: set<string>)
    ensures |s| >= 2 <==> exists a, b :: a in s && b in s && a != b
  {
    if |s| >= 2 {
      var a :| a in s;
      assert |s - {a}| >= 1;
      var b :| b in s - {a};
    }
    if exists a, b :: a in s && b in s && a != b {
      var a, b :| a in s && b in s && a != b;
      assert s == {a, b} + (s - {a, b});
    }
  }

  /**
   * Mining is attempted exactly when some order holds two different dishes;
   * otherwise the run reports that there are no multi-item receipts.
   */
  lemma MiningGuardCorrect(rows: seq<Row>)
    ensures ShouldMine(BasketSets(rows)) <==> MultiItemReceipt(rows)
  {
    var b := BasketSets(rows);
    var sums := RowSums(b.cells);
    BasketSetsCorrect(rows);
    CountTableShape(rows);
    if MultiItemReceipt(rows) {
      var r1, r2 :| r1 in rows && r2 in rows && r1.orderId == r2.orderId && r1.dish != r2.dish;
      assert r1.dish in Dishes(rows);
      assert r1.orderId in OrderIds(rows);
      var i :| 0 <= i < |b.orders| && b.orders[i] == r1.orderId;
      RowSumIsDistinctDishes(rows, i);
      TwoElements(DishesOfOrder(rows, r1.orderId));
      assert r1.dish in DishesOfOrder(rows, r1.orderId) && r2.dish in DishesOfOrder(rows, r1.orderId);
      assert sums[i] >= 2;
    }
    if ShouldMine(b) {
      var d :| d in Dishes(rows);
      var r :| r in rows && r.dish == d;
      assert r.orderId in OrderIds(rows);
      var m := MaxOf(sums).value;
      var i :| 0 <= i < |sums| && sums[i] == m;
      RowSumIsDistinctDishes(rows, i);
      var o := b.orders[i];
      TwoElements(DishesOfOrder(rows, o));
      var d1, d2 :| d1 in DishesOfOrder(rows, o) && d2 in DishesOfOrder(rows, o) && d1 != d2;
      var r1 :| r1 in rows && r1.orderId == o && r1.dish == d1;
      var r2 :| r2 in rows && r2.orderId == o && r2.dish == d2;
    }
  }
}
