/**
 * The analytics run on one uploaded table (app.py:81-144): the column check,
 * then the KPIs, the daily revenue, the menu table with its means, the basket,
 * and the decision whether to mine association rules.
 */
module Pipeline {
  import opened Wrappers
  import opened Grouping
  import opened Transactions
  import opened Schema
  import opened Kpi
  import opened Daily
  import opened Menu
  import opened Basket

  /** `apriori(..., min_support=0.01)`. */
  const MinSupport: real := 0.01

  /** `association_rules(..., metric="lift", min_threshold=1)`. */
  const MinLift: real := 1.0

  /** Either the miner is called on `basketSets` with these thresholds, or the run reports no multi-item receipts. */
  datatype Mining =
    | NoMultiItemReceipts
    | MineAssociations(basketSets: Basket, minSupport: real, minLift: real)

  /** The encoded basket and what was decided about mining it. */
  datatype BasketAnalysis = BasketAnalysis(basketSets: Basket, mining: Mining)

  /**
   * The figures of a run.  The KPIs, the daily series and the menu table are
   * shown before the basket is built; when building it raises, the run ends
   * in the exception handler with that error instead of a basket analysis.
   */
  datatype Report = Report(
    kpis: Kpis,
    dailySales: seq<Group<Day>>,
    menu: seq<Group<string>>,
    avgPopularity: Option<real>,
    avgRevenue: Option<real>,
    basket: Result<BasketAnalysis, BasketError>)

  /** The branch at app.py:132. */
  function DecideMining(b: Basket): Mining {
    if ShouldMine(b) then MineAssociations(b, MinSupport, MinLift) else NoMultiItemReceipts
  }

  /** Lines 127-144: build the basket, then decide whether to mine it. */
  function AnalyzeBasket(rows: seq<Row>): Result<BasketAnalysis, BasketError> {
    match BuildBasketSets(rows)
    case Failure(e) => Failure(e)
    case Success(b) => Success(BasketAnalysis(b, DecideMining(b)))
  }

  /** One analysis run; a missing required column stops it before any figure is computed. */
  function Analyze(t: Table): (r: Result<Report, SchemaError>)
    ensures r.Failure? <==> exists c :: c in RequiredColumns && c !in t.columns
    ensures r.Failure? ==> r.error == MissingColumns(RequiredColumns)
  {
    match Validate(t)
    case Failure(e) => Failure(e)
    case Success(rows) =>
      var menu := MenuAnalysis(rows);
      Success(Report(ComputeKpis(rows), DailySales(rows), menu, AvgPopularity(menu), AvgRevenue(menu), AnalyzeBasket(rows)))
  }

  /**
   * What a run with all the required columns reports, stated across its parts:
   * the menu and the daily series account for all the rows and all the revenue;
   * the basket cannot be built exactly when a dish is named "OrderID"; when it
   * can, it has one row per order counted in the KPIs and one column per menu
   * entry, and mining is attempted exactly when some order has two different dishes.
   */
  lemma AnalyzeCorrect(t: Table)
    requires forall c :: c in RequiredColumns ==> c in t.columns
    ensures Analyze(t).Success?
    ensures var rep := Analyze(t).value;
      && SumCounts(rep.menu) == |t.rows|
      && SumTotals(rep.menu) == rep.kpis.totalRevenue
      && SumTotals(rep.dailySales) + Revenue(Undated(t.rows)) == rep.kpis.totalRevenue
      && (rep.basket.Failure? <==> IndexName in Dishes(t.rows))
      && (rep.basket.Failure? ==> rep.basket.error == CannotInsertIndex("OrderID"))
    ensures var rep := Analyze(t).value;
      rep.basket.Success? ==>
        && |rep.basket.value.basketSets.orders| == rep.kpis.numberOfOrders
        && |rep.basket.value.basketSets.dishes| == |rep.menu|
        && rep.basket.value.basketSets == BasketSets(t.rows)
        && (rep.basket.value.mining.MineAssociations? <==> MultiItemReceipt(t.rows))
        && (rep.basket.value.mining.MineAssociations? ==>
              rep.basket.value.mining.basketSets == rep.basket.value.basketSets
              && rep.basket.value.mining.minSupport == MinSupport
              && rep.basket.value.mining.minLift == MinLift)
  {
    var rows := t.rows;
    KpisCorrect(rows);
    DailySalesCorrect(rows);
    MenuAnalysisCorrect(rows);
    CountTableShape(rows);
    BasketSetsCorrect(rows);
    BuildBasketSetsCorrect(rows);
    MiningGuardCorrect(rows);
  }

  /**
   * When every row sells the same dish (say, three receipts of tea alone), the
   * basket has that one column and mining is skipped; only a dish named
   * "OrderID" stops the basket from being built at all.
   */
  lemma SingleDishSkipsMining(t: Table, dish: string)
    requires forall c :: c in RequiredColumns ==> c in t.columns
    requires t.rows != []
    requires forall r :: r in t.rows ==> r.dish == dish
    ensures Analyze(t).Success?
    ensures Analyze(t).value.basket.Failure? <==> dish == "OrderID"
    ensures Analyze(t).value.basket.Success? ==>
      && Analyze(t).value.basket.value.basketSets.dishes == [dish]
      && Analyze(t).value.basket.value.mining == NoMultiItemReceipts
  {
    AnalyzeCorrect(t);
    CountTableShape(t.rows);
    assert t.rows[0] in t.rows;
    assert Dishes(t.rows) == {dish};
    var b := BasketSets(t.rows);
    assert b.dishes[0] == dish;
  }

  /** Two receipts of tea with cake: mining is attempted on the basket. */
  lemma TeaWithCakeMines()
    ensures var t := Table(["Price", "Dish", "OrderDate", "OrderID"],
                           [Row(1, Some(0), "Tea", 500), Row(1, Some(0), "Cake", 900), Row(2, Some(86400), "Tea", 500), Row(2, Some(86400), "Cake", 900)]);
      && Analyze(t).Success?
      && Analyze(t).value.basket.Success?
      && Analyze(t).value.basket.value.mining.MineAssociations?
      && Analyze(t).value.basket.value.mining.minSupport == 0.01
  {
    var t := Table(["Price", "Dish", "OrderDate", "OrderID"],
                   [Row(1, Some(0), "Tea", 500), Row(1, Some(0), "Cake", 900), Row(2, Some(86400), "Tea", 500), Row(2, Some(86400), "Cake", 900)]);
    AnalyzeCorrect(t);
    assert t.rows[0] in t.rows && t.rows[1] in t.rows;
    forall r | r in t.rows ensures r.dish != IndexName {
    }
  }

  /** A dish named "OrderID" clashes with the basket's index: the run ends without a basket. */
  lemma DishNamedOrderIdStopsBasket(t: Table)
    requires forall c :: c in RequiredColumns ==> c in t.columns
    requires exists r :: r in t.rows && r.dish == "OrderID"
    ensures Analyze(t).Success?
    ensures Analyze(t).value.basket == Failure(CannotInsertIndex("OrderID"))
  {
    AnalyzeCorrect(t);
  }

  /** A table without `OrderID` stops the run. */
  lemma MissingOrderIdStops(t: Table)
    requires "OrderID" !in t.columns
    ensures Analyze(t) == Failure(MissingColumns(["OrderID", "OrderDate", "Dish", "Price"]))
  {
  }
}
