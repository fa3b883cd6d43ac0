# Sales analytics pipeline, modelled in Dafny

The application takes an uploaded point-of-sale export (one row per line item:
`OrderID`, `OrderDate`, `Dish`, `Price`) and runs a fixed series of table
operations on it. This project models that series, from the required-column
check through the decision whether to mine association rules:

1. **Column check.** Each of `OrderID`, `OrderDate`, `Dish`, `Price` must be among the table's columns. Otherwise the run stops before any figure is computed (`Schema`).
2. **KPIs.** Total revenue (the sum of `Price`), the number of distinct orders, and the average check. The average is 0 when there is no order (`Kpi`).
3. **Daily revenue.** Prices are summed per calendar day. Rows with a null date are dropped from this view only (`Daily`).
4. **Menu table.** Each dish gets a popularity (its row count) and a revenue (its price sum). The two means across dishes are drawn as reference lines (`Menu`).
5. **Basket.** The (order, dish) pair counts are unstacked into an order × dish table, missing pairs are filled with 0, and each cell is encoded as 0/1 (`Basket`). When a dish is itself named "OrderID", `reset_index()` cannot put the index back as a column and raises. The run then ends in the exception handler, after the KPIs, daily series and menu table, with no basket.
6. **Mining guard.** The association miner runs only when the basket has a column and some receipt holds at least two different dishes (`Basket`, `Pipeline`).

Every pandas group-by in these steps is one generic function, `Grouping.GroupBy`. It follows pandas' defaults:
- an item with a null key belongs to no group (`dropna=True`);
- groups come out in ascending key order (`sort=True`).

Strings compare character by character by code point, as Python compares them (`Ordering.StrLt`).

NaN is modelled as `Option.None`:
- The mean of an empty menu column is `None`.
- The maximum of an empty row-sum series is `None`.
- The guard's comparison `max < 2` is false on `None`, just as a comparison with NaN is false in pandas.

Prices are whole tenge (`int`). The average check and the two means are exact `real`s.

A timestamp is a count of seconds on the table's own clock. `Transactions.DayOf` takes its calendar day by floor division.

Order ids are modelled as integers (see "## Left out").

The modules are:
- `Wrappers`: `Option` and `Result`.
- `Ordering`: key orders and their strict-total-order proofs.
- `Grouping`: the group-by and its contract.
- `Transactions`: the row type, group keys and revenue.
- `Schema`, `Kpi`, `Daily`, `Menu`, `Basket`: one module per step above.
- `Pipeline`: the whole run and the properties that cut across steps.

## Model

| member | source | states |
|---|---|---|
| `Schema.AllPresent` | app.py:81-82 | the check passes iff every required column name is among the table's columns |
| `Schema.Validate` | app.py:81-84 | the table passes iff each of OrderID, OrderDate, Dish, Price is a column; on success the rows go on unchanged; otherwise the run stops with the error that lists the required columns |
| `Pipeline.MissingOrderIdStops` | app.py:81-84 | a table without an OrderID column ends the run with the missing-columns error; no report exists |
| `Transactions.DayOf` | app.py:103 | the calendar day of a timestamp is the unique day whose span of 86400 seconds contains it (time of day discarded) |
| `Kpi.AverageCheck` | app.py:94 | the average check times the number of orders equals the revenue when there is an order; it is exactly 0 with no order; it is not negative when the revenue is not |
| `Kpi.OrdersAtMostRows` | app.py:93 | there are never more distinct order ids than rows |
| `Kpi.KpisCorrect` | app.py:92-94 | total revenue is the price sum; the order count is the number of distinct OrderIDs, 0 iff the table is empty and at most the row count; average × orders = revenue on a non-empty table; an empty table has revenue 0 and average 0; non-negative prices give a non-negative average |
| `Kpi.ComputeKpis` | app.py:92-94 | total revenue, distinct order count and guarded average check; characterised by `Kpi.KpisCorrect` and `Kpi.AverageCheck` |
| `Grouping.GroupByCorrect` | app.py:109 | a group-by makes one group per distinct non-null key, in strictly ascending key order; each group's count and total are the number and the value sum of exactly the items with its key (at least one); counts and totals add up to the number and value sum of all keyed items |
| `Grouping.GroupBy` | app.py:109 | the group-by used at app.py:103, 109 and 127 (null keys dropped, keys sorted); characterised by `Grouping.GroupByCorrect` |
| `Daily.DailySalesCorrect` | app.py:103 | one entry per calendar day on which some row is dated, days strictly ascending and absent days not filled in; each entry is the price sum of that day's rows; the entries add up to the revenue of dated rows, and with the undated rows' revenue to the total revenue |
| `Daily.DailySales` | app.py:103 | revenue per calendar day of the dated rows; characterised by `Daily.DailySalesCorrect` |
| `Daily.RowsOnDayMembers` | app.py:103 | a day's entry sums exactly the rows whose date falls on that day |
| `Daily.DatedUndatedSplit` | app.py:86-103 | every row is either dated or has a null date, so the two sets of rows split the row count and the revenue between them |
| `Menu.MenuAnalysisCorrect` | app.py:109 | exactly one entry per distinct dish, in name order; popularity is the number of the dish's rows (at least 1) and revenue their price sum; popularities sum to the row count and revenues to the total revenue |
| `Menu.MenuAnalysis` | app.py:109 | per dish its popularity and revenue; characterised by `Menu.MenuAnalysisCorrect` |
| `Menu.AvgPopularity` | app.py:110 | the mean popularity is defined iff the menu has an entry and then times the number of dishes equals the popularity sum |
| `Menu.AvgRevenue` | app.py:111 | the mean revenue is defined iff the menu has an entry and then times the number of dishes equals the revenue sum |
| `Menu.MenuMeans` | app.py:109-111 | the means are over dishes, not rows: row count / distinct dishes and total revenue / distinct dishes; both are NaN exactly when the table is empty |
| `Basket.PairCountCorrect` | app.py:127 | after unstack and fillna(0), the cell of (order, dish) is the number of rows with that pair: 0 where the pair never occurs, positive iff some row of the order sold the dish |
| `Basket.PairCounts` | app.py:127 | the row count of each (order, dish) pair; characterised by `Basket.PairCountCorrect` |
| `Basket.CountTableShape` | app.py:127 | the basket's index is each distinct OrderID once, ascending, so it has as many rows as there are orders; its columns are each distinct dish once, in name order; every row has one cell per dish |
| `Basket.CountTable` | app.py:127 | the unstacked, 0-filled order × dish count table; characterised by `Basket.CountTableShape` and `Basket.CountTableCells` |
| `Basket.ResetIndex` | app.py:127 | `reset_index()` fails iff a column is already named "OrderID", with that error; otherwise the table comes back unchanged |
| `Basket.CountTableCells` | app.py:127 | before encoding, a cell is the quantity of the dish in the order, i.e. the number of its rows |
| `Basket.EncodeUnits` | app.py:128 | the encoding yields 0 or 1, and 1 iff the quantity is at least 1 |
| `Basket.BasketSetsCorrect` | app.py:127-129 | the encoded table keeps the index and the columns; every cell is 0 or 1, and 1 iff the order bought the dish, whatever the quantity |
| `Basket.ApplyEncode` | app.py:129 | `applymap(encode_units)` over every cell; characterised by `Basket.BasketSetsCorrect` |
| `Basket.BasketSets` | app.py:127-129 | the encoded basket when it can be built; characterised by `Basket.BasketSetsCorrect` |
| `Basket.BuildBasketSets` | app.py:127-129 | the basket as the lines run, including the `reset_index()` failure; characterised by `Basket.BuildBasketSetsCorrect` |
| `Basket.BuildBasketSetsCorrect` | app.py:127-129 | building the basket fails iff some dish is named "OrderID", and otherwise yields the encoded basket |
| `Basket.MaxOf` | app.py:132 | the maximum of a series is NaN iff the series is empty, and otherwise is one of its elements and no element exceeds it |
| `Basket.RowSumIsDistinctDishes` | app.py:132 | an order's row sum in the encoded table is the number of distinct dishes in that order |
| `Basket.ShouldMine` | app.py:132 | the guard, NaN comparison included; characterised by `Basket.MiningGuardCorrect` |
| `Basket.MiningGuardCorrect` | app.py:132 | the guard passes iff some order holds two different dishes |
| `Pipeline.DecideMining` | app.py:132-144 | the miner is called on the basket with minimum support 0.01 and minimum lift 1 iff the guard passes, else the no-multi-item-receipts outcome; characterised by `Basket.MiningGuardCorrect` and `Pipeline.AnalyzeCorrect` |
| `Pipeline.AnalyzeBasket` | app.py:127-144 | builds the basket and decides on mining, or carries the `reset_index()` error; characterised by `Pipeline.AnalyzeCorrect` |
| `Pipeline.Analyze` | app.py:81-147 | a run stops with the missing-columns error iff a required column is missing; otherwise its report carries the KPIs, daily series, menu table and means, and the basket analysis or the error that building the basket raised |
| `Pipeline.AnalyzeCorrect` | app.py:92-147 | in a run with all required columns: menu popularities sum to the row count; menu revenues and (daily revenue + undated revenue) both equal the total revenue; the basket fails iff a dish is named "OrderID"; otherwise it has one row per counted order and one column per menu entry, and the miner is called on it, with minimum support 0.01 and minimum lift 1, iff some order has two different dishes, the no-multi-item-receipts outcome being produced otherwise |
| `Pipeline.SingleDishSkipsMining` | app.py:127-144 | when every row sells the same dish, the basket fails iff that dish is named "OrderID"; otherwise its only column is that dish and mining is skipped |
| `Pipeline.TeaWithCakeMines` | app.py:132-133 | two receipts each of tea and cake lead to the miner being called with minimum support 0.01 |
| `Pipeline.DishNamedOrderIdStopsBasket` | app.py:127-147 | a table with a dish named "OrderID" gets its KPIs, daily series and menu but no basket: building it fails with the cannot-insert-index error |

## Left out

- The Streamlit page, CSS, widgets, spinner, messages, `df.head()` preview and metric formatting (app.py:6-36, 87-88, 96-99): presentation only.
- Authentication and `config.yaml` (app.py:39-66, 149-152): external library and file I/O.
- Reading the CSV/XLSX upload (app.py:75-78): file I/O. The model starts from a table whose required columns already hold typed values.
- `pd.to_datetime` text parsing (app.py:86): foreign parsing. Dates arrive as already-parsed timestamps, or `None` for an empty cell. Unparseable text raises (`errors='raise'`); the model leaves the failing parse out.
- The scatter plot, text labels and reference lines (app.py:113-123): rendering. Only the two means the lines are drawn at are modelled. The code assigns no quadrant labels to dishes.
- `apriori` and `association_rules` (app.py:133-135), and the branches on their empty results (app.py:134-142): a library whose code is not part of this model. A positive guard is recorded as `MineAssociations(basket, 0.01, 1.0)`, i.e. the call with its thresholds.
- Sorting the rules by lift and confidence and keeping the first 10 (app.py:138): this depends on floating-point values produced by the library.
- The catch-all exception handler (app.py:146-147): plumbing. Two failures are modelled: the missing-column stop and the `reset_index()` clash on a dish named "OrderID" (`Report.basket` is then `Failure`). The handler's message is not modelled.
- Null values in `OrderID`, `Dish` or `Price`: rows always carry all three. pandas would skip a null price in the sum and drop a null order id or dish from the counts and groupings.
- Floating-point rounding: the average check and the means are exact rationals, where pandas computes them in double precision.
- Time zones and sub-second precision: a timestamp is whole seconds on the table's own clock.
- `Pipeline.Analyze`: besides the missing-column stop and the dish named "OrderID", the model does not capture other exceptions pandas or matplotlib may raise (for example on an empty table), which the handler at app.py:146-147 would turn into an error message.
- Order ids are modelled as integers. The code accepts any label; string ids would sort as strings in the basket index. Sorting is the only use of their order.
- A spending ranking by customer: the application never reads a `ClientID` column.
