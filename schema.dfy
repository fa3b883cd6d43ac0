/** The required-column check that runs before any figure is computed (app.py:81-84). */
module Schema {
  import opened Wrappers
  import opened Transactions

  const RequiredColumns: seq<string> := ["OrderID", "OrderDate", "Dish", "Price"]

  /** An uploaded table: its column names and its rows. */
  datatype Table = Table(columns: seq<string>, rows: seq<Row>)

  /** The run stops; the message lists all the required columns. */
  datatype SchemaError = MissingColumns(required: seq<string>)

  /** `all(col in columns for col in required)`. */
  function AllPresent(required: seq<string>, columns: seq<string>): (ok: bool)
    ensures ok <==> forall c :: c in required ==> c in columns
  {
    required == [] || (required[0] in columns && AllPresent(required[1..], columns))
  }

  /** Lets the table through when it has every required column, and stops the run otherwise. */
  function Validate(t: Table): (r: Result<seq<Row>, SchemaError>)
    ensures r.Success? <==> forall c :: c in RequiredColumns ==> c in t.columns
    ensures r.Success? ==> r.value == t.rows
    ensures r.Failure? ==> r.error == MissingColumns(RequiredColumns)
  {
    if AllPresent(RequiredColumns, t.columns) then Success(t.rows) else Failure(MissingColumns(RequiredColumns))
  }
}
