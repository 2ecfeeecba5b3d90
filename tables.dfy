/** The two tables of the snapshot store and the in-memory table (a pandas
    DataFrame) the fetcher hands to the orchestrator. */
module Tables {
  import opened Json

  /** One row of `fuel_prices`. The surrogate `id` the database assigns is not
      modelled. `location` and `prices` are kept as decoded JSON rather than as
      the serialised text the table stores. A cell pandas fills with NaN
      because the station had no such key is `JNull`. */
  datatype Row = Row(
    siteId: Json,
    brand: Json,
    address: Json,
    postcode: Json,
    location: Json,
    prices: Json,
    date: string)

  /** The single row of `fuel_prices_metadata`. */
  datatype Meta = Meta(lastUpdated: string)

  /** A DataFrame of normalised rows: the column names it carries and its rows. */
  datatype Frame = Frame(columns: set<string>, rows: seq<Row>)

  /** `pd.DataFrame()`: what the fetcher returns on any failure. */
  const EmptyFrame := Frame({}, [])

  /** The columns of `fuel_prices`; an append naming any other column raises. */
  const TableColumns: set<string> :=
    {"id", "site_id", "brand", "address", "postcode", "location", "prices", "date"}

  /** `df.empty`: no columns or no rows. */
  predicate IsEmpty(f: Frame) {
    f.columns == {} || f.rows == []
  }

  /** Some row is dated `day`. */
  function HasRowDated(rows: seq<Row>, day: string): (found: bool)
    ensures found <==> exists i :: 0 <= i < |rows| && rows[i].date == day
  {
    if rows == [] then false
    else if rows[0].date == day then true
    else
      var rest := HasRowDated(rows[1..], day);
      assert rest <==> exists i :: 0 <= i < |rows| && rows[i].date == day by {
        forall i | 0 <= i < |rows| && rows[i].date == day
          ensures exists j :: 0 <= j < |rows[1..]| && rows[1..][j].date == day
        {
          assert i != 0 && rows[1..][i - 1] == rows[i];
        }
      }
      rest
  }
}
