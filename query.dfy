/** `get_prices`: the read endpoint over today's snapshot. The stored rows and
    today's date are parameters; so are the two query arguments, `postcode`
    (absent means empty) and `filters` (absent means `{}`; it may also be text
    that is not JSON). */
module Query {
  import opened Wrappers
  import opened Json
  import opened Text
  import opened Tables

  /** One element of the response array. */
  datatype Station = Station(
    brand: Json,
    address: Json,
    postcode: Json,
    unleaded: Json,
    superUnleaded: Json,
    diesel: Json)

  /** The `filters` query argument. */
  datatype FiltersArg = Absent | Malformed | Parsed(value: Json)

  /** Why the endpoint raises (the framework answers with a server error). */
  datatype QueryError =
    | MalformedFilters      // `json.loads` of the filters text fails
    | PostcodeNotText       // `str.contains` meets a stored postcode that is not a string
    | FiltersNotMapping     // `filters.get` on a decoded value that is not an object
    | PricesNotMapping      // `prices.get` on a stored price list that is not an object

  /** A fuel type is wanted unless its filter flag is present and falsy. */
  function Wanted(filters: map<string, Json>, name: string): (wanted: bool)
    ensures wanted <==> name !in filters || Truthy(filters[name])
  {
    Truthy(Get(filters, name, JBool(true)))
  }

  /** One output price: the grade's price when the fuel type is wanted, `null` otherwise. */
  function Price(prices: map<string, Json>, filters: map<string, Json>, name: string, code: string): (price: Json)
    ensures Wanted(filters, name) && code in prices ==> price == prices[code]
    ensures !(Wanted(filters, name) && code in prices) ==> price == JNull
  {
    if Wanted(filters, name) then Get(prices, code, JNull) else JNull
  }

  /** The dictionary built for one row. `filters.get` is evaluated first and
      raises on a non-mapping; `prices.get` runs only for a wanted fuel type. */
  function Project(row: Row, filters: Json): (station: Result<Station, QueryError>)
    ensures station == Failure(FiltersNotMapping) <==> !filters.JObject?
    ensures station.Success? <==>
      filters.JObject? &&
      (row.prices.JObject? ||
       !(Wanted(filters.fields, "unleaded") || Wanted(filters.fields, "superUnleaded") || Wanted(filters.fields, "diesel")))
    ensures station.Failure? ==> station.error == FiltersNotMapping || station.error == PricesNotMapping
  {
    if !filters.JObject? then Failure(FiltersNotMapping)
    else
      var f := filters.fields;
      if !row.prices.JObject? then
        if Wanted(f, "unleaded") || Wanted(f, "superUnleaded") || Wanted(f, "diesel") then Failure(PricesNotMapping)
        else Success(Station(row.brand, row.address, row.postcode, JNull, JNull, JNull))
      else
        var p := row.prices.fields;
        Success(Station(row.brand, row.address, row.postcode,
                        Price(p, f, "unleaded", "E10"),
                        Price(p, f, "superUnleaded", "E5"),
                        Price(p, f, "diesel", "B7")))
  }

  /** The rows satisfying `keep`, in table order. */
  function Filter(rows: seq<Row>, keep: Row -> bool): (kept: seq<Row>)
    ensures |kept| <= |rows|
    ensures forall r :: multiset(kept)[r] == if keep(r) then multiset(rows)[r] else 0
  {
    if rows == [] then []
    else
      var rest := Filter(rows[1..], keep);
      assert rows == [rows[0]] + rows[1..];
      if keep(rows[0]) then [rows[0]] + rest else rest
  }

  /** The date query: the rows dated today, in table order. */
  function Todays(stored: seq<Row>, today: string): (todays: seq<Row>)
    ensures forall i :: 0 <= i < |todays| ==> todays[i] in stored && todays[i].date == today
    ensures forall r :: multiset(todays)[r] == if r.date == today then multiset(stored)[r] else 0
  {
    var todays := Filter(stored, (r: Row) => r.date == today);
    assert forall i :: 0 <= i < |todays| ==> todays[i] in multiset(todays);
    todays
  }

  predicate PostcodeMatches(row: Row, postcode: string) {
    row.postcode.JString? && ContainsIgnoringCase(row.postcode.s, postcode)
  }

  /** The rows the endpoint answers about: dated today, and containing the postcode
      ignoring case when one is given. */
  predicate Selected(row: Row, today: string, postcode: string) {
    row.date == today && (postcode == [] || PostcodeMatches(row, postcode))
  }

  /** The date query, then, for a non-empty postcode, the rows whose postcode
      contains it ignoring case. The match raises on a stored postcode that is
      not text. */
  function Retained(stored: seq<Row>, today: string, postcode: string): (kept: Result<seq<Row>, QueryError>)
    ensures kept.Failure? ==> kept.error == PostcodeNotText && postcode != []
    ensures kept.Success? ==> |kept.value| <= |stored|
  {
    var todays := Todays(stored, today);
    if postcode == [] then Success(todays)
    else if exists i :: 0 <= i < |todays| && !todays[i].postcode.JString? then Failure(PostcodeNotText)
    else Success(Filter(todays, (r: Row) => PostcodeMatches(r, postcode)))
  }

  /** The record-building loop over the retained rows: the list built, or the
      error of the first row that raised. */
  function ProjectAll(rows: seq<Row>, filters: Json): (response: Result<seq<Station>, QueryError>)
    ensures response.Success? ==>
      |response.value| == |rows| &&
      forall i :: 0 <= i < |rows| ==> Project(rows[i], filters) == Success(response.value[i])
    ensures response.Failure? ==>
      exists i :: 0 <= i < |rows| && Project(rows[i], filters) == Failure(response.error) &&
        forall j :: 0 <= j < i ==> Project(rows[j], filters).Success?
    decreases |rows|
  {
    if rows == [] then Success([])
    else
      var init, last := rows[..|rows| - 1], rows[|rows| - 1];
      assert forall i :: 0 <= i < |init| ==> init[i] == rows[i];
      match ProjectAll(init, filters)
      case Failure(e) => Failure(e)
      case Success(out) =>
        match Project(last, filters)
        case Failure(e) => Failure(e)
        case Success(s) => Success(out + [s])
  }

  /** The filters the request carries: `'{}'` when absent. */
  function FiltersOf(arg: FiltersArg): (filters: Result<Json, QueryError>)
    ensures filters.Failure? <==> arg.Malformed?
    ensures filters.Failure? ==> filters.error == MalformedFilters
    ensures arg.Absent? ==> filters.Success? && filters.value.JObject? && filters.value.fields == map[]
    ensures arg.Parsed? ==> filters == Success(arg.value)
  {
    match arg
    case Absent => Success(JObject(map[]))
    case Malformed => Failure(MalformedFilters)
    case Parsed(v) => Success(v)
  }

  /** The response of `GET /api/prices` as a function of the stored rows and the request. */
  function Prices(stored: seq<Row>, today: string, postcodeArg: Option<string>, filtersArg: FiltersArg)
    : (response: Result<seq<Station>, QueryError>)
    ensures filtersArg.Malformed? ==> response == Failure(MalformedFilters)
    ensures response.Failure? && response.error == PostcodeNotText ==> postcodeArg.Some? && postcodeArg.value != []
    ensures response.Success? ==>
      var postcode := if postcodeArg.Some? then postcodeArg.value else "";
      Retained(stored, today, postcode).Success? &&
      |response.value| == |Retained(stored, today, postcode).value|
  {
    var postcode := if postcodeArg.Some? then postcodeArg.value else "";
    match FiltersOf(filtersArg)
    case Failure(e) => Failure(e)
    case Success(filters) =>
      match Retained(stored, today, postcode)
      case Failure(e) => Failure(e)
      case Success(rows) => ProjectAll(rows, filters)
  }

  /** Once a prefix of the rows raised, the whole loop raises with that error. */
  lemma {:induction false} ProjectAllFailurePersists(rows: seq<Row>, k: nat, filters: Json)
    requires k <= |rows|
    requires ProjectAll(rows[..k], filters).Failure?
    ensures ProjectAll(rows, filters) == ProjectAll(rows[..k], filters)
    decreases |rows| - k
  {
    if k < |rows| {
      assert rows[..k + 1][..k] == rows[..k];
      ProjectAllFailurePersists(rows, k + 1, filters);
    } else {
      assert rows[..k] == rows;
    }
  }

  /** A successful loop yields one record per row, in order, each the row's projection;
      and the loop succeeds exactly when no row's projection raises. */
  lemma {:induction false} ProjectAllPointwise(rows: seq<Row>, filters: Json)
    ensures ProjectAll(rows, filters).Success? <==>
      forall i :: 0 <= i < |rows| ==> Project(rows[i], filters).Success?
    ensures ProjectAll(rows, filters).Success? ==>
      |ProjectAll(rows, filters).value| == |rows| &&
      forall i :: 0 <= i < |rows| ==> Project(rows[i], filters) == Success(ProjectAll(rows, filters).value[i])
    decreases |rows|
  {
    if rows != [] {
      var init := rows[..|rows| - 1];
      ProjectAllPointwise(init, filters);
      assert forall i :: 0 <= i < |init| ==> init[i] == rows[i];
    }
  }

  /** Selecting the rows raises exactly when a postcode is given and one of today's
      rows has a postcode that is not text. */
  lemma RetainedFailure(stored: seq<Row>, today: string, postcode: string)
    ensures Retained(stored, today, postcode).Failure? <==>
      postcode != [] && exists i :: 0 <= i < |stored| && stored[i].date == today && !stored[i].postcode.JString?
  {
    TodaysNotText(stored, today);
  }

  /** One of today's rows has a postcode that is not text exactly when some stored
      row dated today has one. */
  lemma TodaysNotText(stored: seq<Row>, today: string)
    ensures (exists i :: 0 <= i < |Todays(stored, today)| && !Todays(stored, today)[i].postcode.JString?) <==>
      exists i :: 0 <= i < |stored| && stored[i].date == today && !stored[i].postcode.JString?
  {
    var todays := Todays(stored, today);
    if exists i :: 0 <= i < |stored| && stored[i].date == today && !stored[i].postcode.JString? {
      var i :| 0 <= i < |stored| && stored[i].date == today && !stored[i].postcode.JString?;
      assert stored[i] in multiset(stored);
      assert stored[i] in multiset(todays);
      var j :| 0 <= j < |todays| && todays[j] == stored[i];
    }
    if exists i :: 0 <= i < |todays| && !todays[i].postcode.JString? {
      var i :| 0 <= i < |todays| && !todays[i].postcode.JString?;
      var j :| 0 <= j < |stored| && stored[j] == todays[i];
    }
  }

  /** The retained rows are exactly today's rows and, for a non-empty postcode, only
      those whose postcode contains it ignoring case, each as often as in the table. */
  lemma RetainedRows(stored: seq<Row>, today: string, postcode: string)
    requires Retained(stored, today, postcode).Success?
    ensures forall r: Row ::
      multiset(Retained(stored, today, postcode).value)[r] == if Selected(r, today, postcode) then multiset(stored)[r] else 0
  {
  }

  /** `out` is the dictionary the endpoint builds for `row`: brand, address and postcode
      copied, and each price the row's price for the mapped grade (`E10` for unleaded,
      `E5` for super unleaded, `B7` for diesel) when that fuel type is wanted and the
      grade is listed, `null` otherwise. */
  ghost predicate Describes(out: Station, row: Row, filters: map<string, Json>) {
    && out.brand == row.brand && out.address == row.address && out.postcode == row.postcode
    && GradeRule(out.unleaded, row, filters, "unleaded", "E10")
    && GradeRule(out.superUnleaded, row, filters, "superUnleaded", "E5")
    && GradeRule(out.diesel, row, filters, "diesel", "B7")
  }

  ghost predicate GradeRule(price: Json, row: Row, filters: map<string, Json>, name: string, code: string) {
    if Wanted(filters, name) && row.prices.JObject? && code in row.prices.fields
    then price == row.prices.fields[code]
    else price == JNull
  }

  /** A successful response has one record per retained row, in table order, each
      describing its row; the filters were then a mapping, or no row was retained. */
  lemma PricesRecords(stored: seq<Row>, today: string, postcodeArg: Option<string>, filtersArg: FiltersArg)
    requires Prices(stored, today, postcodeArg, filtersArg).Success?
    ensures var postcode := if postcodeArg.Some? then postcodeArg.value else "";
      var out := Prices(stored, today, postcodeArg, filtersArg).value;
      && filtersArg != Malformed
      && Retained(stored, today, postcode).Success?
      && |out| == |Retained(stored, today, postcode).value|
      && (out != [] ==> FiltersOf(filtersArg).value.JObject?)
      && forall i :: 0 <= i < |out| ==>
           Describes(out[i], Retained(stored, today, postcode).value[i], FiltersOf(filtersArg).value.fields)
  {
    var postcode := if postcodeArg.Some? then postcodeArg.value else "";
    var filters := FiltersOf(filtersArg).value;
    var rows := Retained(stored, today, postcode).value;
    ProjectAllPointwise(rows, filters);
    var out := ProjectAll(rows, filters).value;
    forall i | 0 <= i < |out| ensures filters.JObject? && Describes(out[i], rows[i], filters.fields) {
      ProjectDescribes(rows[i], filters);
    }
  }

  /** A projection that does not raise describes its row. */
  lemma ProjectDescribes(row: Row, filters: Json)
    requires Project(row, filters).Success?
    ensures filters.JObject? && Describes(Project(row, filters).value, row, filters.fields)
  {
  }

  /** No retained row (a postcode nothing matches, or no row dated today) gives an
      empty list rather than an error, whatever the decoded filters are. */
  lemma NoMatchesGiveEmptyList(stored: seq<Row>, today: string, postcodeArg: Option<string>, filtersArg: FiltersArg)
    requires filtersArg != Malformed
    requires var postcode := if postcodeArg.Some? then postcodeArg.value else "";
      forall i :: 0 <= i < |stored| ==>
        stored[i].date != today || (postcode != [] && stored[i].postcode.JString? && !PostcodeMatches(stored[i], postcode))
    ensures Prices(stored, today, postcodeArg, filtersArg) == Success([])
  {
    var postcode := if postcodeArg.Some? then postcodeArg.value else "";
    RetainedFailure(stored, today, postcode);
    RetainedRows(stored, today, postcode);
    var rows := Retained(stored, today, postcode).value;
    forall r ensures multiset(rows)[r] == 0 {
      if r in stored {
        var i :| 0 <= i < |stored| && stored[i] == r;
      }
    }
    assert multiset(rows) == multiset{};
  }

  /** Without a `filters` argument every fuel type is wanted: all three prices come
      from the row's price list. */
  lemma DefaultFiltersWantAll(row: Row)
    requires row.prices.JObject?
    ensures Project(row, FiltersOf(Absent).value).Success?
    ensures var out := Project(row, FiltersOf(Absent).value).value;
      && out.unleaded == Get(row.prices.fields, "E10", JNull)
      && out.superUnleaded == Get(row.prices.fields, "E5", JNull)
      && out.diesel == Get(row.prices.fields, "B7", JNull)
  {
  }

  /** `filters={"diesel": false}` blanks the diesel price only. */
  lemma DieselExcluded(row: Row)
    requires row.prices.JObject?
    ensures var out := Project(row, JObject(map["diesel" := JBool(false)]));
      && out.Success?
      && out.value.diesel == JNull
      && out.value.unleaded == Get(row.prices.fields, "E10", JNull)
      && out.value.superUnleaded == Get(row.prices.fields, "E5", JNull)
  {
  }

  /** The postcode match ignores case: a stored `SW1A 1AA` matches the query `sw1a`. */
  lemma PostcodeIgnoresCase()
    ensures ContainsIgnoringCase("SW1A 1AA", "sw1a")
  {
    assert Lower("SW1A 1AA")[0..4] == Lower("sw1a");
    assert OccursAt(Lower("SW1A 1AA"), Lower("sw1a"), 0);
  }

  /** A stored Tesco row dated today, queried with no postcode and no filters, comes
      back with all three prices. */
  lemma TescoExample()
    ensures
      var prices := JObject(map["E10" := JNumber(1.45), "E5" := JNumber(1.55), "B7" := JNumber(1.50)]);
      var row := Row(JNull, JString("Tesco"), JString("1 High St"), JString("SW1A1AA"), JNull, prices, "2024-01-01");
      Prices([row], "2024-01-01", None, Absent) ==
        Success([Station(JString("Tesco"), JString("1 High St"), JString("SW1A1AA"),
                         JNumber(1.45), JNumber(1.55), JNumber(1.50))])
  {
    var prices := JObject(map["E10" := JNumber(1.45), "E5" := JNumber(1.55), "B7" := JNumber(1.50)]);
    var row := Row(JNull, JString("Tesco"), JString("1 High St"), JString("SW1A1AA"), JNull, prices, "2024-01-01");
    assert Filter([row], (r: Row) => r.date == "2024-01-01") == [row];
    assert Retained([row], "2024-01-01", "") == Success([row]);
    assert Wanted(map[], "unleaded") && Wanted(map[], "superUnleaded") && Wanted(map[], "diesel");
    var out := Station(JString("Tesco"), JString("1 High St"), JString("SW1A1AA"),
                       JNumber(1.45), JNumber(1.55), JNumber(1.50));
    assert Project(row, JObject(map[])) == Success(out);
    assert [row][..0] == [];
    assert ProjectAll([], JObject(map[])) == Success([]);
    assert [] + [out] == [out];
    assert ProjectAll([row], JObject(map[])) == Success([out]);
  }

  /** Build one dictionary per retained row, appending as it goes;
      the first row that raises ends the request with its error. */
  method ProjectRows(rows: seq<Row>, filters: Json) returns (response: Result<seq<Station>, QueryError>)
    ensures response == ProjectAll(rows, filters)
  {
    var filteredData: seq<Station> := [];
    for i := 0 to |rows|
      invariant ProjectAll(rows[..i], filters) == Success(filteredData)
    {
      assert rows[..i + 1][..i] == rows[..i];
      var stationData := Project(rows[i], filters);
      if stationData.Failure? {
        ProjectAllFailurePersists(rows, i + 1, filters);
        return Failure(stationData.error);
      }
      filteredData := filteredData + [stationData.value];
    }
    assert rows[..|rows|] == rows;
    return Success(filteredData);
  }

  /** `get_prices()`: read the arguments with their defaults, parse the filters,
      select today's matching rows and build the records. */
  method GetPrices(stored: seq<Row>, today: string, postcodeArg: Option<string>, filtersArg: FiltersArg)
    returns (response: Result<seq<Station>, QueryError>)
    ensures response == Prices(stored, today, postcodeArg, filtersArg)
  {
    var postcode := if postcodeArg.Some? then postcodeArg.value else "";
    var filters := FiltersOf(filtersArg);
    if filters.Failure? {
      return Failure(filters.error);
    }
    var retained := Retained(stored, today, postcode);
    if retained.Failure? {
      return Failure(retained.error);
    }
    response := ProjectRows(retained.value, filters.value);
  }
}
