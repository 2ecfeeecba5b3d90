/** `fetch_and_process_data`: accept a feed response, pick out its station
    list, build the table pandas would build from it and normalise it into
    rows stamped with today's date. The HTTP exchange itself is a parameter:
    a `Response` carries the `Content-Type` header (if any) and the body as
    decoded JSON (or `None` when it is not JSON). */
module Fetcher {
  import opened Wrappers
  import opened Json
  import opened Text
  import opened Tables

  datatype Response =
    | NetworkError                                           // `requests.get` raised
    | Response(contentType: Option<string>, body: Option<Json>)

  /** `response.headers.get('Content-Type', '')`. */
  function Header(contentType: Option<string>): string {
    if contentType.Some? then contentType.value else ""
  }

  /** The header test: the `Content-Type` (empty when absent) mentions JSON or plain
      text somewhere. A response without the header is rejected. */
  function AcceptedContentType(contentType: Option<string>): (accepted: bool)
    ensures accepted <==>
      (exists i :: OccursAt(Header(contentType), "application/json", i)) ||
      (exists i :: OccursAt(Header(contentType), "text/plain", i))
    ensures contentType.None? ==> !accepted
  {
    Contains(Header(contentType), "application/json") || Contains(Header(contentType), "text/plain")
  }

  /** `data.get('stations', data)`: only a mapping has `.get`; anything else raises. */
  function SelectStations(data: Json): (stations: Option<Json>)
    ensures stations.Some? <==> data.JObject?
    ensures stations.Some? ==> stations.value == Get(data.fields, "stations", data)
  {
    match data
    case JObject(fields) => Some(if "stations" in fields then fields["stations"] else data)
    case _ => None
  }

  /** A table as `pd.DataFrame(stations)` builds it: column names and one key-to-value
      record per row, before any column is touched. */
  datatype Table = Table(columns: set<string>, records: seq<map<string, Json>>)

  /** The records of a list of stations, or `None` unless every element is a mapping. */
  function RecordsOf(items: seq<Json>): (records: Option<seq<map<string, Json>>>)
    ensures records.Some? <==> forall i :: 0 <= i < |items| ==> items[i].JObject?
    ensures records.Some? ==>
      |records.value| == |items| &&
      forall i :: 0 <= i < |items| ==> records.value[i] == items[i].fields
  {
    if items == [] then Some([])
    else if !items[0].JObject? then None
    else match RecordsOf(items[1..])
      case None =>
        assert !items[1..][0].JObject? || exists i :: 0 <= i < |items[1..]| && !items[1..][i].JObject?;
        None
      case Some(rest) => Some([items[0].fields] + rest)
  }

  /** The union of the keys of all records: the columns pandas creates. */
  function KeysOf(records: seq<map<string, Json>>): (keys: set<string>)
    ensures forall k :: k in keys <==> exists i :: 0 <= i < |records| && k in records[i]
  {
    if records == [] then {}
    else
      var rest := KeysOf(records[1..]);
      assert forall k :: k in rest <==> exists i :: 1 <= i < |records| && k in records[i] by {
        forall k | k in rest ensures exists i :: 1 <= i < |records| && k in records[i] {
          var j :| 0 <= j < |records[1..]| && k in records[1..][j];
          assert records[1..][j] == records[j + 1];
        }
        forall k, i | 1 <= i < |records| && k in records[i] ensures k in rest {
          assert records[1..][i - 1] == records[i];
        }
      }
      records[0].Keys + rest
  }

  /** `pd.DataFrame(stations)`, or `None` where the constructor raises or the table
      could not have a `location` column (which makes the next line raise anyway).
      A list of mappings gives one row per mapping; `None` gives an empty table;
      a mapping is read column by column, each value an array as long as `location`. */
  function TableOf(stations: Json): (table: Option<Table>)
    ensures stations.JArray? ==>
      (table.Some? <==> forall i :: 0 <= i < |stations.items| ==> stations.items[i].JObject?)
    ensures stations.JArray? && table.Some? ==> |table.value.records| == |stations.items|
    ensures stations.JObject? && table.Some? ==> "location" in table.value.columns
    ensures !(stations.JNull? || stations.JArray? || stations.JObject?) ==> table.None?
  {
    match stations
    case JNull => Some(Table({}, []))
    case JArray(items) =>
      (match RecordsOf(items)
       case None => None
       case Some(records) => Some(Table(KeysOf(records), records)))
    case JObject(fields) =>
      if "location" in fields && fields["location"].JArray? &&
         forall k | k in fields :: fields[k].JArray? && |fields[k].items| == |fields["location"].items|
      then
        var n := |fields["location"].items|;
        Some(Table(fields.Keys, seq(n, i requires 0 <= i < n => map k | k in fields :: fields[k].items[i])))
      else None
    case _ => None
  }

  /** The value of one cell: a missing key is NaN in pandas, `JNull` here. */
  function Cell(record: map<string, Json>, column: string): Json {
    if column in record then record[column] else JNull
  }

  /** One normalised row: the station's columns, with `date` set to today. */
  function RowOf(record: map<string, Json>, today: string): Row {
    Row(Cell(record, "site_id"), Cell(record, "brand"), Cell(record, "address"),
        Cell(record, "postcode"), Cell(record, "location"), Cell(record, "prices"), today)
  }

  /** Serialise `location` and `prices` (both columns must exist) and add the `date` column. */
  function Normalize(t: Table, today: string): (f: Option<Frame>)
    ensures f.Some? <==> "location" in t.columns && "prices" in t.columns
    ensures f.Some? ==> f.value.columns == t.columns + {"date"} && |f.value.rows| == |t.records|
    ensures f.Some? ==> forall i :: 0 <= i < |f.value.rows| ==> f.value.rows[i].date == today
  {
    if "location" in t.columns && "prices" in t.columns then
      Some(Frame(t.columns + {"date"},
                 seq(|t.records|, i requires 0 <= i < |t.records| => RowOf(t.records[i], today))))
    else None
  }

  /** Everything after the station list is selected: table, normalisation, or the empty frame. */
  function FromStations(stations: Json, today: string): (f: Frame)
    ensures forall i :: 0 <= i < |f.rows| ==> f.rows[i].date == today
    ensures f != EmptyFrame ==> {"location", "prices", "date"} <= f.columns
  {
    match TableOf(stations)
    case None => EmptyFrame
    case Some(t) =>
      match Normalize(t, today)
      case None => EmptyFrame
      case Some(f) => f
  }

  /** `fetch_and_process_data(url)` for the response the URL gave. Any failure,
      including a rejected content type and a body that is not a mapping, gives
      the empty frame; otherwise every row carries today's date. */
  function FetchAndProcess(response: Response, today: string): (f: Frame)
    ensures forall i :: 0 <= i < |f.rows| ==> f.rows[i].date == today
    ensures f != EmptyFrame ==>
      response.Response? && AcceptedContentType(response.contentType) &&
      response.body.Some? && response.body.value.JObject? &&
      {"location", "prices", "date"} <= f.columns
  {
    match response
    case NetworkError => EmptyFrame
    case Response(contentType, body) =>
      if !AcceptedContentType(contentType) then EmptyFrame
      else match body
        case None => EmptyFrame
        case Some(data) =>
          match SelectStations(data)
          case None => EmptyFrame
          case Some(stations) => FromStations(stations, today)
  }

  /** The station list is the value under `stations` when the mapping has that key,
      and the mapping itself otherwise. */
  lemma StationListSelection(contentType: Option<string>, fields: map<string, Json>, today: string)
    requires AcceptedContentType(contentType)
    ensures "stations" in fields ==>
      FetchAndProcess(Response(contentType, Some(JObject(fields))), today) == FromStations(fields["stations"], today)
    ensures "stations" !in fields ==>
      FetchAndProcess(Response(contentType, Some(JObject(fields))), today) == FromStations(JObject(fields), today)
  {
  }

  /** A body that is a bare JSON array never reaches the station list: `.get` raises on it. */
  lemma BareArrayYieldsNothing(contentType: Option<string>, items: seq<Json>, today: string)
    ensures FetchAndProcess(Response(contentType, Some(JArray(items))), today) == EmptyFrame
  {
  }

  /** A list of stations that are all mappings, with `location` and `prices` among their
      keys, becomes one row per station, in order, copying the station's fields. */
  lemma StationArrayRows(items: seq<Json>, today: string)
    requires forall i :: 0 <= i < |items| ==> items[i].JObject?
    requires exists i :: 0 <= i < |items| && "location" in items[i].fields
    requires exists i :: 0 <= i < |items| && "prices" in items[i].fields
    ensures |FromStations(JArray(items), today).rows| == |items|
    ensures forall i :: 0 <= i < |items| ==>
      FromStations(JArray(items), today).rows[i] == RowOf(items[i].fields, today)
  {
    var records := RecordsOf(items).value;
    StationColumns(items, records);
    var t := Table(KeysOf(records), records);
    assert TableOf(JArray(items)) == Some(t);
    NormalizedRows(t, today);
  }

  /** A key is a column of that table exactly when it is `date` or some station has it. */
  lemma StationArrayColumn(items: seq<Json>, today: string, k: string)
    requires forall i :: 0 <= i < |items| ==> items[i].JObject?
    requires exists i :: 0 <= i < |items| && "location" in items[i].fields
    requires exists i :: 0 <= i < |items| && "prices" in items[i].fields
    ensures k in FromStations(JArray(items), today).columns <==>
      k == "date" || exists i :: 0 <= i < |items| && k in items[i].fields
  {
    var records := RecordsOf(items).value;
    StationColumns(items, records);
    var t := Table(KeysOf(records), records);
    assert TableOf(JArray(items)) == Some(t);
    NormalizedRows(t, today);
    KeyOfStation(items, records, k);
  }

  /** A key is among the table's columns exactly when some station has it. */
  lemma KeyOfStation(items: seq<Json>, records: seq<map<string, Json>>, k: string)
    requires RecordsOf(items) == Some(records)
    ensures k in KeysOf(records) <==> exists i :: 0 <= i < |items| && k in items[i].fields
  {
    if k in KeysOf(records) {
      var m :| 0 <= m < |records| && k in records[m];
      assert k in items[m].fields;
    }
  }

  /** A table with `location` and `prices` columns normalises to one row per record. */
  lemma NormalizedRows(t: Table, today: string)
    requires "location" in t.columns && "prices" in t.columns
    ensures Normalize(t, today).Some?
    ensures Normalize(t, today).value.columns == t.columns + {"date"}
    ensures |Normalize(t, today).value.rows| == |t.records|
    ensures forall i :: 0 <= i < |t.records| ==> Normalize(t, today).value.rows[i] == RowOf(t.records[i], today)
  {
  }

  /** The columns built from a list of mappings, with `location` and `prices` among them. */
  lemma StationColumns(items: seq<Json>, records: seq<map<string, Json>>)
    requires forall i :: 0 <= i < |items| ==> items[i].JObject?
    requires exists i :: 0 <= i < |items| && "location" in items[i].fields
    requires exists i :: 0 <= i < |items| && "prices" in items[i].fields
    requires RecordsOf(items) == Some(records)
    ensures "location" in KeysOf(records) && "prices" in KeysOf(records)
  {
    var i :| 0 <= i < |items| && "location" in items[i].fields;
    var j :| 0 <= j < |items| && "prices" in items[j].fields;
    assert "location" in records[i] && "prices" in records[j];
  }

  /** A mapping used as its own station list is read column by column: with
      `location`, `prices` and every other key holding arrays of one length, row `i`
      takes element `i` of each array. */
  lemma ColumnMappingRows(fields: map<string, Json>, today: string)
    requires "location" in fields && "prices" in fields && fields["location"].JArray?
    requires forall k :: k in fields ==>
      fields[k].JArray? && |fields[k].items| == |fields["location"].items|
    ensures |FromStations(JObject(fields), today).rows| == |fields["location"].items|
    ensures forall i :: 0 <= i < |fields["location"].items| ==>
      && FromStations(JObject(fields), today).rows[i].location == fields["location"].items[i]
      && FromStations(JObject(fields), today).rows[i].prices == fields["prices"].items[i]
  {
  }

  /** When no station has a `location` key, `df['location']` raises and nothing is returned. */
  lemma {:induction false} MissingLocationYieldsNothing(items: seq<Json>, today: string)
    requires forall i :: 0 <= i < |items| ==> items[i].JObject? && "location" !in items[i].fields
    ensures FromStations(JArray(items), today) == EmptyFrame
  {
    var records := RecordsOf(items).value;
    assert "location" !in KeysOf(records);
  }

  /** When no station has a `prices` key, `df['prices']` raises and nothing is returned. */
  lemma {:induction false} MissingPricesYieldsNothing(items: seq<Json>, today: string)
    requires forall i :: 0 <= i < |items| ==> items[i].JObject? && "prices" !in items[i].fields
    ensures FromStations(JArray(items), today) == EmptyFrame
  {
    var records := RecordsOf(items).value;
    assert "prices" !in KeysOf(records);
  }
}
