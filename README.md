# Fuel price aggregator: a Dafny model

This project models the decision logic of a small service that collects UK
retailers' fuel-price feeds into a daily snapshot and serves it filtered by
postcode and fuel type. Everything lives in `app.py`. The service is mostly
glue around an HTTP client, pandas, a SQL database and Flask. The model keeps
the three rule sets under that glue, with the I/O turned into parameters:

- **Fetching and normalising one feed** (`fetch_and_process_data`, module
  `Fetcher`). The HTTP exchange becomes a `Response`: the `Content-Type`
  header, if any, and the body decoded as JSON (`None` when it is not JSON).
  A feed is accepted only when the header mentions `application/json` or
  `text/plain`. The station list is the value under `stations`, or else the
  mapping itself. A body that is not a mapping has no `.get`, so it raises and
  yields nothing. This includes a bare JSON array, even though the fallback's
  comment suggests such arrays were meant to be accepted. The table pandas
  builds from the station list is modelled, then the `location` and `prices`
  columns (whose absence raises), then the `date` column set to today.
- **The aggregation run** (`check_existing_data` and `main`, module
  `Aggregation`). The store is a class holding the `fuel_prices` and
  `fuel_prices_metadata` tables. The network is a function from URL to
  `Response`. The run itself is specified over the frame each URL yields, so
  its lemmas hold for any fetch that dates its rows today, which
  `fetch_and_process_data` does. The skip test is modelled as written: it asks only whether any
  stored row is dated today and ignores the URL. The model reads the clock once
  per run (see "Left out"). Nothing is written during the loop, so within one
  run of the model either every URL is skipped or every URL is fetched, and
  every appended row carries the run's date.
  After the loop the collected rows are appended in one go and the metadata
  table is replaced by one row. If no frame was collected, or the append raises
  because a frame has a column the table lacks, nothing changes. A consequence
  that is proved: once a run has inserted rows, every later run on the same day
  does nothing, whatever the feeds answer.
- **The read endpoint** (`get_prices`, module `Query`). The stored rows and
  today's date are parameters. The endpoint keeps today's rows. When a
  postcode is given, it keeps only rows whose postcode contains it, ignoring
  case. It then builds one record per row, in table order. `E10`, `E5` and `B7`
  map to `unleaded`, `superUnleaded` and `diesel`. Each price is `null` when its
  filter flag is present and falsy, and an absent flag counts as true. Each
  exception the model covers is an error value: malformed filters text, a
  stored postcode that is not text, filters that are not a mapping, or a price
  list that is not a mapping. The last two arise only when a row is actually
  projected. So when the filters text is well-formed and, if a postcode is
  given, every row dated today has a text postcode, a query that matches
  nothing gives an empty list. Malformed filters text raises before any row is
  read, and a non-text postcode on one of today's rows raises even if it would
  not have matched. Two exceptions are not covered: a postcode that is not a
  valid regular expression, and stored `location` or `prices` text that is not
  JSON. Both are listed under "Left out".

Modules: `Wrappers` (Option, Result), `Json` (decoded JSON values, Python
truthiness), `Text` (substring search, ASCII case folding), `Tables` (rows,
metadata, frames), `Fetcher`, `Aggregation`, `Query`.

## Model

| member | source | states |
|---|---|---|
| Text.Contains | app.py:62 | Python's `sub in s` holds exactly when `sub` occurs at some position of `s` |
| Text.ContainsIgnoringCase | app.py:115 | the case-insensitive match holds exactly when the lower-cased pattern occurs in the lower-cased postcode |
| Tables.HasRowDated | app.py:80-82 | true exactly when some row carries the given date |
| Fetcher.AcceptedContentType | app.py:62 | a response is accepted exactly when its `Content-Type` contains `application/json` or `text/plain` somewhere; one without the header is rejected |
| Fetcher.SelectStations | app.py:64 | only a mapping yields a station list, and it is `data.get('stations', data)` |
| Fetcher.TableOf | app.py:67 | a list becomes a table exactly when every element is a mapping, with one record per station; a mapping read column-wise has a `location` column; `null` gives an empty table; any other value is not a table |
| Fetcher.Normalize | app.py:68-70 | normalising succeeds exactly when the table has both `location` and `prices` columns, adds the `date` column, keeps one row per record and dates every row today |
| Fetcher.RecordsOf | app.py:67 | a station list yields records exactly when every element is a mapping, one record per station, in order |
| Fetcher.KeysOf | app.py:67 | the table's columns are exactly the keys that occur in some station |
| Fetcher.FromStations | app.py:67-70 | every produced row is dated today; a non-empty result has the `location`, `prices` and `date` columns |
| Fetcher.FetchAndProcess | app.py:54-77 | every produced row is dated today; anything but the empty frame needs an accepted content type and a body that decodes to a mapping, so a network error, a rejected content type, an undecodable body or a non-mapping body all give the empty frame |
| Fetcher.StationListSelection | app.py:64 | the station list is the value under `stations` when the mapping has that key, the mapping itself otherwise |
| Fetcher.BareArrayYieldsNothing | app.py:64-77 | a body that is a bare JSON array raises on `.get` and yields the empty frame |
| Fetcher.StationArrayRows | app.py:67-70 | a list of mappings with `location` and `prices` among their keys gives one row per station, in order, each copying its station's fields and dated today |
| Fetcher.StationArrayColumn | app.py:67-70 | a key is a column of that frame exactly when it is `date` or some station has it |
| Fetcher.KeyOfStation | app.py:67 | a key is a column of the table pandas builds exactly when some station has it |
| Fetcher.NormalizedRows | app.py:68-70 | a table with `location` and `prices` columns keeps its columns, gains `date`, and has one row per record, dated today |
| Fetcher.ColumnMappingRows | app.py:67-70 | a mapping of equal-length arrays gives one row per array position, taking that element of `location` and of `prices` |
| Fetcher.MissingLocationYieldsNothing | app.py:68 | when no station has a `location` key the result is the empty frame |
| Fetcher.MissingPricesYieldsNothing | app.py:69 | when no station has a `prices` key the result is the empty frame |
| Aggregation.FetchFromStampsToday | app.py:54-77 | every frame fetched for any URL has all its rows dated today |
| Aggregation.Kept | app.py:92-94 | a fetched frame contributes at most one entry, itself, and exactly when it is not empty |
| Aggregation.Collect | app.py:88-94 | the collected frames are non-empty and no more than the URLs |
| Aggregation.CollectedRowsDated | app.py:88-94 | when every fetched frame is dated today, so is every row of every collected frame |
| Aggregation.CollectSkipsAll | app.py:88-91 | when some stored row is dated today every URL is skipped and nothing is collected |
| Aggregation.CollectFetchesAll | app.py:88-94 | when no stored row is dated today every URL is fetched and every non-empty frame kept, in URL order |
| Aggregation.CollectUniform | app.py:88-94 | within one run either every URL is skipped (some row is dated today, nothing is collected) or every URL is fetched and every non-empty frame kept in URL order |
| Aggregation.Combined | app.py:96 | a row is in the concatenation exactly when it is in one of the frames, and the first frame's rows come first |
| Aggregation.Run | app.py:84-101 | a run only ever appends to the stored rows; the metadata table is untouched or replaced by the run's one row; a run that inserts nothing changes nothing, and the count is the number of appended rows |
| Aggregation.CombinedConcat | app.py:96 | concatenating two batches concatenates their rows, so every row of every frame is kept, duplicates included, in frame order |
| Aggregation.CombinedSingle | app.py:96 | a single frame concatenates to exactly its own rows |
| Aggregation.CombinedRows | app.py:96 | concatenating frames whose rows are dated today gives rows dated today, and a non-empty first frame gives a non-empty concatenation |
| Aggregation.RunEffect | app.py:95-101 | rows are inserted exactly when some frame was collected and the concatenation's columns are all table columns; then the stored rows become the old rows followed by the concatenated rows, all dated today, the count is their number, and the metadata table is exactly one row with the new timestamp; with nothing collected, or a failed append, neither table changes |
| Aggregation.SecondRunSameDaySkips | app.py:79-101 | after a run that inserted rows, any later run on the same day skips every URL and changes nothing |
| Aggregation.RunIdempotentSameDay | app.py:84-101 | a second run on the same day against the same feeds leaves the store as the first run left it |
| Aggregation.Store.constructor | app.py:36-52 | both tables start empty |
| Aggregation.Store.CheckExistingData | app.py:79-82 | true exactly when some stored row is dated today, whatever the URL |
| Aggregation.Store.RunAggregation | app.py:84-101 | the new tables and the outcome are those of one run on the old tables, each URL fetched through `fetch_and_process_data`; the metadata table never holds more than one row |
| Query.Wanted | app.py:124-126 | a fuel type is wanted exactly when its flag is absent or truthy |
| Query.Price | app.py:124-126 | a price is the grade's listed price when the fuel type is wanted and the grade is listed, `null` otherwise |
| Query.Project | app.py:119-127 | building a record raises `FiltersNotMapping` exactly when the filters are not a mapping, and succeeds exactly when they are a mapping and the price list is a mapping or no fuel type is wanted |
| Query.ProjectAll | app.py:117-128 | a successful loop gives one record per row, in order, each that row's record; a failing loop fails with the error of some row all of whose predecessors succeeded |
| Query.FiltersOf | app.py:106-107 | parsing the filters fails, with `MalformedFilters`, exactly when the text is not JSON; an absent argument gives the empty mapping and a parsed one its value |
| Query.Todays | app.py:109-110 | the date query keeps every row dated today as often as it is stored and no other row |
| Query.Retained | app.py:109-115 | selecting rows fails only with `PostcodeNotText` and only when a postcode is given, and keeps no more rows than are stored; which rows it keeps is `RetainedRows` and when it fails is `RetainedFailure` |
| Query.TodaysNotText | app.py:109-115 | one of today's rows has a non-text postcode exactly when some stored row dated today has one |
| Query.Prices | app.py:104-130 | malformed filters text fails the request before any row is read; a postcode error needs a non-empty postcode; a successful response has one record per retained row, each described by `PricesRecords` |
| Query.Filter | app.py:110-115 | the kept rows are exactly the rows meeting the condition, each as often as in the input |
| Query.RetainedFailure | app.py:114-115 | selecting rows raises exactly when a postcode is given and one of today's rows has a postcode that is not text |
| Query.RetainedRows | app.py:109-115 | the retained rows are exactly today's rows whose postcode contains the query ignoring case (all of today's rows for an empty postcode), each as often as in the table |
| Query.ProjectAllFailurePersists | app.py:117-128 | once one row's record raises, the whole request fails with that error |
| Query.ProjectAllPointwise | app.py:117-128 | the loop succeeds exactly when no row's record raises, and then gives one record per row, in order |
| Query.ProjectDescribes | app.py:119-127 | a record that does not raise copies brand, address and postcode and gives each grade's price when its fuel type is wanted and the grade is listed, `null` otherwise |
| Query.PricesRecords | app.py:104-130 | a successful response has exactly one record per retained row, in order, each describing its row |
| Query.NoMatchesGiveEmptyList | app.py:114-130 | with well-formed filters text, and text postcodes on today's rows when a postcode is given, a query that matches no stored row gives the empty list, not an error, whatever the filters decode to |
| Query.DefaultFiltersWantAll | app.py:106-126 | without a filters argument all three prices come from the row's price list |
| Query.DieselExcluded | app.py:124-126 | `{"diesel": false}` blanks diesel and keeps unleaded and super unleaded |
| Query.PostcodeIgnoresCase | app.py:115 | a stored `SW1A 1AA` matches the query `sw1a` |
| Query.TescoExample | app.py:104-130 | a stored Tesco row dated today comes back with its three prices when no postcode and no filters are given |
| Query.ProjectRows | app.py:117-128 | the loop that appends one record per retained row returns what the records of the rows give, stopping at the first row that raises |
| Query.GetPrices | app.py:104-130 | reading the arguments with their defaults, parsing the filters, selecting rows and running the loop gives exactly the response `Prices` describes (whose properties are the lemmas above) |

## Left out

- HTTP fetching (`requests.get`, its headers, charset handling and the choice between `response.json()` and `json.loads(response.text)`) is a `Response` parameter: a content type and an already decoded body.
- Flask routing, `jsonify`, CORS and the `after_request` headers are web-framework plumbing; the endpoint's answer is a `Result` value.
- The SQLAlchemy engine, table creation, `pd.read_sql`, `to_sql` and the environment configuration are replaced by in-memory sequences. Surrogate `id` values are not modelled, including an `id` key a station might carry.
- `json.dumps`/`json.loads` of `location` and `prices` are not modelled; the decoded values are stored directly, so the serialiser's round trip is not stated. Nor is the exception `json.loads` raises when the endpoint reads back stored text that is not JSON.
- The database's own conversions are not modelled. Plain columns keep the JSON value they arrived with, so a numeric postcode stays non-text, and values the driver cannot bind are assumed to bind.
- Rows are read back in insertion order; SQL gives no order guarantee.
- The metadata delete and insert are assumed to be committed, as with an autocommitting connection. With SQLAlchemy 2's commit-as-you-go connections they would be rolled back when the block closes.
- The background thread, `time.sleep`, `tqdm`, `print` logging and the top-level `try` around `main` are concurrency and I/O. The one exception `main` itself can raise, a failed append, is the `AppendFailed` outcome.
- `datetime.now()` is two parameters, today's date and the current timestamp, fixed for the whole run. The program reads the clock afresh at every `check_existing_data` call and at every fetch. So a run that crosses midnight can skip its early URLs, because rows carry the old date, and fetch its later ones, because no row carries the new date. One batch can then carry two dates. The model does not capture this. `CollectUniform`'s all-skip-or-all-fetch split, and "all dated today" in `RunEffect` and `CollectedRowsDated`, hold for a run within one day.
- Prices are only copied, as `JNumber` values; floating-point semantics are not modelled.
- `str.contains` treats its pattern as a regular expression and folds case by Unicode rules. The model matches the literal pattern with ASCII case folding, so a postcode that is not a valid pattern (such as `(`) gives a literal match rather than the `re.error` the program raises.
- Fetcher.TableOf: only two shapes of pandas' table construction are modelled, a list of mappings (missing keys become `null`) and a mapping of arrays as long as its `location` array. Other mappings, where pandas would broadcast scalars or align nested mappings, and lists mixing mappings with other values are treated as failures and yield the empty frame.
- Aggregation.Store.RunAggregation: the network is a function, so a URL listed twice gets the same answer both times.
