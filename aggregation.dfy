/** `check_existing_data` and `main`: one aggregation run over the configured
    feed URLs against the snapshot store. The run is specified over `fetch`,
    the frame `fetch_and_process_data` gives for each URL; the store's method
    obtains it from the network (a parameter: the response each URL gives
    during the run) through `FetchFrom`. Today's date and the current
    timestamp are parameters too. */
module Aggregation {
  import opened Tables
  import opened Fetcher

  /** The contents of both tables. */
  datatype Snapshot = Snapshot(fuelPrices: seq<Row>, metadata: seq<Meta>)

  /** How a run ends: nothing collected, rows appended, or the append raised
      (a column the table lacks) and the run was abandoned. */
  datatype Outcome = NoNewData | Inserted(count: nat) | AppendFailed

  /** `fetch_and_process_data` for every URL, given what the network answers. */
  function FetchFrom(network: string -> Response, today: string): string -> Frame {
    url => FetchAndProcess(network(url), today)
  }

  /** Every frame the fetch gives has all its rows dated today. */
  ghost predicate StampsToday(fetch: string -> Frame, today: string) {
    forall url, j :: 0 <= j < |fetch(url).rows| ==> fetch(url).rows[j].date == today
  }

  /** Fetching through `fetch_and_process_data` stamps every row with today's date. */
  lemma FetchFromStampsToday(network: string -> Response, today: string)
    ensures StampsToday(FetchFrom(network, today), today)
  {
    forall url, j | 0 <= j < |FetchFrom(network, today)(url).rows|
      ensures FetchFrom(network, today)(url).rows[j].date == today
    {
      assert FetchFrom(network, today)(url) == FetchAndProcess(network(url), today);
    }
  }

  /** The skip test of `check_existing_data`: it asks only whether any stored
      row is dated today; the URL plays no part. */
  predicate AlreadyFetched(stored: seq<Row>, url: string, today: string) {
    HasRowDated(stored, today)
  }

  /** What one fetched frame adds to `data_frames`: the frame, unless it is empty. */
  function Kept(df: Frame): (kept: seq<Frame>)
    ensures |kept| <= 1
    ensures forall i :: 0 <= i < |kept| ==> !IsEmpty(kept[i]) && kept[i] == df
    ensures !IsEmpty(df) ==> kept != []
  {
    if IsEmpty(df) then [] else [df]
  }

  /** The `data_frames` list after the loop has visited `urls`: a URL that is not
      skipped is fetched, and its frame kept when it is not empty. The store is
      not written inside the loop, so every test reads the same `stored`. */
  function Collect(stored: seq<Row>, urls: seq<string>, fetch: string -> Frame, today: string)
    : (batch: seq<Frame>)
    ensures forall i :: 0 <= i < |batch| ==> !IsEmpty(batch[i])
    ensures |batch| <= |urls|
    decreases |urls|
  {
    if urls == [] then []
    else
      var prior := Collect(stored, urls[..|urls| - 1], fetch, today);
      var url := urls[|urls| - 1];
      if AlreadyFetched(stored, url, today) then prior
      else prior + Kept(fetch(url))
  }

  /** The frames a run collects when no URL is skipped: every non-empty fetch, in URL order. */
  function Fetched(urls: seq<string>, fetch: string -> Frame): seq<Frame>
    decreases |urls|
  {
    if urls == [] then []
    else Kept(fetch(urls[0])) + Fetched(urls[1..], fetch)
  }

  /** `pd.concat(data_frames)`: the rows of all frames, in order. */
  function Combined(batch: seq<Frame>): (rows: seq<Row>)
    ensures forall r :: r in rows <==> exists i :: 0 <= i < |batch| && r in batch[i].rows
    ensures batch != [] ==> |batch[0].rows| <= |rows| && rows[..|batch[0].rows|] == batch[0].rows
  {
    if batch == [] then []
    else
      var rest := Combined(batch[1..]);
      assert forall r :: r in rest <==> exists i :: 1 <= i < |batch| && r in batch[i].rows by {
        forall r | r in rest ensures exists i :: 1 <= i < |batch| && r in batch[i].rows {
          var j :| 0 <= j < |batch[1..]| && r in batch[1..][j].rows;
          assert batch[1..][j] == batch[j + 1];
        }
        forall r, i | 1 <= i < |batch| && r in batch[i].rows ensures r in rest {
          assert batch[1..][i - 1] == batch[i];
        }
      }
      batch[0].rows + rest
  }

  /** Concatenating two batches concatenates their rows: every row of every frame
      is kept, duplicates included, in frame order. */
  lemma {:induction false} CombinedConcat(x: seq<Frame>, y: seq<Frame>)
    ensures Combined(x + y) == Combined(x) + Combined(y)
    decreases |x|
  {
    if x == [] {
      assert x + y == y;
    } else {
      assert (x + y)[1..] == x[1..] + y;
      CombinedConcat(x[1..], y);
    }
  }

  /** A single frame concatenates to its own rows. */
  lemma CombinedSingle(f: Frame)
    ensures Combined([f]) == f.rows
  {
    assert [f][1..] == [];
  }

  /** The columns of the concatenated frame. */
  function CombinedColumns(batch: seq<Frame>): set<string> {
    if batch == [] then {} else batch[0].columns + CombinedColumns(batch[1..])
  }

  /** One run of `main` on the store's contents. The stored rows are only ever
      appended to, and the metadata table is either untouched or replaced by the
      one row of this run. */
  function Run(s: Snapshot, urls: seq<string>, fetch: string -> Frame, today: string, now: string)
    : (r: (Snapshot, Outcome))
    ensures |s.fuelPrices| <= |r.0.fuelPrices| && r.0.fuelPrices[..|s.fuelPrices|] == s.fuelPrices
    ensures r.0.metadata == s.metadata || r.0.metadata == [Meta(now)]
    ensures !r.1.Inserted? ==> r.0 == s
    ensures r.1.Inserted? ==> r.1.count == |r.0.fuelPrices| - |s.fuelPrices|
  {
    var batch := Collect(s.fuelPrices, urls, fetch, today);
    if batch == [] then (s, NoNewData)
    else if !(CombinedColumns(batch) <= TableColumns) then (s, AppendFailed)
    else
      var rows := Combined(batch);
      (Snapshot(s.fuelPrices + rows, [Meta(now)]), Inserted(|rows|))
  }

  /** Within one run every URL gets the same skip decision: when any row is dated
      today nothing is fetched at all, and otherwise every URL is fetched. */
  lemma CollectUniform(stored: seq<Row>, urls: seq<string>, fetch: string -> Frame, today: string)
    ensures HasRowDated(stored, today) ==> Collect(stored, urls, fetch, today) == []
    ensures !HasRowDated(stored, today) ==> Collect(stored, urls, fetch, today) == Fetched(urls, fetch)
  {
    if HasRowDated(stored, today) {
      CollectSkipsAll(stored, urls, fetch, today);
    } else {
      CollectFetchesAll(stored, urls, fetch, today);
    }
  }

  /** When some stored row is dated today, every URL is skipped. */
  lemma {:induction false} CollectSkipsAll(stored: seq<Row>, urls: seq<string>, fetch: string -> Frame, today: string)
    requires HasRowDated(stored, today)
    ensures Collect(stored, urls, fetch, today) == []
    decreases |urls|
  {
    if urls != [] {
      CollectSkipsAll(stored, urls[..|urls| - 1], fetch, today);
    }
  }

  /** When no stored row is dated today, every URL is fetched. */
  lemma {:induction false} CollectFetchesAll(stored: seq<Row>, urls: seq<string>, fetch: string -> Frame, today: string)
    requires !HasRowDated(stored, today)
    ensures Collect(stored, urls, fetch, today) == Fetched(urls, fetch)
    decreases |urls|
  {
    if urls != [] {
      var init, last := urls[..|urls| - 1], urls[|urls| - 1];
      assert init + [last] == urls;
      CollectFetchesAll(stored, init, fetch, today);
      FetchedSnoc(init, last, fetch);
    }
  }

  /** `Fetched` over a list extended at the end. */
  lemma {:induction false} FetchedSnoc(urls: seq<string>, url: string, fetch: string -> Frame)
    ensures Fetched(urls + [url], fetch) == Fetched(urls, fetch) + Kept(fetch(url))
    decreases |urls|
  {
    if urls == [] {
      assert [url][1..] == [];
      assert Fetched([url], fetch) == Kept(fetch(url)) + Fetched([], fetch);
    } else {
      assert (urls + [url])[1..] == urls[1..] + [url];
      FetchedSnoc(urls[1..], url, fetch);
    }
  }

  /** Every row of every frame of the batch is dated today. */
  ghost predicate BatchDated(batch: seq<Frame>, today: string) {
    forall i, j :: 0 <= i < |batch| && 0 <= j < |batch[i].rows| ==> batch[i].rows[j].date == today
  }

  /** Every collected frame comes from the fetch, so its rows are dated today
      when the fetch stamps them so. */
  lemma {:induction false} CollectedRowsDated(stored: seq<Row>, urls: seq<string>, fetch: string -> Frame, today: string)
    requires StampsToday(fetch, today)
    ensures BatchDated(Collect(stored, urls, fetch, today), today)
    decreases |urls|
  {
    if urls != [] {
      CollectedRowsDated(stored, urls[..|urls| - 1], fetch, today);
    }
  }

  /** Every row of the concatenation comes from a frame whose rows are all dated
      today, and a batch of non-empty frames concatenates to a non-empty list. */
  lemma {:induction false} CombinedRows(batch: seq<Frame>, today: string)
    requires BatchDated(batch, today)
    ensures forall k :: 0 <= k < |Combined(batch)| ==> Combined(batch)[k].date == today
    ensures batch != [] && batch[0].rows != [] ==> Combined(batch) != []
  {
    if batch != [] {
      CombinedRows(batch[1..], today);
      var rest := Combined(batch[1..]);
      forall k | 0 <= k < |Combined(batch)| ensures Combined(batch)[k].date == today {
        if k < |batch[0].rows| {
          assert Combined(batch)[k] == batch[0].rows[k];
        } else {
          assert Combined(batch)[k] == rest[k - |batch[0].rows|];
        }
      }
    }
  }

  /** What a run does to the store: rows are inserted exactly when some frame was
      collected and every column of the concatenation is a column of the table.
      Then the concatenated rows, all dated today, follow the existing rows
      unchanged, and the metadata table holds exactly one row with the new
      timestamp. Otherwise neither table changes. */
  lemma RunEffect(s: Snapshot, urls: seq<string>, fetch: string -> Frame, today: string, now: string)
    requires StampsToday(fetch, today)
    ensures var (s', outcome) := Run(s, urls, fetch, today, now);
      var batch := Collect(s.fuelPrices, urls, fetch, today);
      && (outcome.NoNewData? <==> batch == [])
      && (outcome.Inserted? <==> batch != [] && CombinedColumns(batch) <= TableColumns)
      && (outcome.Inserted? ==> s'.fuelPrices == s.fuelPrices + Combined(batch) && outcome.count == |Combined(batch)|)
      && (!outcome.Inserted? ==> s' == s)
      && (outcome.Inserted? ==>
            && |s'.fuelPrices| == |s.fuelPrices| + outcome.count
            && outcome.count > 0
            && s'.fuelPrices[..|s.fuelPrices|] == s.fuelPrices
            && (forall k :: |s.fuelPrices| <= k < |s'.fuelPrices| ==> s'.fuelPrices[k].date == today)
            && s'.metadata == [Meta(now)])
  {
    var batch := Collect(s.fuelPrices, urls, fetch, today);
    if batch != [] {
      CollectedRowsDated(s.fuelPrices, urls, fetch, today);
      CombinedRows(batch, today);
      var s' := Run(s, urls, fetch, today, now).0;
      var rows := Combined(batch);
      forall k | |s.fuelPrices| <= k < |s'.fuelPrices| ensures s'.fuelPrices[k].date == today {
        assert s'.fuelPrices[k] == rows[k - |s.fuelPrices|] || s'.fuelPrices == s.fuelPrices;
      }
    }
  }

  /** Once a run has inserted rows, any later run on the same day, whatever the
      feeds answer, skips every URL and changes nothing. */
  lemma SecondRunSameDaySkips(s: Snapshot, urls: seq<string>, fetch: string -> Frame,
                              urls': seq<string>, fetch': string -> Frame,
                              today: string, now: string, now': string)
    requires StampsToday(fetch, today)
    requires Run(s, urls, fetch, today, now).1.Inserted?
    ensures var s' := Run(s, urls, fetch, today, now).0;
      Run(s', urls', fetch', today, now') == (s', NoNewData)
  {
    var s' := Run(s, urls, fetch, today, now).0;
    RunEffect(s, urls, fetch, today, now);
    assert s'.fuelPrices[|s.fuelPrices|].date == today;
    CollectUniform(s'.fuelPrices, urls', fetch', today);
  }

  /** Running the aggregation twice on the same day against the same feeds leaves
      the store as one run left it. */
  lemma RunIdempotentSameDay(s: Snapshot, urls: seq<string>, fetch: string -> Frame,
                             today: string, now: string, now': string)
    requires StampsToday(fetch, today)
    ensures var s' := Run(s, urls, fetch, today, now).0;
      Run(s', urls, fetch, today, now').0 == s'
  {
    if Run(s, urls, fetch, today, now).1.Inserted? {
      SecondRunSameDaySkips(s, urls, fetch, urls, fetch, today, now, now');
    }
  }

  /** The snapshot store: the `fuel_prices` and `fuel_prices_metadata` tables. */
  class Store {
    var fuelPrices: seq<Row>
    var metadata: seq<Meta>

    /** The metadata table never holds more than one row. */
    ghost predicate Valid()
      reads this
    {
      |metadata| <= 1
    }

    function Contents(): Snapshot
      reads this
    {
      Snapshot(fuelPrices, metadata)
    }

    constructor ()
      ensures Valid() && fuelPrices == [] && metadata == []
    {
      fuelPrices := [];
      metadata := [];
    }

    /** `check_existing_data(conn, url)`: true exactly when some stored row is dated today. */
    function CheckExistingData(url: string, today: string): (found: bool)
      reads this
      ensures found <==> exists i :: 0 <= i < |fuelPrices| && fuelPrices[i].date == today
    {
      AlreadyFetched(fuelPrices, url, today)
    }

    /** `main()`: visit every URL, skip it if today's data exists, otherwise fetch it
        and keep a non-empty frame; then append all kept rows in one go and replace
        the metadata row. */
    method RunAggregation(urls: seq<string>, network: string -> Response, today: string, now: string)
      returns (outcome: Outcome)
      requires Valid()
      modifies this
      ensures Valid()
      ensures (Contents(), outcome) == Run(old(Contents()), urls, FetchFrom(network, today), today, now)
    {
      ghost var fetch := FetchFrom(network, today);
      var dataFrames: seq<Frame> := [];
      for i := 0 to |urls|
        invariant fuelPrices == old(fuelPrices) && metadata == old(metadata)
        invariant dataFrames == Collect(fuelPrices, urls[..i], fetch, today)
      {
        var url := urls[i];
        assert urls[..i + 1][..i] == urls[..i];
        if CheckExistingData(url, today) {
          continue;
        }
        var df := FetchAndProcess(network(url), today);
        assert df == fetch(url);
        if !IsEmpty(df) {
          dataFrames := dataFrames + [df];
        }
        assert dataFrames == Collect(fuelPrices, urls[..i], fetch, today) + Kept(df);
      }
      assert urls[..|urls|] == urls;
      assert dataFrames == Collect(old(fuelPrices), urls, fetch, today);
      if dataFrames == [] {
        outcome := NoNewData;
        return;
      }
      var combined := Combined(dataFrames);
      if !(CombinedColumns(dataFrames) <= TableColumns) {
        outcome := AppendFailed;
        return;
      }
      fuelPrices := fuelPrices + combined;
      metadata := [];
      metadata := metadata + [Meta(now)];
      outcome := Inserted(|combined|);
      assert metadata == [Meta(now)];
    }
  }
}
