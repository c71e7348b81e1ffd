/**
 * The regional tracker's accumulation loop: for every day key it resolves that
 * day's national table (from the local `daily-data` folder, or by downloading it
 * and saving a copy there), keeps the rows of the requested region, extracts the
 * nine-field record and appends it to the time series, which is written to
 * `data_time_series.csv` once every day has been processed.
 *
 * The folder is a map from file name to table. The download is an oracle given
 * as a map from URL to table: a URL missing from it is a download (or parse)
 * that fails.
 */
module Tracker {
  import opened Wrappers
  import opened Calendar
  import opened DateKeys

  /** The nine fields kept per day, in the column order of the output table. */
  datatype Record = Record(
    data: string,
    totalePositivi: int,
    tamponi: int,
    nuoviPositivi: int,
    dimessiGuariti: int,
    deceduti: int,
    isolamentoDomiciliare: int,
    ricoveratiConSintomi: int,
    terapiaIntensiva: int)

  /** One row of a daily national table: the region's name and its fields. */
  datatype Row = Row(denominazioneRegione: string, fields: Record)

  type Table = seq<Row>

  datatype Failure =
    | EndDateRejected        // the daily range cannot be built for the end date
    | NotAvailable(name: string)  // the day's file could not be downloaded
    | NoRowForRegion         // `.values[0]` on an empty selection
    | SeveralRowsForRegion   // `int(...)` on a selection of more than one row

  // ---------------------------------------------------------------------------
  // Region extraction

  /** The positions of the rows whose region name equals `region` exactly, in
      table order (the boolean mask `df.denominazione_regione == region`). */
  function Matches(t: Table, region: string): seq<nat>
    decreases |t|
  {
    if t == [] then []
    else
      var rest := Matches(t[..|t| - 1], region);
      if t[|t| - 1].denominazioneRegione == region then rest + [|t| - 1] else rest
  }

  /** The mask keeps every row of the region and nothing else, in table order. */
  lemma {:induction false} MatchesSpec(t: Table, region: string)
    ensures var idx := Matches(t, region);
            && (forall k :: 0 <= k < |idx| ==> idx[k] < |t| && t[idx[k]].denominazioneRegione == region)
            && (forall i :: 0 <= i < |t| && t[i].denominazioneRegione == region ==> i in idx)
            && (forall k, l :: 0 <= k < l < |idx| ==> idx[k] < idx[l])
    decreases |t|
  {
    if t != [] {
      var init := t[..|t| - 1];
      MatchesSpec(init, region);
      forall i | 0 <= i < |t| - 1
        ensures t[i] == init[i]
      {
      }
    }
  }

  /** The rows `df[df.denominazione_regione == region]`, in table order. */
  function Selected(t: Table, region: string): seq<Row>
    decreases |t|
  {
    if t == [] then []
    else
      var rest := Selected(t[..|t| - 1], region);
      if t[|t| - 1].denominazioneRegione == region then rest + [t[|t| - 1]] else rest
  }

  /** The selected rows are the rows at the matching positions. */
  lemma {:induction false} SelectedAtMatches(t: Table, region: string)
    ensures |Selected(t, region)| == |Matches(t, region)|
    ensures forall k :: 0 <= k < |Matches(t, region)| ==>
              Matches(t, region)[k] < |t| && Selected(t, region)[k] == t[Matches(t, region)[k]]
    decreases |t|
  {
    MatchesSpec(t, region);
    if t != [] {
      var init := t[..|t| - 1];
      SelectedAtMatches(init, region);
      MatchesSpec(init, region);
    }
  }

  /** The region-selection step: the record of the one row of `region`, or the failure the
      selection raises. */
  function ExtractRegion(t: Table, region: string): Result<Record, Failure> {
    var rows := Selected(t, region);
    if |rows| == 0 then Failure(NoRowForRegion)
    else if |rows| > 1 then Failure(SeveralRowsForRegion)
    else Success(rows[0].fields)
  }

  /** Row `i` of `t` belongs to `region`. */
  ghost predicate RegionRow(t: Table, region: string, i: int) {
    0 <= i < |t| && t[i].denominazioneRegione == region
  }

  /** Row `i` is the only row of `t` that belongs to `region`. */
  ghost predicate OnlyRegionRow(t: Table, region: string, i: int) {
    RegionRow(t, region, i) && forall j :: 0 <= j < |t| && RegionRow(t, region, j) ==> j == i
  }

  /** Extraction succeeds exactly when one row carries the region's name, and
      then yields that row's fields, including the row's own `data` value. No
      matching row fails at `.values[0]`; several fail when `int()` is applied to
      a column of more than one value. */
  lemma ExtractRegionUnique(t: Table, region: string)
    ensures var r := ExtractRegion(t, region);
            && (r.Success? <==> exists i :: OnlyRegionRow(t, region, i))
            && (r.Success? ==> forall i :: RegionRow(t, region, i) ==> r.value == t[i].fields)
            && (r.Failure? && (forall i :: !RegionRow(t, region, i)) ==> r.error == NoRowForRegion)
            && (r.Failure? && (exists i :: RegionRow(t, region, i)) ==> r.error == SeveralRowsForRegion)
  {
    MatchesSpec(t, region);
    SelectedAtMatches(t, region);
    var idx := Matches(t, region);
    var r := ExtractRegion(t, region);
    assert forall i :: RegionRow(t, region, i) ==> i in idx;
    if |idx| == 0 {
      assert r == Failure(NoRowForRegion);
    } else if |idx| > 1 {
      assert r == Failure(SeveralRowsForRegion);
      var a, b := idx[0], idx[1];
      assert RegionRow(t, region, a) && RegionRow(t, region, b) && a < b;
    } else {
      var a := idx[0];
      assert r == Success(t[a].fields);
      assert OnlyRegionRow(t, region, a);
    }
  }

  // ---------------------------------------------------------------------------
  // The output table's header

  datatype Cell = Text(s: string) | Count(n: int)

  /** The header of the output table, in the order the series is written. */
  const Columns: seq<string> := ["data", "totale_positivi", "tamponi", "nuovi_positivi",
    "dimessi_guariti", "deceduti", "isolamento_domiciliare",
    "ricoverati_con_sintomi", "terapia_intensiva"]

  /** One output line: the record's fields in header order. */
  function ToCells(r: Record): seq<Cell> {
    [Text(r.data), Count(r.totalePositivi), Count(r.tamponi), Count(r.nuoviPositivi),
     Count(r.dimessiGuariti), Count(r.deceduti), Count(r.isolamentoDomiciliare),
     Count(r.ricoveratiConSintomi), Count(r.terapiaIntensiva)]
  }

  /** The field a column name selects, as the scripts that read the output
      table select it (`df['nuovi_positivi']`). */
  function FieldNamed(r: Record, name: string): Option<Cell> {
    if name == "data" then Some(Text(r.data))
    else if name == "totale_positivi" then Some(Count(r.totalePositivi))
    else if name == "tamponi" then Some(Count(r.tamponi))
    else if name == "nuovi_positivi" then Some(Count(r.nuoviPositivi))
    else if name == "dimessi_guariti" then Some(Count(r.dimessiGuariti))
    else if name == "deceduti" then Some(Count(r.deceduti))
    else if name == "isolamento_domiciliare" then Some(Count(r.isolamentoDomiciliare))
    else if name == "ricoverati_con_sintomi" then Some(Count(r.ricoveratiConSintomi))
    else if name == "terapia_intensiva" then Some(Count(r.terapiaIntensiva))
    else None
  }

  /** Each output line has one cell per header column, and the cell under a
      column name is the record field of that name. */
  lemma HeaderOrder(r: Record)
    ensures |ToCells(r)| == |Columns| == 9
    ensures forall i :: 0 <= i < 9 ==> FieldNamed(r, Columns[i]) == Some(ToCells(r)[i])
  {
  }

  // ---------------------------------------------------------------------------
  // Resolving one day

  /** The cache file name of a day key (`url_string(date)[-36:]`). */
  function NameOf(key: string): string {
    CacheName(UrlString(key))
  }

  datatype Resolved = Resolved(folder: map<string, Table>, table: Result<Table, Failure>, downloaded: bool)

  /** The cache-then-fetch block for one day: a cached file is read; otherwise the file is
      downloaded and saved under its name, or the run fails. */
  function Resolve(folder: map<string, Table>, remote: map<string, Table>, key: string): Resolved {
    var name := NameOf(key);
    if name in folder then Resolved(folder, Success(folder[name]), false)
    else if UrlString(key) in remote then
      Resolved(folder[name := remote[UrlString(key)]], Success(remote[UrlString(key)]), true)
    else Resolved(folder, Failure(NotAvailable(name)), true)
  }

  /** A cached day is a hit that changes nothing; a missing day is downloaded and
      exactly its name is added to the folder, or the download fails and the
      folder is as before. Files already present never change. */
  lemma ResolveStep(folder: map<string, Table>, remote: map<string, Table>, key: string)
    ensures var r := Resolve(folder, remote, key);
            && (r.downloaded <==> NameOf(key) !in folder)
            && (NameOf(key) in folder ==> r.folder == folder && r.table == Success(folder[NameOf(key)]))
            && (r.table.Failure? <==> NameOf(key) !in folder && UrlString(key) !in remote)
            && (r.table.Failure? ==> r.folder == folder && r.table.error == NotAvailable(NameOf(key)))
            && (r.table.Success? ==>
                  NameOf(key) in r.folder && r.folder[NameOf(key)] == r.table.value &&
                  r.folder.Keys == folder.Keys + {NameOf(key)})
            && (forall n :: n in folder ==> n in r.folder && r.folder[n] == folder[n])
            && (NameOf(key) !in folder && r.table.Success? ==> r.table.value == remote[UrlString(key)])
  {
  }

  // ---------------------------------------------------------------------------
  // The whole loop

  /** The state after processing some days: the folder, the series built so far
      (or the failure that ended the run) and the names downloaded, in order. */
  datatype RunState = RunState(folder: map<string, Table>, series: Result<seq<Record>, Failure>, downloads: seq<string>)

  /** One pass of the daily loop: a failed run stays as it is; otherwise the
      day's table is resolved, the region's record extracted and appended. */
  function Step(st: RunState, remote: map<string, Table>, region: string, key: string): RunState {
    if st.series.Failure? then st
    else
      var res := Resolve(st.folder, remote, key);
      var downloads := st.downloads + (if res.downloaded then [NameOf(key)] else []);
      if res.table.Failure? then RunState(res.folder, Failure(res.table.error), downloads)
      else
        match ExtractRegion(res.table.value, region)
        case Failure(e) => RunState(res.folder, Failure(e), downloads)
        case Success(rec) => RunState(res.folder, Success(st.series.value + [rec]), downloads)
  }

  /** The daily loop over `keys`, one day at a time; a failure ends the run. */
  function Accumulate(folder: map<string, Table>, remote: map<string, Table>, region: string, keys: seq<string>): RunState
    decreases |keys|
  {
    if keys == [] then RunState(folder, Success([]), [])
    else Step(Accumulate(folder, remote, region, keys[..|keys| - 1]), remote, region, keys[|keys| - 1])
  }

  /** Once the run has failed, the later days change nothing. */
  lemma {:induction false} FailureIsFinal(folder: map<string, Table>, remote: map<string, Table>, region: string, keys: seq<string>, i: nat)
    requires i <= |keys|
    requires Accumulate(folder, remote, region, keys[..i]).series.Failure?
    ensures Accumulate(folder, remote, region, keys) == Accumulate(folder, remote, region, keys[..i])
    decreases |keys| - i
  {
    if i < |keys| {
      assert keys[..i + 1][..i] == keys[..i];
      FailureIsFinal(folder, remote, region, keys, i + 1);
    } else {
      assert keys[..i] == keys;
    }
  }

  /** The day table the run uses for `key`: the cached copy when the folder
      already had one at the start, otherwise the downloaded one. */
  function SourceTable(folder: map<string, Table>, remote: map<string, Table>, key: string): Table
    requires NameOf(key) in folder || UrlString(key) in remote
  {
    if NameOf(key) in folder then folder[NameOf(key)] else remote[UrlString(key)]
  }

  /** Every file the run adds to the folder is the download of the location
      the upstream folder gives for that name. */
  predicate AddedFromRemote(start: map<string, Table>, now: map<string, Table>, remote: map<string, Table>) {
    && (forall n :: n in start ==> n in now && now[n] == start[n])
    && (forall n :: n in now && n !in start ==> RemoteFolder + n in remote && now[n] == remote[RemoteFolder + n])
  }

  predicate EightCharKeys(keys: seq<string>) {
    forall i :: 0 <= i < |keys| ==> |keys[i]| == 8
  }

  /** The folder only grows: existing files are untouched, each added file holds
      exactly what was downloaded for its name, on success and failure alike; a
      name is downloaded only when its file was missing, at most once, and every
      added file was downloaded. */
  lemma {:induction false} AccumulateFolder(folder: map<string, Table>, remote: map<string, Table>, region: string, keys: seq<string>)
    requires EightCharKeys(keys)
    ensures var st := Accumulate(folder, remote, region, keys);
            && AddedFromRemote(folder, st.folder, remote)
            && (forall n :: n in st.downloads ==> n !in folder)
            && (forall n :: n in st.folder && n !in folder ==> n in st.downloads)
            && (st.series.Success? ==> forall n :: n in st.downloads ==> n in st.folder)
            && (forall i, j :: 0 <= i < j < |st.downloads| ==> st.downloads[i] != st.downloads[j])
    decreases |keys|
  {
    if keys != [] {
      var init := keys[..|keys| - 1];
      var key := keys[|keys| - 1];
      AccumulateFolder(folder, remote, region, init);
      var prev := Accumulate(folder, remote, region, init);
      if prev.series.Success? {
        CacheNameOfKey(key);
        ResolveStep(prev.folder, remote, key);
        var st := Accumulate(folder, remote, region, keys);
        assert st.folder == Resolve(prev.folder, remote, key).folder;
        if NameOf(key) !in prev.folder {
          assert st.downloads == prev.downloads + [NameOf(key)];
          assert NameOf(key) !in prev.downloads;
        } else {
          assert st.downloads == prev.downloads;
        }
      }
    }
  }

  /** The record of day `key` is `rec`: the day's file is in the folder `after`,
      and `rec` is what extraction yields on the table the run used for that day. */
  predicate FromDay(folder: map<string, Table>, remote: map<string, Table>, region: string,
                    after: map<string, Table>, key: string, rec: Record)
  {
    && NameOf(key) in after
    && (NameOf(key) in folder || UrlString(key) in remote)
    && ExtractRegion(SourceTable(folder, remote, key), region) == Success(rec)
  }

  /** Appending one day's record to a series of day records, while the folder
      only grows, keeps every earlier day's record valid. */
  lemma FromDayAppend(folder: map<string, Table>, remote: map<string, Table>, region: string,
                      a: map<string, Table>, b: map<string, Table>,
                      keys: seq<string>, series: seq<Record>, key: string, rec: Record)
    requires |keys| == |series| && a.Keys <= b.Keys
    requires forall i :: 0 <= i < |keys| ==> FromDay(folder, remote, region, a, keys[i], series[i])
    requires FromDay(folder, remote, region, b, key, rec)
    ensures forall i :: 0 <= i < |keys| + 1 ==>
              FromDay(folder, remote, region, b, (keys + [key])[i], (series + [rec])[i])
  {
    forall i | 0 <= i < |keys| + 1
      ensures FromDay(folder, remote, region, b, (keys + [key])[i], (series + [rec])[i])
    {
      if i < |keys| {
        assert (keys + [key])[i] == keys[i] && (series + [rec])[i] == series[i];
        assert FromDay(folder, remote, region, a, keys[i], series[i]);
      }
    }
  }

  /** The last day of a run that does not fail: the day before also succeeded,
      and one record, extracted from the table the run used for that day, is
      appended. */
  lemma LastDay(folder: map<string, Table>, remote: map<string, Table>, region: string, keys: seq<string>)
    requires EightCharKeys(keys) && keys != []
    requires Accumulate(folder, remote, region, keys).series.Success?
    ensures var n := |keys| - 1;
            var prev := Accumulate(folder, remote, region, keys[..n]);
            var st := Accumulate(folder, remote, region, keys);
            && prev.series.Success?
            && st.series.value == prev.series.value + [st.series.value[|st.series.value| - 1]]
            && prev.folder.Keys <= st.folder.Keys
            && FromDay(folder, remote, region, st.folder, keys[n], st.series.value[|st.series.value| - 1])
  {
    var n := |keys| - 1;
    var init, key := keys[..n], keys[n];
    assert EightCharKeys(init);
    AccumulateFolder(folder, remote, region, init);
    CacheNameOfKey(key);
    var prev := Accumulate(folder, remote, region, init);
    ResolveStep(prev.folder, remote, key);
  }

  /** A run that does not fail yields one record per key, in key order, each
      extracted from the table the run used for that day, and every key's file
      is in the folder afterwards. */
  lemma {:induction false} AccumulateSeries(folder: map<string, Table>, remote: map<string, Table>, region: string, keys: seq<string>)
    requires EightCharKeys(keys)
    requires Accumulate(folder, remote, region, keys).series.Success?
    ensures var st := Accumulate(folder, remote, region, keys);
            && |st.series.value| == |keys|
            && forall i :: 0 <= i < |keys| ==> FromDay(folder, remote, region, st.folder, keys[i], st.series.value[i])
    decreases |keys|
  {
    if keys != [] {
      var n := |keys| - 1;
      var init := keys[..n];
      var st := Accumulate(folder, remote, region, keys);
      var prev := Accumulate(folder, remote, region, init);
      LastDay(folder, remote, region, keys);
      assert EightCharKeys(init);
      AccumulateSeries(folder, remote, region, init);
      var rec := st.series.value[|st.series.value| - 1];
      FromDayAppend(folder, remote, region, prev.folder, st.folder, init, prev.series.value, keys[n], rec);
      assert init + [keys[n]] == keys;
    }
  }

  /** In a run that does not fail, exactly the keys whose file was missing at
      the start are downloaded. */
  lemma AccumulateDownloads(folder: map<string, Table>, remote: map<string, Table>, region: string, keys: seq<string>)
    requires EightCharKeys(keys)
    requires Accumulate(folder, remote, region, keys).series.Success?
    ensures var st := Accumulate(folder, remote, region, keys);
            forall i :: 0 <= i < |keys| ==> (NameOf(keys[i]) in st.downloads <==> NameOf(keys[i]) !in folder)
  {
    AccumulateSeries(folder, remote, region, keys);
    AccumulateFolder(folder, remote, region, keys);
  }

  /** Running again over the same keys with the folder a successful run left
      behind downloads nothing, leaves the folder as it is, and yields the same
      series, whatever the remote side answers. */
  lemma RerunDownloadsNothing(folder: map<string, Table>, remote: map<string, Table>, region: string, keys: seq<string>, remote2: map<string, Table>)
    requires EightCharKeys(keys)
    requires Accumulate(folder, remote, region, keys).series.Success?
    ensures var st := Accumulate(folder, remote, region, keys);
            Accumulate(st.folder, remote2, region, keys) == RunState(st.folder, st.series, [])
  {
    var st := Accumulate(folder, remote, region, keys);
    AccumulateSeries(folder, remote, region, keys);
    AccumulateFolder(folder, remote, region, keys);
    forall i | 0 <= i < |keys|
      ensures NameOf(keys[i]) in st.folder
      ensures st.folder[NameOf(keys[i])] == SourceTable(folder, remote, keys[i])
    {
      CacheNameOfKey(keys[i]);
    }
    CachedRun(st.folder, remote2, region, keys, st.series.value);
  }

  /** A day whose file is cached is a hit: the folder and the downloads stay
      as they are and the cached table's record is appended. */
  lemma HitStep(prev: RunState, remote: map<string, Table>, region: string, key: string, rec: Record)
    requires prev.series.Success? && NameOf(key) in prev.folder
    requires ExtractRegion(prev.folder[NameOf(key)], region) == Success(rec)
    ensures Step(prev, remote, region, key) == RunState(prev.folder, Success(prev.series.value + [rec]), prev.downloads)
  {
    assert Resolve(prev.folder, remote, key) == Resolved(prev.folder, Success(prev.folder[NameOf(key)]), false);
  }

  /** When every key's file is cached and its table yields the given record,
      the run is all cache hits. */
  lemma {:induction false} CachedRun(folder: map<string, Table>, remote: map<string, Table>, region: string, keys: seq<string>, series: seq<Record>)
    requires |series| == |keys|
    requires forall i :: 0 <= i < |keys| ==>
               NameOf(keys[i]) in folder && ExtractRegion(folder[NameOf(keys[i])], region) == Success(series[i])
    ensures Accumulate(folder, remote, region, keys) == RunState(folder, Success(series), [])
    decreases |keys|
  {
    if keys != [] {
      var n := |keys| - 1;
      var init, last := keys[..n], keys[n];
      forall i | 0 <= i < n
        ensures NameOf(init[i]) in folder && ExtractRegion(folder[NameOf(init[i])], region) == Success(series[..n][i])
      {
        assert init[i] == keys[i];
      }
      CachedRun(folder, remote, region, init, series[..n]);
      HitStep(RunState(folder, Success(series[..n]), []), remote, region, last, series[n]);
      assert series[..n] + [series[n]] == series;
    }
  }

  // ---------------------------------------------------------------------------
  // The script as a whole

  /** The tracker's persistent state: the `daily-data` folder and the output
      file `data_time_series.csv` (None while it does not exist). */
  class TrackerState {
    var folder: map<string, Table>
    var output: Option<seq<Record>>

    constructor (folder: map<string, Table>, output: Option<seq<Record>>)
      ensures this.folder == folder && this.output == output
    {
      this.folder := folder;
      this.output := output;
    }

    /** The cache-then-fetch block: the day's table from the folder when its file is there,
        otherwise downloaded and saved under the file name. */
    method ReadOrDownload(key: string, remote: map<string, Table>) returns (df: Result<Table, Failure>, downloaded: bool)
      modifies this`folder
      ensures var r := Resolve(old(folder), remote, key);
              folder == r.folder && df == r.table && downloaded == r.downloaded
    {
      var fullString := UrlString(key);
      var name := CacheName(fullString);
      if name !in folder {
        downloaded := true;
        if fullString !in remote {
          return Failure(NotAvailable(name)), downloaded;
        }
        df := Success(remote[fullString]);
        folder := folder[name := remote[fullString]];
      } else {
        downloaded := false;
        df := Success(folder[name]);
      }
    }

    /** One pass of the daily loop: the day's table is read or downloaded and
        the region's record appended to the series, or the run fails. */
    method ProcessDay(key: string, region: string, remote: map<string, Table>, series: seq<Record>, downloads: seq<string>)
      returns (next: Result<seq<Record>, Failure>, downloadsAfter: seq<string>)
      modifies this`folder
      ensures RunState(folder, next, downloadsAfter) ==
              Step(RunState(old(folder), Success(series), downloads), remote, region, key)
    {
      var df, downloaded := ReadOrDownload(key, remote);
      downloadsAfter := downloads + (if downloaded then [NameOf(key)] else []);
      if df.Failure? {
        return Failure(df.error), downloadsAfter;
      }
      var rec := ExtractRegion(df.value, region);
      if rec.Failure? {
        return Failure(rec.error), downloadsAfter;
      }
      next := Success(series + [rec.value]);
    }

    /** The daily loop over the day keys: every day is resolved and extracted in
        turn, the first failure ends the run, and the series is written to
        the output file only when all of them succeed. */
    method Collect(region: string, keys: seq<string>, remote: map<string, Table>)
      returns (outcome: Result<seq<Record>, Failure>, downloads: seq<string>)
      modifies this
      ensures var st := Accumulate(old(folder), remote, region, keys);
              && folder == st.folder && outcome == st.series && downloads == st.downloads
              && output == (if st.series.Success? then Some(st.series.value) else old(output))
    {
      var series: seq<Record> := [];
      downloads := [];
      var i := 0;
      while i < |keys|
        invariant 0 <= i <= |keys|
        invariant Accumulate(old(folder), remote, region, keys[..i]) == RunState(folder, Success(series), downloads)
        invariant output == old(output)
      {
        assert keys[..i + 1][..i] == keys[..i];
        var next;
        next, downloads := ProcessDay(keys[i], region, remote, series, downloads);
        if next.Failure? {
          FailureIsFinal(old(folder), remote, region, keys, i + 1);
          return next, downloads;
        }
        series := next.value;
        i := i + 1;
      }
      assert keys[..i] == keys;
      output := Some(series);
      outcome := Success(series);
    }

    /** The whole tracker for the region and the end date: the end date is turned
        into the day keys and the run collects them. */
    method Run(region: string, y: int, m: int, d: int, remote: map<string, Table>)
      returns (outcome: Result<seq<Record>, Failure>, downloads: seq<string>)
      modifies this
      ensures IteratorKeys(y, m, d).None? ==>
                outcome == Failure(EndDateRejected) && downloads == [] &&
                folder == old(folder) && output == old(output)
      ensures IteratorKeys(y, m, d).Some? ==>
                var st := Accumulate(old(folder), remote, region, IteratorKeys(y, m, d).value);
                && folder == st.folder && outcome == st.series && downloads == st.downloads
                && output == (if st.series.Success? then Some(st.series.value) else old(output))
    {
      var it := GetDateIterators(y, m, d);
      if it.None? {
        return Failure(EndDateRejected), [];
      }
      outcome, downloads := Collect(region, it.value, remote);
    }
  }
}
