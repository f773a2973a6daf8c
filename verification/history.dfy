/** The forecast history of `conditions/history.py`: one row per forecast
    hour, inserted into a table whose rows are unique per (country slug, city
    slug, time) as declared in `conditions/models.py`. An insert whose key
    already exists is ignored. */
module History {
  import opened Wrappers
  import Snorkel

  /** An hour dictionary as `save_forecast_history` reads it: a key it does
      not contain is `None`. */
  datatype HourInput = HourInput(
    time: int,
    ok: Option<bool>,
    score: Option<real>,
    rating: Option<string>,
    waveHeight: Option<real>,
    windSpeed: Option<real>,
    seaSurfaceTemperature: Option<real>,
    seaLevelHeight: Option<real>,
    currentVelocity: Option<real>)

  /** A `ForecastHour` row. */
  datatype ForecastRow = ForecastRow(
    countrySlug: string,
    citySlug: string,
    time: int,
    ok: bool,
    score: real,
    rating: string,
    waveHeight: Option<real>,
    windSpeed: Option<real>,
    seaSurfaceTemperature: Option<real>,
    seaLevelHeight: Option<real>,
    currentVelocity: Option<real>)
  {
    /** The unique key of the row. */
    function Key(): RowKey { (countrySlug, citySlug, time) }
  }

  type RowKey = (string, string, int)

  /** The row built for one hour: `ok` missing is false, `score` missing is
      0.0 and `rating` missing is "unknown"; the metrics are copied. */
  function BuildRow(countrySlug: string, citySlug: string, h: HourInput): ForecastRow {
    ForecastRow(
      countrySlug, citySlug, h.time,
      h.ok == Some(true),
      h.score.GetOr(0.0),
      h.rating.GetOr("unknown"),
      h.waveHeight, h.windSpeed, h.seaSurfaceTemperature, h.seaLevelHeight, h.currentVelocity)
  }

  function BuildRows(countrySlug: string, citySlug: string, hours: seq<HourInput>): (rows: seq<ForecastRow>)
    ensures |rows| == |hours|
    ensures forall i :: 0 <= i < |hours| ==> rows[i] == BuildRow(countrySlug, citySlug, hours[i])
  {
    seq(|hours|, i requires 0 <= i < |hours| => BuildRow(countrySlug, citySlug, hours[i]))
  }

  /** The hour dictionary `fetch_forecast` produces for an hourly record: it
      has no `rating` key. */
  function FromForecast(h: Snorkel.Hour): HourInput {
    HourInput(h.time, Some(h.ok), Some(h.score), None,
      h.waveHeight, h.windSpeed, h.seaSurfaceTemperature, h.seaLevelHeight, h.currentVelocity)
  }

  /** A row saved from a forecast hour keeps the hour's time, `ok`, score
      and metrics, is tagged with the location, and is always rated
      "unknown", since the forecast hours carry no rating. */
  lemma ForecastRowsAreUnrated(countrySlug: string, citySlug: string, hs: seq<Snorkel.Hour>, i: nat)
    requires i < |hs|
    ensures var hours := seq(|hs|, j requires 0 <= j < |hs| => FromForecast(hs[j]));
      var r := BuildRows(countrySlug, citySlug, hours)[i];
      && r.Key() == (countrySlug, citySlug, hs[i].time)
      && r.rating == "unknown" && r.ok == hs[i].ok && r.score == hs[i].score
      && r.waveHeight == hs[i].waveHeight && r.currentVelocity == hs[i].currentVelocity
  {
  }

  /** A dictionary without `ok`, `score` or `rating` gives a row that is not
      ok, scores 0.0 and is rated "unknown". */
  lemma MissingFieldsDefault(countrySlug: string, citySlug: string, t: int)
    ensures var r := BuildRow(countrySlug, citySlug, HourInput(t, None, None, None, None, None, None, None, None));
      !r.ok && r.score == 0.0 && r.rating == "unknown" && r.waveHeight.None? && r.Key() == (countrySlug, citySlug, t)
  {
  }

  // ---------------------------------------------------------------------------
  // Insert ignoring conflicts
  // ---------------------------------------------------------------------------

  type Table = map<RowKey, ForecastRow>

  /** Every row is stored under its own key. */
  predicate KeysMatch(m: Table) {
    forall k :: k in m ==> m[k].Key() == k
  }

  /** Insert one row unless its key is taken. */
  function Insert(m: Table, r: ForecastRow): Table {
    if r.Key() in m then m else m[r.Key() := r]
  }

  /** `bulk_create(rows, ignore_conflicts=True)`: the rows in order, each
      ignored when its key is already taken (by an older row or an earlier
      row of the batch). */
  function InsertAll(m: Table, rows: seq<ForecastRow>): Table
    decreases |rows|
  {
    if rows == [] then m
    else
      var n := |rows| - 1;
      Insert(InsertAll(m, rows[..n]), rows[n])
  }

  function KeysOf(rows: seq<ForecastRow>): set<RowKey> {
    set i | 0 <= i < |rows| :: rows[i].Key()
  }

  /** Existing rows are never changed, every row's key ends up present, and
      nothing else is added. */
  lemma {:induction false} InsertAllKeeps(m: Table, rows: seq<ForecastRow>)
    ensures forall k :: k in m ==> k in InsertAll(m, rows) && InsertAll(m, rows)[k] == m[k]
    ensures InsertAll(m, rows).Keys == m.Keys + KeysOf(rows)
    ensures KeysMatch(m) ==> KeysMatch(InsertAll(m, rows))
    decreases |rows|
  {
    if rows != [] {
      var n := |rows| - 1;
      InsertAllKeeps(m, rows[..n]);
      KeysOfSnoc(rows);
    }
  }

  /** The keys of a batch are those of all but its last row, and the last row's. */
  lemma KeysOfSnoc(rows: seq<ForecastRow>)
    requires rows != []
    ensures KeysOf(rows) == KeysOf(rows[..|rows| - 1]) + {rows[|rows| - 1].Key()}
  {
    var n := |rows| - 1;
    forall k | k in KeysOf(rows)
      ensures k in KeysOf(rows[..n]) + {rows[n].Key()}
    {
      var i :| 0 <= i < |rows| && rows[i].Key() == k;
      if i < n {
        assert rows[..n][i] == rows[i];
      }
    }
    forall k | k in KeysOf(rows[..n])
      ensures k in KeysOf(rows)
    {
      var i :| 0 <= i < n && rows[..n][i].Key() == k;
      assert rows[i] == rows[..n][i];
    }
  }

  /** A new key holds the first row of the batch that has it. */
  lemma {:induction false} FirstRowWins(m: Table, rows: seq<ForecastRow>, i: nat)
    requires i < |rows| && rows[i].Key() !in m
    requires forall j :: 0 <= j < i ==> rows[j].Key() != rows[i].Key()
    ensures rows[i].Key() in InsertAll(m, rows) && InsertAll(m, rows)[rows[i].Key()] == rows[i]
    decreases |rows|
  {
    var n := |rows| - 1;
    InsertAllKeeps(m, rows[..n]);
    if i < n {
      assert rows[..n][i] == rows[i];
      FirstRowWins(m, rows[..n], i);
    } else {
      assert rows[i].Key() !in KeysOf(rows[..n]) by {
        forall j | 0 <= j < n
          ensures rows[..n][j].Key() != rows[i].Key()
        {
          assert rows[..n][j] == rows[j];
        }
      }
    }
  }

  /** Rows whose keys are all taken change nothing. */
  lemma {:induction false} InsertAllTaken(m: Table, rows: seq<ForecastRow>)
    requires KeysOf(rows) <= m.Keys
    ensures InsertAll(m, rows) == m
    decreases |rows|
  {
    if rows != [] {
      var n := |rows| - 1;
      KeysOfSnoc(rows);
      InsertAllTaken(m, rows[..n]);
    }
  }

  /** Saving the same rows twice leaves the table as after the first save. */
  lemma InsertAllIdempotent(m: Table, rows: seq<ForecastRow>)
    ensures InsertAll(InsertAll(m, rows), rows) == InsertAll(m, rows)
  {
    InsertAllKeeps(m, rows);
    InsertAllTaken(InsertAll(m, rows), rows);
  }

  /** The history table. */
  class HistoryTable {
    var rows: Table

    ghost predicate Valid()
      reads this
    {
      KeysMatch(rows)
    }

    constructor ()
      ensures Valid() && rows == map[]
    {
      rows := map[];
    }

    /** `save_forecast_history`: build one row per hour, then insert them
        ignoring conflicts. */
    method SaveForecastHistory(countrySlug: string, citySlug: string, hours: seq<HourInput>)
      requires Valid()
      modifies this`rows
      ensures Valid()
      ensures rows == InsertAll(old(rows), BuildRows(countrySlug, citySlug, hours))
      ensures hours == [] ==> rows == old(rows)
    {
      if hours == [] {
        return;
      }
      var built: seq<ForecastRow> := [];
      for i := 0 to |hours|
        invariant built == BuildRows(countrySlug, citySlug, hours[..i])
      {
        built := built + [BuildRow(countrySlug, citySlug, hours[i])];
      }
      assert hours[..|hours|] == hours;
      ghost var before := rows;
      for i := 0 to |built|
        invariant rows == InsertAll(before, built[..i])
      {
        assert built[..i + 1][..i] == built[..i];
        var r := built[i];
        if r.Key() !in rows {
          rows := rows[r.Key() := r];
        }
      }
      assert built[..|built|] == built;
      InsertAllKeeps(before, built);
    }
  }
}
