/** The climate fusion resolver (src/nwa_hydro/tools/fusion.py).

    The HTTP call to the Open-Meteo archive and the read of the local CSV are
    inputs here: `ApiResponse` is what the request produced, `LocalFile` what
    the fallback table holds. What remains is the decision procedure: which
    key is read, when a field defaults to 0.0, when the single-day path falls
    back to the table, and how the range path maps parallel arrays to an
    ordered list of records. */
module Fusion {
  import opened Wrappers
  import opened Schemas

  const TEMPERATURE_MAX := "temperature_2m_max"
  const TEMPERATURE_MIN := "temperature_2m_min"
  const TEMPERATURE_MEAN := "temperature_2m_mean"
  const PRECIPITATION_SUM := "precipitation_sum"
  const PRECIPITATION := "precipitation"
  const HUMIDITY_MEAN := "relative_humidity_2m_mean"
  const HUMIDITY_MEAN_LEGACY := "relativehumidity_2m_mean"

  /** The "daily" object of a response: the "time" array and the numeric
      arrays by name. A missing "daily" object is `Daily([], map[])`, a
      missing "time" array is `[]`. A key whose value is JSON null behaves
      like a missing key in every branch of both paths, so it is one here;
      a null element of an array is `None`. */
  datatype Daily = Daily(time: seq<Option<string>>, series: map<string, seq<Option<real>>>)

  /** `RequestFailed` stands for every failure before "daily" is read: a
      transport error, a non-2xx status, a body that is not a JSON object. */
  datatype ApiResponse = RequestFailed | Received(daily: Daily)

  /** One row of the local table. A column the file lacks is never read, so
      the row's value for it does not matter. */
  datatype CsvRow = CsvRow(date: string, tmin: real, tmax: real, tmean: real, precipitation: real, humidity: real)

  datatype LocalTable = LocalTable(rows: seq<CsvRow>, hasPrecipitation: bool, hasHumidity: bool)

  datatype LocalFile = Missing | Present(table: LocalTable)

  /** The two exceptions `_load_from_csv` raises (FileNotFoundError, ValueError). */
  datatype CsvError = FileNotFound | NoRowForDate

  /** `daily.get(key)` as Python truthiness sees it: a missing key and an
      empty array both read as []. */
  function Array(d: Daily, key: string): seq<Option<real>>
  {
    if key in d.series then d.series[key] else []
  }

  /** `daily[key][i]`: None when the key is missing, the index is out of
      range or the element is null (the record constructor rejects null). */
  function RequiredAt(d: Daily, key: string, i: nat): Option<real>
  {
    if i < |Array(d, key)| then Array(d, key)[i] else None
  }

  // ---------------------------------------------------------------------
  // Single day: remote first, then the local table

  /** `daily.get(primary) or daily.get(secondary)` */
  function EitherArray(d: Daily, primary: string, secondary: string): seq<Option<real>>
  {
    if Array(d, primary) != [] then Array(d, primary) else Array(d, secondary)
  }

  /** `float(values[0]) if values else 0.0`: None when the first element is
      null, since float(None) raises. */
  function FirstOrZero(values: seq<Option<real>>): Option<real>
  {
    if values == [] then Some(0.0) else values[0]
  }

  /** The remote single-day attempt: Some(record) when every read succeeds,
      None when any of them raises (which sends the caller to the table). */
  function FetchDayFromApi(lat: real, targetDate: string, response: ApiResponse): (r: Option<ClimateData>)
    ensures r.Some? ==> r.value.date == targetDate && r.value.lat == lat && r.value.source == "API"
    ensures r.Some? ==> response.Received? &&
                        RequiredAt(response.daily, TEMPERATURE_MIN, 0) == Some(r.value.tmin) &&
                        RequiredAt(response.daily, TEMPERATURE_MAX, 0) == Some(r.value.tmax) &&
                        RequiredAt(response.daily, TEMPERATURE_MEAN, 0) == Some(r.value.tmean)
    ensures response.Received? && RequiredAt(response.daily, TEMPERATURE_MIN, 0).Some? &&
            RequiredAt(response.daily, TEMPERATURE_MAX, 0).Some? &&
            RequiredAt(response.daily, TEMPERATURE_MEAN, 0).Some? &&
            FirstOrZero(EitherArray(response.daily, PRECIPITATION_SUM, PRECIPITATION)).Some? &&
            FirstOrZero(EitherArray(response.daily, HUMIDITY_MEAN, HUMIDITY_MEAN_LEGACY)).Some?
            ==> r.Some?
  {
    match response
    case RequestFailed => None
    case Received(d) =>
      var precipitation := FirstOrZero(EitherArray(d, PRECIPITATION_SUM, PRECIPITATION));
      var humidity := FirstOrZero(EitherArray(d, HUMIDITY_MEAN, HUMIDITY_MEAN_LEGACY));
      var tmin := RequiredAt(d, TEMPERATURE_MIN, 0);
      var tmax := RequiredAt(d, TEMPERATURE_MAX, 0);
      var tmean := RequiredAt(d, TEMPERATURE_MEAN, 0);
      if precipitation.Some? && humidity.Some? && tmin.Some? && tmax.Some? && tmean.Some? then
        Some(ClimateData(targetDate, tmin.value, tmax.value, tmean.value, lat, "API",
                         precipitation.value, humidity.value))
      else
        None
  }

  /** Index of the first row whose date string equals `date`, the row the
      pandas mask-then-iloc[0] selects. */
  function FirstRowFor(rows: seq<CsvRow>, date: string): (k: Option<nat>)
    ensures k.Some? ==> k.value < |rows| && rows[k.value].date == date &&
                        forall j :: 0 <= j < k.value ==> rows[j].date != date
    ensures k.None? ==> forall j :: 0 <= j < |rows| ==> rows[j].date != date
  {
    if rows == [] then None
    else if rows[0].date == date then Some(0)
    else
      match FirstRowFor(rows[1..], date)
      case None => None
      case Some(k) => Some(k + 1)
  }

  /** `_load_from_csv`: exact-date lookup in the local table. */
  function LoadFromCsv(lat: real, targetDate: string, local: LocalFile): (r: Result<ClimateData, CsvError>)
    ensures r == Err(FileNotFound) <==> local.Missing?
    ensures r == Err(NoRowForDate) <==>
              local.Present? && forall j :: 0 <= j < |local.table.rows| ==> local.table.rows[j].date != targetDate
    ensures r.Ok? ==> exists k :: 0 <= k < |local.table.rows| && IsFirstMatch(local.table, targetDate, k) &&
                                  r.value == TableRecord(local.table, k, lat)
    ensures r.Ok? ==> r.value.date == targetDate && r.value.lat == lat && r.value.source == "CSV"
  {
    match local
    case Missing => Err(FileNotFound)
    case Present(table) =>
      match FirstRowFor(table.rows, targetDate)
      case None => Err(NoRowForDate)
      case Some(k) => Ok(TableRecord(table, k, lat))
  }

  ghost predicate IsFirstMatch(table: LocalTable, date: string, k: nat)
    requires k < |table.rows|
  {
    table.rows[k].date == date && forall j :: 0 <= j < k ==> table.rows[j].date != date
  }

  /** The record built from row k: the row's date and temperatures, the
      caller's latitude, 0.0 for a column the file lacks, source "CSV". */
  function TableRecord(table: LocalTable, k: nat, lat: real): ClimateData
    requires k < |table.rows|
  {
    var row := table.rows[k];
    ClimateData(row.date, row.tmin, row.tmax, row.tmean, lat, "CSV",
                if table.hasPrecipitation then row.precipitation else 0.0,
                if table.hasHumidity then row.humidity else 0.0)
  }

  /** `fetch_climate_data`: the remote record when the request and every read
      succeed, otherwise whatever the local table gives, error included.
      The source tag says which of the two produced the record. */
  function FetchClimateData(lat: real, targetDate: string, response: ApiResponse, local: LocalFile)
    : (r: Result<ClimateData, CsvError>)
    ensures r.Ok? && r.value.source == "API" <==> FetchDayFromApi(lat, targetDate, response).Some?
    ensures r.Ok? && r.value.source == "CSV" <==>
              FetchDayFromApi(lat, targetDate, response).None? && LoadFromCsv(lat, targetDate, local).Ok?
    ensures r.Err? <==> FetchDayFromApi(lat, targetDate, response).None? && LoadFromCsv(lat, targetDate, local).Err?
    ensures FetchDayFromApi(lat, targetDate, response).Some? ==> r == Ok(FetchDayFromApi(lat, targetDate, response).value)
    ensures FetchDayFromApi(lat, targetDate, response).None? ==> r == LoadFromCsv(lat, targetDate, local)
    ensures r.Ok? ==> r.value.date == targetDate && r.value.lat == lat
  {
    match FetchDayFromApi(lat, targetDate, response)
    case Some(record) => Ok(record)
    case None => LoadFromCsv(lat, targetDate, local)
  }

  // ---------------------------------------------------------------------
  // Properties of the single-day path

  /** While "precipitation_sum" holds a non-empty array, the "precipitation"
      array is never consulted. */
  lemma PrecipitationKeyShadowsAlternate(lat: real, date: string, d: Daily, p: seq<Option<real>>)
    requires Array(d, PRECIPITATION_SUM) != []
    ensures var d' := d.(series := d.series[PRECIPITATION := p]);
            FetchDayFromApi(lat, date, Received(d')) == FetchDayFromApi(lat, date, Received(d))
  {
  }

  /** While "relative_humidity_2m_mean" holds a non-empty array, the
      "relativehumidity_2m_mean" array is never consulted. */
  lemma HumidityKeyShadowsAlternate(lat: real, date: string, d: Daily, h: seq<Option<real>>)
    requires Array(d, HUMIDITY_MEAN) != []
    ensures var d' := d.(series := d.series[HUMIDITY_MEAN_LEGACY := h]);
            FetchDayFromApi(lat, date, Received(d')) == FetchDayFromApi(lat, date, Received(d))
  {
  }

  /** Precipitation comes from the first element of "precipitation_sum",
      else of "precipitation", else is 0.0; humidity likewise. */
  lemma OptionalFieldSelection(lat: real, date: string, d: Daily)
    requires FetchDayFromApi(lat, date, Received(d)).Some?
    ensures var c := FetchDayFromApi(lat, date, Received(d)).value;
            (Array(d, PRECIPITATION_SUM) != [] ==> Some(c.precipitation) == Array(d, PRECIPITATION_SUM)[0]) &&
            (Array(d, PRECIPITATION_SUM) == [] && Array(d, PRECIPITATION) != [] ==>
               Some(c.precipitation) == Array(d, PRECIPITATION)[0]) &&
            (Array(d, PRECIPITATION_SUM) == [] && Array(d, PRECIPITATION) == [] ==> c.precipitation == 0.0) &&
            (Array(d, HUMIDITY_MEAN) != [] ==> Some(c.humidity) == Array(d, HUMIDITY_MEAN)[0]) &&
            (Array(d, HUMIDITY_MEAN) == [] && Array(d, HUMIDITY_MEAN_LEGACY) != [] ==>
               Some(c.humidity) == Array(d, HUMIDITY_MEAN_LEGACY)[0]) &&
            (Array(d, HUMIDITY_MEAN) == [] && Array(d, HUMIDITY_MEAN_LEGACY) == [] ==> c.humidity == 0.0)
  {
  }

  /** A null first element in the chosen precipitation or humidity array makes
      the conversion raise, so the whole remote attempt is abandoned. */
  lemma NullOptionalHeadAbandonsApi(lat: real, date: string, d: Daily)
    requires || (EitherArray(d, PRECIPITATION_SUM, PRECIPITATION) != [] &&
                 EitherArray(d, PRECIPITATION_SUM, PRECIPITATION)[0].None?)
             || (EitherArray(d, HUMIDITY_MEAN, HUMIDITY_MEAN_LEGACY) != [] &&
                 EitherArray(d, HUMIDITY_MEAN, HUMIDITY_MEAN_LEGACY)[0].None?)
    ensures FetchDayFromApi(lat, date, Received(d)).None?
  {
  }

  /** The test scenario: the request fails (HTTP 500) and the table holds the
      day, so the record comes from the table with its tmean. */
  lemma FailedRequestUsesTable(lat: real, date: string, table: LocalTable, k: nat)
    requires k < |table.rows| && table.rows[k].date == date
    ensures var r := FetchClimateData(lat, date, RequestFailed, Present(table));
            r.Ok? && r.value.source == "CSV" && r.value.date == date &&
            exists j :: 0 <= j <= k && r.value.tmean == table.rows[j].tmean && table.rows[j].date == date
  {
  }

  // ---------------------------------------------------------------------
  // Date range: parallel arrays to an ordered list of records

  /** `daily[key][i] if daily.get(key) else 0.0`, then null becomes 0.0.
      None when the array is non-empty but too short (IndexError). */
  function OptionalAt(d: Daily, key: string, i: nat): Option<real>
  {
    if Array(d, key) == [] then Some(0.0)
    else if i < |Array(d, key)| then Some(Array(d, key)[i].GetOr(0.0))
    else None
  }

  /** `c` is the record the loop builds for index i. */
  ghost predicate IsRangeRecord(d: Daily, lat: real, i: nat, c: ClimateData)
    requires i < |d.time|
  {
    && d.time[i] == Some(c.date)
    && RequiredAt(d, TEMPERATURE_MIN, i) == Some(c.tmin)
    && RequiredAt(d, TEMPERATURE_MAX, i) == Some(c.tmax)
    && RequiredAt(d, TEMPERATURE_MEAN, i) == Some(c.tmean)
    && OptionalAt(d, PRECIPITATION_SUM, i) == Some(c.precipitation)
    && OptionalAt(d, HUMIDITY_MEAN, i) == Some(c.humidity)
    && c.lat == lat
    && c.source == "API (Range)"
  }

  /** A temperature array covers "time": present, at least as long, no null
      in the covered prefix. Nothing is read when "time" is empty. */
  ghost predicate RequiredCovers(d: Daily, key: string)
  {
    |d.time| == 0 ||
    (key in d.series && |d.time| <= |d.series[key]| &&
     forall i :: 0 <= i < |d.time| ==> d.series[key][i].Some?)
  }

  /** An optional array is missing, empty or at least as long as "time". */
  ghost predicate OptionalCovers(d: Daily, key: string)
  {
    Array(d, key) == [] || |d.time| <= |Array(d, key)|
  }

  /** The whole range converts without an exception. */
  ghost predicate RangeWellFormed(d: Daily)
  {
    && (forall i :: 0 <= i < |d.time| ==> d.time[i].Some?)
    && RequiredCovers(d, TEMPERATURE_MIN)
    && RequiredCovers(d, TEMPERATURE_MAX)
    && RequiredCovers(d, TEMPERATURE_MEAN)
    && OptionalCovers(d, PRECIPITATION_SUM)
    && OptionalCovers(d, HUMIDITY_MEAN)
  }

  /** Index i converts without an exception. */
  ghost predicate IndexWellFormed(d: Daily, i: nat)
    requires i < |d.time|
  {
    && d.time[i].Some?
    && RequiredAt(d, TEMPERATURE_MIN, i).Some?
    && RequiredAt(d, TEMPERATURE_MAX, i).Some?
    && RequiredAt(d, TEMPERATURE_MEAN, i).Some?
    && OptionalAt(d, PRECIPITATION_SUM, i).Some?
    && OptionalAt(d, HUMIDITY_MEAN, i).Some?
  }

  /** The array-wise condition is exactly "every index converts". */
  lemma {:induction false} RangeWellFormedPerIndex(d: Daily)
    ensures RangeWellFormed(d) <==> forall i :: 0 <= i < |d.time| ==> IndexWellFormed(d, i)
  {
    if forall i :: 0 <= i < |d.time| ==> IndexWellFormed(d, i) {
      forall i | 0 <= i < |d.time|
        ensures RequiredAt(d, TEMPERATURE_MIN, i).Some? && RequiredAt(d, TEMPERATURE_MAX, i).Some?
        ensures RequiredAt(d, TEMPERATURE_MEAN, i).Some?
      {
        assert IndexWellFormed(d, i);
      }
      RequiredCoversPerIndex(d, TEMPERATURE_MIN);
      RequiredCoversPerIndex(d, TEMPERATURE_MAX);
      RequiredCoversPerIndex(d, TEMPERATURE_MEAN);
      forall i | 0 <= i < |d.time| ensures d.time[i].Some? {
        assert IndexWellFormed(d, i);
      }
      if |d.time| > 0 {
        assert IndexWellFormed(d, |d.time| - 1);
      }
      assert RangeWellFormed(d);
    }
    if RangeWellFormed(d) {
      forall i | 0 <= i < |d.time| ensures IndexWellFormed(d, i) {
        assert d.time[i].Some?;
      }
    }
  }

  lemma {:induction false} RequiredCoversPerIndex(d: Daily, key: string)
    requires forall i :: 0 <= i < |d.time| ==> RequiredAt(d, key, i).Some?
    ensures RequiredCovers(d, key)
  {
    if |d.time| > 0 {
      assert RequiredAt(d, key, |d.time| - 1).Some?;
      forall i | 0 <= i < |d.time| ensures d.series[key][i].Some? {
        assert RequiredAt(d, key, i).Some?;
      }
    }
  }

  /** `fetch_climate_range`: one record per entry of "time", in that order,
      when every index converts; the empty list on any failure, never a
      prefix and never table data. */
  method FetchClimateRange(lat: real, response: ApiResponse) returns (records: seq<ClimateData>)
    ensures response.Received? && RangeWellFormed(response.daily) ==>
              |records| == |response.daily.time| &&
              forall i :: 0 <= i < |records| ==> IsRangeRecord(response.daily, lat, i, records[i])
    ensures !(response.Received? && RangeWellFormed(response.daily)) ==> records == []
  {
    records := [];
    if response.RequestFailed? {
      return;
    }
    var d := response.daily;
    RangeWellFormedPerIndex(d);
    var i := 0;
    while i < |d.time|
      invariant 0 <= i <= |d.time|
      invariant |records| == i
      invariant forall j :: 0 <= j < i ==> IndexWellFormed(d, j)
      invariant forall j :: 0 <= j < i ==> IsRangeRecord(d, lat, j, records[j])
    {
      var precipitation := OptionalAt(d, PRECIPITATION_SUM, i);
      var humidity := OptionalAt(d, HUMIDITY_MEAN, i);
      var tmin := RequiredAt(d, TEMPERATURE_MIN, i);
      var tmax := RequiredAt(d, TEMPERATURE_MAX, i);
      var tmean := RequiredAt(d, TEMPERATURE_MEAN, i);
      var date := d.time[i];
      if precipitation.None? || humidity.None? || tmin.None? || tmax.None? || tmean.None? || date.None? {
        assert !IndexWellFormed(d, i);
        records := [];
        return;
      }
      records := records + [ClimateData(date.value, tmin.value, tmax.value, tmean.value, lat, "API (Range)",
                                        precipitation.value, humidity.value)];
      i := i + 1;
    }
  }

  /** The range path reads no alternate key: changing the "precipitation"
      and "relativehumidity_2m_mean" arrays changes neither whether the
      range converts nor any record. */
  lemma RangeIgnoresAlternateKeys(d: Daily, lat: real, p: seq<Option<real>>, h: seq<Option<real>>)
    ensures var d' := d.(series := d.series[PRECIPITATION := p][HUMIDITY_MEAN_LEGACY := h]);
            (RangeWellFormed(d') <==> RangeWellFormed(d)) &&
            forall i, c :: 0 <= i < |d.time| ==> (IsRangeRecord(d', lat, i, c) <==> IsRangeRecord(d, lat, i, c))
  {
  }

  /** A temperature array shorter than "time" empties the whole range. */
  lemma ShortTemperatureArrayFailsRange(d: Daily, key: string)
    requires key == TEMPERATURE_MIN || key == TEMPERATURE_MAX || key == TEMPERATURE_MEAN
    requires |Array(d, key)| < |d.time|
    ensures !RangeWellFormed(d)
  {
  }
}
