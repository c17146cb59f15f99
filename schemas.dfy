/** The three record types shared by the tools (src/nwa_hydro/schemas.py).
    Each is an immutable value; the pydantic field defaults become Dafny
    constructor defaults, so `ClimateData(d, lo, hi, mean, lat, src)` leaves
    precipitation and humidity at 0.0 exactly as the model class does. */
module Schemas {

  /** One day of weather at a latitude. `source` is a free string; the tools
      only ever write "API", "API (Range)" or "CSV". */
  datatype ClimateData = ClimateData(
    date: string,
    tmin: real,
    tmax: real,
    tmean: real,
    lat: real,
    source: string,
    precipitation: real := 0.0,
    humidity: real := 0.0)

  /** The outcome of an ETo calculation; `inputData` keeps the whole record used. */
  datatype EToResult = EToResult(
    date: string,
    eto: real,
    methodName: string := "Hargreaves",
    inputData: ClimateData)

  /** The advisory; `riskLevel` is unrestricted text. */
  datatype AgronomistInsight = AgronomistInsight(
    summary: string,
    advice: string,
    riskLevel: string,
    etoValue: real)

  /** Omitting precipitation and humidity gives 0.0 for both, and the
      required fields are stored as given. */
  lemma ClimateDataDefaults(date: string, tmin: real, tmax: real, tmean: real, lat: real, source: string)
    ensures var c := ClimateData(date, tmin, tmax, tmean, lat, source);
            c.precipitation == 0.0 && c.humidity == 0.0 &&
            c.date == date && c.tmin == tmin && c.tmax == tmax && c.tmean == tmean &&
            c.lat == lat && c.source == source
  {
  }

  /** The record type imposes no order on the temperatures and no relation
      between tmean and the extremes: an inverted record is a valid value. */
  lemma ClimateDataUnconstrained()
    ensures exists c: ClimateData :: c.tmax < c.tmin && c.tmean != (c.tmax + c.tmin) / 2.0
  {
    var c := ClimateData("2023-01-01", 30.0, 10.0, 0.0, 12.0, "CSV");
    assert c.tmax < c.tmin && c.tmean != (c.tmax + c.tmin) / 2.0;
  }

  /** Omitting the method tag gives "Hargreaves"; the climate record is kept whole. */
  lemma EToResultDefaults(date: string, eto: real, input: ClimateData)
    ensures var r := EToResult(date, eto, inputData := input);
            r.methodName == "Hargreaves" && r.inputData == input && r.eto == eto
  {
  }

  /** Any string is a risk level, including "Unknown" and values no ladder produces. */
  lemma RiskLevelUnrestricted(risk: string, eto: real)
    ensures AgronomistInsight("s", "a", risk, eto).riskLevel == risk
  {
  }
}
