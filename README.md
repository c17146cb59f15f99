# nwa-hydro core, modelled in Dafny

This project models the computational core of the NWA hydro tools: the record
types shared by the tools, the climate fusion resolver (Open-Meteo archive
first, local CSV table second), the Hargreaves-Samani ETo calculator of FAO
Irrigation and Drainage Paper 56, and the agronomist advisory generator with
its timeout and rule-based fallbacks.

Files:

- `wrappers.dfy`: `Option` and `Result`, used wherever the source raises or reads something that may be absent.
- `schemas.dfy`: `ClimateData`, `EToResult` and `AgronomistInsight` as datatypes. The pydantic field defaults are constructor defaults.
- `fusion.dfy`: the single-day resolver and its table fallback, as functions. The range resolver is a method whose loop builds the record list.
  - The HTTP response is an input value (`ApiResponse`).
  - The CSV file is an input value (`LocalFile`).
- `calendar.dfy`: `datetime.strptime(date, "%Y-%m-%d")` and `tm_yday`.
  - The parser follows the pattern CPython builds for that format.
  - The day of the year follows CPython's table of days before each month.
- `science.dfy`: FAO-56 equations 21, 23, 24, 25 and 52, written as the code writes them.
  - sin, cos, tan, acos and sqrt are the fields of a `Maths` value.
  - `Lawful` states the only laws assumed of them: acos is defined on [-1, 1]; sqrt is defined and non-negative on x ≥ 0; sin and cos lie in [-1, 1]; sqrt(0) = 0, acos(1) = 0 and sin(0) = 0.
  - Because acos and sqrt are partial functions, the clamp and the ΔT floor are exactly what makes each call well-defined.
- `pytext.dfy`: the Python string operations the advisory code relies on: `str.strip()`, `str.upper()` and substring search.
- `intelligence.dfy`: the risk heuristic, the threshold ladder and the outcome selection of `generate_agronomist_insight`.
  - The Gemini call is an input (`BackendCall`).
  - `json.loads` is an input function (`loads`).

`CalculateHargreavesEto` is a function, so the same record always gives the
same result: the calculator reads no state besides the constant `GSC`.

Where the code does less than its own comments and schemas announce, the model follows the code:

- `risk_level` is documented as "Low", "Medium" or "High" (src/nwa_hydro/schemas.py:34), and the response schema sent to the backend enumerates those three (src/nwa_hydro/tools/intelligence.py:29). The code nevertheless passes the backend's string through unnormalised, so a string outside that set reaches the caller (`RiskLevelOrigin`).
- The advice can be empty (`EmptyAdvicePossible`).
- The date is documented as "YYYY-MM-DD" (src/nwa_hydro/schemas.py:10), but it need not be zero-padded: "2023-1-5" is accepted, as strptime accepts it (`StrptimeLeniency`).
- The ETo omits FAO-56's 0.408 conversion of Ra to mm/day (`EtoOmitsRadiationConversion`). The repository's test pins the resulting value (about 8.9 mm/day), so this is modelled as written and not reported as a finding.

## Model

| member | source | states |
|---|---|---|
| `Schemas.ClimateDataDefaults` | src/nwa_hydro/schemas.py:10-17 | date, tmin, tmax, tmean, lat and source are required and stored as given; precipitation and humidity default to 0.0 |
| `Schemas.ClimateDataUnconstrained` | src/nwa_hydro/schemas.py:11-13 | a record with tmax < tmin and tmean ≠ (tmax+tmin)/2 is a valid value: the type imposes no order |
| `Schemas.EToResultDefaults` | src/nwa_hydro/schemas.py:23-26 | the method tag defaults to "Hargreaves" and input_data holds the whole climate record |
| `Schemas.RiskLevelUnrestricted` | src/nwa_hydro/schemas.py:34 | any string, "Unknown" included, is accepted as a risk level |
| `Fusion.FetchDayFromApi` | src/nwa_hydro/tools/fusion.py:35-49 | a remote record carries the requested date (not one from the response), the passed latitude and source "API", and its temperatures are the first elements of the three temperature arrays; when all reads succeed the record exists |
| `Fusion.PrecipitationKeyShadowsAlternate` | src/nwa_hydro/tools/fusion.py:36 | while "precipitation_sum" holds a non-empty array, the "precipitation" array is never consulted, whatever the humidity keys hold |
| `Fusion.HumidityKeyShadowsAlternate` | src/nwa_hydro/tools/fusion.py:37 | while "relative_humidity_2m_mean" holds a non-empty array, the "relativehumidity_2m_mean" array is never consulted, whatever the precipitation keys hold |
| `Fusion.OptionalFieldSelection` | src/nwa_hydro/tools/fusion.py:36-39 | precipitation is the first element of "precipitation_sum", else of "precipitation", else 0.0; humidity likewise with its two keys |
| `Fusion.NullOptionalHeadAbandonsApi` | src/nwa_hydro/tools/fusion.py:38-39 | a null first element in the chosen precipitation or humidity array makes `float` raise, so the remote attempt fails as a whole |
| `Fusion.FirstRowFor` | src/nwa_hydro/tools/fusion.py:115-121 | finds the first row whose date string equals the target, or reports that none does |
| `Fusion.LoadFromCsv` | src/nwa_hydro/tools/fusion.py:108-132 | FileNotFound exactly when the file is absent; NoRowForDate exactly when no row matches; otherwise the record of the first matching row with source "CSV", the passed latitude, and 0.0 for an absent column |
| `Fusion.FetchClimateData` | src/nwa_hydro/tools/fusion.py:11-54 | source "API" exactly when the remote attempt succeeds, and then the result is exactly the remote record; source "CSV" exactly when it fails and the table has the day; an error only when both fail; on remote failure the result is the table lookup's |
| `Fusion.FailedRequestUsesTable` | tests/test_tools.py:10-19 | with a failed request and the day in the table, the result is a "CSV" record for that date with the table's tmean |
| `Fusion.RangeWellFormedPerIndex` | src/nwa_hydro/tools/fusion.py:83-97 | the array-wise coverage condition holds exactly when every index of "time" converts without an exception |
| `Fusion.FetchClimateRange` | src/nwa_hydro/tools/fusion.py:57-105 | when the arrays cover "time", one record per entry, in order: date = time[i], temperatures from index i, 0.0 for a missing/empty array or null element, source "API (Range)"; on any failure the empty list, never a prefix |
| `Fusion.RangeIgnoresAlternateKeys` | src/nwa_hydro/tools/fusion.py:84-85 | the range path reads no alternate key name: changing those arrays changes neither success nor any record |
| `Fusion.ShortTemperatureArrayFailsRange` | src/nwa_hydro/tools/fusion.py:89-91 | a temperature array shorter than "time" makes the range fail (hence the empty list) |
| `Calendar.ParseDate` | src/nwa_hydro/tools/science.py:37 | strptime's "%Y-%m-%d" pattern, end-of-input check and calendar check; every accepted date is a real Gregorian date with year ≥ 1 |
| `Calendar.ParseFormatRoundTrip` | src/nwa_hydro/tools/science.py:37 | every valid date written as zero-padded YYYY-MM-DD parses back to itself |
| `Calendar.ParseCanonical` | src/nwa_hydro/tools/science.py:37 | a ten-character string without a space-padded day is accepted only when it is the zero-padded form of the date it yields; with the round trip, such a string parses exactly when it writes a real date |
| `Calendar.StrptimeLeniency` | src/nwa_hydro/tools/science.py:37 | unpadded month/day and a space-padded day are accepted; Feb 29 of a common year, trailing characters and year 0 are refused |
| `Calendar.DayOfYear` | src/nwa_hydro/tools/science.py:38 | tm_yday, computed from CPython's days-before-month table, equals the lengths of the preceding months plus the day of the month |
| `Calendar.YearLength` | src/nwa_hydro/tools/science.py:38 | the twelve month lengths sum to 366 in a Gregorian leap year and 365 otherwise |
| `Calendar.DayOfYearBounds` | src/nwa_hydro/tools/science.py:38 | day of year is in 1..366, and is 366 exactly on Dec 31 of a leap year |
| `Calendar.DayOfYearStrictlyIncreasing` | src/nwa_hydro/tools/science.py:38 | within a year a later date has a larger day of year |
| `Science.ClampUnit` | src/nwa_hydro/tools/science.py:17-18 | the clamped value lies in [-1, 1] and is the point of that interval nearest to the input |
| `Science.Radians` | src/nwa_hydro/tools/science.py:40 | the conversion keeps the sign and takes a latitude in [-90, 90] into [-π/2, π/2] |
| `Science.InverseRelativeDistance` | src/nwa_hydro/tools/science.py:14 | Eq. 23 as written; the factor stays within 1 ± 0.033 |
| `Science.SolarDeclination` | src/nwa_hydro/tools/science.py:15 | Eq. 24 as written; the declination stays within ±0.409 rad |
| `Science.SunsetHourAngle` | src/nwa_hydro/tools/science.py:16-19 | acos is always called inside its domain; the angle is acos(t) inside [-1, 1], acos(1) = 0 from 1 upward (polar night) and acos(-1) below -1 (midnight sun) |
| `Science.ExtraterrestrialRadiation` | src/nwa_hydro/tools/science.py:9-26 | Eq. 21 as written; in polar night (clamped argument at 1) the radiation is exactly 0. No bound or sign is stated otherwise |
| `Science.DeltaT` | src/nwa_hydro/tools/science.py:42 | ΔT is never negative and equals tmax − tmin whenever tmax ≥ tmin |
| `Science.HargreavesEto` | src/nwa_hydro/tools/science.py:43 | Eq. 52 as the code writes it: zero range gives 0; non-negative when tmean ≥ −17.8 and Ra ≥ 0; negative when tmean < −17.8 with positive Ra and sqrt(ΔT) |
| `Science.CalculateHargreavesEto` | src/nwa_hydro/tools/science.py:29-50 | rejected exactly when tmax < tmin (equality accepted), then exactly when the date does not parse; a result carries the input date, method "Hargreaves (Native)" and the unchanged input record, and ETo 0 when tmax = tmin |
| `Science.EtoOmitsRadiationConversion` | src/nwa_hydro/tools/science.py:41-43 | 0.408 × the computed ETo equals FAO-56 Eq. 52 with Ra converted to mm/day: the code leaves out the 0.408 factor |
| `Science.EqualTemperaturesGiveZero` | src/nwa_hydro/tools/science.py:42-43 | tmax = tmin with a valid date gives exactly 0 ETo at every latitude and day |
| `Science.FloorInactiveAfterValidation` | src/nwa_hydro/tools/science.py:34-42 | once validation passes, the ΔT floor never changes the range |
| `Science.EtoUsesTemperaturesDateAndLatitude` | src/nwa_hydro/tools/science.py:37-43 | the ETo is determined by date, tmin, tmax, tmean and latitude alone |
| `Science.EtoNotClampedAtZero` | src/nwa_hydro/tools/science.py:43 | with tmean < −17.8 and a positive sqrt(ΔT)·Ra, the ETo is negative: no clamp at zero |
| `PyText.Strip` | src/nwa_hydro/tools/intelligence.py:163-164 | `strip()` returns a slice of its input with only whitespace removed at both ends, neither starting nor ending with whitespace |
| `PyText.StripEmptyIffAllSpace` | src/nwa_hydro/tools/intelligence.py:163-164 | a stripped value is empty exactly when the input is all whitespace |
| `PyText.Upper` | src/nwa_hydro/tools/intelligence.py:36 | upper-casing keeps the length, and each position holds the same character up to ASCII case with no lower-case letter left |
| `PyText.UpperContainsIffMentions` | src/nwa_hydro/tools/intelligence.py:36-39 | searching the upper-cased text for an upper-case word is a case-insensitive search |
| `Intelligence.ParseRisk` | src/nwa_hydro/tools/intelligence.py:35-41 | "High" exactly when the text mentions "high" in any case; "Low" exactly when it mentions "low" and not "high"; "Medium" otherwise |
| `Intelligence.FallbackInsight` | src/nwa_hydro/tools/intelligence.py:65-82 | Low exactly for eto < 3.0, Medium exactly for 3.0 ≤ eto < 5.0, High exactly for eto ≥ 5.0, with the ladder's advice, summary "Automated analysis (reason)." and the given eto |
| `Intelligence.FallbackRiskMonotone` | src/nwa_hydro/tools/intelligence.py:67-75 | a higher ETo never yields a lower fallback risk |
| `Intelligence.FallbackBoundaries` | src/nwa_hydro/tools/intelligence.py:67-75 | 2.99 → Low, 3.0 → Medium, 4.99 → Medium, 5.0 → High |
| `Intelligence.ReplyText` | src/nwa_hydro/tools/intelligence.py:103-115 | no candidate, a SAFETY finish reason or missing parts are each an error; otherwise the first part's text of the first candidate |
| `Intelligence.DraftFromReply` | src/nwa_hydro/tools/intelligence.py:161-169 | whenever the reply yields values rather than a fallback, the summary is non-empty |
| `Intelligence.DraftFromBackend` | src/nwa_hydro/tools/intelligence.py:157-177 | every branch that assigns summary/advice/risk assigns a non-empty summary |
| `Intelligence.GenerateInsightAsWritten` | src/nwa_hydro/tools/intelligence.py:118-184 | a returned insight carries eto_result.eto; the validation error arises exactly when a key is set, the reply passes the checks, parses to an object whose summary and advice are strings (or absent), and holds a non-string risk_level |
| `Intelligence.GenerateInsight` | src/nwa_hydro/tools/intelligence.py:118-184 | every call yields an insight whose eto_value is eto_result.eto and whose summary is non-empty |
| `Intelligence.NoKeyIgnoresBackend` | src/nwa_hydro/tools/intelligence.py:122-129 | with the key unset or empty the result is the fixed "API key missing"/"Unknown" insight, whatever the backend would do |
| `Intelligence.JsonObjectReply` | src/nwa_hydro/tools/intelligence.py:161-165 | for a JSON object: blank summary → "Analysis generated.", blank advice → the raw reply, otherwise both stripped; missing risk_level → "Medium", a present one passes through |
| `Intelligence.ProseReply` | src/nwa_hydro/tools/intelligence.py:166-169 | non-JSON text gives "Analysis generated.", the text as advice and the heuristic risk |
| `Intelligence.TimeoutReply` | src/nwa_hydro/tools/intelligence.py:170-174 | a timeout gives the fixed timed-out summary and advice with risk "Medium" |
| `Intelligence.OtherFailuresUseFallback` | src/nwa_hydro/tools/intelligence.py:175-177 | a raising call, no candidate, a safety block, empty content, a non-object JSON value, or a non-string summary or advice each give the rule-based fallback with reason "API error" |
| `Intelligence.RiskLevelOrigin` | src/nwa_hydro/tools/intelligence.py:163-184 | the risk level is Low, Medium, High or Unknown unless it is the string a JSON object reply supplied |
| `Intelligence.EmptyAdvicePossible` | src/nwa_hydro/tools/intelligence.py:166-169 | an empty non-JSON reply gives an empty advice |
| `Intelligence.AsWrittenRaisesOnNonStringRisk` | src/nwa_hydro/tools/intelligence.py:179-184 | as written, a reply `{"risk_level": null}` makes the call raise instead of returning |
| `Intelligence.CorrectionOnlyReplacesTheRaise` | src/nwa_hydro/tools/intelligence.py:175-184 | the corrected generator equals the original wherever the original returns, and gives the "API error" fallback where it raised |

## Findings

| source | as written | input that shows it | evidently intended | confidence | as-written member | corrected member |
|---|---|---|---|---|---|---|
| src/nwa_hydro/tools/intelligence.py:179-184 | The insight is built after the try/except. A non-string `risk_level` therefore makes pydantic raise a ValidationError that reaches the caller. | A key is set and the backend replies `{"risk_level": null}`. | Any failure in handling the reply should yield the rule-based fallback, as the catch-all handler does for a non-string summary or advice. | medium; not executed | `Intelligence.AsWrittenRaisesOnNonStringRisk` (on `Intelligence.GenerateInsightAsWritten`) | `Intelligence.GenerateInsight`, with `Intelligence.CorrectionOnlyReplacesTheRaise` |

## Left out

- Network I/O is not modelled. That covers the httpx client, the archive URL and query parameters, and the 5 s and 8 s timeouts. Their results are the `ApiResponse` input.
- Longitude and the range's start and end dates only shape the request, so they are not parameters.
- CSV reading is not modelled: the existence check and `pd.read_csv`. The table is the `LocalFile` input.
- A table without the tmin/tmax/tmean columns is not modelled, nor are empty cells (NaN) or pandas' dtype inference on the date column.
- JSON values that are neither arrays nor null in "daily" are not modelled (a "time" value that is a number, say). Neither is pydantic's coercion of numeric strings.
- The Gemini SDK is not modelled. That covers model construction, safety settings, the generation config and the prompt text (`_build_prompt`). The prompt feedback is only logged.
- `genai.GenerativeModel(...)` and `_build_prompt` run outside the try block. Failures there are not modelled.
- `json.loads` is not modelled. Its result is the `loads` input.
- `asyncio.wait_for` timing is not modelled. A timeout is the `TimedOut` outcome.
- Logging, `print` and the `__main__` demonstration block are not modelled.
- Floating-point arithmetic is not modelled. Reals stand for floats, so NaN, infinities and rounding are outside the model. The fallback ladder's treatment of NaN is one example: every comparison is false, so NaN reaches "High".
- `PyText.Upper`: maps ASCII letters only. Python's full Unicode case mapping is not modelled: dotless ı becomes I, and ligatures such as ﬂ expand to several letters.
- `Calendar.ParseDate`: accepts ASCII digits only. CPython's `\d` also matches other Unicode decimal digits.
- `Science.CalculateHargreavesEto`: does not state a numeric value of the ETo. That includes the test's ≈8.9 mm/day and its finiteness, because sin, cos, tan, acos and sqrt are uninterpreted beyond `Lawful`.
- app.py (dashboard, charts, DataFrames, `_safe_float`) is not part of this model.
- src/nwa_hydro/server.py (MCP bootstrap, health probe) is not part of this model.
- tests/verify_stack.py is not part of this model.
- tests/test_server.py is not part of this model. It refers to tools the server module does not define.
