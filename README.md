# Weather MCP server (stateless HTTP variant): a Dafny model

The server exposes two tools over the Model Context Protocol, `get-alerts` and
`get-forecast`. Both answer with text built from the National Weather Service
API (`https://api.weather.gov`). The server runs behind an Express endpoint,
`/mcp`: a POST goes to a fresh MCP server and transport, while GET and DELETE
are refused.

This project models the logic in `src/index.ts` that decides what each tool
answers, and what the `/mcp` routes send back. The upstream fetches are
parameters, typed `string -> Option<Response>`. `None` stands for any falsy
result: the `null` that `makeNWSRequest` returns when the fetch fails, and a
body that decodes to `null`, `false`, `0` or `""`, since the handlers test
`!alertsData`, `!pointsData` and `!forecastData`. Each handler returns a
`Reply`, which holds the answer text and the URLs the handler fetched, in the
order it fetched them. So "the forecast is never fetched" is a statement about
that list.

Modules:

- `Wrappers`: `Option`, which stands for an absent (`undefined`) field or a `null` result.
- `Text`:
  - JavaScript `||` on an optional string (`Or`).
  - `join` (`Join`), with `split` (`Split`, `Lines`) as its inverse.
  - `toUpperCase` (`ToUpper`).
  - The decimal text of an integer (`IntToString`), with the parser that reads it back.
- `Tool`: the API base URL and the `Reply` shape.
- `Alerts`: the alert record, `formatAlert` and the `get-alerts` handler.
- `Forecast`: the forecast period, the period formatter and the `get-forecast` handler.
- `Http`: the three `/mcp` routes.

Behaviour the model keeps exactly as the code has it:

- Every optional field goes through `||`. An empty string therefore counts as missing.
- A temperature of `0` is shown as `Unknown`, the same as a missing temperature.
- Alerts and forecast periods are all rendered, in input order, with no cap.
- With no alerts, the answer is exactly `No active alerts for CODE`.
- A failed grid-point fetch gives the fixed "Failed to retrieve grid point
  data for coordinates: …" message. This message does not mention the HTTP
  status, because `makeNWSRequest` throws the status away and returns `null`.

## Model

| member | source | states |
|---|---|---|
| `Text.Or` | src/index.ts:194-198 | JS `value \|\| fallback` on a string field: a present non-empty value is kept verbatim; a missing or empty one gives the fallback, so a non-empty fallback never yields "" |
| `Text.Join` | src/index.ts:200 | `join` of no parts is "" and of one part is that part; the general case is stated through its partner `Text.SplitJoin` and by `Text.JoinEnds` |
| `Text.JoinEnds` | src/index.ts:200 | a join of two or more parts starts with the first part and the separator, and ends with the separator and the last part |
| `Text.SplitJoin` | src/index.ts:193-200 | splitting `parts.join("\n")` on line breaks gives back exactly the parts when none holds a line break, so a joined block can be read back line by line |
| `Text.Split` | src/index.ts:193-200 | the reader that undoes the `join("\n")` of these lines (the source itself never splits): it always yields at least one piece and no piece holds the separator, with JavaScript `split` semantics |
| `Text.ToUpper` | src/index.ts:29 | `toUpperCase`: same length, each ASCII lower-case letter capitalised, every other character kept |
| `Text.ToUpperIdempotent` | src/index.ts:29 | upper-casing an already upper-cased code changes nothing and leaves no lower-case ASCII letter |
| `Text.IntToString` | src/index.ts:138 | `${n}` of an integer is an optional minus sign (present exactly for negatives) then digits with no leading zero unless n is 0, on one line; with `Text.ParseIntToString` this fixes the text uniquely |
| `Text.NatToString` | src/index.ts:138 | the digits of a natural number are non-empty decimal digits with no leading zero |
| `Text.ParseIntToString` | src/index.ts:138 | reading back the rendered integer gives the integer, so the rendering loses nothing |
| `Alerts.AlertLines` | src/index.ts:193-200 | an alert block has six lines, the last being `---` |
| `Alerts.FormatAlertLines` | src/index.ts:191-201 | `formatAlert` reads back as exactly Event, Area, Severity, Status, Headline, `---`, in that order, with "Unknown" (or "No headline") for missing or empty fields |
| `Alerts.FormatAlert` | src/index.ts:191-201 | `formatAlert` starts with the Event line and a line break, and ends with a line break and `---`; its exact lines are stated by `Alerts.FormatAlertLines` |
| `Alerts.FormatAlerts` | src/index.ts:56 | `features.map(formatAlert)`: one block per feature, same length, block i formats feature i |
| `Alerts.Features` | src/index.ts:44 | `alertsData.features \|\| []`: the feature list when present (an empty array is kept, being truthy), [] when missing |
| `Alerts.AlertsUrl` | src/index.ts:30 | the alerts URL is the API base plus `/alerts?area=`, followed by exactly the state code |
| `Alerts.GetAlerts` | src/index.ts:28-67 | the handler fetches exactly once, from the alerts URL built with the upper-cased state code |
| `Alerts.StateCodeUpperCase` | src/index.ts:29-30 | the code used is two characters long with no lower-case ASCII letter |
| `Alerts.GetAlertsFailed` | src/index.ts:31-42 | the answer is "Failed to retrieve alerts data" if and only if the fetch failed |
| `Alerts.GetAlertsNone` | src/index.ts:44-54 | the answer is "No active alerts for CODE" if and only if the fetch succeeded with `features` missing or empty |
| `Alerts.GetAlertsListing` | src/index.ts:56-57 | with alerts, the answer's lines are "Active alerts for CODE:", "", then the six lines of every alert, in input order (line k of alert i at `ListingIndex(6, i, k)` = 2 + 6i + k); line count 2 + 6 per alert, so no truncation |
| `Forecast.TemperatureText` | src/index.ts:138 | the temperature shows "Unknown" if and only if it is missing or 0; otherwise it is exactly `IntToString` of the temperature, which reads back as the temperature |
| `Forecast.PeriodLines` | src/index.ts:136-142 | a period block has five lines, the last being `---` |
| `Forecast.FormatPeriodLines` | src/index.ts:135-143 | a formatted period reads back as name + ":", the Temperature line (unit "F" by default), the Wind line (direction "" by default), the short forecast ("No forecast available" by default), `---` |
| `Forecast.FormatPeriod` | src/index.ts:135-143 | a period block starts with the name line and a line break, and ends with a line break and `---`; its exact lines are stated by `Forecast.FormatPeriodLines` |
| `Forecast.FormatPeriods` | src/index.ts:135-143 | one block per period, same length, block i formats period i |
| `Forecast.PointsUrl` | src/index.ts:83 | the grid-point URL is the API base plus `/points/`, followed by exactly the two `toFixed(4)` coordinates separated by a comma |
| `Forecast.ForecastUrl` | src/index.ts:97-98 | the URL taken is `properties.forecast` itself, and it is taken exactly when that field is present and non-empty, never as "" |
| `Forecast.Periods` | src/index.ts:122 | `forecastData.properties?.periods \|\| []`: the period list when `properties` and `periods` are present, [] otherwise |
| `Forecast.GetForecast` | src/index.ts:81-155 | the handler makes one or two requests, the first always to the grid-point URL built from the coordinates |
| `Forecast.GetForecastRequests` | src/index.ts:84-110 | the second request happens if and only if the grid point was fetched and named a forecast URL, and it goes to that URL |
| `Forecast.GetForecastGridFailed` | src/index.ts:84-95 | a failed grid-point fetch answers with the grid-point message naming the coordinates, after one request only |
| `Forecast.GetForecastNoUrl` | src/index.ts:97-107 | a grid point without a usable forecast URL answers "Failed to get forecast URL from grid point data", after one request only |
| `Forecast.GetForecastSecondStep` | src/index.ts:110-132 | a failed forecast fetch answers "Failed to retrieve forecast data"; missing or empty periods answer "No forecast periods available" |
| `Forecast.GetForecastListing` | src/index.ts:134-145 | with periods, the answer's lines are "Forecast for LAT, LON:", "", then the five lines of every period, in input order (line k of period i at `ListingIndex(5, i, k)` = 2 + 5i + k); line count 2 + 5 per period, so no cap |
| `Http.HandleMcp` | src/index.ts:233-291 | GET and DELETE always answer 405 with JSON-RPC error -32000 "Method not allowed." and id null; a POST that throws answers 500 with -32603 "Internal server error" exactly when headers were not yet sent, and otherwise nothing more is written |
| `Http.RejectionsDiffer` | src/index.ts:252-291 | GET and DELETE are refused identically, and the POST failure differs from the refusal in status, code, message and encoding |

## Left out

- `makeNWSRequest` (the network fetch, the `User-Agent` and `Accept` headers, HTTP status checks and JSON parsing). Only its result is modelled, as an `Option` returned by the fetch parameter.
- Floating-point formatting of coordinates: `toFixed(4)` in the grid-point URL and `${latitude}` in the messages. Both are parameters (`toFixed4`, `show`) of the forecast handler. Coordinates are `real`.
- `McpServer`, `StreamableHTTPServerTransport`, the tool registration and the zod schemas. These are library code. Their input bounds are kept as preconditions: a state code of length 2, latitude in [-90, 90] and longitude in [-180, 180]. zod counts UTF-16 code units; the model counts characters.
- The JSON serialisation of the error bodies (`JSON.stringify`, `res.json`). The body is kept as a value, together with how it is sent.
- Express setup, the `close` handler that closes the transport and server, the port taken from the environment, `listen`, `process.exit` and all logging. These are process I/O.
- The session registry, the stdio binding and the five-period cap. They belong to other variants of the server, and none is in `src/index.ts`.
- test.js: it spawns the server and prints what it answers, with no assertions.
- Upstream JSON outside the declared interfaces is not modelled, because the model's types exclude it. Field values of another type are turned into text by the template literals (a numeric `event` shows as `Event: 5`, a string `temperature` "72" as `Temperature: 72°F`). Some of it makes the handler throw: an alert feature without `properties` or a `null` entry in `features` (`formatAlert` reads `feature.properties`), a `null` entry in `periods` (the formatter reads `period.name`), and a truthy `features` or `periods` that is not an array (`.map` is not a function).
- Text.ToUpper: models `toUpperCase` on ASCII letters only. JavaScript also maps other letters, sometimes to more than one character.
- Text.IntToString: models `${n}` for integer temperatures of magnitude below 2^53 only. JavaScript numbers are doubles: from 2^53 up, `${n}` prints the shortest digits that read back as the same double, padded with zeros (`${2**60}` is "1152921504606847000"), and from 1e21 up it uses exponent notation. Neither is modelled, nor are fractions or NaN (also falsy).
- Alerts.FormatAlertLines: the six-line reading holds only when no field contains a line break. A field with a line break spreads over more lines.
- Alerts.GetAlertsListing: stated under the same condition, and also requires that the state code holds no line break.
- Forecast.FormatPeriodLines: stated only when no field contains a line break.
- Forecast.GetForecastListing: stated only when no field contains a line break and neither coordinate's text contains one.
