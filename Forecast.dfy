/** The `get-forecast` tool: a forecast for a coordinate pair, found through
    two chained upstream lookups (the grid point, then its forecast URL). */
module Forecast {
  import opened Wrappers
  import opened Text
  import opened Tool

  /** One forecast period; every field may be absent upstream. */
  datatype ForecastPeriod = ForecastPeriod(
    name: Option<string>,
    temperature: Option<int>,
    temperatureUnit: Option<string>,
    windSpeed: Option<string>,
    windDirection: Option<string>,
    shortForecast: Option<string>)

  datatype ForecastProperties = ForecastProperties(periods: Option<seq<ForecastPeriod>>)
  datatype ForecastResponse = ForecastResponse(properties: Option<ForecastProperties>)

  datatype PointsProperties = PointsProperties(forecast: Option<string>)
  datatype PointsResponse = PointsResponse(properties: Option<PointsProperties>)

  const NoForecastUrlText := "Failed to get forecast URL from grid point data"
  const ForecastFailedText := "Failed to retrieve forecast data"
  const NoPeriodsText := "No forecast periods available"

  /** The degree sign between a temperature and its unit. */
  const Degree: char := '\U{00B0}'

  /** `${period.temperature || "Unknown"}`: zero is falsy, so a temperature of
      0 shows as "Unknown", like a missing one. */
  function TemperatureText(temperature: Option<int>): (r: string)
    ensures SingleLine(r)
    ensures r == "Unknown" <==> temperature.None? || temperature.value == 0
    ensures temperature.Some? && temperature.value != 0 ==> r == IntToString(temperature.value)
    ensures temperature.Some? && temperature.value != 0 ==> IsIntText(r) && ParseInt(r) == temperature.value
  {
    match temperature
    case Some(t) =>
      if t != 0 then
        ParseIntToString(t);
        assert IntToString(t)[0] != 'U';
        IntToString(t)
      else "Unknown"
    case None => "Unknown"
  }

  /** The five lines of one period block, in the order they are shown. */
  function PeriodLines(period: ForecastPeriod): (lines: seq<string>)
    ensures |lines| == 5 && lines[4] == "---"
  {
    [ Or(period.name, "Unknown") + ":",
      "Temperature: " + TemperatureText(period.temperature) + [Degree] + Or(period.temperatureUnit, "F"),
      "Wind: " + Or(period.windSpeed, "Unknown") + " " + Or(period.windDirection, ""),
      Or(period.shortForecast, "No forecast available"),
      "---" ]
  }

  /** The period formatter: the period's lines joined by line breaks. */
  function FormatPeriod(period: ForecastPeriod): (r: string)
    ensures Or(period.name, "Unknown") + ":\n" <= r
    ensures EndsWith(r, "\n---")
  {
    JoinEnds(PeriodLines(period), "\n");
    Join(PeriodLines(period), "\n")
  }

  /** `periods.map(...)`: one block per period, every period, in input order. */
  function FormatPeriods(periods: seq<ForecastPeriod>): (blocks: seq<string>)
    ensures |blocks| == |periods|
    ensures forall i :: 0 <= i < |periods| ==> blocks[i] == FormatPeriod(periods[i])
    decreases |periods|
  {
    if periods == [] then [] else [FormatPeriod(periods[0])] + FormatPeriods(periods[1..])
  }

  predicate FieldsSingleLine(p: ForecastPeriod) {
    && OptionSingleLine(p.name)
    && OptionSingleLine(p.temperatureUnit)
    && OptionSingleLine(p.windSpeed)
    && OptionSingleLine(p.windDirection)
    && OptionSingleLine(p.shortForecast)
  }

  lemma PeriodLinesSingleLine(period: ForecastPeriod)
    requires FieldsSingleLine(period)
    ensures AllSingleLine(PeriodLines(period))
  {
    var t := TemperatureText(period.temperature);
    assert SingleLine("Temperature: " + t + [Degree] + Or(period.temperatureUnit, "F"));
  }

  /** A formatted period reads back as exactly five lines: the name with a
      colon, the temperature (unit "F" by default), the wind (direction ""
      by default), the short forecast, then `---`. */
  lemma FormatPeriodLines(period: ForecastPeriod)
    requires FieldsSingleLine(period)
    ensures Lines(FormatPeriod(period)) == [
      Or(period.name, "Unknown") + ":",
      "Temperature: " + TemperatureText(period.temperature) + [Degree] + Or(period.temperatureUnit, "F"),
      "Wind: " + Or(period.windSpeed, "Unknown") + " " + Or(period.windDirection, ""),
      Or(period.shortForecast, "No forecast available"),
      "---" ]
  {
    PeriodLinesSingleLine(period);
    SplitJoin(PeriodLines(period), '\n');
  }

  /** The grid-point URL; `toFixed4` renders a coordinate as `toFixed(4)` does. */
  function PointsUrl(latitude: real, longitude: real, toFixed4: real -> string): (url: string)
    ensures NwsApiBase + "/points/" <= url
    ensures url[|NwsApiBase + "/points/"|..] == toFixed4(latitude) + "," + toFixed4(longitude)
  {
    NwsApiBase + "/points/" + toFixed4(latitude) + "," + toFixed4(longitude)
  }

  /** `pointsData.properties?.forecast`, kept only when truthy (present and non-empty). */
  function ForecastUrl(points: PointsResponse): (url: Option<string>)
    ensures url.Some? ==> url.value != "" && points.properties.Some? && url == points.properties.value.forecast
    ensures url.None? <==> points.properties.None? || Or(points.properties.value.forecast, "") == ""
  {
    match points.properties
    case None => None
    case Some(props) =>
      if props.forecast.Some? && props.forecast.value != "" then props.forecast else None
  }

  /** `forecastData.properties?.periods || []`. */
  function Periods(data: ForecastResponse): (periods: seq<ForecastPeriod>)
    ensures data.properties.Some? && data.properties.value.periods.Some? ==>
      periods == data.properties.value.periods.value
    ensures data.properties.None? || data.properties.value.periods.None? ==> periods == []
  {
    match data.properties
    case None => []
    case Some(props) => props.periods.GetOr([])
  }

  /** `${latitude}, ${longitude}` as both messages that name the place show it. */
  function Place(latitude: real, longitude: real, show: real -> string): string {
    show(latitude) + ", " + show(longitude)
  }

  function GridFailedText(latitude: real, longitude: real, show: real -> string): string {
    "Failed to retrieve grid point data for coordinates: " + Place(latitude, longitude, show)
      + ". This location may not be supported by the NWS API (only US locations are supported)."
  }

  function ListingHeader(latitude: real, longitude: real, show: real -> string): string {
    "Forecast for " + Place(latitude, longitude, show) + ":"
  }

  /** The `get-forecast` handler with both upstream fetches as parameters: an
      early-return chain over the grid point, its forecast URL, the forecast
      and its periods. */
  function GetForecast(
    latitude: real, longitude: real,
    toFixed4: real -> string, show: real -> string,
    fetchPoints: string -> Option<PointsResponse>,
    fetchForecast: string -> Option<ForecastResponse>): (r: Reply)
    requires -90.0 <= latitude <= 90.0 && -180.0 <= longitude <= 180.0
    ensures 1 <= |r.requested| <= 2
    ensures r.requested[0] == PointsUrl(latitude, longitude, toFixed4)
  {
    var pointsUrl := PointsUrl(latitude, longitude, toFixed4);
    match fetchPoints(pointsUrl)
    case None => Reply(GridFailedText(latitude, longitude, show), [pointsUrl])
    case Some(points) =>
      match ForecastUrl(points)
      case None => Reply(NoForecastUrlText, [pointsUrl])
      case Some(forecastUrl) =>
        match fetchForecast(forecastUrl)
        case None => Reply(ForecastFailedText, [pointsUrl, forecastUrl])
        case Some(data) =>
          var periods := Periods(data);
          if |periods| == 0 then Reply(NoPeriodsText, [pointsUrl, forecastUrl])
          else
            Reply(ListingHeader(latitude, longitude, show) + "\n\n" + Join(FormatPeriods(periods), "\n"),
                  [pointsUrl, forecastUrl])
  }

  /** The forecast is fetched, second, exactly when the grid point was fetched
      and named a forecast URL, and it is fetched from that URL; otherwise the
      grid point is the only request. */
  lemma GetForecastRequests(
    latitude: real, longitude: real,
    toFixed4: real -> string, show: real -> string,
    fetchPoints: string -> Option<PointsResponse>,
    fetchForecast: string -> Option<ForecastResponse>)
    requires -90.0 <= latitude <= 90.0 && -180.0 <= longitude <= 180.0
    ensures var pointsUrl := PointsUrl(latitude, longitude, toFixed4);
      var points := fetchPoints(pointsUrl);
      var r := GetForecast(latitude, longitude, toFixed4, show, fetchPoints, fetchForecast);
      && (|r.requested| == 2 <==> points.Some? && ForecastUrl(points.value).Some?)
      && (|r.requested| == 2 ==> r.requested == [pointsUrl, ForecastUrl(points.value).value])
      && (|r.requested| == 1 ==> r.requested == [pointsUrl])
  {
  }

  /** A failed grid-point fetch gives the grid-point message naming the
      coordinates, and the forecast is never fetched. */
  lemma GetForecastGridFailed(
    latitude: real, longitude: real,
    toFixed4: real -> string, show: real -> string,
    fetchPoints: string -> Option<PointsResponse>,
    fetchForecast: string -> Option<ForecastResponse>)
    requires -90.0 <= latitude <= 90.0 && -180.0 <= longitude <= 180.0
    requires fetchPoints(PointsUrl(latitude, longitude, toFixed4)).None?
    ensures GetForecast(latitude, longitude, toFixed4, show, fetchPoints, fetchForecast)
      == Reply(GridFailedText(latitude, longitude, show), [PointsUrl(latitude, longitude, toFixed4)])
  {
  }

  /** Grid point data without a usable forecast URL gives the fixed message,
      and the forecast is never fetched. */
  lemma GetForecastNoUrl(
    latitude: real, longitude: real,
    toFixed4: real -> string, show: real -> string,
    fetchPoints: string -> Option<PointsResponse>,
    fetchForecast: string -> Option<ForecastResponse>)
    requires -90.0 <= latitude <= 90.0 && -180.0 <= longitude <= 180.0
    requires var points := fetchPoints(PointsUrl(latitude, longitude, toFixed4));
      points.Some? && (points.value.properties.None? || Or(points.value.properties.value.forecast, "") == "")
    ensures GetForecast(latitude, longitude, toFixed4, show, fetchPoints, fetchForecast)
      == Reply(NoForecastUrlText, [PointsUrl(latitude, longitude, toFixed4)])
  {
  }

  /** After both lookups were made: a failed forecast fetch and an empty
      period list each give their fixed message. */
  lemma GetForecastSecondStep(
    latitude: real, longitude: real,
    toFixed4: real -> string, show: real -> string,
    fetchPoints: string -> Option<PointsResponse>,
    fetchForecast: string -> Option<ForecastResponse>)
    requires -90.0 <= latitude <= 90.0 && -180.0 <= longitude <= 180.0
    requires var points := fetchPoints(PointsUrl(latitude, longitude, toFixed4));
      points.Some? && ForecastUrl(points.value).Some?
    ensures var url := ForecastUrl(fetchPoints(PointsUrl(latitude, longitude, toFixed4)).value).value;
      var r := GetForecast(latitude, longitude, toFixed4, show, fetchPoints, fetchForecast);
      && (fetchForecast(url).None? ==> r.text == ForecastFailedText)
      && (fetchForecast(url).Some? && Periods(fetchForecast(url).value) == [] ==> r.text == NoPeriodsText)
  {
  }

  /** With at least one period, the answer's lines are the header naming the
      coordinates, an empty line, then the five lines of every period in
      input order: no cap on the number of periods. */
  lemma GetForecastListing(
    latitude: real, longitude: real,
    toFixed4: real -> string, show: real -> string,
    fetchPoints: string -> Option<PointsResponse>,
    fetchForecast: string -> Option<ForecastResponse>)
    requires -90.0 <= latitude <= 90.0 && -180.0 <= longitude <= 180.0
    requires SingleLine(show(latitude)) && SingleLine(show(longitude))
    requires var points := fetchPoints(PointsUrl(latitude, longitude, toFixed4));
      && points.Some? && ForecastUrl(points.value).Some?
      && fetchForecast(ForecastUrl(points.value).value).Some?
    requires var ps := Periods(fetchForecast(ForecastUrl(fetchPoints(PointsUrl(latitude, longitude, toFixed4)).value).value).value);
      |ps| >= 1 && forall i :: 0 <= i < |ps| ==> FieldsSingleLine(ps[i])
    ensures var ps := Periods(fetchForecast(ForecastUrl(fetchPoints(PointsUrl(latitude, longitude, toFixed4)).value).value).value);
      var lines := Lines(GetForecast(latitude, longitude, toFixed4, show, fetchPoints, fetchForecast).text);
      && |lines| == 2 + 5 * |ps|
      && lines[0] == "Forecast for " + show(latitude) + ", " + show(longitude) + ":"
      && lines[1] == ""
      && forall i, k :: 0 <= i < |ps| && 0 <= k < 5 ==> lines[ListingIndex(5, i, k)] == PeriodLines(ps[i])[k]
  {
    var pointsUrl := PointsUrl(latitude, longitude, toFixed4);
    var points := fetchPoints(pointsUrl).value;
    var url := ForecastUrl(points).value;
    var data := fetchForecast(url).value;
    var ps := Periods(data);
    var header := ListingHeader(latitude, longitude, show);
    var text := GetForecast(latitude, longitude, toFixed4, show, fetchPoints, fetchForecast).text;
    assert fetchPoints(pointsUrl) == Some(points);
    assert ForecastUrl(points) == Some(url);
    assert fetchForecast(url) == Some(data);
    assert text == header + "\n\n" + Join(FormatPeriods(ps), "\n");
    assert SingleLine(header) by {
      assert header == ("Forecast for " + show(latitude)) + (", " + show(longitude)) + ":";
    }
    PeriodsListing(header, ps);
  }

  /** The lines of a header followed by the formatted periods. */
  lemma PeriodsListing(header: string, ps: seq<ForecastPeriod>)
    requires SingleLine(header) && |ps| >= 1
    requires forall i :: 0 <= i < |ps| ==> FieldsSingleLine(ps[i])
    ensures var lines := Lines(header + "\n\n" + Join(FormatPeriods(ps), "\n"));
      && |lines| == 2 + 5 * |ps|
      && lines[0] == header && lines[1] == ""
      && forall i, k :: 0 <= i < |ps| && 0 <= k < 5 ==> lines[ListingIndex(5, i, k)] == PeriodLines(ps[i])[k]
  {
    var blocks := seq(|ps|, i requires 0 <= i < |ps| => PeriodLines(ps[i]));
    forall i | 0 <= i < |ps|
      ensures |blocks[i]| == 5 && FormatPeriods(ps)[i] == Join(blocks[i], "\n") && AllSingleLine(blocks[i])
    {
      PeriodLinesSingleLine(ps[i]);
    }
    ListingLines(header, FormatPeriods(ps), blocks, 5);
  }
}
