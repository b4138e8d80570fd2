/** The `get-alerts` tool: active weather alerts for a two-letter state code. */
module Alerts {
  import opened Wrappers
  import opened Text
  import opened Tool

  /** The fields of one alert the tool shows; each may be absent upstream. */
  datatype AlertProperties = AlertProperties(
    event: Option<string>,
    areaDesc: Option<string>,
    severity: Option<string>,
    status: Option<string>,
    headline: Option<string>)

  datatype AlertFeature = AlertFeature(properties: AlertProperties)

  /** The decoded upstream answer; `features` may be missing from it. */
  datatype AlertsResponse = AlertsResponse(features: Option<seq<AlertFeature>>)

  const FailedText := "Failed to retrieve alerts data"

  /** The six lines of one alert block, in the order they are shown. */
  function AlertLines(feature: AlertFeature): (lines: seq<string>)
    ensures |lines| == 6 && lines[5] == "---"
  {
    var p := feature.properties;
    [ "Event: " + Or(p.event, "Unknown"),
      "Area: " + Or(p.areaDesc, "Unknown"),
      "Severity: " + Or(p.severity, "Unknown"),
      "Status: " + Or(p.status, "Unknown"),
      "Headline: " + Or(p.headline, "No headline"),
      "---" ]
  }

  /** `formatAlert`: the alert's lines joined by line breaks. */
  function FormatAlert(feature: AlertFeature): (r: string)
    ensures "Event: " + Or(feature.properties.event, "Unknown") + "\n" <= r
    ensures EndsWith(r, "\n---")
  {
    JoinEnds(AlertLines(feature), "\n");
    Join(AlertLines(feature), "\n")
  }

  predicate FieldsSingleLine(p: AlertProperties) {
    && OptionSingleLine(p.event)
    && OptionSingleLine(p.areaDesc)
    && OptionSingleLine(p.severity)
    && OptionSingleLine(p.status)
    && OptionSingleLine(p.headline)
  }

  lemma AlertLinesSingleLine(feature: AlertFeature)
    requires FieldsSingleLine(feature.properties)
    ensures AllSingleLine(AlertLines(feature))
  {
  }

  /** A formatted alert reads back as exactly six lines: the five labelled
      fields, each with its default when missing or empty, then `---`. */
  lemma FormatAlertLines(feature: AlertFeature)
    requires FieldsSingleLine(feature.properties)
    ensures var p := feature.properties;
      Lines(FormatAlert(feature)) == [
        "Event: " + Or(p.event, "Unknown"),
        "Area: " + Or(p.areaDesc, "Unknown"),
        "Severity: " + Or(p.severity, "Unknown"),
        "Status: " + Or(p.status, "Unknown"),
        "Headline: " + Or(p.headline, "No headline"),
        "---" ]
  {
    AlertLinesSingleLine(feature);
    SplitJoin(AlertLines(feature), '\n');
  }

  /** `features.map(formatAlert)`: one block per alert, in input order. */
  function FormatAlerts(features: seq<AlertFeature>): (blocks: seq<string>)
    ensures |blocks| == |features|
    ensures forall i :: 0 <= i < |features| ==> blocks[i] == FormatAlert(features[i])
    decreases |features|
  {
    if features == [] then [] else [FormatAlert(features[0])] + FormatAlerts(features[1..])
  }

  /** The alerts endpoint of the API, filtered by area; the code is the URL's tail. */
  function AlertsUrl(stateCode: string): (url: string)
    ensures NwsApiBase + "/alerts?area=" <= url
    ensures url[|NwsApiBase + "/alerts?area="|..] == stateCode
  {
    NwsApiBase + "/alerts?area=" + stateCode
  }

  /** `alertsData.features || []`. */
  function Features(data: AlertsResponse): (features: seq<AlertFeature>)
    ensures data.features.Some? ==> features == data.features.value
    ensures data.features.None? ==> features == []
  {
    data.features.GetOr([])
  }

  function NoAlertsText(stateCode: string): string {
    "No active alerts for " + stateCode
  }

  function ListingHeader(stateCode: string): string {
    "Active alerts for " + stateCode + ":"
  }

  /** The `get-alerts` handler, with the upstream fetch as a parameter: one
      request, for the upper-cased code, then one of three answers. */
  function GetAlerts(state: string, fetch: string -> Option<AlertsResponse>): (r: Reply)
    requires |state| == 2
    ensures r.requested == [AlertsUrl(ToUpper(state))]
  {
    var stateCode := ToUpper(state);
    var url := AlertsUrl(stateCode);
    match fetch(url)
    case None => Reply(FailedText, [url])
    case Some(data) =>
      var features := Features(data);
      if |features| == 0 then Reply(NoAlertsText(stateCode), [url])
      else Reply(ListingHeader(stateCode) + "\n\n" + Join(FormatAlerts(features), "\n"), [url])
  }

  /** The state code used is two characters long with no lower-case letter left. */
  lemma StateCodeUpperCase(state: string)
    requires |state| == 2
    ensures var code := ToUpper(state);
      |code| == 2 && !IsLowerAscii(code[0]) && !IsLowerAscii(code[1])
  {
  }

  /** The answer is the failure text exactly when the fetch failed. */
  lemma GetAlertsFailed(state: string, fetch: string -> Option<AlertsResponse>)
    requires |state| == 2
    ensures (GetAlerts(state, fetch).text == FailedText)
        <==> fetch(AlertsUrl(ToUpper(state))).None?
  {
    var code := ToUpper(state);
    var text := GetAlerts(state, fetch).text;
    if fetch(AlertsUrl(code)).Some? {
      assert text[0] != FailedText[0] by {
        if |Features(fetch(AlertsUrl(code)).value)| == 0 {
          assert text == NoAlertsText(code);
        } else {
          assert text == ListingHeader(code) + "\n\n" + Join(FormatAlerts(Features(fetch(AlertsUrl(code)).value)), "\n");
        }
      }
    }
  }

  /** The answer is "No active alerts for CODE" exactly when the fetch
      succeeded with `features` missing or empty. */
  lemma GetAlertsNone(state: string, fetch: string -> Option<AlertsResponse>)
    requires |state| == 2
    ensures var code := ToUpper(state);
      var data := fetch(AlertsUrl(code));
      (GetAlerts(state, fetch).text == NoAlertsText(code))
        <==> (data.Some? && (data.value.features.None? || data.value.features == Some([])))
  {
    var code := ToUpper(state);
    assert NoAlertsText(code) == "No active alerts for " + code;
    assert NoAlertsText(code)[0] == 'N';
    assert (ListingHeader(code) + "\n\n")[0] == 'A';
  }

  /** With at least one alert, the answer's lines are the header with the
      upper-cased code, an empty line, then the six lines of every alert in
      input order: nothing dropped, nothing reordered. */
  lemma GetAlertsListing(state: string, fetch: string -> Option<AlertsResponse>)
    requires |state| == 2 && SingleLine(state)
    requires fetch(AlertsUrl(ToUpper(state))).Some?
    requires |Features(fetch(AlertsUrl(ToUpper(state))).value)| >= 1
    requires var fs := Features(fetch(AlertsUrl(ToUpper(state))).value);
      forall i :: 0 <= i < |fs| ==> FieldsSingleLine(fs[i].properties)
    ensures var fs := Features(fetch(AlertsUrl(ToUpper(state))).value);
      var lines := Lines(GetAlerts(state, fetch).text);
      && |lines| == 2 + 6 * |fs|
      && lines[0] == "Active alerts for " + ToUpper(state) + ":"
      && lines[1] == ""
      && forall i, k :: 0 <= i < |fs| && 0 <= k < 6 ==> lines[ListingIndex(6, i, k)] == AlertLines(fs[i])[k]
  {
    var code := ToUpper(state);
    var fs := Features(fetch(AlertsUrl(code)).value);
    var text := GetAlerts(state, fetch).text;
    var header := ListingHeader(code);
    assert text == header + "\n\n" + Join(FormatAlerts(fs), "\n");
    assert SingleLine(header) by {
      ToUpperSingleLine(state);
      assert header == ("Active alerts for " + code) + ":";
    }
    AlertsListing(header, fs);
  }

  /** The lines of a header followed by the formatted alerts. */
  lemma AlertsListing(header: string, fs: seq<AlertFeature>)
    requires SingleLine(header) && |fs| >= 1
    requires forall i :: 0 <= i < |fs| ==> FieldsSingleLine(fs[i].properties)
    ensures var lines := Lines(header + "\n\n" + Join(FormatAlerts(fs), "\n"));
      && |lines| == 2 + 6 * |fs|
      && lines[0] == header && lines[1] == ""
      && forall i, k :: 0 <= i < |fs| && 0 <= k < 6 ==> lines[ListingIndex(6, i, k)] == AlertLines(fs[i])[k]
  {
    var blocks := seq(|fs|, i requires 0 <= i < |fs| => AlertLines(fs[i]));
    forall i | 0 <= i < |fs|
      ensures |blocks[i]| == 6 && FormatAlerts(fs)[i] == Join(blocks[i], "\n") && AllSingleLine(blocks[i])
    {
      AlertLinesSingleLine(fs[i]);
    }
    ListingLines(header, FormatAlerts(fs), blocks, 6);
  }
}
