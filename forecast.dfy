/**
 * The forecast fetcher and presenter: the forecast response, the
 * next-hour precipitation lookup and the text `renderWeather` writes into
 * the page. Temperatures, wind and times are floats or locale-formatted
 * and are not part of this model.
 */
module Forecast {
  import opened Wrappers
  import opened Js
  import opened Lexicon

  /**
   * The `hourly` block; either array may be missing. Precipitation amounts
   * are kept as the text JavaScript renders them to.
   */
  datatype Hourly = Hourly(time: Option<seq<string>>, precipitation: Option<seq<string>>)

  datatype Current = Current(time: string, weatherCode: int)

  /** The part of the forecast JSON that the rendered text depends on. */
  datatype Payload = Payload(timezone: string, current: Current, hourly: Option<Hourly>)

  /** How the forecast request ended. */
  datatype ForecastResponse = ForecastRejected(reason: string) | ForecastNotOk | ForecastOk(payload: Payload)

  /** The text slots `renderWeather` fills in that this model covers. */
  datatype Display = Display(place: string, icon: string, description: string, precipitation: string, timezone: string)

  const LoadFailed := "Failed to load weather"
  const NoPrecipitation := "—"

  /** `fetchWeather` after the request: the payload, or the error it throws. */
  function FetchForecast(response: ForecastResponse): (r: Result<Payload, string>)
    ensures r.Success? <==> response.ForecastOk?
    ensures r.Success? ==> r.value == response.payload
    ensures response.ForecastNotOk? ==> r == Failure(LoadFailed)
    ensures response.ForecastRejected? ==> r == Failure(response.reason)
  {
    match response
    case ForecastRejected(reason) => Failure(reason)
    case ForecastNotOk => Failure(LoadFailed)
    case ForecastOk(payload) => Success(payload)
  }

  /** `i` is the first position of `t` in `times`. */
  ghost predicate IsFirstMatch(times: seq<string>, t: string, i: int) {
    0 <= i < |times| && times[i] == t && forall k :: 0 <= k < i ==> times[k] != t
  }

  /**
   * The next-hour precipitation text: the amount at the first hourly time
   * that equals the current time exactly, followed by " mm", or a dash when
   * there is no hourly block, no time or precipitation array, no exact
   * match, or the match lies past the end of the precipitation array.
   */
  function NextHourPrecipitation(p: Payload): (r: string)
    ensures r == NoPrecipitation <==>
              !(&& p.hourly.Some? && p.hourly.value.time.Some? && p.hourly.value.precipitation.Some?
                && exists i :: IsFirstMatch(p.hourly.value.time.value, p.current.time, i)
                               && i < |p.hourly.value.precipitation.value|)
    ensures forall i :: (&& p.hourly.Some? && p.hourly.value.time.Some? && p.hourly.value.precipitation.Some?
                         && IsFirstMatch(p.hourly.value.time.value, p.current.time, i)
                         && i < |p.hourly.value.precipitation.value|)
                        ==> r == p.hourly.value.precipitation.value[i] + " mm"
  {
    match p.hourly
    case Some(Hourly(Some(times), Some(amounts))) =>
      var idx := IndexOf(times, p.current.time);
      if idx != -1 && idx < |amounts| then
        assert IsFirstMatch(times, p.current.time, idx);
        FirstMatchUnique(times, p.current.time, idx);
        amounts[idx] + " mm"
      else
        FirstMatchUnique(times, p.current.time, idx);
        NoPrecipitation
    case _ => NoPrecipitation
  }

  /** A first match is the one `indexOf` reports. */
  lemma FirstMatchUnique(times: seq<string>, t: string, idx: int)
    requires idx == IndexOf(times, t)
    ensures forall i :: IsFirstMatch(times, t, i) ==> i == idx
  {
  }

  /** What `renderWeather(data, label)` writes into the slots this model covers. */
  function Render(p: Payload, caption: string): (d: Display)
    ensures d.place == caption
    ensures Entry(d.description, d.icon) == Describe(p.current.weatherCode)
    ensures d.precipitation == NextHourPrecipitation(p)
    ensures d.timezone == p.timezone
  {
    var e := Describe(p.current.weatherCode);
    Display(caption, e.icon, e.description, NextHourPrecipitation(p), p.timezone)
  }

  /** The worked example: an exact match at the second hour shows that hour's amount. */
  lemma PrecipitationExample()
    ensures var hourly := Hourly(Some(["2024-01-01T10:00", "2024-01-01T11:00"]), Some(["0", "1.2"]));
            && NextHourPrecipitation(Payload("Europe/Stockholm", Current("2024-01-01T11:00", 61), Some(hourly))) == "1.2 mm"
            && NextHourPrecipitation(Payload("Europe/Stockholm", Current("2024-01-01T11:30", 61), Some(hourly))) == NoPrecipitation
  {
  }

  /** The worked rendering example: code 61 renders as light rain. */
  lemma RenderLightRain(p: Payload, caption: string)
    requires p.current.weatherCode == 61
    ensures Render(p, caption).description == "Light rain" && Render(p, caption).icon == "🌧️"
  {
  }
}
