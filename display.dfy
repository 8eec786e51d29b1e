/** The `Results` selector and the `WeatherData` panel of src/App.js: which of
    nothing, the "Location not found." message or the weather data is shown,
    and what the weather data shows. */
module Display {
  import opened Wrappers
  import opened Icons
  import opened HourlyForecast

  /** The `currently` block of the weather provider's payload. */
  datatype Currently = Currently(summary: string, icon: string, temperature: real)

  /** The weather payload as the page keeps it; `{}` is `Forecast(None, [])`. */
  datatype Forecast = Forecast(currently: Option<Currently>, hourly: seq<HourPoint>)

  const EmptyForecast := Forecast(None, [])

  /** What `WeatherData` draws: the summary, the current glyph and its colour,
      and the hourly cells. */
  datatype Panel = Panel(summary: string, glyph: Option<Glyph>, color: string, hours: seq<HourCell>)

  /** The three outcomes of `Results`: `null`, `<Error />`, or `<WeatherData />`. */
  datatype View = Nothing | ErrorView | DataView(panel: Panel)

  /** JavaScript's `s.substring(start)` for a string whose characters each
      take one UTF-16 code unit: the characters from `start` on, or the empty
      string when `start` is at or past the end. */
  function Substring(s: string, start: nat): (r: string)
    ensures |s| <= start ==> r == ""
    ensures |s| > start ==> |r| == |s| - start
    ensures forall k :: 0 <= k < |r| ==> start + k < |s| && r[k] == s[start + k]
  {
    if |s| <= start then "" else s[start..]
  }

  /** The geocoder's low-quality test `quality.substring(2) === "XXX"`. */
  predicate LowQuality(quality: string) {
    Substring(quality, 2) == "XXX"
  }

  /** A quality code is low exactly when it has five characters, the last three
      being 'X'; in particular a code shorter than five never is. */
  lemma LowQualityExactly(quality: string)
    ensures LowQuality(quality) <==>
      |quality| == 5 && quality[2] == 'X' && quality[3] == 'X' && quality[4] == 'X'
  {
  }

  /** `WeatherData`: the panel for a payload that has a `currently` block. */
  function WeatherData(forecast: Forecast, summary: string): (p: Panel)
    requires forecast.currently.Some?
    ensures p.summary == summary
    ensures p.glyph == Tern(forecast.currently.value.icon)
    ensures p.color == "yellow" <==> p.glyph == Some(Sun)
    ensures p.color == "white" <==> p.glyph != Some(Sun)
    ensures |p.hours| == SampleCount(|forecast.hourly|)
    ensures |p.hours| <= 6
    ensures |forecast.hourly| >= 11 ==> |p.hours| == 6
    ensures forall k :: 0 <= k < |p.hours| ==>
      2 * k < |forecast.hourly| && p.hours[k].time == forecast.hourly[2 * k].time &&
      p.hours[k].glyph == Tern(forecast.hourly[2 * k].icon)
  {
    var icon := forecast.currently.value.icon;
    YellowExactlyForSun(icon);
    Panel(summary, Tern(icon), IconColor(icon), Hourly(forecast.hourly))
  }

  /** `Results`: nothing for an empty summary; otherwise the error message for
      a low-quality geocode and the weather panel for any other.  The payload
      is read only on the last path, where it must carry `currently`. */
  function Results(summary: string, quality: string, forecast: Forecast): (v: View)
    requires summary != "" && !LowQuality(quality) ==> forecast.currently.Some?
    ensures summary == "" ==> v == Nothing
    ensures summary != "" ==> (v == ErrorView <==> LowQuality(quality))
    ensures summary != "" && !LowQuality(quality) ==> v.DataView?
    ensures v.DataView? ==> forecast.currently.Some? && v.panel == WeatherData(forecast, summary)
  {
    if summary == "" then Nothing
    else if LowQuality(quality) then ErrorView
    else DataView(WeatherData(forecast, summary))
  }

  /** With a non-empty summary the error message is shown exactly for a
      five-character quality code ending in "XXX", and the weather panel for
      every other code, including an empty or short one. */
  lemma ResultsErrorExactly(summary: string, quality: string, forecast: Forecast)
    requires summary != ""
    requires !LowQuality(quality) ==> forecast.currently.Some?
    ensures Results(summary, quality, forecast) == ErrorView <==>
      |quality| == 5 && quality[2..] == "XXX"
    ensures Results(summary, quality, forecast).DataView? <==>
      !(|quality| == 5 && quality[2..] == "XXX")
    ensures |quality| < 5 ==> Results(summary, quality, forecast).DataView?
  {
  }

  /** An empty summary shows nothing whatever the quality code and payload. */
  lemma NothingForEmptySummary(quality: string, forecast: Forecast)
    ensures Results("", quality, forecast) == Nothing
  {
  }
}
