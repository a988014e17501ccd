/** The mock weather tool (backend/tools/weather.py). */
module Weather {

  datatype Report = Report(temperature: string, condition: string)

  /** The five cities the mock knows, keyed by their exact spelling. */
  const WeatherData: map<string, Report> := map[
    "New York" := Report("32°C", "sunny"),
    "Los Angeles" := Report("27°C", "clear"),
    "Chicago" := Report("24°C", "cloudy"),
    "Houston" := Report("36°C", "sunny"),
    "Miami" := Report("30°C", "rainy")
  ]

  /** What every other city gets. */
  const DefaultReport := Report("25°C", "clear")

  /** `weather_data.get(city, default_data)`: exact, case-sensitive key match. */
  function Lookup(city: string): (r: Report)
    ensures city in WeatherData ==> r == WeatherData[city]
    ensures city !in WeatherData ==> r == DefaultReport
  {
    if city in WeatherData then WeatherData[city] else DefaultReport
  }

  const Opening := "The weather in "

  /** The sentence the tool returns; it is defined for every city. */
  function GetWeather(city: string): (r: string)
  {
    var w := Lookup(city);
    Opening + city + " is " + w.temperature + " and it's " + w.condition + "."
  }

  /**
   * The sentence quotes the city verbatim right after the fixed opening, and ends
   * with the looked-up condition and a full stop.
   */
  lemma {:induction false} SentenceQuotesCity(city: string)
    ensures var r := GetWeather(city);
            && |r| > |Opening| + |city|
            && r[..|Opening|] == Opening
            && r[|Opening|..|Opening| + |city|] == city
            && r[|r| - |Lookup(city).condition| - 1..] == Lookup(city).condition + "."
  {
    var w := Lookup(city);
    var tail := " is " + w.temperature + " and it's " + w.condition + ".";
    assert GetWeather(city) == Opening + city + tail;
    assert GetWeather(city) == (Opening + city + " is " + w.temperature + " and it's ") + (w.condition + ".");
  }

  /** A listed city reports its own table entry. */
  lemma {:induction false} ListedCity(city: string)
    requires city in WeatherData
    ensures GetWeather(city) ==
      "The weather in " + city + " is " + WeatherData[city].temperature + " and it's " + WeatherData[city].condition + "."
  {
  }

  /** Any other city reports 25°C and clear. */
  lemma {:induction false} UnlistedCity(city: string)
    requires city !in {"New York", "Los Angeles", "Chicago", "Houston", "Miami"}
    ensures GetWeather(city) == "The weather in " + city + " is 25°C and it's clear."
  {
  }

  /** Matching is case-sensitive: a lower-case spelling falls back to the default. */
  lemma CaseSensitive()
    ensures Lookup("Miami") == Report("30°C", "rainy")
    ensures Lookup("miami") == DefaultReport
  {
    assert "miami"[0] != "Miami"[0];
  }

  /** The sentence for Miami, spelled out. */
  lemma MiamiSentence()
    ensures GetWeather("Miami") == "The weather in Miami is 30°C and it's rainy."
  {
    ListedCity("Miami");
  }
}
