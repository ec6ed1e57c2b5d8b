/**
 * The weather-code lexicon: the `WCODE` table that maps an Open-Meteo (WMO)
 * weather code to a description and an icon, with a fixed fallback for
 * codes the table does not list.
 */
module Lexicon {

  datatype Entry = Entry(description: string, icon: string)

  /** What an unlisted code is shown as. */
  const Fallback := Entry("N/A", "❔")

  const Table: map<int, Entry> := map[
    0 := Entry("Clear sky", "☀️"), 1 := Entry("Mainly clear", "🌤️"),
    2 := Entry("Partly cloudy", "⛅"), 3 := Entry("Overcast", "☁️"),
    45 := Entry("Fog", "🌫️"), 48 := Entry("Depositing rime fog", "🌫️"),
    51 := Entry("Light drizzle", "🌦️"), 53 := Entry("Drizzle", "🌦️"), 55 := Entry("Heavy drizzle", "🌧️"),
    56 := Entry("Light freezing drizzle", "🌧️"), 57 := Entry("Freezing drizzle", "🌧️"),
    61 := Entry("Light rain", "🌧️"), 63 := Entry("Rain", "🌧️"), 65 := Entry("Heavy rain", "🌧️"),
    66 := Entry("Light freezing rain", "🌧️"), 67 := Entry("Freezing rain", "🌧️"),
    71 := Entry("Light snow", "🌨️"), 73 := Entry("Snow", "🌨️"), 75 := Entry("Heavy snow", "🌨️"),
    77 := Entry("Snow grains", "🌨️"),
    80 := Entry("Rain showers", "🌦️"), 81 := Entry("Heavy rain showers", "🌦️"),
    82 := Entry("Violent rain showers", "🌧️"),
    85 := Entry("Snow showers", "🌨️"), 86 := Entry("Heavy snow showers", "🌨️"),
    95 := Entry("Thunderstorm", "⛈️"), 96 := Entry("Thunderstorm with hail", "⛈️"),
    99 := Entry("Thunderstorm with heavy hail", "⛈️")
  ]

  /** The 28 codes the table lists, written out independently of it. */
  const KnownCodes: set<int> := {
    0, 1, 2, 3, 45, 48, 51, 53, 55, 56, 57, 61, 63, 65, 66, 67,
    71, 73, 75, 77, 80, 81, 82, 85, 86, 95, 96, 99
  }

  /** `WCODE[code] || ["N/A", "❔"]`. */
  function Describe(code: int): (e: Entry)
    ensures e == Fallback <==> code !in KnownCodes
    ensures e.description == "N/A" <==> code !in KnownCodes
  {
    if code in Table then Table[code] else Fallback
  }

  /** The table lists exactly the known codes, all within the vendor's range 0 to 99. */
  lemma TableCodes()
    ensures Table.Keys == KnownCodes
    ensures forall code :: code in Table ==> 0 <= code <= 99
  {
  }

  /** The lookup the rendering example relies on: code 61 is light rain. */
  lemma LightRain()
    ensures Describe(61) == Entry("Light rain", "🌧️")
  {
  }
}
