/**
 * The records exchanged between the app, the suggestion services and the
 * model (types.ts).
 */
module Types {
  import opened Common

  /** One part of the day in a forecast. */
  datatype DayPartForecast = DayPartForecast(
    period: string,       // "Morning", "Afternoon", "Evening", ...
    temp: int,            // degrees Celsius
    condition: string,
    conditionIcon: string,
    time: string)         // "07:00"

  datatype WeatherData = WeatherData(
    location: string,
    highTemp: int,
    lowTemp: int,
    dayParts: seq<DayPartForecast>,
    dateRange: Option<string>)

  datatype ClothingSuggestion = ClothingSuggestion(
    member: string,
    outfit: seq<string>,
    notes: string)

  /** What the model returns: both members are optional. */
  datatype GeminiResponse = GeminiResponse(
    weather: Option<WeatherData>,
    suggestions: Option<seq<ClothingSuggestion>>)

  datatype FamilyMember = FamilyMember(name: string, pinned: bool)

  /** What one call of the generative model gives back: the text of the
      first candidate (absent when the response has none), or the error
      the call threw. */
  datatype Reply = Replied(text: Option<string>) | Threw(error: Error)

  /** The two temperature units the display offers. */
  datatype TempUnit = Celsius | Fahrenheit
}
