/**
 * The deterministic part of the backend's model client
 * (backend/geminiClient.js): the condition-to-icon classifier, the four
 * prompt builders and the two bounded retry loops around the model call.
 * The model call and `JSON.parse` are oracles supplied by the caller.
 */
module GeminiClient {
  import opened Common
  import opened JsText
  import opened PromptText
  import opened Types

  /** Model calls per request before giving up. */
  const MaxRetries := 3

  // ---------------------------------------------------------------------
  // Condition to icon
  // ---------------------------------------------------------------------

  /** The six icon keywords the classifier can produce. */
  datatype Icon = Sunny | Cloudy | PartlyCloudy | Rain | Snow | Windy

  function IconName(icon: Icon): string {
    match icon
    case Sunny => "SUNNY"
    case Cloudy => "CLOUDY"
    case PartlyCloudy => "PARTLY_CLOUDY"
    case Rain => "RAIN"
    case Snow => "SNOW"
    case Windy => "WINDY"
  }

  predicate RainWord(c: string) {
    Contains(c, "rain") || Contains(c, "shower") || Contains(c, "drizzle")
  }

  predicate SnowWord(c: string) {
    Contains(c, "snow") || Contains(c, "sleet") || Contains(c, "ice")
  }

  predicate WindWord(c: string) {
    Contains(c, "wind")
  }

  predicate CloudWord(c: string) {
    Contains(c, "cloud") || Contains(c, "overcast")
  }

  predicate PartialWord(c: string) {
    Contains(c, "partly") || Contains(c, "scattered")
  }

  predicate SunWord(c: string) {
    Contains(c, "sun") || Contains(c, "clear") || Contains(c, "fair")
  }

  /**
   * `mapConditionToIcon`: keyword groups tested in a fixed order on the
   * lower-cased condition, each by substring search; the first group that
   * matches decides.
   */
  function MapConditionToIcon(condition: string): (icon: Icon)
    ensures var c := ToLower(condition);
      && (icon == Rain <==> RainWord(c))
      && (icon == Snow <==> !RainWord(c) && SnowWord(c))
      && (icon == Windy <==> !RainWord(c) && !SnowWord(c) && WindWord(c))
      && (icon == Cloudy <==> !RainWord(c) && !SnowWord(c) && !WindWord(c) && CloudWord(c) && !PartialWord(c))
      && (icon == Sunny <==> !RainWord(c) && !SnowWord(c) && !WindWord(c) && !CloudWord(c) && SunWord(c))
      && (icon == PartlyCloudy <==>
            !RainWord(c) && !SnowWord(c) && !WindWord(c)
            && ((CloudWord(c) && PartialWord(c)) || (!CloudWord(c) && !SunWord(c))))
  {
    var c := ToLower(condition);
    if RainWord(c) then Rain
    else if SnowWord(c) then Snow
    else if WindWord(c) then Windy
    else if CloudWord(c) then (if PartialWord(c) then PartlyCloudy else Cloudy)
    else if SunWord(c) then Sunny
    else PartlyCloudy
  }

  /** The classification ignores letter case. */
  lemma IconIgnoresCase(a: string, b: string)
    requires ToLower(a) == ToLower(b)
    ensures MapConditionToIcon(a) == MapConditionToIcon(b)
  {
  }

  lemma IconOfLowerCase(condition: string)
    ensures MapConditionToIcon(ToLower(condition)) == MapConditionToIcon(condition)
  {
    LowerIdempotent(condition);
  }

  /** A rain keyword wins whatever else the condition says. */
  lemma RainWins(condition: string, other: string)
    requires RainWord(ToLower(condition))
    ensures MapConditionToIcon(condition + other) == Rain
    ensures MapConditionToIcon(other + condition) == Rain
  {
    var c := ToLower(condition);
    var o := ToLower(other);
    assert ToLower(condition + other) == c + o;
    assert ToLower(other + condition) == o + c;
    if Contains(c, "rain") {
      ContainsInLeft(c, o, "rain"); ContainsInRight(o, c, "rain");
    } else if Contains(c, "shower") {
      ContainsInLeft(c, o, "shower"); ContainsInRight(o, c, "shower");
    } else {
      ContainsInLeft(c, o, "drizzle"); ContainsInRight(o, c, "drizzle");
    }
  }

  /** "Light rain showers" is rain. */
  lemma LightRainShowers()
    ensures MapConditionToIcon("Light rain showers") == Rain
  {
    var c := ToLower("Light rain showers");
    assert c == "light rain showers";
    assert OccursAt(c, "rain", 6);
  }

  /** The wind test comes before the cloud test. */
  lemma PartlyCloudyAndWindy()
    ensures MapConditionToIcon("Partly cloudy and windy") == Windy
  {
    assert ToLower("Partly cloudy and windy") == "partly cloudy and windy";
    PartlyCloudyAndWindyWords("partly cloudy and windy");
  }

  lemma PartlyCloudyAndWindyWords(c: string)
    requires c == "partly cloudy and windy"
    ensures !RainWord(c) && !SnowWord(c) && WindWord(c)
  {
    NotContainsPair(c, "rain");
    NotContainsMissingChar(c, "shower", 0);
    NotContainsMissingChar(c, "drizzle", 3);
    NotContainsMissingChar(c, "snow", 0);
    NotContainsMissingChar(c, "sleet", 0);
    NotContainsPair(c, "ice");
    assert OccursAt(c, "wind", 18);
  }

  /** Keywords are matched as substrings, not words: "ice" is found in "nice". */
  lemma NiceDay()
    ensures MapConditionToIcon("Nice day") == Snow
  {
    var c := ToLower("Nice day");
    assert c == "nice day";
    NotContainsMissingChar(c, "rain", 0);
    NotContainsMissingChar(c, "shower", 0);
    NotContainsMissingChar(c, "drizzle", 3);
    assert OccursAt(c, "ice", 1);
  }

  /** A cloud keyword with "scattered" is partly cloudy. */
  lemma ScatteredClouds()
    ensures MapConditionToIcon("Scattered clouds") == PartlyCloudy
  {
    assert ToLower("Scattered clouds") == "scattered clouds";
    ScatteredCloudsWords("scattered clouds");
  }

  lemma ScatteredCloudsWords(c: string)
    requires c == "scattered clouds"
    ensures !RainWord(c) && !SnowWord(c) && !WindWord(c) && CloudWord(c) && PartialWord(c)
  {
    NotContainsMissingChar(c, "rain", 2);
    NotContainsMissingChar(c, "shower", 3);
    NotContainsMissingChar(c, "drizzle", 3);
    NotContainsMissingChar(c, "snow", 1);
    NotContainsPair(c, "sleet");
    NotContainsMissingChar(c, "ice", 0);
    NotContainsMissingChar(c, "wind", 0);
    assert OccursAt(c, "cloud", 10);
    assert OccursAt(c, "scattered", 0);
  }

  /** A cloud keyword without "partly"/"scattered" is cloudy. */
  lemma Overcast()
    ensures MapConditionToIcon("Overcast") == Cloudy
  {
    var c := ToLower("Overcast");
    assert c == "overcast";
    NotContainsMissingChar(c, "rain", 2);
    NotContainsMissingChar(c, "shower", 1);
    NotContainsMissingChar(c, "drizzle", 0);
    NotContainsMissingChar(c, "snow", 1);
    NotContainsMissingChar(c, "sleet", 1);
    NotContainsMissingChar(c, "ice", 0);
    NotContainsMissingChar(c, "wind", 0);
    assert OccursAt(c, "overcast", 0);
    NotContainsMissingChar(c, "partly", 0);
    NotContainsMissingChar(c, "scattered", 8);
  }

  /** The sun keywords are tested last. */
  lemma SunnySky()
    ensures MapConditionToIcon("Sunny") == Sunny
  {
    var c := ToLower("Sunny");
    assert c == "sunny";
    NotContainsMissingChar(c, "rain", 0);
    NotContainsMissingChar(c, "shower", 1);
    NotContainsMissingChar(c, "drizzle", 0);
    NotContainsMissingChar(c, "snow", 2);
    NotContainsMissingChar(c, "sleet", 1);
    NotContainsMissingChar(c, "ice", 0);
    NotContainsMissingChar(c, "wind", 0);
    NotContainsMissingChar(c, "cloud", 0);
    NotContainsMissingChar(c, "overcast", 0);
    assert OccursAt(c, "sun", 0);
  }

  /** A condition with no keyword falls back to partly cloudy. */
  lemma Foggy()
    ensures MapConditionToIcon("Foggy") == PartlyCloudy
  {
    var c := ToLower("Foggy");
    assert c == "foggy";
    NotContainsMissingChar(c, "rain", 0);
    NotContainsMissingChar(c, "shower", 0);
    NotContainsMissingChar(c, "drizzle", 0);
    NotContainsMissingChar(c, "snow", 0);
    NotContainsMissingChar(c, "sleet", 0);
    NotContainsMissingChar(c, "ice", 0);
    NotContainsMissingChar(c, "wind", 0);
    NotContainsMissingChar(c, "cloud", 0);
    NotContainsMissingChar(c, "overcast", 1);
    NotContainsMissingChar(c, "sun", 0);
    NotContainsMissingChar(c, "clear", 0);
    NotContainsMissingChar(c, "fair", 1);
  }

  // ---------------------------------------------------------------------
  // Prompts
  // ---------------------------------------------------------------------

  /** The `locationInfo` argument: coordinates and/or a place name, any of
      them possibly undefined. */
  datatype LocationInfo = LocationInfo(lat: Option<real>, lon: Option<real>, location: Option<string>)

  /** The flat forecast the weather call returns and the clothing prompts
      read.  The schema asks for a NUMBER for each temperature, so a
      temperature may be fractional (degrees Celsius). */
  datatype FlatWeather = FlatWeather(
    location: string,
    highTemp: real, lowTemp: real,
    temp07: real, temp12: real, temp17: real, temp22: real,
    condition07: string, condition12: string, condition17: string, condition22: string,
    dateRange: Option<string>)

  /** `locationInfo.lat` is truthy: present and not zero. */
  predicate HasLatitude(info: Option<LocationInfo>) {
    info.Some? && info.value.lat.Some? && info.value.lat.value != 0.0
  }

  /** `locationInfo.location` is truthy: present and not empty. */
  predicate HasPlaceName(info: Option<LocationInfo>) {
    info.Some? && info.value.location.Some? && info.value.location.value != ""
  }

  function WeatherLocationClause(info: Option<LocationInfo>, show: real -> string): string {
    if HasLatitude(info) then
      "at latitude " + show(info.value.lat.value) + " and longitude " + NumberText(info.value.lon, show)
    else if HasPlaceName(info) then
      "for the location " + Quoted(info.value.location.value)
    else ""
  }

  const WeatherIntro := "Using real-time weather data from Google Search "
  const WeatherFields := ", provide the weather forecast.\nIf the location is in Switzerland, prioritize weather data from MeteoSchweiz. For all other locations, use the best available real-time weather data.\nThe response MUST be a single, valid JSON object with these exact fields:\n- \"location\": the city and region (e.g., \"Zurich, Switzerland\")\n- \"highTemp\": the day's high temperature in Celsius (number)\n- \"lowTemp\": the day's low temperature in Celsius (number)\n- \"temp07\": temperature at 7:00 AM in Celsius (number)\n- \"temp12\": temperature at 12:00 noon in Celsius (number)\n- \"temp17\": temperature at 5:00 PM in Celsius (number)\n- \"temp22\": temperature at 10:00 PM in Celsius (number)\n- \"condition07\": brief weather condition at 7:00 AM (e.g., \"Clear\", \"Cloudy\", \"Light rain\")\n- \"condition12\": brief weather condition at 12:00 noon\n- \"condition17\": brief weather condition at 5:00 PM\n- \"condition22\": brief weather condition at 10:00 PM\n\nUse Google Search to get accurate, real-time weather data. Do not make up or estimate temperatures."

  /** `createWeatherPrompt(day, locationInfo)`; `show` renders a number. */
  function CreateWeatherPrompt(day: Option<string>, info: Option<LocationInfo>, show: real -> string): string {
    WeatherIntro + DayClause(day) + " " + WeatherLocationClause(info, show) + WeatherFields
  }

  /** `${n}°C`; `show` renders the number. */
  function Celsius(n: real, show: real -> string): string {
    show(n) + "\U{B0}C"
  }

  /** The five forecast lines both clothing prompts share. */
  function ForecastLines(w: FlatWeather, show: real -> string): string {
    "\n- High: " + Celsius(w.highTemp, show) + ", Low: " + Celsius(w.lowTemp, show)
    + "\n- 7:00 AM: " + Celsius(w.temp07, show) + ", " + w.condition07
    + "\n- 12:00 noon: " + Celsius(w.temp12, show) + ", " + w.condition12
    + "\n- 5:00 PM: " + Celsius(w.temp17, show) + ", " + w.condition17
    + "\n- 10:00 PM: " + Celsius(w.temp22, show) + ", " + w.condition22
  }

  const ClothingIntro := "Based on the following weather forecast for "
  const ClothingFamily := "\n\nProvide clothing suggestions for a family consisting of: "
  const ClothingFormat := "\n\nThe response MUST be a JSON array of objects. Each object must contain:\n- \"member\": a string matching one of the provided family members ("
  const ClothingNorms := ")\n- \"outfit\": an array of strings listing clothing items. For items only needed for a specific part of the day, specify when (e.g., \"Rain jacket (for evening)\"). If a suggestion is specifically for an activity in the provided schedule, mention it in parentheses (e.g., \"Running shoes (for morning run)\").\n- \"notes\": a string with a brief explanation of the outfit choices based on the weather forecast and schedule.\n\nClothing suggestions must be practical for the full day's temperature range and conditions. Consider local clothing norms and styles for "

  /** `createClothingPrompt(family, weatherData, rawschedule)`; `show` renders a number. */
  function CreateClothingPrompt(family: seq<string>, w: FlatWeather, rawschedule: Option<string>, show: real -> string): string {
    ClothingIntro + w.location + ":" + ForecastLines(w, show)
    + ClothingFamily + FamilyList(family) + "." + ScheduleClause(rawschedule)
    + ClothingFormat + FamilyList(family) + ClothingNorms + w.location + "."
  }

  const TravelWeatherIntro := "Using real-time weather data from Google Search for an upcoming trip to "
  const TravelWeatherFields := ", provide a weather summary.\nThe response MUST be a single, valid JSON object with these exact fields:\n- \"location\": the destination (e.g., \"Paris, France\")\n- \"dateRange\": the interpreted date range for the trip (e.g., \"Dec 24, 2024 - Dec 28, 2024\")\n- \"highTemp\": typical high temperature in Celsius (number)\n- \"lowTemp\": typical low temperature in Celsius (number)\n- \"temp07\": typical temperature at 7:00 AM in Celsius (number)\n- \"temp12\": typical temperature at 12:00 noon in Celsius (number)\n- \"temp17\": typical temperature at 5:00 PM in Celsius (number)\n- \"temp22\": typical temperature at 10:00 PM in Celsius (number)\n- \"condition07\": brief weather condition at 7:00 AM\n- \"condition12\": brief weather condition at 12:00 noon\n- \"condition17\": brief weather condition at 5:00 PM\n- \"condition22\": brief weather condition at 10:00 PM\n\nUse Google Search to get accurate weather forecast data."

  /** `createTravelWeatherPrompt(destinationAndDuration)` */
  function CreateTravelWeatherPrompt(destinationAndDuration: string): string {
    TravelWeatherIntro + destinationAndDuration + TravelWeatherFields
  }

  const TravelClothingIntro := "Based on the following weather forecast for a trip to "
  const TravelClothingFamily := "\n\nProvide a packing list for a family consisting of: "
  const TravelClothingFormat := ".\n\nThe response MUST be a JSON array of objects. Each object must contain:\n- \"member\": a string matching one of the provided family members ("
  const TravelClothingNorms := ")\n- \"outfit\": an array of strings listing clothing items to pack\n- \"notes\": a string with packing advice based on the weather forecast\n\nConsider local clothing norms and styles for "

  /** `createTravelClothingPrompt(family, weatherData)`; `show` renders a number. */
  function CreateTravelClothingPrompt(family: seq<string>, w: FlatWeather, show: real -> string): string {
    TravelClothingIntro + w.location + " (" + TextOf(w.dateRange) + "):" + ForecastLines(w, show)
    + TravelClothingFamily + FamilyList(family) + TravelClothingFormat + FamilyList(family)
    + TravelClothingNorms + w.location + "."
  }

  // ---------------------------------------------------------------------
  // Properties of the prompts
  // ---------------------------------------------------------------------

  /** Only "tomorrow" selects the tomorrow forecast; any other day, or none,
      asks for today. */
  lemma WeatherPromptOtherDay(day: Option<string>, info: Option<LocationInfo>, show: real -> string)
    requires day != Some("tomorrow")
    ensures CreateWeatherPrompt(day, info, show) == CreateWeatherPrompt(Some("today"), info, show)
  {
  }

  lemma WeatherPromptDay(day: Option<string>, info: Option<LocationInfo>, show: real -> string)
    ensures Contains(CreateWeatherPrompt(day, info, show), DayClause(day))
  {
    var d := DayClause(day);
    ContainsItself(d);
    ContainsInRight(WeatherIntro, d, d);
    ContainsInLeft(WeatherIntro + d, " ", d);
    ContainsInLeft(WeatherIntro + d + " ", WeatherLocationClause(info, show), d);
    ContainsInLeft(WeatherIntro + d + " " + WeatherLocationClause(info, show), WeatherFields, d);
  }

  /** A latitude of 0 is falsy: it is treated as if no coordinates were given. */
  lemma WeatherPromptZeroLatitude(lon: Option<real>, location: Option<string>, day: Option<string>, show: real -> string)
    ensures CreateWeatherPrompt(day, Some(LocationInfo(Some(0.0), lon, location)), show)
         == CreateWeatherPrompt(day, Some(LocationInfo(None, lon, location)), show)
  {
  }

  /** The location clause of the weather prompt occurs in it. */
  lemma WeatherPromptLocation(day: Option<string>, info: Option<LocationInfo>, show: real -> string)
    ensures Contains(CreateWeatherPrompt(day, info, show), WeatherLocationClause(info, show))
  {
    var l := WeatherLocationClause(info, show);
    ContainsItself(l);
    ContainsInRight(WeatherIntro + DayClause(day) + " ", l, l);
    ContainsInLeft(WeatherIntro + DayClause(day) + " " + l, WeatherFields, l);
  }

  /** With a truthy latitude the prompt names the coordinates. */
  lemma WeatherPromptCoordinates(day: Option<string>, info: Option<LocationInfo>, show: real -> string)
    requires HasLatitude(info)
    ensures Contains(CreateWeatherPrompt(day, info, show), "at latitude " + show(info.value.lat.value))
  {
    var lat := "at latitude " + show(info.value.lat.value);
    ContainsItself(lat);
    ContainsInLeft(lat, " and longitude ", lat);
    ContainsInLeft(lat + " and longitude ", NumberText(info.value.lon, show), lat);
    WeatherPromptLocation(day, info, show);
    ContainsTransitive(CreateWeatherPrompt(day, info, show), WeatherLocationClause(info, show), lat);
  }

  /** Without a truthy latitude, a non-empty place name is quoted. */
  lemma WeatherPromptPlace(day: Option<string>, info: Option<LocationInfo>, show: real -> string)
    requires !HasLatitude(info) && HasPlaceName(info)
    ensures Contains(CreateWeatherPrompt(day, info, show), Quoted(info.value.location.value))
  {
    var q := Quoted(info.value.location.value);
    ContainsItself(q);
    ContainsInRight("for the location ", q, q);
    WeatherPromptLocation(day, info, show);
    ContainsTransitive(CreateWeatherPrompt(day, info, show), WeatherLocationClause(info, show), q);
  }

  /** The clothing prompt names every member and the forecast's location. */
  lemma ClothingPromptMentions(family: seq<string>, w: FlatWeather, rawschedule: Option<string>, show: real -> string)
    ensures forall k :: 0 <= k < |family| ==> Contains(CreateClothingPrompt(family, w, rawschedule, show), family[k])
    ensures Contains(CreateClothingPrompt(family, w, rawschedule, show), w.location)
  {
    var p := CreateClothingPrompt(family, w, rawschedule, show);
    var f := FamilyList(family);
    var a := ClothingIntro + w.location + ":" + ForecastLines(w, show) + ClothingFamily;
    ContainsItself(f);
    ContainsInRight(a, f, f);
    ContainsInLeft(a + f, ".", f);
    ContainsInLeft(a + f + ".", ScheduleClause(rawschedule), f);
    ContainsInLeft(a + f + "." + ScheduleClause(rawschedule), ClothingFormat, f);
    var b := a + f + "." + ScheduleClause(rawschedule) + ClothingFormat;
    ContainsInLeft(b, f, f);
    ContainsInLeft(b + f, ClothingNorms, f);
    ContainsInLeft(b + f + ClothingNorms, w.location, f);
    ContainsInLeft(b + f + ClothingNorms + w.location, ".", f);
    forall k | 0 <= k < |family| ensures Contains(p, family[k]) {
      FamilyListContains(family, k);
      ContainsTransitive(p, f, family[k]);
    }
    ContainsItself(w.location);
    ContainsInRight(b + f + ClothingNorms, w.location, w.location);
    ContainsInLeft(b + f + ClothingNorms + w.location, ".", w.location);
  }

  /** A blank schedule (after the cut) leaves no trace in the prompt. */
  lemma ClothingPromptBlankSchedule(family: seq<string>, w: FlatWeather, rawschedule: Option<string>, show: real -> string)
    requires IsBlank(ScheduleOf(rawschedule))
    ensures CreateClothingPrompt(family, w, rawschedule, show) == CreateClothingPrompt(family, w, None, show)
  {
    NoScheduleIsBlankSchedule(rawschedule);
  }

  /** A schedule that is not blank is quoted in the prompt. */
  lemma ClothingPromptSchedule(family: seq<string>, w: FlatWeather, rawschedule: Option<string>, show: real -> string)
    requires !IsBlank(ScheduleOf(rawschedule))
    ensures Contains(CreateClothingPrompt(family, w, rawschedule, show), Quoted(ScheduleOf(rawschedule)))
  {
    var p := CreateClothingPrompt(family, w, rawschedule, show);
    var s := ScheduleClause(rawschedule);
    var f := FamilyList(family);
    var a := ClothingIntro + w.location + ":" + ForecastLines(w, show) + ClothingFamily + f + ".";
    ContainsItself(s);
    ContainsInRight(a, s, s);
    ContainsInLeft(a + s, ClothingFormat, s);
    ContainsInLeft(a + s + ClothingFormat, f, s);
    ContainsInLeft(a + s + ClothingFormat + f, ClothingNorms, s);
    ContainsInLeft(a + s + ClothingFormat + f + ClothingNorms, w.location, s);
    ContainsInLeft(a + s + ClothingFormat + f + ClothingNorms + w.location, ".", s);
    ScheduleClauseQuotes(rawschedule);
    ContainsTransitive(p, s, Quoted(ScheduleOf(rawschedule)));
  }

  /** Only the first 300 characters of the schedule matter. */
  lemma ClothingPromptScheduleCut(family: seq<string>, w: FlatWeather, a: string, b: string, show: real -> string)
    requires Take(a, ScheduleLimit) == Take(b, ScheduleLimit)
    ensures CreateClothingPrompt(family, w, Some(a), show) == CreateClothingPrompt(family, w, Some(b), show)
  {
    ScheduleClauseCut(a, b);
  }

  lemma TravelWeatherPromptDestination(destinationAndDuration: string)
    ensures Contains(CreateTravelWeatherPrompt(destinationAndDuration), destinationAndDuration)
  {
    ContainsInMiddle(TravelWeatherIntro, destinationAndDuration, TravelWeatherFields);
  }

  /** The travel clothing prompt names every member, the location and the
      date range. */
  lemma TravelClothingPromptMentions(family: seq<string>, w: FlatWeather, show: real -> string)
    ensures forall k :: 0 <= k < |family| ==> Contains(CreateTravelClothingPrompt(family, w, show), family[k])
    ensures Contains(CreateTravelClothingPrompt(family, w, show), w.location)
    ensures Contains(CreateTravelClothingPrompt(family, w, show), TextOf(w.dateRange))
  {
    var p := CreateTravelClothingPrompt(family, w, show);
    var f := FamilyList(family);
    var d := TextOf(w.dateRange);
    var a := TravelClothingIntro + w.location + " (" + d + "):" + ForecastLines(w, show) + TravelClothingFamily;
    ContainsItself(f);
    ContainsInRight(a, f, f);
    ContainsInLeft(a + f, TravelClothingFormat, f);
    ContainsInLeft(a + f + TravelClothingFormat, f, f);
    ContainsInLeft(a + f + TravelClothingFormat + f, TravelClothingNorms, f);
    ContainsInLeft(a + f + TravelClothingFormat + f + TravelClothingNorms, w.location, f);
    ContainsInLeft(a + f + TravelClothingFormat + f + TravelClothingNorms + w.location, ".", f);
    forall k | 0 <= k < |family| ensures Contains(p, family[k]) {
      FamilyListContains(family, k);
      ContainsTransitive(p, f, family[k]);
    }
    var b := a + f + TravelClothingFormat + f + TravelClothingNorms;
    ContainsItself(w.location);
    ContainsInRight(b, w.location, w.location);
    ContainsInLeft(b + w.location, ".", w.location);
    var e := TravelClothingIntro + w.location + " (";
    ContainsItself(d);
    ContainsInRight(e, d, d);
    ContainsInLeft(e + d, "):", d);
    ContainsInLeft(e + d + "):", ForecastLines(w, show), d);
    ContainsInLeft(e + d + "):" + ForecastLines(w, show), TravelClothingFamily, d);
    ContainsInLeft(a, f, d);
    ContainsInLeft(a + f, TravelClothingFormat, d);
    ContainsInLeft(a + f + TravelClothingFormat, f, d);
    ContainsInLeft(a + f + TravelClothingFormat + f, TravelClothingNorms, d);
    ContainsInLeft(b, w.location, d);
    ContainsInLeft(b + w.location, ".", d);
  }

  // ---------------------------------------------------------------------
  // The retry loops
  // ---------------------------------------------------------------------

  /** The structured-output schema a request names. */
  datatype Schema = FlatWeatherSchema | SuggestionListSchema

  /** One `generateContent` request; every request asks for JSON output. */
  datatype ModelRequest = ModelRequest(
    prompt: string,
    temperature: real, topP: real, topK: nat, maxOutputTokens: nat,
    responseSchema: Schema,
    googleSearch: bool)

  /** The weather request: low temperature, the flat weather schema and
      the Google Search tool together. */
  function WeatherRequest(prompt: string): ModelRequest {
    ModelRequest(prompt, 0.2, 0.8, 20, 2048, FlatWeatherSchema, true)
  }

  /** The clothing request: the suggestion-list schema, no search tool. */
  function ClothingRequest(prompt: string): ModelRequest {
    ModelRequest(prompt, 0.7, 0.95, 40, 4096, SuggestionListSchema, false)
  }

  /** What one attempt yields: the parse of the trimmed reply text, or the
      error the call threw. */
  function AttemptResult<T>(reply: Reply, parse: string -> Result<T, Error>): Result<T, Error> {
    match reply
    case Threw(e) => Err(e)
    case Replied(text) => parse(Trim(text.GetOr("")))
  }

  /**
   * What a run of the loop promises, `reply(n)` being the outcome of the
   * n-th call: between one and three calls, all with the same request;
   * every call but the last failed; the result is the last call's
   * outcome, and a failure only after the third call; the waits between
   * calls are 1000, 2000, ... milliseconds, none after the last call.
   */
  ghost predicate RetryOutcome<T>(request: ModelRequest, reply: nat -> Reply, parse: string -> Result<T, Error>,
                            result: Result<T, Error>, calls: seq<ModelRequest>, waits: seq<nat>)
  {
    && 1 <= |calls| <= MaxRetries
    && (forall k :: 0 <= k < |calls| ==> calls[k] == request)
    && (forall n :: 1 <= n < |calls| ==> AttemptResult(reply(n), parse).Err?)
    && result == AttemptResult(reply(|calls|), parse)
    && (result.Err? ==> |calls| == MaxRetries)
    && |waits| == |calls| - 1
    && (forall k :: 0 <= k < |waits| ==> waits[k] == 1000 * (k + 1))
  }

  /** The number of calls the replies call for: up to the first attempt that
      succeeds, or all three. */
  function CallsMade<T>(reply: nat -> Reply, parse: string -> Result<T, Error>): nat {
    if AttemptResult(reply(1), parse).Ok? then 1
    else if AttemptResult(reply(2), parse).Ok? then 2
    else 3
  }

  lemma RetryCalls<T>(request: ModelRequest, reply: nat -> Reply, parse: string -> Result<T, Error>,
                      result: Result<T, Error>, calls: seq<ModelRequest>, waits: seq<nat>)
    requires RetryOutcome(request, reply, parse, result, calls, waits)
    ensures |calls| == CallsMade(reply, parse)
  {
  }

  /** The replies decide the run: the outcome above is unique. */
  lemma RetryOutcomeUnique<T>(request: ModelRequest, reply: nat -> Reply, parse: string -> Result<T, Error>,
                              r1: Result<T, Error>, c1: seq<ModelRequest>, w1: seq<nat>,
                              r2: Result<T, Error>, c2: seq<ModelRequest>, w2: seq<nat>)
    requires RetryOutcome(request, reply, parse, r1, c1, w1)
    requires RetryOutcome(request, reply, parse, r2, c2, w2)
    ensures r1 == r2 && c1 == c2 && w1 == w2
  {
    RetryCalls(request, reply, parse, r1, c1, w1);
    RetryCalls(request, reply, parse, r2, c2, w2);
  }

  /**
   * The loop of `getWeatherData` and `getClothingSuggestions`: call the
   * model, parse the trimmed text and return it; on an error remember it,
   * give up after the third attempt, otherwise wait 1000 ms times the
   * attempt number and try again.
   */
  method Retry<T>(request: ModelRequest, reply: nat -> Reply, parse: string -> Result<T, Error>, fallback: string)
    returns (result: Result<T, Error>, calls: seq<ModelRequest>, waits: seq<nat>)
    ensures RetryOutcome(request, reply, parse, result, calls, waits)
  {
    var lastError: Option<Error> := None;
    calls, waits := [], [];
    var attempt := 1;
    while attempt <= MaxRetries
      invariant 1 <= attempt <= MaxRetries
      invariant |calls| == attempt - 1 && forall k :: 0 <= k < |calls| ==> calls[k] == request
      invariant forall n :: 1 <= n < attempt ==> AttemptResult(reply(n), parse).Err?
      invariant |waits| == |calls| && forall k :: 0 <= k < |waits| ==> waits[k] == 1000 * (k + 1)
      decreases MaxRetries - attempt
    {
      calls := calls + [request];
      var outcome: Result<T, Error>;
      match reply(attempt) {
        case Threw(e) =>
          outcome := Err(e);
        case Replied(text) =>
          var responseText := Trim(text.GetOr(""));
          outcome := parse(responseText);
      }
      if outcome.Ok? {
        return outcome, calls, waits;
      }
      lastError := Some(outcome.error);
      if attempt == MaxRetries {
        break;
      }
      waits := waits + [1000 * attempt];
      attempt := attempt + 1;
    }
    result := match lastError case Some(e) => Err(e) case None => Err(Error(fallback));
  }

  /** `getWeatherData(prompt)` */
  method GetWeatherData(prompt: string, reply: nat -> Reply, parse: string -> Result<FlatWeather, Error>)
    returns (result: Result<FlatWeather, Error>, calls: seq<ModelRequest>, waits: seq<nat>)
    ensures RetryOutcome(WeatherRequest(prompt), reply, parse, result, calls, waits)
  {
    result, calls, waits := Retry(WeatherRequest(prompt), reply, parse, "Failed to get weather data");
  }

  /** `getClothingSuggestions(prompt)` */
  method GetClothingSuggestions(prompt: string, reply: nat -> Reply, parse: string -> Result<seq<ClothingSuggestion>, Error>)
    returns (result: Result<seq<ClothingSuggestion>, Error>, calls: seq<ModelRequest>, waits: seq<nat>)
    ensures RetryOutcome(ClothingRequest(prompt), reply, parse, result, calls, waits)
  {
    result, calls, waits := Retry(ClothingRequest(prompt), reply, parse, "Failed to get clothing suggestions");
  }
}
