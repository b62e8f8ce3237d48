/**
 * The computations behind the weather panel (components/WeatherDisplay.tsx):
 * the icon chosen for an icon keyword, the Celsius/Fahrenheit conversion,
 * the 12-hour time labels of the day-part timeline, the timeline's
 * temperature scale and the representative forecast of the summary.
 * The SVG geometry and the React rendering are not modelled.
 */
module WeatherDisplay {
  import opened Common
  import opened JsText
  import opened Types
  import opened GeminiClient

  // ---------------------------------------------------------------------
  // Icons
  // ---------------------------------------------------------------------

  /**
   * `getWeatherIconComponent`: the icon component is named by the
   * keyword, whatever its case; an unknown keyword gets the partly-cloudy
   * icon.  Components are identified with the classifier's `Icon` values.
   */
  function IconComponentFor(iconName: string): (icon: Icon)
    ensures ToUpper(iconName) == IconName(icon)
            || (icon == PartlyCloudy && forall i: Icon :: IconName(i) != ToUpper(iconName))
  {
    match ToUpper(iconName)
    case "SUNNY" => Sunny
    case "CLOUDY" => Cloudy
    case "PARTLY_CLOUDY" => PartlyCloudy
    case "RAIN" => Rain
    case "SNOW" => Snow
    case "WINDY" => Windy
    case _ => PartlyCloudy
  }

  /** The case of the keyword does not matter. */
  lemma IconComponentIgnoresCase(a: string, b: string)
    requires ToLower(a) == ToLower(b)
    ensures IconComponentFor(a) == IconComponentFor(b)
  {
    UpperOfLower(a);
    UpperOfLower(b);
  }

  /** A keyword with no lower-case letter is its own upper case. */
  lemma UpperOfUpperCase(s: string)
    requires forall k :: 0 <= k < |s| ==> !('a' <= s[k] <= 'z')
    ensures ToUpper(s) == s
  {
  }

  /** Every keyword the backend's classifier writes is drawn as the icon
      it names. */
  lemma IconComponentOfKeyword(icon: Icon)
    ensures IconComponentFor(IconName(icon)) == icon
  {
    UpperOfUpperCase(IconName(icon));
  }

  // ---------------------------------------------------------------------
  // Temperatures
  // ---------------------------------------------------------------------

  /**
   * `convertTemp`: Celsius is shown as it is; Fahrenheit is
   * `Math.round(c * 9 / 5 + 32)`, the nearest integer with halves rounded
   * up.  For an integer `c` the fraction of `c * 9 / 5` is a multiple of
   * one fifth, so the value is `floor((18 c + 325) / 10)`.
   */
  function ConvertTemp(celsius: int, unit: TempUnit): (t: int)
    ensures unit == Celsius ==> t == celsius
    ensures unit == Fahrenheit ==>
              t as real - 0.5 <= celsius as real * 9.0 / 5.0 + 32.0 < t as real + 0.5
  {
    if unit == Fahrenheit then (18 * celsius + 325) / 10 else celsius
  }

  /** The conversion keeps the order of temperatures. */
  lemma ConvertMonotonic(a: int, b: int, unit: TempUnit)
    requires a <= b
    ensures ConvertTemp(a, unit) <= ConvertTemp(b, unit)
  {
  }

  /** 25 °C is shown as 77 °F and 15 °C as 59 °F. */
  lemma ConvertExamples()
    ensures ConvertTemp(25, Fahrenheit) == 77
    ensures ConvertTemp(15, Fahrenheit) == 59
    ensures ConvertTemp(0, Fahrenheit) == 32 && ConvertTemp(100, Fahrenheit) == 212
    ensures ConvertTemp(-40, Fahrenheit) == -40
  {
  }

  // ---------------------------------------------------------------------
  // Time labels
  // ---------------------------------------------------------------------

  /** `((hh + 11) % 12) + 1`, the hour on a 12-hour clock. */
  function Hour12(hh: int): int {
    Rem(hh + 11, 12) + 1
  }

  /** The conventional 12-hour hour of a 24-hour clock hour. */
  function TwelveHour(hh: nat): nat {
    if hh % 12 == 0 then 12 else hh % 12
  }

  /** On a 24-hour clock hour, `Hour12` is the conventional 12-hour hour:
      midnight and noon are 12. */
  lemma ClockHour(hh: int)
    requires 0 <= hh < 24
    ensures Hour12(hh) == TwelveHour(hh)
    ensures 1 <= Hour12(hh) <= 12
  {
  }

  /** `Number(hhStr)`: the text before the first `:` read as a number. */
  function HourOf(time: string): Option<int> {
    ToNumber(FirstField(time, ':'))
  }

  /** `Number(mmStr || 0)`: without a `:` the minutes are 0. */
  function MinutesOf(time: string): Option<int> {
    var minutes := SecondField(time, ':');
    if minutes.None? then Some(0) else ToNumber(minutes.value)
  }

  /** The label of hour `hh`: the 12-hour hour, the minutes when they are
      a non-zero number, and `AM` before 12, `PM` from 12 on. */
  function ClockText(hh: int, mm: Option<int>): (text: string)
    ensures EndsWith(text, if hh >= 12 then " PM" else " AM")
  {
    var suffix := if hh >= 12 then " PM" else " AM";
    var head :=
      if mm.Some? && mm.value != 0 then IntToString(Hour12(hh)) + ":" + PadStart(IntToString(mm.value), 2, '0')
      else IntToString(Hour12(hh));
    EndsWithAppended(head, suffix);
    head + suffix
  }

  /**
   * The label under a timeline point: when the hour is NaN the raw text
   * is shown, otherwise the clock text of the hour and minutes.
   */
  function TimeLabel(time: string): (text: string)
    ensures HourOf(time).None? ==> text == time
    ensures HourOf(time).Some? ==> EndsWith(text, if HourOf(time).value >= 12 then " PM" else " AM")
  {
    var hh := HourOf(time);
    if hh.None? then time else ClockText(hh.value, MinutesOf(time))
  }

  /** A number below 100 written with two digits, as in `07`. */
  function TwoDigits(n: nat): string {
    PadStart(NatToString(n), 2, '0')
  }

  lemma TwoDigitsText(n: nat)
    requires n < 100
    ensures AllDigits(TwoDigits(n)) && DigitsValue(TwoDigits(n)) == n
    ensures PadStart(IntToString(n), 2, '0') == TwoDigits(n)
  {
    var s := TwoDigits(n);
    var d := NatToString(n);
    if n < 10 {
      assert d == [DigitChar(n)];
      assert s == ['0'] + d;
      assert s[..1] == "0" && s[1] == DigitChar(n);
      assert DigitsValue(s[..1]) == 0;
      assert DigitsValue(s) == DigitsValue(s[..1]) * 10 + n;
    } else {
      assert |NatToString(n / 10)| == 1;
      assert s == d;
      DigitsOfNat(n);
    }
  }

  lemma TwoDigitsValue(n: nat)
    requires n < 100
    ensures ':' !in TwoDigits(n)
    ensures ToNumber(TwoDigits(n)) == Some(n)
  {
    var s := TwoDigits(n);
    TwoDigitsText(n);
    NumberOfDigits(s);
    assert !IsDigit(':');
  }

  /** The two fields of `p:q` when neither part holds a colon. */
  lemma FieldsOfPair(p: string, q: string)
    requires ':' !in p && ':' !in q
    ensures FirstField(p + ":" + q, ':') == p && SecondField(p + ":" + q, ':') == Some(q)
  {
    var t := p + ":" + q;
    var i := IndexOf(t, ':');
    assert t[|p|] == ':';
    assert t[..i] == p;
    assert t[i + 1..] == q;
  }

  /**
   * A 24-hour clock time `hh:mm` is labelled as on a 12-hour clock: the
   * hour (12 for midnight and noon), `:mm` unless the minutes are zero,
   * and `AM` before noon, `PM` from noon on.
   */
  lemma ClockLabel(hh: nat, mm: nat)
    requires hh < 24 && mm < 60
    ensures TimeLabel(TwoDigits(hh) + ":" + TwoDigits(mm))
            == (if mm == 0 then NatToString(TwelveHour(hh)) else NatToString(TwelveHour(hh)) + ":" + TwoDigits(mm))
               + (if hh < 12 then " AM" else " PM")
  {
    var t := TwoDigits(hh) + ":" + TwoDigits(mm);
    assert TimeLabel(t) == ClockText(hh, Some(mm)) by {
      ClockFields(hh, mm);
      TimeLabelOfClock(t, hh, mm);
    }
    ClockHour(hh);
    TwoDigitsText(mm);
    ClockTextOf(hh, mm, NatToString(TwelveHour(hh)), TwoDigits(mm));
  }

  /** `hh:mm` reads back as hour `hh` and minute `mm`. */
  lemma ClockFields(hh: nat, mm: nat)
    requires hh < 24 && mm < 60
    ensures HourOf(TwoDigits(hh) + ":" + TwoDigits(mm)) == Some(hh)
    ensures MinutesOf(TwoDigits(hh) + ":" + TwoDigits(mm)) == Some(mm)
  {
    TwoDigitsValue(hh);
    TwoDigitsValue(mm);
    FieldsOfPair(TwoDigits(hh), TwoDigits(mm));
  }

  lemma TimeLabelOfClock(t: string, hh: int, mm: int)
    requires HourOf(t) == Some(hh) && MinutesOf(t) == Some(mm)
    ensures TimeLabel(t) == ClockText(hh, Some(mm))
  {
  }

  /** The clock text, given the text of the hour and of the minutes. */
  lemma ClockTextOf(hh: int, mm: int, hourText: string, minuteText: string)
    requires IntToString(Hour12(hh)) == hourText && PadStart(IntToString(mm), 2, '0') == minuteText
    ensures ClockText(hh, Some(mm))
            == (if mm == 0 then hourText else hourText + ":" + minuteText) + (if hh < 12 then " AM" else " PM")
  {
  }

  /** The labels of the timeline's times on the hour. */
  lemma SevenAm(time: string)
    requires time == "07:00"
    ensures TimeLabel(time) == "7 AM"
  {
    OneDigitText(7, '7');
    OneDigitText(0, '0');
    assert time == TwoDigits(7) + ":" + TwoDigits(0);
    HourExample(7, time, "7 AM");
  }

  lemma Noon(time: string)
    requires time == "12:00"
    ensures TimeLabel(time) == "12 PM"
  {
    OneDigitText(0, '0');
    TwoDigitText(12, "12");
    assert time == TwoDigits(12) + ":" + TwoDigits(0);
    HourExample(12, time, "12 PM");
  }

  lemma FivePm(time: string)
    requires time == "17:00"
    ensures TimeLabel(time) == "5 PM"
  {
    OneDigitText(0, '0');
    OneDigitText(5, '5');
    TwoDigitText(17, "17");
    assert time == TwoDigits(17) + ":" + TwoDigits(0);
    HourExample(17, time, "5 PM");
  }

  lemma TenPm(time: string)
    requires time == "22:00"
    ensures TimeLabel(time) == "10 PM"
  {
    OneDigitText(0, '0');
    TwoDigitText(22, "22");
    TwoDigitText(10, "10");
    assert time == TwoDigits(22) + ":" + TwoDigits(0);
    HourExample(22, time, "10 PM");
  }

  /** The text of a digit. */
  lemma OneDigitText(n: nat, c: char)
    requires n < 10 && c == DigitChar(n)
    ensures NatToString(n) == [c] && TwoDigits(n) == ['0', c]
  {
  }

  /** The text of a two-digit number. */
  lemma TwoDigitText(n: nat, s: string)
    requires 10 <= n < 100 && s == [DigitChar(n / 10), DigitChar(n % 10)]
    ensures NatToString(n) == s && TwoDigits(n) == s
  {
  }

  /** `hh:00` is labelled with the 12-hour hour alone. */
  lemma HourExample(hh: nat, time: string, text: string)
    requires hh < 24
    requires time == TwoDigits(hh) + ":" + TwoDigits(0)
    requires text == NatToString(TwelveHour(hh)) + (if hh < 12 then " AM" else " PM")
    ensures TimeLabel(time) == text
  {
    ClockLabel(hh, 0);
  }

  /** A missing time reads as the number 0, so it is labelled midnight. */
  lemma EmptyTimeIsMidnight()
    ensures TimeLabel("") == "12 AM"
  {
    assert FirstField("", ':') == "";
    assert IntToString(12) == "12";
  }

  // ---------------------------------------------------------------------
  // Timeline
  // ---------------------------------------------------------------------

  /** `Math.min(...s)` */
  function MinOf(s: seq<int>): (m: int)
    requires |s| > 0
    ensures m in s && forall x :: x in s ==> m <= x
    decreases |s|
  {
    if |s| == 1 then s[0]
    else
      var m := MinOf(s[1..]);
      assert forall x :: x in s ==> x == s[0] || x in s[1..];
      if s[0] <= m then s[0] else m
  }

  /** `Math.max(...s)` */
  function MaxOf(s: seq<int>): (m: int)
    requires |s| > 0
    ensures m in s && forall x :: x in s ==> x <= m
    decreases |s|
  {
    if |s| == 1 then s[0]
    else
      var m := MaxOf(s[1..]);
      assert forall x :: x in s ==> x == s[0] || x in s[1..];
      if s[0] >= m then s[0] else m
  }

  /** One point of the timeline: its temperature, icon and time label. */
  datatype TimelinePoint = TimelinePoint(temp: int, icon: Icon, timeLabel: string)

  /** The vertical scale of the timeline; `tempRange` is a divisor. */
  datatype Scale = Scale(minTemp: int, maxTemp: int, tempRange: int)

  datatype Timeline = Timeline(points: seq<TimelinePoint>, scale: Scale)

  function PointOf(part: DayPartForecast, unit: TempUnit): TimelinePoint {
    TimelinePoint(ConvertTemp(part.temp, unit), IconComponentFor(part.conditionIcon), TimeLabel(part.time))
  }

  /** The day-part temperatures in the unit shown. */
  function Temperatures(parts: seq<DayPartForecast>, unit: TempUnit): (temps: seq<int>)
    ensures |temps| == |parts|
    ensures forall i :: 0 <= i < |parts| ==> temps[i] == ConvertTemp(parts[i].temp, unit)
  {
    seq(|parts|, i requires 0 <= i < |parts| => ConvertTemp(parts[i].temp, unit))
  }

  /** `minTemp`, `maxTemp` and `maxTemp - minTemp || 1`: the scale runs
      from the lowest to the highest temperature and its range is never 0. */
  function ScaleOf(temps: seq<int>): (s: Scale)
    requires |temps| > 0
    ensures s.minTemp in temps && s.maxTemp in temps
    ensures forall x :: x in temps ==> s.minTemp <= x <= s.maxTemp
    ensures s.tempRange >= 1
    ensures s.minTemp < s.maxTemp ==> s.tempRange == s.maxTemp - s.minTemp
  {
    var lo, hi := MinOf(temps), MaxOf(temps);
    Scale(lo, hi, if hi - lo == 0 then 1 else hi - lo)
  }

  /**
   * `WeatherTimeline`: nothing for fewer than two day parts; otherwise
   * one point per part, in order, on the scale of the temperatures shown.
   */
  function TimelineOf(parts: seq<DayPartForecast>, unit: TempUnit): (r: Option<Timeline>)
    ensures r.None? <==> |parts| < 2
    ensures r.Some? ==> |r.value.points| == |parts|
    ensures r.Some? ==> forall i :: 0 <= i < |parts| ==> r.value.points[i] == PointOf(parts[i], unit)
    ensures r.Some? ==> r.value.scale == ScaleOf(Temperatures(parts, unit))
  {
    if |parts| < 2 then None
    else
      var points := seq(|parts|, i requires 0 <= i < |parts| => PointOf(parts[i], unit));
      Some(Timeline(points, ScaleOf(Temperatures(parts, unit))))
  }

  /** Every point lies on the scale, and the lowest and the highest point
      are its ends. */
  lemma TimelinePointsOnScale(parts: seq<DayPartForecast>, unit: TempUnit)
    requires |parts| >= 2
    ensures var t := TimelineOf(parts, unit).value;
            && (forall i :: 0 <= i < |parts| ==> t.scale.minTemp <= t.points[i].temp <= t.scale.maxTemp)
            && (exists i :: 0 <= i < |parts| && t.points[i].temp == t.scale.minTemp)
            && (exists i :: 0 <= i < |parts| && t.points[i].temp == t.scale.maxTemp)
  {
    var t := TimelineOf(parts, unit).value;
    var temps := Temperatures(parts, unit);
    forall i | 0 <= i < |parts| ensures t.scale.minTemp <= t.points[i].temp <= t.scale.maxTemp {
      assert temps[i] in temps;
    }
    var lo :| 0 <= lo < |temps| && temps[lo] == t.scale.minTemp;
    var hi :| 0 <= hi < |temps| && temps[hi] == t.scale.maxTemp;
    assert t.points[lo].temp == t.scale.minTemp && t.points[hi].temp == t.scale.maxTemp;
  }

  /** The Celsius temperatures of the day parts. */
  function CelsiusTemps(parts: seq<DayPartForecast>): seq<int> {
    Temperatures(parts, Celsius)
  }

  /** Converting commutes with the minimum: the lowest temperature shown
      is the lowest Celsius temperature, converted. */
  lemma {:induction false} MinOfConverted(parts: seq<DayPartForecast>, unit: TempUnit)
    requires |parts| > 0
    ensures MinOf(Temperatures(parts, unit)) == ConvertTemp(MinOf(CelsiusTemps(parts)), unit)
    decreases |parts|
  {
    var t, c := Temperatures(parts, unit), CelsiusTemps(parts);
    if |parts| > 1 {
      MinOfConverted(parts[1..], unit);
      assert t[1..] == Temperatures(parts[1..], unit);
      assert c[1..] == CelsiusTemps(parts[1..]);
      var m := MinOf(c[1..]);
      if c[0] <= m {
        ConvertMonotonic(c[0], m, unit);
      } else {
        ConvertMonotonic(m, c[0], unit);
      }
    }
  }

  /** The same for the maximum. */
  lemma {:induction false} MaxOfConverted(parts: seq<DayPartForecast>, unit: TempUnit)
    requires |parts| > 0
    ensures MaxOf(Temperatures(parts, unit)) == ConvertTemp(MaxOf(CelsiusTemps(parts)), unit)
    decreases |parts|
  {
    var t, c := Temperatures(parts, unit), CelsiusTemps(parts);
    if |parts| > 1 {
      MaxOfConverted(parts[1..], unit);
      assert t[1..] == Temperatures(parts[1..], unit);
      assert c[1..] == CelsiusTemps(parts[1..]);
      var m := MaxOf(c[1..]);
      if c[0] >= m {
        ConvertMonotonic(m, c[0], unit);
      } else {
        ConvertMonotonic(c[0], m, unit);
      }
    }
  }

  /** The timeline's scale, in either unit, is the Celsius scale converted. */
  lemma TimelineScale(parts: seq<DayPartForecast>, unit: TempUnit)
    requires |parts| >= 2
    ensures TimelineOf(parts, unit).value.scale.minTemp == ConvertTemp(MinOf(CelsiusTemps(parts)), unit)
    ensures TimelineOf(parts, unit).value.scale.maxTemp == ConvertTemp(MaxOf(CelsiusTemps(parts)), unit)
  {
    MinOfConverted(parts, unit);
    MaxOfConverted(parts, unit);
  }

  // ---------------------------------------------------------------------
  // Summary
  // ---------------------------------------------------------------------

  predicate IsAfternoon(part: DayPartForecast) {
    ToUpper(part.period) == "AFTERNOON"
  }

  /** No part before position `i` is an afternoon part. */
  predicate FirstAfternoonAt(parts: seq<DayPartForecast>, i: int) {
    forall j :: 0 <= j < i && j < |parts| ==> !IsAfternoon(parts[j])
  }

  /** `dayParts.find(p => p.period.toUpperCase() === 'AFTERNOON')` */
  function FindAfternoon(parts: seq<DayPartForecast>): (r: Option<DayPartForecast>)
    ensures r.None? <==> forall i :: 0 <= i < |parts| ==> !IsAfternoon(parts[i])
    ensures r.Some? ==> exists i :: 0 <= i < |parts| && parts[i] == r.value && IsAfternoon(parts[i])
                                    && forall j :: 0 <= j < i ==> !IsAfternoon(parts[j])
    decreases |parts|
  {
    if parts == [] then None
    else if IsAfternoon(parts[0]) then Some(parts[0])
    else
      var r := FindAfternoon(parts[1..]);
      assert forall i :: 0 < i < |parts| ==> parts[i] == parts[1..][i - 1];
      r
  }

  /**
   * The day part the summary describes: the first afternoon part, else
   * the second part, else the first, else none.
   */
  function Representative(parts: seq<DayPartForecast>): (r: Option<DayPartForecast>)
    ensures r.None? <==> parts == []
    ensures r.Some? ==> r.value in parts
    ensures (exists i :: 0 <= i < |parts| && IsAfternoon(parts[i])) ==>
              r.Some? && IsAfternoon(r.value)
    ensures forall i :: 0 <= i < |parts| && IsAfternoon(parts[i]) && FirstAfternoonAt(parts, i) ==>
              r == Some(parts[i])
    ensures (forall i :: 0 <= i < |parts| ==> !IsAfternoon(parts[i])) ==>
              r == if |parts| >= 2 then Some(parts[1]) else if |parts| == 1 then Some(parts[0]) else None
  {
    var afternoon := FindAfternoon(parts);
    if afternoon.Some? then afternoon
    else if |parts| > 1 then Some(parts[1])
    else if |parts| > 0 then Some(parts[0])
    else None
  }

  /** Shown when there is no day part to describe. */
  const NoCondition := "Weather data unavailable"

  /** What the panel shows: the icon and condition of the representative
      part, the high and low in the chosen unit and the timeline. */
  datatype Summary = Summary(icon: Icon, condition: string, high: int, low: int, timeline: Option<Timeline>)

  /** `WeatherDisplay` */
  function Display(weather: WeatherData, unit: TempUnit): (s: Summary)
    ensures s.high == ConvertTemp(weather.highTemp, unit) && s.low == ConvertTemp(weather.lowTemp, unit)
    ensures s.timeline == TimelineOf(weather.dayParts, unit)
    ensures weather.dayParts == [] ==> s.condition == NoCondition && s.icon == PartlyCloudy
    ensures weather.dayParts != [] ==>
              exists i :: 0 <= i < |weather.dayParts|
                          && s.condition == weather.dayParts[i].condition
                          && s.icon == IconComponentFor(weather.dayParts[i].conditionIcon)
    ensures var rep := Representative(weather.dayParts);
            rep.Some? ==> s.condition == rep.value.condition && s.icon == IconComponentFor(rep.value.conditionIcon)
  {
    var rep := Representative(weather.dayParts);
    var condition := if rep.Some? then rep.value.condition else NoCondition;
    var keyword := if rep.Some? then rep.value.conditionIcon else "PARTLY_CLOUDY";
    IconComponentOfKeyword(PartlyCloudy);
    Summary(IconComponentFor(keyword), condition, ConvertTemp(weather.highTemp, unit),
            ConvertTemp(weather.lowTemp, unit), TimelineOf(weather.dayParts, unit))
  }

  /** The summary describes the first afternoon part whenever there is
      one. */
  lemma DisplayPrefersAfternoon(weather: WeatherData, unit: TempUnit, k: nat)
    requires k < |weather.dayParts| && IsAfternoon(weather.dayParts[k])
    requires FirstAfternoonAt(weather.dayParts, k)
    ensures Display(weather, unit).condition == weather.dayParts[k].condition
    ensures Display(weather, unit).icon == IconComponentFor(weather.dayParts[k].conditionIcon)
  {
    assert Representative(weather.dayParts) == Some(weather.dayParts[k]);
  }

  /** Without an afternoon part the summary describes the second part,
      or the only one. */
  lemma DisplayWithoutAfternoon(weather: WeatherData, unit: TempUnit)
    requires weather.dayParts != []
    requires forall j :: 0 <= j < |weather.dayParts| ==> !IsAfternoon(weather.dayParts[j])
    ensures var part := weather.dayParts[if |weather.dayParts| >= 2 then 1 else 0];
            Display(weather, unit).condition == part.condition
            && Display(weather, unit).icon == IconComponentFor(part.conditionIcon)
  {
    var part := weather.dayParts[if |weather.dayParts| >= 2 then 1 else 0];
    assert Representative(weather.dayParts) == Some(part);
  }

  /** The high stays at least the low in either unit. */
  lemma DisplayKeepsHighAboveLow(weather: WeatherData, unit: TempUnit)
    requires weather.lowTemp <= weather.highTemp
    ensures Display(weather, unit).low <= Display(weather, unit).high
  {
    ConvertMonotonic(weather.lowTemp, weather.highTemp, unit);
  }
}
