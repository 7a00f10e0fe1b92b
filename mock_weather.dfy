/** The synthetic weather generator `fetchMockWeatherData`.

    `Math.random()` is an injected stream of draws, each a real in [0, 1);
    `Math.floor(Math.random() * n)` is `RandomInt(draw, n)`. One call of the
    generator takes `DrawCount` draws, in the order JavaScript evaluates them:
    seven for the current conditions, then six for each of the seven days.
    The clock and the date library are an injected `Calendar`. */
module MockWeather {
  import opened WeatherTypes

  const Conditions: seq<string> := ["Sunny", "Partly Cloudy", "Cloudy", "Light Rain", "Snow"]
  const Icons: seq<string> := ["sunny", "partly-cloudy", "cloudy", "rainy", "snowy"]
  const Days: seq<string> := ["Today", "Tomorrow", "Wednesday", "Thursday", "Friday", "Saturday", "Sunday"]

  const ForecastLength: nat := 7
  const CurrentDraws: nat := 7
  const DayDraws: nat := 6
  const DrawCount: nat := 49   // CurrentDraws + ForecastLength * DayDraws

  const PittsburghBase: int := 45
  const DefaultBase: int := 50

  /** What the generator reads from the clock: the ISO date (yyyy-mm-dd) and
      long weekday name `offset` days from today, and the ISO time stamp. */
  datatype Calendar = Calendar(dateOf: nat -> string, weekdayOf: nat -> string, timestamp: string)

  /** A value `Math.random()` can return. */
  predicate IsDraw(x: real) {
    0.0 <= x < 1.0
  }

  predicate ValidDraws(d: seq<real>) {
    forall i :: 0 <= i < |d| ==> IsDraw(d[i])
  }

  /** `Math.floor(x * n)` for a draw `x`: an integer in [0, n). */
  function RandomInt(x: real, n: nat): (k: int)
    requires IsDraw(x) && n > 0
    ensures 0 <= k < n
  {
    var y := x * (n as real);
    assert 0.0 <= y by {
      assert 0.0 <= x && 0.0 < n as real;
    }
    assert y < n as real by {
      assert (n as real) - y == (1.0 - x) * (n as real);
      assert 0.0 < 1.0 - x;
    }
    y.Floor
  }

  // ---------------------------------------------------------------------------
  // The base temperature: `location.toLowerCase().includes('pittsburgh')`

  /** Lower-casing of one character (ASCII letters only). */
  function LowerChar(c: char): char {
    if 'A' <= c <= 'Z' then (c as int + 32) as char else c
  }

  /** `toLowerCase()`: no upper-case ASCII letter is left. */
  function ToLower(s: string): (t: string)
    ensures forall i :: 0 <= i < |t| ==> !('A' <= t[i] <= 'Z')
  {
    seq(|s|, i requires 0 <= i < |s| => LowerChar(s[i]))
  }

  /** Lower-casing a lower-cased string changes nothing. */
  lemma ToLowerIdempotent(s: string)
    ensures ToLower(ToLower(s)) == ToLower(s)
  {
    var t := ToLower(s);
    assert forall i :: 0 <= i < |t| ==> ToLower(t)[i] == t[i];
  }

  /** `a` and `b` are the same ASCII letter in the two cases. */
  predicate CasePair(a: char, b: char) {
    'A' <= a <= 'Z' && b as int == a as int + 32
  }

  /** `s` and `t` differ at most in the case of ASCII letters. */
  predicate SameUpToCase(s: string, t: string) {
    |s| == |t| &&
    forall i :: 0 <= i < |s| ==> s[i] == t[i] || CasePair(s[i], t[i]) || CasePair(t[i], s[i])
  }

  /** Strings that differ only in letter case lower to the same string, and
      so get the same base temperature. */
  lemma CaseIsIgnored(s: string, t: string)
    requires SameUpToCase(s, t)
    ensures ToLower(s) == ToLower(t)
    ensures BaseTemp(s) == BaseTemp(t)
  {
    assert forall i :: 0 <= i < |s| ==> ToLower(s)[i] == ToLower(t)[i];
  }

  /** `t` occurs in `s` starting at index `i`. */
  predicate OccursAt(s: string, t: string, i: nat) {
    i + |t| <= |s| && s[i..i + |t|] == t
  }

  /** `s.includes(t)`, searching from the front. */
  predicate Contains(s: string, t: string)
    decreases |s|
  {
    |t| <= |s| && (s[..|t|] == t || Contains(s[1..], t))
  }

  /** `Contains` agrees with the definition of a substring: `t` occurs in `s`
      at some index. */
  lemma {:induction false} ContainsIff(s: string, t: string)
    ensures Contains(s, t) <==> exists i: nat :: OccursAt(s, t, i)
    decreases |s|
  {
    if |t| <= |s| && s[..|t|] != t {
      ContainsIff(s[1..], t);
      if Contains(s[1..], t) {
        var i: nat :| OccursAt(s[1..], t, i);
        assert s[i + 1..i + 1 + |t|] == s[1..][i..i + |t|];
        assert OccursAt(s, t, i + 1);
      }
      if exists i: nat :: OccursAt(s, t, i) {
        var i: nat :| OccursAt(s, t, i);
        assert i != 0;
        assert s[1..][i - 1..] == s[i..];
        assert s[1..][i - 1..i - 1 + |t|] == s[i..i + |t|];
        assert OccursAt(s[1..], t, i - 1);
      }
    } else if |t| <= |s| {
      assert OccursAt(s, t, 0);
    }
  }

  /** The base temperature: 45 when the lower-cased location contains
      "pittsburgh" anywhere, 50 otherwise. */
  function BaseTemp(location: string): (b: int)
    ensures b == PittsburghBase <==> exists i: nat :: OccursAt(ToLower(location), "pittsburgh", i)
    ensures b == PittsburghBase || b == DefaultBase
  {
    ContainsIff(ToLower(location), "pittsburgh");
    if Contains(ToLower(location), "pittsburgh") then PittsburghBase else DefaultBase
  }

  /** The heuristic ignores case and position. */
  lemma PittsburghHasLowerBase()
    ensures BaseTemp("Pittsburgh, PA") == PittsburghBase
    ensures BaseTemp("Downtown PITTSBURGH") == PittsburghBase
  {
    var p := ToLower("Pittsburgh, PA");
    assert p[0..10] == "pittsburgh";
    assert OccursAt(p, "pittsburgh", 0);
    var q := ToLower("Downtown PITTSBURGH");
    assert q[9..19] == "pittsburgh";
    assert OccursAt(q, "pittsburgh", 9);
  }

  // ---------------------------------------------------------------------------
  // Shape and ranges of a generated snapshot

  /** The condition label and the icon come from the same index of the two
      parallel lists. */
  predicate LabelsPaired(condition: string, icon: string) {
    exists j :: 0 <= j < |Conditions| && Conditions[j] == condition && Icons[j] == icon
  }

  predicate CurrentInRange(c: CurrentWeather, base: int) {
    && base - 5 <= c.temp <= base + 4
    && 50 <= c.humidity <= 79
    && 5 <= c.windSpeed <= 19
    && 8 <= c.visibility <= 12
    && base - 4 <= c.feelsLike <= base + 3
    && 1 <= c.uvIndex <= 10
    && LabelsPaired(c.condition, c.icon)
  }

  predicate ForecastInRange(f: WeatherForecast, base: int) {
    && base - 5 <= f.high <= base + 9
    && 10 <= f.high - f.low <= 19
    && 0 <= f.precipitation <= 99
    && 3 <= f.windSpeed <= 14
    && 40 <= f.humidity <= 79
    && LabelsPaired(f.condition, f.icon)
  }

  /** What every generated snapshot for `location` looks like. */
  predicate WellFormed(w: WeatherData, location: string, cal: Calendar) {
    var base := BaseTemp(location);
    && w.location == location
    && w.lastUpdated == cal.timestamp
    && CurrentInRange(w.current, base)
    && |w.forecast| == ForecastLength
    && forall i :: 0 <= i < |w.forecast| ==>
         && w.forecast[i].day == Days[i]
         && w.forecast[i].date == cal.dateOf(i)
         && ForecastInRange(w.forecast[i], base)
  }

  lemma PairedIconIsCategory(condition: string, icon: string)
    requires LabelsPaired(condition, icon)
    ensures icon in Icons && condition in Conditions
  {
  }

  // ---------------------------------------------------------------------------
  // The generator, as a specification

  /** The current conditions built from seven draws. */
  function CurrentFrom(base: int, d: seq<real>): (c: CurrentWeather)
    requires |d| == CurrentDraws && ValidDraws(d)
    ensures CurrentInRange(c, base)
  {
    var idx := RandomInt(d[0], |Conditions|);
    CurrentWeather(
      base + RandomInt(d[1], 10) - 5,
      Conditions[idx],
      50 + RandomInt(d[2], 30),
      5 + RandomInt(d[3], 15),
      8 + RandomInt(d[4], 5),
      Icons[idx],
      base + RandomInt(d[5], 8) - 4,
      RandomInt(d[6], 10) + 1)
  }

  /** The day label of day `i`: a fixed label while `i` is inside `Days`,
      otherwise the long weekday name from the date library. */
  function DayLabel(i: nat, cal: Calendar): string {
    if i < |Days| then Days[i] else cal.weekdayOf(i)
  }

  /** The forecast for day `i` (0 is today) built from six draws. */
  function ForecastDay(base: int, i: nat, d: seq<real>, cal: Calendar): (f: WeatherForecast)
    requires |d| == DayDraws && ValidDraws(d)
    ensures ForecastInRange(f, base)
    ensures f.date == cal.dateOf(i)
    ensures i < |Days| ==> f.day == Days[i]
  {
    var idx := RandomInt(d[0], |Conditions|);
    var high := base + RandomInt(d[1], 15) - 5;
    var low := high - (10 + RandomInt(d[2], 10));
    WeatherForecast(
      cal.dateOf(i),
      DayLabel(i, cal),
      high,
      low,
      Conditions[idx],
      Icons[idx],
      RandomInt(d[3], 100),
      3 + RandomInt(d[4], 12),
      40 + RandomInt(d[5], 40))
  }

  /** The draws that day `i` consumes. */
  function DayDrawsOf(d: seq<real>, i: nat): (e: seq<real>)
    requires |d| == DrawCount && ValidDraws(d) && i < ForecastLength
    ensures |e| == DayDraws && ValidDraws(e)
  {
    d[7 + 6 * i..13 + 6 * i]
  }

  /** The snapshot the generator returns for `location`. */
  function MockSnapshot(location: string, d: seq<real>, cal: Calendar): (w: WeatherData)
    requires |d| == DrawCount && ValidDraws(d)
    ensures WellFormed(w, location, cal)
  {
    var base := BaseTemp(location);
    WeatherData(
      location,
      CurrentFrom(base, d[..7]),
      seq(ForecastLength, i requires 0 <= i < ForecastLength => ForecastDay(base, i, DayDrawsOf(d, i), cal)),
      cal.timestamp)
  }

  // ---------------------------------------------------------------------------
  // The generator, as the source runs it

  /** `fetchMockWeatherData`: builds the current conditions, then pushes one
      forecast per day in a loop. */
  method FetchMockWeatherData(location: string, d: seq<real>, cal: Calendar) returns (w: WeatherData)
    requires |d| == DrawCount && ValidDraws(d)
    ensures w == MockSnapshot(location, d, cal)
    ensures WellFormed(w, location, cal)
  {
    var baseTemp := BaseTemp(location);
    var currentConditionIndex := RandomInt(d[0], |Conditions|);
    var current := CurrentWeather(
      baseTemp + RandomInt(d[1], 10) - 5,
      Conditions[currentConditionIndex],
      50 + RandomInt(d[2], 30),
      5 + RandomInt(d[3], 15),
      8 + RandomInt(d[4], 5),
      Icons[currentConditionIndex],
      baseTemp + RandomInt(d[5], 8) - 4,
      RandomInt(d[6], 10) + 1);

    var forecast: seq<WeatherForecast> := [];
    for i := 0 to 7
      invariant |forecast| == i
      invariant forall j :: 0 <= j < i ==> forecast[j] == ForecastDay(baseTemp, j, DayDrawsOf(d, j), cal)
    {
      var k := 7 + 6 * i;
      var e := DayDrawsOf(d, i);
      assert e[0] == d[k] && e[1] == d[k + 1] && e[2] == d[k + 2] &&
             e[3] == d[k + 3] && e[4] == d[k + 4] && e[5] == d[k + 5];
      var conditionIndex := RandomInt(d[k], |Conditions|);
      var high := baseTemp + RandomInt(d[k + 1], 15) - 5;
      var low := high - (10 + RandomInt(d[k + 2], 10));
      forecast := forecast + [WeatherForecast(
        cal.dateOf(i),
        DayLabel(i, cal),
        high,
        low,
        Conditions[conditionIndex],
        Icons[conditionIndex],
        RandomInt(d[k + 3], 100),
        3 + RandomInt(d[k + 4], 12),
        40 + RandomInt(d[k + 5], 40))];
      assert forecast[i] == ForecastDay(baseTemp, i, e, cal);
    }

    w := WeatherData(location, current, forecast, cal.timestamp);
    assert d[..7][0] == d[0] && d[..7][6] == d[6];
    assert current == MockSnapshot(location, d, cal).current;
    assert forecast == MockSnapshot(location, d, cal).forecast;
  }
}
