/**
 * The mock weather backend of the single-round tool-calling sample:
 * a table keyed by lower-cased city name whose entries are updated in place.
 */
module Weather {
  import opened Wrappers

  /** Python's `str.lower`, restricted to the ASCII letters. */
  function LowerChar(c: char): (d: char)
    ensures !('A' <= d <= 'Z')
    ensures ('a' <= d <= 'z') <==> ('a' <= c <= 'z' || 'A' <= c <= 'Z')
    ensures !('A' <= c <= 'Z') ==> d == c
  {
    if 'A' <= c <= 'Z' then (c as int - 'A' as int + 'a' as int) as char else c
  }

  function Lower(s: string): (r: string)
    ensures |r| == |s|
    ensures forall i :: 0 <= i < |s| ==> r[i] == LowerChar(s[i])
  {
    if s == [] then [] else [LowerChar(s[0])] + Lower(s[1..])
  }

  /** A string with no upper-case ASCII letter. */
  predicate IsLowered(s: string)
  {
    forall i :: 0 <= i < |s| ==> !('A' <= s[i] <= 'Z')
  }

  /** Lower-casing yields a lowered string, and lowered strings are its fixed points. */
  lemma LowerIsIdempotent(s: string)
    ensures IsLowered(Lower(s))
    ensures IsLowered(s) <==> Lower(s) == s
    ensures Lower(Lower(s)) == Lower(s)
  {
  }

  /**
   * The `unit` key of a stored entry: absent until the first lookup of that
   * city, then the unit passed by the last lookup, which may be `None`.
   */
  datatype UnitField = NoUnitKey | UnitKey(unit: Option<string>)

  /** One weather dictionary: `location`, `temperature` and maybe `unit`. */
  datatype WeatherInfo = WeatherInfo(location: string, temperature: string, unit: UnitField)

  /** `weather_data`: lower-cased city name to its entry. */
  type WeatherTable = map<string, WeatherInfo>

  const InitialWeatherData: WeatherTable := map[
    "tokyo" := WeatherInfo("Tokyo", "10", NoUnitKey),
    "san francisco" := WeatherInfo("San Francisco", "72", NoUnitKey),
    "paris" := WeatherInfo("Paris", "22", NoUnitKey)
  ]

  /** Every key of the table is reachable: it is its own lower-cased form. */
  ghost predicate KeysLowered(data: WeatherTable)
  {
    forall k :: k in data ==> IsLowered(k)
  }

  /**
   * What `get_weather(location, unit)` returns and what the table is afterwards.
   * An unknown city yields a fresh "unknown" entry without a `unit` key and
   * leaves the table as it was; a known city has its stored entry's `unit`
   * overwritten and that same entry is returned.
   */
  function GetWeatherOn(data: WeatherTable, location: string, unit: Option<string>): (r: (WeatherInfo, WeatherTable))
    ensures r.1.Keys == data.Keys
    ensures forall k :: k in data && k != Lower(location) ==> r.1[k] == data[k]
    ensures Lower(location) !in data ==> r.0 == WeatherInfo(location, "unknown", NoUnitKey) && r.1 == data
    ensures Lower(location) in data ==>
      && r.0 == r.1[Lower(location)]
      && r.0.location == data[Lower(location)].location
      && r.0.temperature == data[Lower(location)].temperature
      && r.0.unit == UnitKey(unit)
  {
    var key := Lower(location);
    if key !in data then
      (WeatherInfo(location, "unknown", NoUnitKey), data)
    else
      var entry := data[key].(unit := UnitKey(unit));
      (entry, data[key := entry])
  }

  /** Two spellings that differ only in letter case reach the same stored entry. */
  lemma LookupIgnoresCase(data: WeatherTable, a: string, b: string, unit: Option<string>)
    requires Lower(a) == Lower(b)
    ensures GetWeatherOn(data, a, unit).1 == GetWeatherOn(data, b, unit).1
    ensures Lower(a) in data ==> GetWeatherOn(data, a, unit).0 == GetWeatherOn(data, b, unit).0
    ensures Lower(a) !in data ==> GetWeatherOn(data, a, unit).0.location == a
  {
  }

  /** "TOKYO", "Tokyo" and "tokyo" all find the stored Tokyo entry. */
  lemma TokyoInAnyCase(unit: Option<string>)
    ensures Lower("TOKYO") == Lower("Tokyo") == Lower("tokyo") == "tokyo"
    ensures forall s :: s in ["TOKYO", "Tokyo", "tokyo"] ==>
      GetWeatherOn(InitialWeatherData, s, unit).0 == WeatherInfo("Tokyo", "10", UnitKey(unit))
  {
  }

  /**
   * The unit recorded by one lookup persists in the table: a later lookup of a
   * different city leaves it in place.
   */
  lemma UnitPersistsAcrossLookups(data: WeatherTable, first: string, u1: Option<string>, second: string, u2: Option<string>)
    requires Lower(first) in data
    requires Lower(second) != Lower(first)
    ensures var d1 := GetWeatherOn(data, first, u1).1;
            GetWeatherOn(d1, second, u2).1[Lower(first)].unit == UnitKey(u1)
  {
  }

  /**
   * On a table whose keys are all lower-case (the service's invariant), every
   * stored entry is found by looking up its own key, and by any spelling of
   * it that differs only in letter case.
   */
  lemma StoredKeysReachable(data: WeatherTable, k: string, spelling: string, unit: Option<string>)
    requires KeysLowered(data) && k in data
    requires Lower(spelling) == k
    ensures GetWeatherOn(data, k, unit).0 == data[k].(unit := UnitKey(unit))
    ensures GetWeatherOn(data, spelling, unit).0 == data[k].(unit := UnitKey(unit))
  {
    LowerIsIdempotent(k);
  }

  /** `MockWeatherService`: the table and the lookup that writes into it. */
  class MockWeatherService {
    var weatherData: WeatherTable

    ghost predicate Valid()
      reads this
    {
      KeysLowered(weatherData)
    }

    constructor ()
      ensures weatherData == InitialWeatherData
      ensures Valid()
    {
      weatherData := InitialWeatherData;
      assert InitialWeatherData.Keys == {"tokyo", "san francisco", "paris"};
      assert IsLowered("tokyo") && IsLowered("san francisco") && IsLowered("paris");
    }

    /** `get_weather`: `unit` defaults to "fahrenheit" when the caller omits it. */
    method GetWeather(location: string, unit: Option<string> := Some("fahrenheit")) returns (info: WeatherInfo)
      requires Valid()
      modifies this
      ensures Valid()
      ensures (info, weatherData) == GetWeatherOn(old(weatherData), location, unit)
    {
      var key := Lower(location);
      if key !in weatherData {
        return WeatherInfo(location, "unknown", NoUnitKey);
      }
      var locInfo := weatherData[key].(unit := UnitKey(unit));
      weatherData := weatherData[key := locInfo];
      info := locInfo;
    }
  }
}
