/**
  The mock city lookup of the server action (src/app/actions.ts): the name is
  lower-cased and trimmed, then looked up in a fixed five-city table.
*/
module Actions {
  import opened Strings

  /** One entry of the mock table. */
  datatype CityWeather = CityWeather(temperature: int, humidity: int, condition: string)

  /** `{ success: true, data }` or `{ success: false, error }`. */
  datatype LookupResult = Found(data: CityWeather) | NotFound(error: string)

  /** `weatherData`: the five cities the mock knows, keyed by lower-case name. */
  const WeatherTable: map<string, CityWeather> := map[
    "london" := CityWeather(15, 70, "Cloudy"),
    "new york" := CityWeather(22, 55, "Sunny"),
    "tokyo" := CityWeather(28, 80, "Rainy"),
    "paris" := CityWeather(18, 65, "Partly cloudy"),
    "sydney" := CityWeather(25, 60, "Sunny")
  ]

  const NotFoundMessage := "City not found. Please try London, New York, Tokyo, Paris, or Sydney."

  /** `city.toLowerCase().trim()`: no upper-case ASCII letter left and no whitespace
      at either end; empty exactly when the name is all whitespace. */
  function Normalize(city: string): (key: string)
    ensures forall i :: 0 <= i < |key| ==> !('A' <= key[i] <= 'Z') && key[i] != '\U{212A}'
    ensures key == [] || (!IsJsWhitespace(key[0]) && !IsJsWhitespace(key[|key| - 1]))
    ensures key == [] <==> AllWhitespace(city)
  {
    TrimLowerChars(city);
    TrimLowerEmpty(city);
    Trim(ToLower(city))
  }

  /** A normalised name normalises to itself, so normalising again changes nothing. */
  lemma NormalizeIdempotent(city: string)
    ensures Normalize(Normalize(city)) == Normalize(city)
  {
    NormalizedKey(Normalize(city));
  }

  /** A name with no upper-case letter and no whitespace at either end is its own key. */
  lemma NormalizedKey(key: string)
    requires forall i :: 0 <= i < |key| ==> !('A' <= key[i] <= 'Z') && key[i] != '\U{212A}'
    requires key != [] ==> !IsJsWhitespace(key[0]) && !IsJsWhitespace(key[|key| - 1])
    ensures Normalize(key) == key
  {
    ToLowerOfLower(key);
    TrimUnpadded(key);
  }

  /** The table lookup on an already normalised name: `weatherData[key]` is truthy
      exactly for the five own keys of the table. */
  function Lookup(key: string): (r: LookupResult)
    ensures r.Found? <==> key in {"london", "new york", "tokyo", "paris", "sydney"}
    ensures r.Found? ==> r.data == WeatherTable[key]
    ensures r.NotFound? ==> r.error == NotFoundMessage
  {
    if key in WeatherTable then Found(WeatherTable[key]) else NotFound(NotFoundMessage)
  }

  /** `getWeatherForCity` without its one-second delay: a success carrying the table
      entry exactly when the normalised name is one of the five cities, otherwise
      the fixed error. */
  function GetWeatherForCity(city: string): (r: LookupResult)
    ensures r.Found? <==> Normalize(city) in {"london", "new york", "tokyo", "paris", "sydney"}
    ensures r.Found? ==> r.data == WeatherTable[Normalize(city)]
    ensures r.NotFound? ==> r.error == NotFoundMessage
  {
    Lookup(Normalize(city))
  }

  /** Neither the case of letters nor whitespace around the name changes the result. */
  lemma CaseAndPaddingIgnored(city: string, variant: string, pre: string, post: string)
    requires CaseVariant(variant, city)
    requires AllWhitespace(pre) && AllWhitespace(post)
    ensures GetWeatherForCity(pre + variant + post) == GetWeatherForCity(city)
  {
    ToLowerAppend(pre + variant, post);
    ToLowerAppend(pre, variant);
    ToLowerWhitespace(pre);
    ToLowerWhitespace(post);
    CaseVariantSameLower(variant, city);
    TrimIgnoresPadding(pre, ToLower(city), post);
  }

  /** Every key of the table is its own normalised form. */
  lemma KeysAreNormalized()
    ensures forall k :: k in WeatherTable ==> Normalize(k) == k
  {
    forall k | k in WeatherTable
      ensures Normalize(k) == k
    {
      NormalizedKey(k);
    }
  }

  /** Each city of the table is found when asked for by its key. */
  lemma KeyFound(key: string)
    requires key in WeatherTable
    ensures GetWeatherForCity(key) == Found(WeatherTable[key])
  {
    KeysAreNormalized();
  }

  /** A table entry as the lookup returns it. */
  lemma LondonFound(name: string)
    requires name == "london"
    ensures GetWeatherForCity(name) == Found(CityWeather(15, 70, "Cloudy"))
  {
    LondonEntry(name);
    KeyFound(name);
  }

  lemma LondonEntry(name: string)
    requires name == "london"
    ensures name in WeatherTable && WeatherTable[name] == CityWeather(15, 70, "Cloudy")
  {
  }

  /** Whitespace inside the name is kept, so a doubled space does not match. */
  lemma InnerWhitespaceKept(name: string)
    requires name == "new  york"
    ensures GetWeatherForCity(name) == NotFound(NotFoundMessage)
  {
    DoubledSpaceKey(name);
    UnknownKey(name);
  }

  lemma DoubledSpaceKey(name: string)
    requires name == "new  york"
    ensures Normalize(name) == name && name !in WeatherTable
  {
    ToLowerOfLower(name);
    TrimUnpadded(name);
    assert |name| == 9;
  }

  /** A name that normalises to itself and is no key of the table is not found. */
  lemma UnknownKey(key: string)
    requires Normalize(key) == key && key !in WeatherTable
    ensures GetWeatherForCity(key) == NotFound(NotFoundMessage)
  {
  }
}
