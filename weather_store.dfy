/**
  The client-side state container (src/store/weather-store.ts): four fields and
  one setter per field. Each setter merges a one-field object into the state, so
  it overwrites that field and leaves the other three as they were.
*/
module WeatherStore {
  import opened Wrappers
  import Forecast

  /** Current conditions as the dashboard shows them. */
  datatype WeatherData = WeatherData(
    temperature: real, humidity: real, condition: string, city: string, country: string,
    windSpeed: real, feelsLike: real, sunrise: int, sunset: int)

  /** The four data fields of the store; `null` is `None`. */
  datatype StoreState = StoreState(
    city: Option<string>,
    weatherData: Option<WeatherData>,
    forecastData: Option<seq<Forecast.DailySummary>>,
    isLoading: bool)

  /** The state the store is created with. */
  const Initial := StoreState(None, None, None, false)

  /** One setter call with its argument. */
  datatype Update =
    | NewCity(city: string)
    | NewWeatherData(data: Option<WeatherData>)
    | NewForecastData(forecast: Option<seq<Forecast.DailySummary>>)
    | NewIsLoading(loading: bool)

  /** `set({...})` with the one-field object of update `u`: the field `u` names takes
      `u`'s value (a city is never set back to `null`), the other three keep theirs. */
  function Apply(s: StoreState, u: Update): (r: StoreState)
    ensures r.city == if u.NewCity? then Some(u.city) else s.city
    ensures r.weatherData == if u.NewWeatherData? then u.data else s.weatherData
    ensures r.forecastData == if u.NewForecastData? then u.forecast else s.forecastData
    ensures r.isLoading == if u.NewIsLoading? then u.loading else s.isLoading
  {
    match u
    case NewCity(c) => s.(city := Some(c))
    case NewWeatherData(d) => s.(weatherData := d)
    case NewForecastData(f) => s.(forecastData := f)
    case NewIsLoading(b) => s.(isLoading := b)
  }

  /** The state after the updates `us`, in order. A field that none of them writes
      keeps its value. */
  function Replay(s: StoreState, us: seq<Update>): (r: StoreState)
    ensures (forall i :: 0 <= i < |us| ==> !us[i].NewCity?) ==> r.city == s.city
    ensures (forall i :: 0 <= i < |us| ==> !us[i].NewWeatherData?) ==> r.weatherData == s.weatherData
    ensures (forall i :: 0 <= i < |us| ==> !us[i].NewForecastData?) ==> r.forecastData == s.forecastData
    ensures (forall i :: 0 <= i < |us| ==> !us[i].NewIsLoading?) ==> r.isLoading == s.isLoading
    decreases |us|
  {
    if us == [] then s else Replay(Apply(s, us[0]), us[1..])
  }

  /** Which field an update writes. */
  function Field(u: Update): nat {
    match u
    case NewCity(_) => 0
    case NewWeatherData(_) => 1
    case NewForecastData(_) => 2
    case NewIsLoading(_) => 3
  }

  /** Every setter is idempotent. */
  lemma ApplyIdempotent(s: StoreState, u: Update)
    ensures Apply(Apply(s, u), u) == Apply(s, u)
  {
  }

  /** Setters of different fields commute, and a later call on the same field wins. */
  lemma ApplyCommutes(s: StoreState, u: Update, v: Update)
    ensures Field(u) != Field(v) ==> Apply(Apply(s, u), v) == Apply(Apply(s, v), u)
    ensures Field(u) == Field(v) ==> Apply(Apply(s, u), v) == Apply(s, v)
  {
  }

  /** Once a city is set it stays set: no setter resets it to `null`. */
  lemma {:induction false} CityStaysSet(s: StoreState, us: seq<Update>)
    requires s.city.Some?
    ensures Replay(s, us).city.Some?
    decreases |us|
  {
    if us != [] {
      CityStaysSet(Apply(s, us[0]), us[1..]);
    }
  }

  /** From any start state, the city is set afterwards exactly when it was set before
      or some update set it. */
  lemma {:induction false} CitySetIff(s: StoreState, us: seq<Update>)
    ensures Replay(s, us).city.Some? <==> s.city.Some? || exists i :: 0 <= i < |us| && us[i].NewCity?
    decreases |us|
  {
    if us != [] {
      CitySetIff(Apply(s, us[0]), us[1..]);
      assert forall i :: 0 <= i < |us| - 1 ==> us[1..][i] == us[i + 1];
      if us[0].NewCity? {
        CityStaysSet(Apply(s, us[0]), us[1..]);
      }
    }
  }

  /** Calls made in two batches leave the state one sequence of calls would. */
  lemma {:induction false} ReplayAppend(s: StoreState, us: seq<Update>, vs: seq<Update>)
    ensures Replay(s, us + vs) == Replay(Replay(s, us), vs)
    decreases |us|
  {
    if us == [] {
      assert us + vs == vs;
    } else {
      assert (us + vs)[1..] == us[1..] + vs;
      ReplayAppend(Apply(s, us[0]), us[1..], vs);
    }
  }

  /** `useWeatherStore`: the state fields and their setters. */
  class Store {
    var city: Option<string>
    var weatherData: Option<WeatherData>
    var forecastData: Option<seq<Forecast.DailySummary>>
    var isLoading: bool

    function State(): StoreState
      reads this
    {
      StoreState(city, weatherData, forecastData, isLoading)
    }

    constructor ()
      ensures State() == Initial
    {
      city := None;
      weatherData := None;
      forecastData := None;
      isLoading := false;
    }

    method SetCity(c: string)
      modifies this
      ensures city == Some(c)
      ensures weatherData == old(weatherData) && forecastData == old(forecastData) && isLoading == old(isLoading)
      ensures State() == Apply(old(State()), NewCity(c))
    {
      city := Some(c);
    }

    method SetWeatherData(data: Option<WeatherData>)
      modifies this
      ensures weatherData == data
      ensures city == old(city) && forecastData == old(forecastData) && isLoading == old(isLoading)
      ensures State() == Apply(old(State()), NewWeatherData(data))
    {
      weatherData := data;
    }

    method SetForecastData(data: Option<seq<Forecast.DailySummary>>)
      modifies this
      ensures forecastData == data
      ensures city == old(city) && weatherData == old(weatherData) && isLoading == old(isLoading)
      ensures State() == Apply(old(State()), NewForecastData(data))
    {
      forecastData := data;
    }

    method SetIsLoading(loading: bool)
      modifies this
      ensures isLoading == loading
      ensures city == old(city) && weatherData == old(weatherData) && forecastData == old(forecastData)
      ensures State() == Apply(old(State()), NewIsLoading(loading))
    {
      isLoading := loading;
    }
  }
}
