# WeatherWise core in Dafny

A model of the logic of the WeatherWise dashboard, with proofs about it. The
dashboard itself is mostly fetch plumbing and React markup. The logic modelled here:

- **Forecast aggregation** (`forecast.dfy`, module `Forecast`). The forecast tool
  groups the weather API's 3-hour samples by calendar date in one pass. The grouping
  is a JavaScript object whose keys keep their insertion order. The tool keeps the
  first five dates and turns each day into one summary: rounded minimum, maximum and
  mean temperature, plus the most frequent condition and description. The grouping
  pass is the loop `GroupByDate` over a map and a key list. It is proved equal to the
  fold `GroupAll` and to a per-date reference `DayOf`, which filters the samples of
  one date. The summaries are functions (`Summarize`, `Summaries`, `DailyForecast`).
  `GetForecast` chains the loop and the summaries.
- **Icon lookup** (`weather_icon.dfy`, module `WeatherIcon`). A fifteen-entry table
  from lower-case names to eight icons. It is looked up with the lower-cased name, and
  a ninth icon, the thermometer, is the fallback.
- **Client store** (`weather_store.dfy`, module `WeatherStore`). A class with the
  four fields of the store and one setter per field. The pure `Apply`/`Replay`
  functions describe the same updates on values, for the lemmas.
- **Mock city lookup** (`actions.dfy`, module `Actions`). The name is lower-cased and
  trimmed, then looked up in a five-city table. The result is the entry or a fixed
  error.
- **Current-weather card** (`weather_display.dfy`, module `WeatherDisplay`). It
  covers the time-of-day bucket, the effect that fills the AI description and icon
  with its fallbacks (a class holding `aiData` and `isAiLoading`), and the icon name
  finally drawn.
- Support modules: `Strings` (`toLowerCase` and `trim`), `Sequences` (insertion-order
  key lists, first occurrences, counts) and `Wrappers` (`Option`, for `null`).

Notes on behaviour, where a plain reading of the tool's purpose differs from its code.
The model follows the code:

- `mostFrequent` reduces with a strict `>`. On equal counts the accumulator is
  replaced, so the **later-inserted** key wins a tie. The first-seen key does not.
  `TieGoesToLaterKey` shows that labels `a, a, b, b` (two distinct labels, `a`
  inserted first) give `b`.
- `Math.round` is floor(x + 1/2). Halves round up, also for negative temperatures
  (-2.5 gives -2), not away from zero.
- A malformed sample is handled in two ways, and the model takes neither: every
  sample is a complete record. A missing `dt_txt` (get-forecast.ts line 59), a
  missing `main` (line 68) or an empty `weather` array (lines 71-72) throws a
  `TypeError`, which the `catch` at lines 105-110 turns into "An error occurred
  while fetching forecast for <city>". A missing leaf value passes silently: an
  undefined `main.temp` makes that day's temperatures `NaN`, and an undefined
  `weather[0].main` is counted under the key "undefined".

## Model

| member | source | states |
|---|---|---|
| Forecast.DateKey | src/ai/tools/get-forecast.ts:59 | the date key is the part of `dt_txt` before the first space: a prefix with no space, followed by a space or the end of the text |
| Forecast.DateKeyOfTimestamp | src/ai/tools/get-forecast.ts:59 | a timestamp "day time" with a space-free day falls under that day, whatever its time part |
| Forecast.SamplesOn | src/ai/tools/get-forecast.ts:58-68 | the samples filed under a date: one per occurrence of the date, all carrying that date key, and at least one when the date occurs |
| Forecast.TallyOf | src/ai/tools/get-forecast.ts:73-74 | counting labels into an empty object gives distinct keys, exactly the keys that have counts, counts at least 1, and at least one key for a non-empty input |
| Forecast.BumpWellFormed | src/ai/tools/get-forecast.ts:73-74 | one increment step keeps the object well formed, and the label becomes a key |
| Forecast.Bump | src/ai/tools/get-forecast.ts:73-74 | the label's count becomes one more than before, starting from 0 for an absent label, and the existing keys keep their order |
| Forecast.BumpFrame | src/ai/tools/get-forecast.ts:73-74 | every other label keeps its count (or stays absent), and the label is appended to the keys exactly when it was absent |
| Forecast.TallyOfSpec | src/ai/tools/get-forecast.ts:73-74 | the tally's keys are the labels in first-seen order, and each count is that label's number of occurrences |
| Forecast.AddSample | src/ai/tools/get-forecast.ts:58-74 | one iteration of the `forEach`: the sample's date has an entry afterwards, keys and entries are only ever added, other dates' entries are untouched, and the sample's own date gains exactly one temperature |
| Forecast.GroupByDate | src/ai/tools/get-forecast.ts:56-75 | the loop leaves the fold `GroupAll`, with keys the distinct dates in first-seen order, an entry for exactly the dates that occur, and each entry equal to the per-date reference `DayOf` |
| Forecast.GroupAllSpec | src/ai/tools/get-forecast.ts:56-75 | the one-pass grouping agrees with filtering the samples date by date, keyed in first-occurrence order |
| Forecast.AddSampleStep | src/ai/tools/get-forecast.ts:58-75 | one iteration of the `forEach` keeps the grouping equal to the per-date reference of the samples seen so far |
| Forecast.AddSampleKeys | src/ai/tools/get-forecast.ts:60-67 | a new date is appended as the last key; a known date leaves the key order as it was |
| Forecast.AddSampleDay | src/ai/tools/get-forecast.ts:68-74 | the entry of the sample's own date gains exactly that sample's temperature, condition and description |
| Forecast.AddSampleOtherDays | src/ai/tools/get-forecast.ts:58-74 | after one iteration the entries of all other dates still equal their per-date reference |
| Forecast.DayOfOtherDate | src/ai/tools/get-forecast.ts:58-68 | a sample of another date leaves a date's entry unchanged |
| Forecast.GroupSizes | src/ai/tools/get-forecast.ts:58-68 | every group is non-empty, and the group sizes add up to the number of samples |
| Forecast.TallyOfTotal | src/ai/tools/get-forecast.ts:73-74 | the counts of a tally add up to the number of labels counted |
| Forecast.DayTalliesSumToGroupSize | src/ai/tools/get-forecast.ts:68-74 | within a day, the condition tally and the description tally each add up to the number of temperatures |
| Forecast.Round | src/ai/tools/get-forecast.ts:79-81 | `Math.round` gives the integer within one half of x, with halves rounded up |
| Forecast.RoundMonotone | src/ai/tools/get-forecast.ts:79-81 | `Math.round` never reverses the order of two numbers |
| Forecast.RoundMonotoneOn | src/ai/tools/get-forecast.ts:79-81 | the rounded values of numbers between two bounds lie between the rounded bounds |
| Forecast.MaxOf | src/ai/tools/get-forecast.ts:79 | `Math.max(...temps)` is one of the temperatures and is at least every temperature |
| Forecast.MinOf | src/ai/tools/get-forecast.ts:80 | `Math.min(...temps)` is one of the temperatures and is at most every temperature |
| Forecast.Mean | src/ai/tools/get-forecast.ts:81 | `reduce((a, b) => a + b, 0) / length`: the mean times the number of temperatures is their sum |
| Forecast.SumBounds | src/ai/tools/get-forecast.ts:81 | the sum of n temperatures between lo and hi lies between n*lo and n*hi |
| Forecast.MeanBetween | src/ai/tools/get-forecast.ts:79-81 | the mean temperature lies between the minimum and the maximum |
| Forecast.ReduceMostFrequent | src/ai/tools/get-forecast.ts:84 | the reduction with a strict `>` ends on the last key, in insertion order, whose count is largest |
| Forecast.MostFrequent | src/ai/tools/get-forecast.ts:84 | `mostFrequent` returns the last key in insertion order that attains the largest count |
| Forecast.LastMostFrequentUnique | src/ai/tools/get-forecast.ts:84 | the last key with the largest count is unique, so the choice is determined |
| Forecast.LabelCountBound | src/ai/tools/get-forecast.ts:84-86 | the chosen label occurs at least as often as any other label of the day |
| Forecast.LabelTieBreak | src/ai/tools/get-forecast.ts:84-86 | among labels with the same count as the chosen one, the chosen one occurs first latest |
| Forecast.LastMostFrequentOfLabels | src/ai/tools/get-forecast.ts:84-86 | on the raw labels: the chosen label occurs, has the largest count, and wins ties by being first seen last |
| Forecast.TieGoesToLaterKey | src/ai/tools/get-forecast.ts:84 | for any two distinct labels a and b, the labels a, a, b, b give b: on equal counts the later key wins |
| Forecast.Summarize | src/ai/tools/get-forecast.ts:77-101 | one day's summary: `temp` is the rounded mean, `temp_max` the rounded maximum, `temp_min` the rounded minimum, `temp_min <= temp <= temp_max`, and condition and description are each the last most frequent label of their own tally |
| Forecast.Summaries | src/ai/tools/get-forecast.ts:77-101 | `Object.values(dailyData).slice(0, 5).map(...)`: min(5, number of keys) summaries, the i-th for the i-th key's date, each with `temp_min <= temp <= temp_max` |
| Forecast.PrefixOfFirstSeen | src/ai/tools/get-forecast.ts:60-77 | the first n keys of an object filled by insertion are min(n, distinct elements) many, each inserted, pairwise distinct and ordered by first occurrence |
| Forecast.FirstSeenTruncated | src/ai/tools/get-forecast.ts:77 | a key cut off by taking the first n keys first occurs after every key kept |
| Forecast.ReportedDates | src/ai/tools/get-forecast.ts:58-77 | the reported dates number min(5, distinct dates). They are pairwise distinct, taken from the input and ordered by first occurrence. A date left out means five were reported, and it first occurs after all of them |
| Forecast.DailyForecast | src/ai/tools/get-forecast.ts:55-101 | the tool's output: one summary per reported date, each computed from that date's samples alone |
| Forecast.GetForecast | src/ai/tools/get-forecast.ts:55-101 | the grouping loop followed by the summaries returns exactly `DailyForecast` |
| Forecast.ForecastDay | src/ai/tools/get-forecast.ts:77-101 | every output day carries its reported date. Its condition and its description are each a label of that day's samples, with the largest count; ties go to the one first seen last. The two are chosen independently |
| Forecast.SamplesOnUnaffected | src/ai/tools/get-forecast.ts:58-68 | samples of other dates appended later do not change a date's samples |
| Forecast.DatesAppend | src/ai/tools/get-forecast.ts:58-59 | the date keys of two sample lists in sequence are the two key lists in sequence |
| Forecast.LaterDatesIgnored | src/ai/tools/get-forecast.ts:58-77 | once five dates are known, samples of other dates appended later leave the output unchanged |
| Forecast.EmptyInput | src/ai/tools/get-forecast.ts:58-77 | an empty sample list gives an empty output |
| Sequences.Prefix | src/ai/tools/get-forecast.ts:77 | `slice(0, n)`: a prefix of the list, of length n, or the whole list when it is shorter |
| Sequences.FirstSeen | src/ai/tools/get-forecast.ts:60-67 | the keys of an object filled by insertion are the distinct inserted elements, each once |
| Sequences.FirstSeenSpec | src/ai/tools/get-forecast.ts:60-67 | those keys are ordered by where each first occurs |
| Sequences.FirstSeenPrefix | src/ai/tools/get-forecast.ts:60-67 | inserting more keys never reorders the keys already there |
| Sequences.FirstSeenCount | src/ai/tools/get-forecast.ts:60-67 | the object has one key per distinct inserted element |
| Sequences.SumCountsOfFirstSeen | src/ai/tools/get-forecast.ts:58-68 | summing each key's occurrences over the keys counts every element once |
| WeatherIcon.IconFor | src/components/weather-icon.tsx:18-38 | the lookup gives the table's icon for the lower-cased name, and gives the thermometer exactly when the name is missing or not a key |
| WeatherIcon.KeysAreLowerCase | src/components/weather-icon.tsx:19-35 | every table key is its own lower-case form |
| WeatherIcon.KeyIcon | src/components/weather-icon.tsx:19-37 | a key as written gives its own icon |
| WeatherIcon.CaseInsensitive | src/components/weather-icon.tsx:37 | names that differ only in letter case give the same icon |
| WeatherIcon.CaseVariantOfKey | src/components/weather-icon.tsx:19-37 | any case variant of a key gives that key's icon |
| WeatherIcon.SunSynonyms | src/components/weather-icon.tsx:20-22 | sun, sunny and clear give `Sun` |
| WeatherIcon.CloudSynonyms | src/components/weather-icon.tsx:23-34 | cloud and cloudy give `Cloud`; partly cloudy and cloudsun give `CloudSun` |
| WeatherIcon.PrecipitationSynonyms | src/components/weather-icon.tsx:26-31 | rain/rainy give `CloudRain`, snow/snowy `CloudSnow`, storm/stormy `CloudLightning` |
| WeatherIcon.NoFuzzyMatching | src/components/weather-icon.tsx:37 | "Clouds", "Sunny " with a trailing space, the empty name and a missing name all give `Thermometer` |
| WeatherStore.Store.constructor | src/store/weather-store.ts:38-41 | the store starts with city, weather data and forecast null and not loading |
| WeatherStore.Store.SetCity | src/store/weather-store.ts:42 | sets the city and leaves the other three fields unchanged |
| WeatherStore.Store.SetWeatherData | src/store/weather-store.ts:43 | sets the weather data (null allowed) and leaves the other three fields unchanged |
| WeatherStore.Store.SetForecastData | src/store/weather-store.ts:44 | sets the forecast (null allowed) and leaves the other three fields unchanged |
| WeatherStore.Store.SetIsLoading | src/store/weather-store.ts:45 | sets the loading flag and leaves the other three fields unchanged |
| WeatherStore.Apply | src/store/weather-store.ts:42-45 | one setter call: the field it names takes the argument (the city as non-null), and the other three fields keep their values |
| WeatherStore.Replay | src/store/weather-store.ts:42-45 | a sequence of setter calls: every field that no call writes keeps its value |
| WeatherStore.ReplayAppend | src/store/weather-store.ts:42-45 | calls made in two batches leave the same state as the calls made in one sequence |
| WeatherStore.ApplyIdempotent | src/store/weather-store.ts:42-45 | every setter applied twice with the same argument equals applying it once |
| WeatherStore.ApplyCommutes | src/store/weather-store.ts:42-45 | setters of different fields commute, and of two calls on one field the later wins |
| WeatherStore.CityStaysSet | src/store/weather-store.ts:31-45 | once the city is non-null, no sequence of setter calls makes it null again |
| WeatherStore.CitySetIff | src/store/weather-store.ts:38-45 | after a sequence of calls the city is set exactly when it was set before or some call was `setCity` |
| Actions.Normalize | src/app/actions.ts:15 | `city.toLowerCase().trim()`: no upper-case ASCII letter and no whitespace at either end remain, and the key is empty exactly when the name is all whitespace |
| Actions.NormalizeIdempotent | src/app/actions.ts:15 | a normalised name normalises to itself |
| Actions.KeysAreNormalized | src/app/actions.ts:4-15 | every key of the table is its own normalised form |
| Actions.KeyFound | src/app/actions.ts:4-21 | a city asked for by its key is found with its table entry |
| Actions.Lookup | src/app/actions.ts:4-27 | an already normalised name is found exactly when it is one of the five cities, with the table's entry; otherwise the fixed error |
| Actions.GetWeatherForCity | src/app/actions.ts:12-28 | success exactly when `city.toLowerCase().trim()` is london, new york, tokyo, paris or sydney, with the table entry as data; otherwise the fixed error message |
| Actions.CaseAndPaddingIgnored | src/app/actions.ts:15 | changing letter case or adding whitespace around the name does not change the result |
| Actions.LondonFound | src/app/actions.ts:5-21 | "london" gives temperature 15, humidity 70, condition Cloudy |
| Actions.InnerWhitespaceKept | src/app/actions.ts:15-27 | "new  york" with two spaces is not found, since inner whitespace is kept |
| Strings.ToLower | src/app/actions.ts:15 | `toLowerCase` keeps the length and leaves no upper-case ASCII letter (nor KELVIN SIGN) |
| Strings.ToLowerIdempotent | src/app/actions.ts:15 | lower-casing twice is lower-casing once |
| Strings.ToLowerKeepsWhitespace | src/app/actions.ts:15 | a name is all whitespace exactly when its lower-case form is |
| Strings.Trim | src/app/actions.ts:15 | `trim` gives the part of the name after its leading whitespace, cut before the trailing whitespace, and everything cut after it is whitespace; it neither starts nor ends with whitespace and is empty exactly for an all-whitespace name |
| Strings.TrimIdempotent | src/app/actions.ts:15 | trimming twice is trimming once |
| Strings.TrimStart | src/app/actions.ts:15 | the result is a suffix of the input, everything dropped is whitespace, and it does not start with whitespace |
| Strings.TrimEnd | src/app/actions.ts:15 | the result is a prefix of the input, everything dropped is whitespace, and it does not end with whitespace |
| Strings.TrimIgnoresPadding | src/app/actions.ts:15 | `trim` removes any whitespace on either side: padding never changes the result |
| Strings.TrimUnpadded | src/app/actions.ts:15 | `trim` removes nothing else: a name that neither starts nor ends with whitespace is its own trim |
| Strings.CaseVariantSameLower | src/app/actions.ts:15 | `toLowerCase` maps strings that differ only in letter case to the same string |
| WeatherDisplay.GetTimeOfDay | src/components/weather-display.tsx:31-37 | hours 5..11 give morning, 12..16 afternoon, 17..20 evening, and 0..4 and 21..23 night |
| WeatherDisplay.EffectResult | src/components/weather-display.tsx:47-87 | an empty condition gives "Weather data unavailable" with icon "cloud". A successful answer gives its own data. A declined answer or an exception gives the condition as both description and icon |
| WeatherDisplay.AiPanel.constructor | src/components/weather-display.tsx:44-45 | the card starts with no AI data, loading |
| WeatherDisplay.AiPanel.RunEffect | src/components/weather-display.tsx:47-87 | a request is made exactly when the condition is non-empty. Afterwards the AI data is the effect's result and loading is off, whatever the outcome |
| WeatherDisplay.DisplayedIconName | src/components/weather-display.tsx:139 | `aiData?.icon`, or `data.condition` when that is empty: a non-empty AI icon name is chosen, otherwise the name is the condition, and it is empty exactly when the condition is empty and there is no AI icon name |
| WeatherDisplay.ShownIcon | src/components/weather-display.tsx:139 | the icon drawn is the condition's icon, the icon the AI named, or the cloud |
| WeatherDisplay.ShownIconCases | src/components/weather-display.tsx:139 | with no condition the cloud icon is drawn. After a failed call, or an answer with an empty icon name, the condition's own icon is drawn. Otherwise the answer's icon is drawn |
| WeatherDisplay.FailedCallWithUnknownCondition | src/components/weather-display.tsx:76-80 | a failed call for condition "Clouds" draws the thermometer |

## Left out

- Fetching the forecast and the current weather, the API-key check, HTTP status handling and error re-wrapping: this is I/O. The model starts from the parsed sample list.
- The weekday name (`Date`, `getTimezoneOffset`, `toLocaleDateString`): it depends on the runtime's clock and locale. It is the parameter `weekday` of `Summarize`, `Summaries`, `DailyForecast` and `GetForecast`.
- IEEE floating point: temperatures are exact reals, so the sum and the division of the mean are exact.
- Object key order for integer-like keys. JavaScript lists keys such as "2024" before the others, in numeric order. The model keeps every key in insertion order, which matches dates of the form YYYY-MM-DD.
- Keys inherited from `Object.prototype` ("constructor", "__proto__", ...). In the source these are truthy on an object that does not hold them: for a date, for a tally label, for a city name and in the icon lookup. The model treats every object as holding only its own keys.
- WeatherIcon.IconFor: gives `Thermometer` for "constructor" and "__proto__" in any letter case, but `iconMap[...]` there is `Object` or `Object.prototype`, so React gets that instead of the thermometer.
- Samples with missing fields, and `weather[0]` absent: every sample is a complete record. The thrown and re-wrapped `TypeError`, the `NaN` temperatures and the "undefined" label that such samples cause are not modelled.
- Strings.LowerChar: maps only 'A'..'Z' and KELVIN SIGN (which lower-cases to 'k'). Other letters keep their case. Some other characters lower-case to an ASCII letter plus a non-ASCII mark: U+0130 gives "i" followed by U+0307. That mark stays in the name, so the name still matches none of the all-ASCII keys of the five-city and icon tables, and lookup outcomes are the same. But `ToLower` is not the full Unicode mapping.
- The one-second `setTimeout` delay of the city lookup, and the fact that it is asynchronous.
- The current hour: `GetTimeOfDay` takes it as a parameter, for 0..23.
- The request to the AI route, its JSON parsing, its console logging and the rate-limit message test. The answer is the parameter `outcome` of `RunEffect`. `RunEffect` returns only whether a request was made; the data the card keeps is left in the field `aiData`. The loading flag is on only between the start and the end of the call.
- React re-rendering and the effect's dependency on `data.condition`: `RunEffect` is one run of the effect.
- `formatTime`, the route handlers, the AI flows (random mock data, a language-model prompt) and all other UI components.
- Totality of the icon lookup: every input yields one of the nine icons because `IconFor` returns the `Icon` type. No lemma states it.
- Forecast.GroupAll and Forecast.SumOf carry no contract of their own: they are the reference definitions of the `forEach` and of the `reduce`. What they compute is stated by `GroupAllSpec`, `GroupSizes`, `SumBounds` and `Mean`.
