/**
  The daily aggregation of the 5-day forecast tool (src/ai/tools/get-forecast.ts).

  The weather API returns 3-hour samples. The tool groups them by calendar date in
  one pass over the list (a JavaScript object keyed by date, whose keys keep their
  insertion order), keeps the first five dates and turns each group into one
  daily summary: rounded minimum, maximum and mean temperature and the most
  frequent condition and description.

  Temperatures are exact `real`s; `Math.round` is floor(x + 1/2).
*/
module Forecast {
  import opened Sequences

  /** One 3-hour reading: `dt_txt`, `main.temp`, `weather[0].main`, `weather[0].description`. */
  datatype Sample = Sample(dtTxt: string, temp: real, condition: string, description: string)

  /** A JavaScript object `{[label]: count}`: its keys in insertion order and its counts. */
  datatype Tally = Tally(keys: seq<string>, counts: map<string, nat>)

  /** The value stored under one date while the samples are scanned. */
  datatype DayAccumulator = DayAccumulator(date: string, temps: seq<real>, conditions: Tally, descriptions: Tally)

  /** The `dailyData` object: its date keys in insertion order and its values. */
  datatype Grouping = Grouping(order: seq<string>, days: map<string, DayAccumulator>)

  /** One entry of the tool's output. */
  datatype DailySummary = DailySummary(
    date: string, dayOfWeek: string, temp: int, tempMin: int, tempMax: int,
    condition: string, description: string)

  /** `.slice(0, 5)`: how many days the tool reports at most. */
  const MaxDays: nat := 5

  const EmptyTally := Tally([], map[])

  // ---------------------------------------------------------------------------
  // Date keys

  /** `dtTxt.split(' ')[0]`: the text before the first space, or all of it when
      there is no space. The three clauses determine the key uniquely. */
  function DateKey(dtTxt: string): (key: string)
    ensures key <= dtTxt
    ensures ' ' !in key
    ensures |key| == |dtTxt| || dtTxt[|key|] == ' '
  {
    if dtTxt == [] || dtTxt[0] == ' ' then [] else [dtTxt[0]] + DateKey(dtTxt[1..])
  }

  /** A timestamp "YYYY-MM-DD HH:MM:SS" falls under its date, whatever its time part. */
  lemma {:induction false} DateKeyOfTimestamp(day: string, time: string)
    requires ' ' !in day
    ensures DateKey(day + " " + time) == day
    decreases |day|
  {
    var dt := day + " " + time;
    if day == [] {
      assert dt[0] == ' ';
    } else {
      assert dt[0] == day[0];
      assert dt[1..] == day[1..] + " " + time;
      DateKeyOfTimestamp(day[1..], time);
    }
  }

  // ---------------------------------------------------------------------------
  // Projections of the sample list

  function Dates(samples: seq<Sample>): (dates: seq<string>)
    ensures |dates| == |samples|
  {
    if samples == [] then []
    else Dates(samples[..|samples| - 1]) + [DateKey(samples[|samples| - 1].dtTxt)]
  }

  function Temps(samples: seq<Sample>): (temps: seq<real>)
    ensures |temps| == |samples|
  {
    if samples == [] then []
    else Temps(samples[..|samples| - 1]) + [samples[|samples| - 1].temp]
  }

  function Conditions(samples: seq<Sample>): (conditions: seq<string>)
    ensures |conditions| == |samples|
  {
    if samples == [] then []
    else Conditions(samples[..|samples| - 1]) + [samples[|samples| - 1].condition]
  }

  function Descriptions(samples: seq<Sample>): (descriptions: seq<string>)
    ensures |descriptions| == |samples|
  {
    if samples == [] then []
    else Descriptions(samples[..|samples| - 1]) + [samples[|samples| - 1].description]
  }

  /** The samples whose date key is `date`, in input order: one for each occurrence
      of `date` among the dates. */
  function SamplesOn(samples: seq<Sample>, date: string): (on: seq<Sample>)
    ensures |on| == Count(Dates(samples), date)
    ensures forall i :: 0 <= i < |on| ==> DateKey(on[i].dtTxt) == date
    ensures date in Dates(samples) ==> on != []
  {
    if samples == [] then []
    else
      var last := samples[|samples| - 1];
      assert Dates(samples)[..|samples| - 1] == Dates(samples[..|samples| - 1]);
      SamplesOn(samples[..|samples| - 1], date) + (if DateKey(last.dtTxt) == date then [last] else [])
  }


  /** The number of distinct dates in the input. */
  function DistinctDateCount(samples: seq<Sample>): nat {
    |set d | d in Dates(samples)|
  }

  // ---------------------------------------------------------------------------
  // Tallies: `obj[name] = (obj[name] || 0) + 1`

  ghost predicate WellFormedTally(t: Tally) {
    && Distinct(t.keys)
    && (forall k :: k in t.counts <==> k in t.keys)
    && (forall k :: k in t.counts ==> t.counts[k] >= 1)
  }

  /** Counts one more occurrence of `name`; a new name becomes the last key. */
  function Bump(t: Tally, name: string): (r: Tally)
    ensures name in r.counts && r.counts[name] == (if name in t.counts then t.counts[name] else 0) + 1
    ensures t.keys <= r.keys
  {
    if name in t.counts then Tally(t.keys, t.counts[name := t.counts[name] + 1])
    else Tally(t.keys + [name], t.counts[name := 1])
  }

  /** The tally after counting `labels` one by one into an empty object. */
  function TallyOf(labels: seq<string>): (t: Tally)
    ensures WellFormedTally(t)
    ensures labels != [] ==> t.keys != []
  {
    if labels == [] then EmptyTally
    else
      var t := TallyOf(labels[..|labels| - 1]);
      BumpWellFormed(t, labels[|labels| - 1]);
      Bump(t, labels[|labels| - 1])
  }

  /** Counting keeps the keys distinct, in step with the counts, and the counts positive. */
  lemma BumpWellFormed(t: Tally, name: string)
    requires WellFormedTally(t)
    ensures WellFormedTally(Bump(t, name)) && name in Bump(t, name).keys
  {
  }

  /** Counting `name` leaves every other label's count alone, and appends `name` to
      the keys exactly when it was not yet counted. */
  lemma BumpFrame(t: Tally, name: string)
    ensures Bump(t, name).keys == if name in t.counts then t.keys else t.keys + [name]
    ensures forall k :: k != name ==>
              (k in Bump(t, name).counts <==> k in t.counts) &&
              (k in t.counts ==> Bump(t, name).counts[k] == t.counts[k])
  {
  }

  /** Sum of the counts of a tally. */
  function TallyTotal(t: Tally): nat
    requires forall k :: k in t.keys ==> k in t.counts
    decreases |t.keys|
  {
    if t.keys == [] then 0
    else
      var rest := Tally(t.keys[..|t.keys| - 1], t.counts);
      TallyTotal(rest) + t.counts[t.keys[|t.keys| - 1]]
  }

  // ---------------------------------------------------------------------------
  // The grouping pass (get-forecast.ts lines 56-75)

  /** The body of the `forEach`: file one sample under its date. */
  function AddSample(g: Grouping, s: Sample): (r: Grouping)
    ensures DateKey(s.dtTxt) in r.days
    ensures g.order <= r.order && g.days.Keys <= r.days.Keys
    ensures forall d :: d in g.days && d != DateKey(s.dtTxt) ==> r.days[d] == g.days[d]
    ensures |r.days[DateKey(s.dtTxt)].temps| ==
              (if DateKey(s.dtTxt) in g.days then |g.days[DateKey(s.dtTxt)].temps| else 0) + 1
  {
    var date := DateKey(s.dtTxt);
    var day := if date in g.days then g.days[date] else DayAccumulator(date, [], EmptyTally, EmptyTally);
    Grouping(
      if date in g.days then g.order else g.order + [date],
      g.days[date := day.(temps := day.temps + [s.temp],
                          conditions := Bump(day.conditions, s.condition),
                          descriptions := Bump(day.descriptions, s.description))])
  }

  /** `dailyData` after the `forEach` over `samples`. */
  function GroupAll(samples: seq<Sample>): Grouping {
    if samples == [] then Grouping([], map[])
    else AddSample(GroupAll(samples[..|samples| - 1]), samples[|samples| - 1])
  }

  /** What a date's accumulator holds, computed from the samples of that date alone. */
  function DayOf(samples: seq<Sample>, date: string): DayAccumulator {
    var on := SamplesOn(samples, date);
    DayAccumulator(date, Temps(on), TallyOf(Conditions(on)), TallyOf(Descriptions(on)))
  }

  /** `g` is what the scan of `samples` leaves: one entry per distinct date, keyed in
      first-seen order, each holding exactly what the samples of its date contribute. */
  ghost predicate Represents(g: Grouping, samples: seq<Sample>) {
    && g.order == FirstSeen(Dates(samples))
    && (forall d :: d in g.days <==> d in Dates(samples))
    && (forall d :: d in g.days ==> g.days[d] == DayOf(samples, d))
  }

  /** Sum of the group sizes of a grouping. */
  function GroupTotal(order: seq<string>, days: map<string, DayAccumulator>): nat
    requires forall k :: k in order ==> k in days
  {
    if order == [] then 0
    else GroupTotal(order[..|order| - 1], days) + |days[order[|order| - 1]].temps|
  }

  /** The scan of lines 56-75: a loop over the samples that creates a date's entry on
      first sight and then appends the temperature and bumps both tallies. */
  method GroupByDate(samples: seq<Sample>) returns (order: seq<string>, days: map<string, DayAccumulator>)
    ensures Grouping(order, days) == GroupAll(samples)
    ensures order == FirstSeen(Dates(samples))
    ensures forall d :: d in days <==> d in Dates(samples)
    ensures forall d :: d in days ==> days[d] == DayOf(samples, d)
  {
    order, days := [], map[];
    var i := 0;
    while i < |samples|
      invariant 0 <= i <= |samples|
      invariant Grouping(order, days) == GroupAll(samples[..i])
    {
      ghost var before := Grouping(order, days);
      var item := samples[i];
      var date := DateKey(item.dtTxt);
      if date !in days {
        days := days[date := DayAccumulator(date, [], EmptyTally, EmptyTally)];
        order := order + [date];
      }
      var day := days[date];
      days := days[date := day.(temps := day.temps + [item.temp],
                                conditions := Bump(day.conditions, item.condition),
                                descriptions := Bump(day.descriptions, item.description))];
      assert Grouping(order, days) == AddSample(before, item);
      assert samples[..i + 1][..i] == samples[..i];
      i := i + 1;
    }
    assert samples[..|samples|] == samples;
    GroupAllSpec(samples);
  }

  // ---------------------------------------------------------------------------
  // Summaries (get-forecast.ts lines 77-101)

  /** `Math.round`: the integer nearest to `x`, halves rounded up. */
  function Round(x: real): (n: int)
    ensures n as real - 0.5 <= x < n as real + 0.5
  {
    (x + 0.5).Floor
  }

  /** `Math.max(...xs)`. */
  function MaxOf(xs: seq<real>): (m: real)
    requires xs != []
    ensures m in xs
    ensures forall i :: 0 <= i < |xs| ==> xs[i] <= m
  {
    if |xs| == 1 then xs[0]
    else
      var m := MaxOf(xs[..|xs| - 1]);
      if xs[|xs| - 1] > m then xs[|xs| - 1] else m
  }

  /** `Math.min(...xs)`. */
  function MinOf(xs: seq<real>): (m: real)
    requires xs != []
    ensures m in xs
    ensures forall i :: 0 <= i < |xs| ==> m <= xs[i]
  {
    if |xs| == 1 then xs[0]
    else
      var m := MinOf(xs[..|xs| - 1]);
      if xs[|xs| - 1] < m then xs[|xs| - 1] else m
  }

  /** `xs.reduce((a, b) => a + b, 0)`. */
  function SumOf(xs: seq<real>): real {
    if xs == [] then 0.0 else SumOf(xs[..|xs| - 1]) + xs[|xs| - 1]
  }

  /** `temps.reduce((a, b) => a + b, 0) / temps.length`. */
  function Mean(xs: seq<real>): (m: real)
    requires xs != []
    ensures m * |xs| as real == SumOf(xs)
  {
    SumOf(xs) / |xs| as real
  }

  /** `k` is the LAST key, in insertion order, whose count is the largest. */
  ghost predicate IsLastMostFrequent(keys: seq<string>, counts: map<string, nat>, k: string)
    requires forall j :: 0 <= j < |keys| ==> keys[j] in counts
  {
    && k in keys
    && (forall j :: 0 <= j < |keys| ==> counts[keys[j]] <= counts[k])
    && (forall i, j :: 0 <= i < j < |keys| && keys[i] == k ==> counts[keys[j]] < counts[k])
  }

  /** `Object.keys(obj).reduce((a, b) => obj[a] > obj[b] ? a : b)` from the key at
      index `i` on, `acc` being the value reduced from the keys before it. */
  function ReduceMostFrequent(keys: seq<string>, counts: map<string, nat>, i: nat, acc: string): (k: string)
    requires forall j :: 0 <= j < |keys| ==> keys[j] in counts
    requires Distinct(keys)
    requires 1 <= i <= |keys|
    requires IsLastMostFrequent(keys[..i], counts, acc)
    ensures IsLastMostFrequent(keys, counts, k)
    decreases |keys| - i
  {
    if i == |keys| then
      assert keys[..i] == keys;
      acc
    else
      var b := keys[i];
      var next := if counts[acc] > counts[b] then acc else b;
      assert keys[..i + 1] == keys[..i] + [b];
      ReduceMostFrequent(keys, counts, i + 1, next)
  }

  /** `mostFrequent` (line 84): the reduction over the keys of a non-empty tally. */
  function MostFrequent(t: Tally): (k: string)
    requires WellFormedTally(t) && t.keys != []
    ensures IsLastMostFrequent(t.keys, t.counts, k)
  {
    ReduceMostFrequent(t.keys, t.counts, 1, t.keys[0])
  }

  ghost predicate WellFormedDay(day: DayAccumulator) {
    && day.temps != []
    && WellFormedTally(day.conditions) && day.conditions.keys != []
    && WellFormedTally(day.descriptions) && day.descriptions.keys != []
  }

  /** The `map` callback of lines 77-101 for one day; `weekday` stands for the
      `Date`/`toLocaleDateString` computation of lines 88-90. */
  function Summarize(day: DayAccumulator, weekday: string -> string): (r: DailySummary)
    requires WellFormedDay(day)
    ensures r.date == day.date && r.dayOfWeek == weekday(day.date)
    ensures r.temp == Round(Mean(day.temps)) && r.tempMin <= r.temp <= r.tempMax
    ensures exists i :: 0 <= i < |day.temps| && r.tempMax == Round(day.temps[i])
    ensures forall i :: 0 <= i < |day.temps| ==> Round(day.temps[i]) <= r.tempMax
    ensures exists i :: 0 <= i < |day.temps| && r.tempMin == Round(day.temps[i])
    ensures forall i :: 0 <= i < |day.temps| ==> r.tempMin <= Round(day.temps[i])
    ensures IsLastMostFrequent(day.conditions.keys, day.conditions.counts, r.condition)
    ensures IsLastMostFrequent(day.descriptions.keys, day.descriptions.counts, r.description)
  {
    MeanBetween(day.temps);
    RoundMonotone(MinOf(day.temps), Mean(day.temps));
    RoundMonotone(Mean(day.temps), MaxOf(day.temps));
    RoundMonotoneOn(day.temps, MinOf(day.temps), MaxOf(day.temps));
    DailySummary(
      day.date, weekday(day.date),
      Round(Mean(day.temps)), Round(MinOf(day.temps)), Round(MaxOf(day.temps)),
      MostFrequent(day.conditions), MostFrequent(day.descriptions))
  }

  /** The dates the tool reports: the first five distinct dates, in the order they
      first occur. Every date left out first occurs after all five reported ones. */
  function ReportedDates(samples: seq<Sample>): (dates: seq<string>)
    ensures |dates| == if DistinctDateCount(samples) <= MaxDays then DistinctDateCount(samples) else MaxDays
    ensures forall d :: d in dates ==> d in Dates(samples)
    ensures forall i, j :: 0 <= i < j < |dates| ==>
              dates[i] != dates[j] && FirstIndex(Dates(samples), dates[i]) < FirstIndex(Dates(samples), dates[j])
    ensures forall d :: d in Dates(samples) && d !in dates ==>
              |dates| == MaxDays &&
              forall k :: 0 <= k < |dates| ==> FirstIndex(Dates(samples), dates[k]) < FirstIndex(Dates(samples), d)
  {
    ReportedDatesSpec(samples);
    Prefix(FirstSeen(Dates(samples)), MaxDays)
  }

  lemma ReportedDatesSpec(samples: seq<Sample>)
    ensures var dates := Prefix(FirstSeen(Dates(samples)), MaxDays);
            && |dates| == (if DistinctDateCount(samples) <= MaxDays then DistinctDateCount(samples) else MaxDays)
            && (forall d :: d in dates ==> d in Dates(samples))
            && (forall i, j :: 0 <= i < j < |dates| ==>
                  dates[i] != dates[j] && FirstIndex(Dates(samples), dates[i]) < FirstIndex(Dates(samples), dates[j]))
            && (forall d :: d in Dates(samples) && d !in dates ==>
                  |dates| == MaxDays &&
                  forall k :: 0 <= k < |dates| ==> FirstIndex(Dates(samples), dates[k]) < FirstIndex(Dates(samples), d))
  {
    PrefixOfFirstSeen(Dates(samples), MaxDays);
    FirstSeenTruncated(Dates(samples), MaxDays);
  }

  /** `Object.values(dailyData).slice(0, 5).map(...)`. */
  function Summaries(g: Grouping, weekday: string -> string): (r: seq<DailySummary>)
    requires forall k :: k in g.order ==> k in g.days && WellFormedDay(g.days[k])
    ensures |r| == if |g.order| <= MaxDays then |g.order| else MaxDays
    ensures forall i :: 0 <= i < |r| ==> r[i].date == g.days[g.order[i]].date
    ensures forall i :: 0 <= i < |r| ==> r[i].tempMin <= r[i].temp <= r[i].tempMax
  {
    var firstDays := Prefix(g.order, MaxDays);
    seq(|firstDays|, i requires 0 <= i < |firstDays| => Summarize(g.days[firstDays[i]], weekday))
  }

  /** The value the forecast tool returns for the API's sample list: one summary per
      reported date, each computed from the samples of that date alone. */
  function DailyForecast(samples: seq<Sample>, weekday: string -> string): (r: seq<DailySummary>)
    ensures |r| == |ReportedDates(samples)|
    ensures forall i :: 0 <= i < |r| ==> r[i] == Summarize(DayOf(samples, ReportedDates(samples)[i]), weekday)
  {
    GroupAllSpec(samples);
    Summaries(GroupAll(samples), weekday)
  }

  /** The tool's processing of `data.list`: the grouping loop, then the summaries. */
  method GetForecast(samples: seq<Sample>, weekday: string -> string) returns (forecast: seq<DailySummary>)
    ensures forecast == DailyForecast(samples, weekday)
  {
    var order, days := GroupByDate(samples);
    forecast := Summaries(Grouping(order, days), weekday);
  }

  // ---------------------------------------------------------------------------
  // Lemmas: the grouping

  lemma SamplesOnAppend(samples: seq<Sample>, s: Sample, date: string)
    ensures SamplesOn(samples + [s], date) ==
            SamplesOn(samples, date) + (if DateKey(s.dtTxt) == date then [s] else [])
  {
    assert (samples + [s])[..|samples|] == samples;
  }

  lemma ProjectionsAppend(samples: seq<Sample>, s: Sample)
    ensures Dates(samples + [s]) == Dates(samples) + [DateKey(s.dtTxt)]
    ensures Temps(samples + [s]) == Temps(samples) + [s.temp]
    ensures Conditions(samples + [s]) == Conditions(samples) + [s.condition]
    ensures Descriptions(samples + [s]) == Descriptions(samples) + [s.description]
  {
    assert (samples + [s])[..|samples|] == samples;
  }

  lemma TallyOfAppend(labels: seq<string>, name: string)
    ensures TallyOf(labels + [name]) == Bump(TallyOf(labels), name)
  {
    assert (labels + [name])[..|labels|] == labels;
  }

  /** One step of the scan keeps `Represents`. */
  lemma AddSampleStep(g: Grouping, p: seq<Sample>, s: Sample)
    requires Represents(g, p)
    ensures Represents(AddSample(g, s), p + [s])
  {
    AddSampleKeys(g, p, s);
    AddSampleDay(g, p, s);
    AddSampleOtherDays(g, p, s);
  }

  /** The entries of the other dates stay equal to their per-date reference. */
  lemma AddSampleOtherDays(g: Grouping, p: seq<Sample>, s: Sample)
    requires Represents(g, p)
    ensures forall d :: d in AddSample(g, s).days && d != DateKey(s.dtTxt) ==>
              AddSample(g, s).days[d] == DayOf(p + [s], d)
  {
    var g' := AddSample(g, s);
    AddSampleKeys(g, p, s);
    forall d | d in g'.days && d != DateKey(s.dtTxt)
      ensures g'.days[d] == DayOf(p + [s], d)
    {
      DayOfOtherDate(p, s, d);
    }
  }

  /** A new date becomes the last key; a known date leaves the keys as they were. */
  lemma AddSampleKeys(g: Grouping, p: seq<Sample>, s: Sample)
    requires Represents(g, p)
    ensures AddSample(g, s).order == FirstSeen(Dates(p + [s]))
    ensures forall d :: d in AddSample(g, s).days <==> d in Dates(p + [s])
  {
    ProjectionsAppend(p, s);
    assert Dates(p + [s])[..|p|] == Dates(p);
  }

  /** The entry of the sample's own date gains exactly that sample's contribution. */
  lemma AddSampleDay(g: Grouping, p: seq<Sample>, s: Sample)
    requires Represents(g, p)
    ensures AddSample(g, s).days[DateKey(s.dtTxt)] == DayOf(p + [s], DateKey(s.dtTxt))
  {
    var key := DateKey(s.dtTxt);
    var on := SamplesOn(p, key);
    ProjectionsAppend(p, s);
    CountPositive(Dates(p), key);
    var day := if key in g.days then g.days[key] else DayAccumulator(key, [], EmptyTally, EmptyTally);
    assert day == DayOf(p, key);
    ProjectionsAppend(on, s);
    TallyOfAppend(Conditions(on), s.condition);
    TallyOfAppend(Descriptions(on), s.description);
    SamplesOnAppend(p, s, key);
  }

  lemma DayOfOtherDate(p: seq<Sample>, s: Sample, date: string)
    requires DateKey(s.dtTxt) != date
    ensures DayOf(p + [s], date) == DayOf(p, date)
  {
    SamplesOnAppend(p, s, date);
    assert SamplesOn(p, date) + [] == SamplesOn(p, date);
  }

  /** The one-pass grouping agrees with filtering the samples date by date, and its
      key order is the order in which the dates first occur. */
  lemma {:induction false} GroupAllSpec(samples: seq<Sample>)
    ensures Represents(GroupAll(samples), samples)
  {
    if samples != [] {
      var p, s := samples[..|samples| - 1], samples[|samples| - 1];
      assert samples == p + [s];
      GroupAllSpec(p);
      AddSampleStep(GroupAll(p), p, s);
    }
  }

  lemma {:induction false} GroupTotalIsSumCounts(order: seq<string>, days: map<string, DayAccumulator>, dates: seq<string>)
    requires forall k :: k in order ==> k in days && |days[k].temps| == Count(dates, k)
    ensures GroupTotal(order, days) == SumCounts(order, dates)
  {
    if order != [] {
      GroupTotalIsSumCounts(order[..|order| - 1], days, dates);
    }
  }

  /** Every sample adds exactly one temperature to its own group: the groups are
      non-empty and their sizes add up to the number of samples. */
  lemma GroupSizes(samples: seq<Sample>)
    ensures forall k :: k in GroupAll(samples).order ==>
              k in GroupAll(samples).days && |GroupAll(samples).days[k].temps| >= 1
    ensures GroupTotal(GroupAll(samples).order, GroupAll(samples).days) == |samples|
  {
    var g := GroupAll(samples);
    GroupAllSpec(samples);
    forall k | k in g.order
      ensures |g.days[k].temps| == Count(Dates(samples), k) >= 1
    {
      CountPositive(Dates(samples), k);
    }
    GroupTotalIsSumCounts(g.order, g.days, Dates(samples));
    SumCountsOfFirstSeen(Dates(samples));
  }

  /** The tally of a label list: keys in first-seen order, each with its number of occurrences. */
  lemma {:induction false} TallyOfSpec(labels: seq<string>)
    ensures TallyOf(labels).keys == FirstSeen(labels)
    ensures forall c :: c in TallyOf(labels).counts <==> c in labels
    ensures forall c :: c in TallyOf(labels).counts ==> TallyOf(labels).counts[c] == Count(labels, c)
  {
    if labels != [] {
      var p, x := labels[..|labels| - 1], labels[|labels| - 1];
      assert labels == p + [x];
      TallyOfSpec(p);
      forall c
        ensures Count(labels, c) == Count(p, c) + (if x == c then 1 else 0)
        ensures Count(p, c) >= 1 <==> c in p
      {
        CountAppend(p, x, c);
        CountPositive(p, c);
      }
    }
  }

  lemma {:induction false} TallyTotalIsSumCounts(t: Tally, labels: seq<string>)
    requires forall k :: k in t.keys ==> k in t.counts && t.counts[k] == Count(labels, k)
    ensures TallyTotal(t) == SumCounts(t.keys, labels)
    decreases |t.keys|
  {
    if t.keys != [] {
      TallyTotalIsSumCounts(Tally(t.keys[..|t.keys| - 1], t.counts), labels);
    }
  }

  /** The counts of a tally add up to the number of labels counted. */
  lemma TallyOfTotal(labels: seq<string>)
    ensures TallyTotal(TallyOf(labels)) == |labels|
  {
    TallyOfSpec(labels);
    TallyTotalIsSumCounts(TallyOf(labels), labels);
    SumCountsOfFirstSeen(labels);
  }

  /** Within a day, the condition tally and the description tally each add up to the
      number of temperatures of that day. */
  lemma DayTalliesSumToGroupSize(samples: seq<Sample>, date: string)
    ensures TallyTotal(DayOf(samples, date).conditions) == |DayOf(samples, date).temps|
    ensures TallyTotal(DayOf(samples, date).descriptions) == |DayOf(samples, date).temps|
  {
    var on := SamplesOn(samples, date);
    TallyOfTotal(Conditions(on));
    TallyOfTotal(Descriptions(on));
  }

  // ---------------------------------------------------------------------------
  // Lemmas: the summaries

  lemma RoundMonotone(x: real, y: real)
    requires x <= y
    ensures Round(x) <= Round(y)
  {
  }

  lemma RoundMonotoneOn(xs: seq<real>, lo: real, hi: real)
    requires forall i :: 0 <= i < |xs| ==> lo <= xs[i] <= hi
    ensures forall i :: 0 <= i < |xs| ==> Round(lo) <= Round(xs[i]) <= Round(hi)
  {
    forall i | 0 <= i < |xs|
      ensures Round(lo) <= Round(xs[i]) <= Round(hi)
    {
      RoundMonotone(lo, xs[i]);
      RoundMonotone(xs[i], hi);
    }
  }

  lemma {:induction false} SumBounds(xs: seq<real>, lo: real, hi: real)
    requires forall i :: 0 <= i < |xs| ==> lo <= xs[i] <= hi
    ensures |xs| as real * lo <= SumOf(xs) <= |xs| as real * hi
  {
    if xs != [] {
      SumBounds(xs[..|xs| - 1], lo, hi);
      assert (|xs| - 1) as real * lo + lo == |xs| as real * lo;
      assert (|xs| - 1) as real * hi + hi == |xs| as real * hi;
    }
  }

  lemma DivideBetween(s: real, n: real, lo: real, hi: real)
    requires n > 0.0 && n * lo <= s <= n * hi
    ensures lo <= s / n <= hi
  {
  }

  /** The mean of a day's temperatures lies between their minimum and maximum. */
  lemma MeanBetween(xs: seq<real>)
    requires xs != []
    ensures MinOf(xs) <= Mean(xs) <= MaxOf(xs)
  {
    SumBounds(xs, MinOf(xs), MaxOf(xs));
    DivideBetween(SumOf(xs), |xs| as real, MinOf(xs), MaxOf(xs));
  }

  /** The last most frequent key is unique: the reduction's result is determined. */
  lemma LastMostFrequentUnique(keys: seq<string>, counts: map<string, nat>, k1: string, k2: string)
    requires forall j :: 0 <= j < |keys| ==> keys[j] in counts
    requires Distinct(keys)
    requires IsLastMostFrequent(keys, counts, k1) && IsLastMostFrequent(keys, counts, k2)
    ensures k1 == k2
  {
    var i1 :| 0 <= i1 < |keys| && keys[i1] == k1;
    var i2 :| 0 <= i2 < |keys| && keys[i2] == k2;
    assert counts[keys[i1]] == counts[keys[i2]];
  }

  /** Stated on the labels themselves: the chosen label occurs at least as often as
      every other label, and among the labels with that many occurrences it is the
      one whose first occurrence comes last (the later-inserted key wins a tie). */
  lemma LastMostFrequentOfLabels(labels: seq<string>, k: string)
    requires IsLastMostFrequent(TallyOf(labels).keys, TallyOf(labels).counts, k)
    ensures k in labels
    ensures forall c :: Count(labels, c) <= Count(labels, k)
    ensures forall c :: c in labels && Count(labels, c) == Count(labels, k) ==>
              FirstIndex(labels, c) <= FirstIndex(labels, k)
  {
    TallyOfSpec(labels);
    forall c
      ensures Count(labels, c) <= Count(labels, k)
    {
      LabelCountBound(labels, k, c);
    }
    forall c | c in labels && Count(labels, c) == Count(labels, k)
      ensures FirstIndex(labels, c) <= FirstIndex(labels, k)
    {
      LabelTieBreak(labels, k, c);
    }
  }

  lemma LabelCountBound(labels: seq<string>, k: string, c: string)
    requires IsLastMostFrequent(TallyOf(labels).keys, TallyOf(labels).counts, k)
    ensures Count(labels, c) <= Count(labels, k)
  {
    TallyOfSpec(labels);
    CountPositive(labels, c);
    var t := TallyOf(labels);
    if c in labels {
      var ic :| 0 <= ic < |t.keys| && t.keys[ic] == c;
    }
  }

  lemma LabelTieBreak(labels: seq<string>, k: string, c: string)
    requires IsLastMostFrequent(TallyOf(labels).keys, TallyOf(labels).counts, k)
    requires c in labels && Count(labels, c) == Count(labels, k)
    ensures k in labels && FirstIndex(labels, c) <= FirstIndex(labels, k)
  {
    TallyOfSpec(labels);
    var t := TallyOf(labels);
    var ic :| 0 <= ic < |t.keys| && t.keys[ic] == c;
    var ik :| 0 <= ik < |t.keys| && t.keys[ik] == k;
    TiedKeyComesFirst(t.keys, t.counts, k, ic, ik);
    if ic < ik {
      FirstSeenSpec(labels);
    }
  }

  /** A key whose count equals that of the last most frequent key is not after it. */
  lemma TiedKeyComesFirst(keys: seq<string>, counts: map<string, nat>, k: string, ic: nat, ik: nat)
    requires forall j :: 0 <= j < |keys| ==> keys[j] in counts
    requires IsLastMostFrequent(keys, counts, k)
    requires ic < |keys| && ik < |keys| && keys[ik] == k && counts[keys[ic]] == counts[k]
    ensures ic <= ik
  {
  }

  /** Two labels seen twice each, `a` first: the reduction keeps `b`, the key
      inserted later, because it replaces the accumulator unless the accumulator's
      count is strictly larger. */
  lemma TieGoesToLaterKey(a: string, b: string)
    requires a != b
    ensures MostFrequent(TallyOf([a, a, b, b])) == b
  {
    var labels := [a, a, b, b];
    var k := MostFrequent(TallyOf(labels));
    LastMostFrequentOfLabels(labels, k);
    if k != b {
      PairCounts(a, b);
      assert false;
    }
  }

  lemma PairCounts(a: string, b: string)
    requires a != b
    ensures Count([a, a, b, b], a) == 2 == Count([a, a, b, b], b)
  {
    CountAppend([], a, a);
    CountAppend([], a, b);
    assert [] + [a] == [a];
    CountAppend([a], a, a);
    CountAppend([a], a, b);
    assert [a] + [a] == [a, a];
    CountAppend([a, a], b, a);
    CountAppend([a, a], b, b);
    assert [a, a] + [b] == [a, a, b];
    CountAppend([a, a, b], b, a);
    CountAppend([a, a, b], b, b);
    assert [a, a, b] + [b] == [a, a, b, b];
  }

  // ---------------------------------------------------------------------------
  // Lemmas: the whole aggregation

  /** The first `n` keys of an object filled by insertion: min(n, distinct elements)
      of them, each inserted, distinct, in the order of first occurrence. */
  lemma PrefixOfFirstSeen(s: seq<string>, n: nat)
    ensures var r := Prefix(FirstSeen(s), n);
            && |r| == (if |set x | x in s| <= n then |set x | x in s| else n)
            && (forall x :: x in r ==> x in s)
            && (forall i, j :: 0 <= i < j < |r| ==> r[i] != r[j] && FirstIndex(s, r[i]) < FirstIndex(s, r[j]))
  {
    FirstSeenSpec(s);
    FirstSeenCount(s);
  }

  /** Of a key list in first-seen order cut to its first `n` keys: a key cut off
      first occurs after every key kept. */
  lemma FirstSeenTruncated(s: seq<string>, n: nat)
    ensures forall x :: x in s && x !in Prefix(FirstSeen(s), n) ==>
              n < |FirstSeen(s)| && forall k :: 0 <= k < n ==> FirstIndex(s, FirstSeen(s)[k]) < FirstIndex(s, x)
  {
    var all := FirstSeen(s);
    FirstSeenSpec(s);
    forall x | x in s && x !in Prefix(all, n)
      ensures |all| > n && forall k :: 0 <= k < n ==> FirstIndex(s, all[k]) < FirstIndex(s, x)
    {
      var m :| 0 <= m < |all| && all[m] == x;
      assert m >= n;
    }
  }

  /** Every reported day's summary names a most frequent condition of that day's
      samples, the one first seen last when several tie, and likewise for the
      description. */
  lemma ForecastDay(samples: seq<Sample>, weekday: string -> string, i: nat)
    requires i < |DailyForecast(samples, weekday)|
    ensures var r := DailyForecast(samples, weekday)[i];
            var on := SamplesOn(samples, r.date);
            && r.date == ReportedDates(samples)[i]
            && on != []
            && r.condition in Conditions(on)
            && (forall c :: Count(Conditions(on), c) <= Count(Conditions(on), r.condition))
            && (forall c :: c in Conditions(on) && Count(Conditions(on), c) == Count(Conditions(on), r.condition) ==>
                  FirstIndex(Conditions(on), c) <= FirstIndex(Conditions(on), r.condition))
            && r.description in Descriptions(on)
            && (forall c :: Count(Descriptions(on), c) <= Count(Descriptions(on), r.description))
            && (forall c :: c in Descriptions(on) && Count(Descriptions(on), c) == Count(Descriptions(on), r.description) ==>
                  FirstIndex(Descriptions(on), c) <= FirstIndex(Descriptions(on), r.description))
  {
    var r := DailyForecast(samples, weekday)[i];
    var on := SamplesOn(samples, r.date);
    LastMostFrequentOfLabels(Conditions(on), r.condition);
    LastMostFrequentOfLabels(Descriptions(on), r.description);
  }

  lemma {:induction false} DatesAppend(a: seq<Sample>, b: seq<Sample>)
    ensures Dates(a + b) == Dates(a) + Dates(b)
    decreases |b|
  {
    if b == [] {
      assert a + b == a;
    } else {
      var b', s := b[..|b| - 1], b[|b| - 1];
      assert a + b == (a + b') + [s];
      assert b == b' + [s];
      ProjectionsAppend(a + b', s);
      ProjectionsAppend(b', s);
      DatesAppend(a, b');
    }
  }

  lemma {:induction false} SamplesOnUnaffected(a: seq<Sample>, b: seq<Sample>, date: string)
    requires forall i :: 0 <= i < |b| ==> DateKey(b[i].dtTxt) != date
    ensures SamplesOn(a + b, date) == SamplesOn(a, date)
    decreases |b|
  {
    if b == [] {
      assert a + b == a;
    } else {
      var b', s := b[..|b| - 1], b[|b| - 1];
      assert a + b == (a + b') + [s];
      SamplesOnAppend(a + b', s, date);
      SamplesOnUnaffected(a, b', date);
    }
  }

  /** Samples of dates beyond the first five change nothing: once five dates have been
      seen, appending samples whose dates are not among the five reported ones leaves
      the output as it was. */
  lemma LaterDatesIgnored(samples: seq<Sample>, more: seq<Sample>, weekday: string -> string)
    requires DistinctDateCount(samples) >= MaxDays
    requires forall i :: 0 <= i < |more| ==> DateKey(more[i].dtTxt) !in ReportedDates(samples)
    ensures DailyForecast(samples + more, weekday) == DailyForecast(samples, weekday)
  {
    var dates, dates' := ReportedDates(samples), ReportedDates(samples + more);
    DatesAppend(samples, more);
    FirstSeenPrefix(Dates(samples), Dates(more));
    assert dates' == dates;
    var r, r' := DailyForecast(samples, weekday), DailyForecast(samples + more, weekday);
    forall i | 0 <= i < |r|
      ensures r'[i] == r[i]
    {
      SamplesOnUnaffected(samples, more, dates[i]);
    }
  }

  /** Empty input gives empty output, not an error. */
  lemma EmptyInput(weekday: string -> string)
    ensures DailyForecast([], weekday) == []
  {
  }
}
