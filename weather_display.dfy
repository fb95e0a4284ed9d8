/**
  The decisions of the current-weather card (src/components/weather-display.tsx):
  the time-of-day bucket sent with the AI request, the effect that fills the
  AI description and icon (with its fallbacks), and the icon name finally drawn.
  The clock, the request and its answer are parameters.
*/
module WeatherDisplay {
  import opened Wrappers
  import WeatherIcon

  datatype TimeOfDay = Morning | Afternoon | Evening | Night

  /** `getTimeOfDay` for the hour `new Date().getHours()` returns. */
  function GetTimeOfDay(hour: int): (t: TimeOfDay)
    requires 0 <= hour <= 23
    ensures t == Morning <==> 5 <= hour <= 11
    ensures t == Afternoon <==> 12 <= hour <= 16
    ensures t == Evening <==> 17 <= hour <= 20
    ensures t == Night <==> hour <= 4 || 21 <= hour
  {
    if 5 <= hour < 12 then Morning
    else if 12 <= hour < 17 then Afternoon
    else if 17 <= hour < 21 then Evening
    else Night
  }

  /** `AIData`: a description and the name of an icon. */
  datatype AiData = AiData(description: string, icon: string)

  /** How the request to the AI route ends: a successful answer, an answer with
      `success: false`, or an exception. */
  datatype AiOutcome = Answered(data: AiData) | Declined(error: string) | Threw

  /** What the card shows when the weather data has no condition. */
  const Unavailable := AiData("Weather data unavailable", "cloud")

  /** The AI data the effect leaves behind. */
  function EffectResult(condition: string, outcome: AiOutcome): (d: AiData)
    ensures condition == "" ==> d == Unavailable
    ensures condition != "" && outcome.Answered? ==> d == outcome.data
    ensures condition != "" && !outcome.Answered? ==> d.description == condition && d.icon == condition
  {
    if condition == "" then Unavailable
    else if outcome.Answered? then outcome.data
    else AiData(condition, condition)
  }

  /** `aiData?.icon || data.condition`: the icon name handed to the icon lookup. It is
      the AI's icon name when that is non-empty, otherwise the condition, and empty
      only when both are. */
  function DisplayedIconName(ai: Option<AiData>, condition: string): (name: string)
    ensures ai.Some? && ai.value.icon != "" ==> name == ai.value.icon
    ensures name == condition || (ai.Some? && name == ai.value.icon)
    ensures name == "" <==> condition == "" && (ai.None? || ai.value.icon == "")
  {
    if ai.Some? && ai.value.icon != "" then ai.value.icon else condition
  }

  /** The icon drawn once the effect has finished: the icon of the condition, the
      icon the AI named, or the cloud of the fallback data. */
  function ShownIcon(condition: string, outcome: AiOutcome): (icon: WeatherIcon.Icon)
    ensures || icon == WeatherIcon.IconFor(Some(condition))
            || (outcome.Answered? && icon == WeatherIcon.IconFor(Some(outcome.data.icon)))
            || icon == WeatherIcon.Cloud
  {
    WeatherIcon.KeyIcon("cloud");
    WeatherIcon.IconFor(Some(DisplayedIconName(Some(EffectResult(condition, outcome)), condition)))
  }

  /** With no condition the card draws the cloud icon; when the AI call fails it
      draws the condition's own icon; an answer with an empty icon name also falls
      back to the condition. */
  lemma ShownIconCases(condition: string, outcome: AiOutcome)
    ensures condition == "" ==> ShownIcon(condition, outcome) == WeatherIcon.Cloud
    ensures condition != "" && !outcome.Answered? ==>
              ShownIcon(condition, outcome) == WeatherIcon.IconFor(Some(condition))
    ensures condition != "" && outcome.Answered? && outcome.data.icon == "" ==>
              ShownIcon(condition, outcome) == WeatherIcon.IconFor(Some(condition))
    ensures condition != "" && outcome.Answered? && outcome.data.icon != "" ==>
              ShownIcon(condition, outcome) == WeatherIcon.IconFor(Some(outcome.data.icon))
  {
    WeatherIcon.KeyIcon("cloud");
  }

  /** A failed AI call for a condition the icon table does not know draws the
      thermometer, as in "Clouds". */
  lemma FailedCallWithUnknownCondition()
    ensures ShownIcon("Clouds", Threw) == WeatherIcon.Thermometer
  {
    WeatherIcon.NoFuzzyMatching();
  }

  /** The card's AI state: `aiData` and `isAiLoading`. */
  class AiPanel {
    var aiData: Option<AiData>
    var isAiLoading: bool

    /** Before the effect runs: no data, loading. */
    constructor ()
      ensures aiData == None && isAiLoading
    {
      aiData := None;
      isAiLoading := true;
    }

    /** The effect run for `condition`, with `outcome` standing for the request's
        result. An empty condition sets the fallback data and stops loading without
        a request; otherwise loading is switched on, the data is set from the
        outcome, and loading is switched off whatever the outcome was. */
    method RunEffect(condition: string, outcome: AiOutcome) returns (requested: bool)
      modifies this
      ensures requested <==> condition != ""
      ensures aiData == Some(EffectResult(condition, outcome))
      ensures !isAiLoading
    {
      if condition == "" {
        aiData := Some(Unavailable);
        isAiLoading := false;
        return false;
      }
      isAiLoading := true;
      requested := true;
      match outcome {
        case Answered(data) =>
          aiData := Some(data);
        case Declined(_) =>
          aiData := Some(AiData(condition, condition));
        case Threw =>
          aiData := Some(AiData(condition, condition));
      }
      isAiLoading := false;
    }
  }
}
