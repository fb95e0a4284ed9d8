/**
  The icon a weather-condition name is drawn with (src/components/weather-icon.tsx):
  a fixed table from lower-case names to eight of the nine imported icons, looked
  up with the lower-cased name, falling back to the ninth, the thermometer icon.
*/
module WeatherIcon {
  import opened Wrappers
  import opened Strings

  /** The nine icons imported from the icon library: eight are table values, and
      `Thermometer` is only the fallback. */
  datatype Icon = Sun | Cloud | CloudRain | CloudSnow | CloudLightning | Moon | CloudSun | CloudMoon | Thermometer

  /** `iconMap`: the fifteen names the component knows. */
  const IconMap: map<string, Icon> := map[
    "sun" := Sun, "sunny" := Sun, "clear" := Sun,
    "cloud" := Cloud, "cloudy" := Cloud,
    "partly cloudy" := CloudSun,
    "rain" := CloudRain, "rainy" := CloudRain,
    "snow" := CloudSnow, "snowy" := CloudSnow,
    "storm" := CloudLightning, "stormy" := CloudLightning,
    "moon" := Moon,
    "cloudsun" := CloudSun,
    "cloudmoon" := CloudMoon
  ]

  /** `iconMap[iconName?.toLowerCase()] || Thermometer`; a missing name is `None`.
      The thermometer comes out exactly when the lower-cased name is not a table key,
      since no key is mapped to it. */
  function IconFor(iconName: Option<string>): (icon: Icon)
    ensures icon == Thermometer <==> iconName.None? || ToLower(iconName.value) !in IconMap
    ensures iconName.Some? && ToLower(iconName.value) in IconMap ==> icon == IconMap[ToLower(iconName.value)]
  {
    if iconName.Some? && ToLower(iconName.value) in IconMap then IconMap[ToLower(iconName.value)]
    else Thermometer
  }

  /** The table's keys are already in lower case. */
  lemma KeysAreLowerCase()
    ensures forall k :: k in IconMap ==> ToLower(k) == k
  {
    forall k | k in IconMap
      ensures ToLower(k) == k
    {
      ToLowerOfLower(k);
    }
  }

  /** The lookup ignores case: names that differ only in the case of ASCII letters
      give the same icon. */
  lemma CaseInsensitive(a: string, b: string)
    requires CaseVariant(a, b)
    ensures IconFor(Some(a)) == IconFor(Some(b))
  {
    CaseVariantSameLower(a, b);
  }

  /** Any spelling of a table key in any letter case gives that key's icon. */
  lemma CaseVariantOfKey(name: string, key: string)
    requires key in IconMap && CaseVariant(name, key)
    ensures IconFor(Some(name)) == IconMap[key]
  {
    CaseVariantSameLower(name, key);
    KeysAreLowerCase();
  }

  /** The synonyms of the table resolve to the same icon. */
  lemma SunSynonyms()
    ensures IconFor(Some("sun")) == IconFor(Some("sunny")) == IconFor(Some("clear")) == Sun
  {
    KeyIcon("sun"); KeyIcon("sunny"); KeyIcon("clear");
  }

  lemma CloudSynonyms()
    ensures IconFor(Some("cloud")) == IconFor(Some("cloudy")) == Cloud
    ensures IconFor(Some("partly cloudy")) == IconFor(Some("cloudsun")) == CloudSun
  {
    KeyIcon("cloud"); KeyIcon("cloudy"); KeyIcon("partly cloudy"); KeyIcon("cloudsun");
  }

  lemma PrecipitationSynonyms()
    ensures IconFor(Some("rain")) == IconFor(Some("rainy")) == CloudRain
    ensures IconFor(Some("snow")) == IconFor(Some("snowy")) == CloudSnow
    ensures IconFor(Some("storm")) == IconFor(Some("stormy")) == CloudLightning
  {
    KeyIcon("rain"); KeyIcon("rainy"); KeyIcon("snow"); KeyIcon("snowy");
    KeyIcon("storm"); KeyIcon("stormy");
  }

  /** A table key, as written, gives its own icon. */
  lemma KeyIcon(key: string)
    requires key in IconMap
    ensures IconFor(Some(key)) == IconMap[key]
  {
    KeysAreLowerCase();
  }

  /** Matching is exact after lower-casing: no plural, prefix or padding is accepted. */
  lemma NoFuzzyMatching()
    ensures IconFor(Some("Clouds")) == Thermometer
    ensures IconFor(Some("Sunny ")) == Thermometer
    ensures IconFor(Some("")) == Thermometer
    ensures IconFor(None) == Thermometer
  {
    assert ToLower("Clouds") == "clouds";
    assert ToLower("Sunny ") == "sunny ";
  }
}
