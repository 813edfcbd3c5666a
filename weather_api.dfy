/**
 * The OpenWeather current-weather snapshot and `generateCareAdvice` from
 * client/src/services/weatherApi.ts: a prioritised table of threshold rules.
 */
module WeatherApi {
  import opened JsString

  /** One entry of `weather`: the main condition ("Rain", "Clear", ...) and its description. */
  datatype Condition = Condition(main: string, description: string)

  /** `main`: temperature in degrees Fahrenheit and relative humidity in percent. */
  datatype Readings = Readings(temp: Option<real>, humidity: Option<int>)

  /**
   * The weather JSON as it arrives: `main` or its fields may be missing in
   * the JSON although the TypeScript interface declares them.
   */
  datatype WeatherData = WeatherData(main: Option<Readings>, weather: seq<Condition>)

  /** A returned message, or the TypeError JavaScript raises on a missing field. */
  datatype Advice = Message(text: string) | TypeError

  const RainAdvice := "Rainy conditions mean reduced watering needs. Check soil moisture before next watering."
  const HeatAdvice := "High temperatures detected. Increase watering frequency and provide shade during peak hours."
  const ColdAdvice := "Cool weather slows plant growth. Reduce watering and bring sensitive plants indoors."
  const DryAdvice := "Low humidity can stress plants. Consider grouping plants together or using a humidifier."
  const HumidAdvice := "High humidity is great for tropical plants but ensure good air circulation to prevent fungal issues."
  const FavourableAdvice := "Current weather conditions are favorable for plant growth. Maintain regular care routine."

  const CareMessages := [RainAdvice, HeatAdvice, ColdAdvice, DryAdvice, HumidAdvice, FavourableAdvice]

  /** `x > bound` in JavaScript: false when `x` is undefined. */
  predicate Above(x: Option<real>, bound: real)
  {
    x.Some? && x.value > bound
  }

  /** `x < bound` in JavaScript: false when `x` is undefined. */
  predicate Below(x: Option<real>, bound: real)
  {
    x.Some? && x.value < bound
  }

  function AsReal(x: Option<int>): Option<real>
  {
    if x.Some? then Some(x.value as real) else None
  }

  /** `weatherData.weather[0]?.main.toLowerCase().includes('rain')`, when the list is not empty. */
  predicate IsRainy(w: WeatherData)
    requires |w.weather| > 0
  {
    Includes(ToLowerCase(w.weather[0].main), "rain")
  }

  /** `generateCareAdvice(weatherData, plantType)`; `plantType` is never read. */
  function GenerateCareAdvice(weatherData: WeatherData, plantType: Option<string>): (r: Advice)
    ensures r.TypeError? <==> weatherData.main.None? || |weatherData.weather| == 0
    ensures r.Message? ==> r.text in CareMessages
  {
    if weatherData.main.None? || |weatherData.weather| == 0 then TypeError
    else
      var temp := weatherData.main.value.temp;
      var humidity := AsReal(weatherData.main.value.humidity);
      if IsRainy(weatherData) then Message(RainAdvice)
      else if Above(temp, 85.0) then Message(HeatAdvice)
      else if Below(temp, 50.0) then Message(ColdAdvice)
      else if Below(humidity, 30.0) then Message(DryAdvice)
      else if Above(humidity, 80.0) then Message(HumidAdvice)
      else Message(FavourableAdvice)
  }

  /** The six messages are pairwise different, so a message names the rule that produced it. */
  lemma CareMessagesDistinct()
    ensures forall i, j :: 0 <= i < j < |CareMessages| ==> CareMessages[i] != CareMessages[j]
  {
    assert |RainAdvice| == 87 && |HeatAdvice| == 92 && |ColdAdvice| == 84;
    assert |DryAdvice| == 88 && |HumidAdvice| == 100 && |FavourableAdvice| == 89;
  }

  /**
   * Each message stated by the whole condition under which it appears:
   * rain wins over everything, heat is checked before cold and humidity, the
   * humidity rules apply only between 50 and 85 degrees (or with no temperature).
   */
  lemma CareAdviceRules(w: WeatherData, plantType: Option<string>)
    ensures GenerateCareAdvice(w, plantType) == TypeError <==> w.main.None? || |w.weather| == 0
    ensures var ok := w.main.Some? && |w.weather| > 0;
      var t := if ok then w.main.value.temp else None;
      var h := if ok then AsReal(w.main.value.humidity) else None;
      var normalTemp := t.None? || 50.0 <= t.value <= 85.0;
      && (GenerateCareAdvice(w, plantType) == Message(RainAdvice) <==> ok && IsRainy(w))
      && (GenerateCareAdvice(w, plantType) == Message(HeatAdvice) <==> ok && !IsRainy(w) && Above(t, 85.0))
      && (GenerateCareAdvice(w, plantType) == Message(ColdAdvice) <==> ok && !IsRainy(w) && Below(t, 50.0))
      && (GenerateCareAdvice(w, plantType) == Message(DryAdvice) <==> ok && !IsRainy(w) && normalTemp && Below(h, 30.0))
      && (GenerateCareAdvice(w, plantType) == Message(HumidAdvice) <==> ok && !IsRainy(w) && normalTemp && Above(h, 80.0))
      && (GenerateCareAdvice(w, plantType) == Message(FavourableAdvice) <==>
            ok && !IsRainy(w) && normalTemp && (h.None? || 30.0 <= h.value <= 80.0))
  {
    CareMessagesDistinct();
  }

  /** Exactly one of the six messages is produced whenever the fields are there, whatever the plant type. */
  lemma CareAdviceIsOneOfSix(w: WeatherData, p1: Option<string>, p2: Option<string>)
    requires w.main.Some? && |w.weather| > 0
    ensures GenerateCareAdvice(w, p1).Message?
    ensures GenerateCareAdvice(w, p1).text in CareMessages
    ensures GenerateCareAdvice(w, p1) == GenerateCareAdvice(w, p2)
  {
  }

  /** Exactly 50 or exactly 85 degrees triggers neither temperature rule. */
  lemma BoundaryTemperatures(w: WeatherData, p: Option<string>)
    requires w.main.Some? && |w.weather| > 0
    requires w.main.value.temp == Some(50.0) || w.main.value.temp == Some(85.0)
    ensures GenerateCareAdvice(w, p) != Message(HeatAdvice)
    ensures GenerateCareAdvice(w, p) != Message(ColdAdvice)
  {
    CareMessagesDistinct();
  }

  /** "Light Rain" counts as rain whatever the readings. */
  lemma LightRainSample(temp: real, humidity: int)
    ensures GenerateCareAdvice(WeatherData(Some(Readings(Some(temp), Some(humidity))), [Condition("Light Rain", "light rain")]), None)
         == Message(RainAdvice)
  {
    var l := ToLowerCase("Light Rain");
    assert l[6] == 'r' && l[7] == 'a' && l[8] == 'i' && l[9] == 'n';
    assert l[6..10] == "rain";
    assert OccursAt(l, "rain", 6);
  }
}
