/**
 * The display rules of client/src/components/PlantAnalysis.tsx: the health
 * status badge and icon, the colour of each health-issue dot, and the
 * humidity advice shown under the weather snapshot.
 */
module PlantAnalysisView {
  import opened JsString
  import opened WeatherApi

  /** The three colour tones of the UI theme. */
  datatype Tone = Success | Warning | Destructive

  /** The status icons. */
  datatype Icon = CheckCircle | AlertTriangle | XCircle

  const HealthyKey := "healthy"
  const IssuesKey := "issues detected"

  /** `switch (status.toLowerCase())`: the tone a health status is shown in. */
  function StatusTone(status: string): Tone
  {
    var key := ToLowerCase(status);
    if key == HealthyKey then Success
    else if key == IssuesKey then Warning
    else Destructive
  }

  /** The badge classes of a tone, `bg-<tone>/10 text-<tone>`. */
  function ToneClasses(t: Tone): string
  {
    match t
    case Success => "bg-success/10 text-success"
    case Warning => "bg-warning/10 text-warning"
    case Destructive => "bg-destructive/10 text-destructive"
  }

  /** `getHealthStatusColor(status)`. */
  function StatusColor(status: string): (r: string)
    ensures r == ToneClasses(StatusTone(status))
  {
    var key := ToLowerCase(status);
    if key == HealthyKey then "bg-success/10 text-success"
    else if key == IssuesKey then "bg-warning/10 text-warning"
    else "bg-destructive/10 text-destructive"
  }

  /** `getHealthStatusIcon(status)`: the icon, drawn in its tone's text colour. */
  function StatusIcon(status: string): (r: (Icon, Tone))
    ensures r.1 == StatusTone(status)
    ensures r.0 == CheckCircle <==> r.1 == Success
    ensures r.0 == AlertTriangle <==> r.1 == Warning
    ensures r.0 == XCircle <==> r.1 == Destructive
  {
    var key := ToLowerCase(status);
    if key == HealthyKey then (CheckCircle, Success)
    else if key == IssuesKey then (AlertTriangle, Warning)
    else (XCircle, Destructive)
  }

  /** `analysis.healthStatus || 'unknown'`, the status the badge colour is chosen for. */
  function BadgeStatus(healthStatus: Option<string>): string
  {
    if healthStatus.Some? && healthStatus.value != "" then healthStatus.value else "unknown"
  }

  /** The dot before each health issue: `p > 0.7` destructive, `p > 0.4` warning, otherwise success. */
  function IssueDotTone(probability: real): (r: Tone)
    ensures r == Destructive <==> probability > 0.7
    ensures r == Warning <==> 0.4 < probability <= 0.7
    ensures r == Success <==> probability <= 0.4
  {
    if probability > 0.7 then Destructive
    else if probability > 0.4 then Warning
    else Success
  }

  /**
   * The status mapping ignores case: "healthy" in any case is success,
   * "issues detected" in any case is warning, anything else is destructive;
   * names that lower alike get the same tone.
   */
  lemma StatusMapping(status: string, other: string)
    ensures StatusTone(status) == Success <==> ToLowerCase(status) == HealthyKey
    ensures StatusTone(status) == Warning <==> ToLowerCase(status) == IssuesKey
    ensures StatusTone(status) == Destructive <==> ToLowerCase(status) != HealthyKey && ToLowerCase(status) != IssuesKey
    ensures ToLowerCase(status) == ToLowerCase(other) ==> StatusTone(status) == StatusTone(other)
  {
    assert |HealthyKey| != |IssuesKey|;
  }

  /** The three tone classes differ, so the badge colour determines the tone. */
  lemma ToneClassesDistinct(t1: Tone, t2: Tone)
    ensures ToneClasses(t1) == ToneClasses(t2) <==> t1 == t2
  {
    assert ToneClasses(Success)[3] == 's' && ToneClasses(Warning)[3] == 'w' && ToneClasses(Destructive)[3] == 'd';
  }

  /** The statuses the server stores map to the tones meant for them; a missing status shows as destructive. */
  lemma ServerStatusTones()
    ensures StatusTone("Healthy") == Success
    ensures StatusTone("Issues Detected") == Warning
    ensures StatusTone("Unknown") == Destructive
    ensures StatusTone(BadgeStatus(None)) == Destructive
    ensures StatusTone(BadgeStatus(Some(""))) == Destructive
  {
    assert ToLowerCase("Healthy")[..] == HealthyKey;
    assert ToLowerCase("Issues Detected") == IssuesKey;
    assert |ToLowerCase("Unknown")| == 7;
    assert ToLowerCase("unknown")[0] == 'u';
    assert ToLowerCase("Unknown")[0] == 'u';
  }

  /** The bounds themselves fall into the lower bucket. */
  lemma IssueDotBuckets()
    ensures IssueDotTone(0.7) == Warning && IssueDotTone(0.4) == Success
    ensures IssueDotTone(0.71) == Destructive && IssueDotTone(0.41) == Warning && IssueDotTone(0.0) == Success
  {
  }

  /** Raising the probability never lowers the urgency of the dot. */
  lemma IssueDotMonotone(p: real, q: real)
    requires p <= q
    ensures IssueDotTone(p) == Destructive ==> IssueDotTone(q) == Destructive
    ensures IssueDotTone(p) == Warning ==> IssueDotTone(q) != Success
  {
  }

  /** `analysis.commonName || 'your plant'`, the name the advice speaks of. */
  function AdvicePlantName(commonName: Option<string>): (r: string)
    ensures r != ""
    ensures commonName.Some? && commonName.value != "" ==> r == commonName.value
    ensures !(commonName.Some? && commonName.value != "") ==> r == "your plant"
  {
    if commonName.Some? && commonName.value != "" then commonName.value else "your plant"
  }

  /** `weatherData.main?.humidity || 50`: a missing or zero humidity reads as 50. */
  function EffectiveHumidity(w: WeatherData): (r: int)
    ensures r != 0
    ensures w.main.Some? && w.main.value.humidity.Some? && w.main.value.humidity.value != 0
            ==> r == w.main.value.humidity.value
    ensures w.main.None? || w.main.value.humidity.None? || w.main.value.humidity == Some(0) ==> r == 50
  {
    if w.main.Some? && w.main.value.humidity.Some? && w.main.value.humidity.value != 0
    then w.main.value.humidity.value else 50
  }

  /** A message template filled in: `${head}${humidity}%${mid}${plantName}${tail}`. */
  function Fill(head: string, humidity: int, mid: string, plantName: string, tail: string): string
  {
    head + NumberToString(humidity) + "%" + mid + plantName + tail
  }

  function HighHumidityAdvice(humidity: int, plantName: string): string
  {
    Fill("High humidity (", humidity, ") is great for tropical plants like ", plantName, ". Ensure good air circulation.")
  }

  function LowHumidityAdvice(humidity: int, plantName: string): string
  {
    Fill("Low humidity (", humidity, ") detected. Consider misting ", plantName, " or using a humidifier.")
  }

  function IdealHumidityAdvice(humidity: int, plantName: string): string
  {
    Fill("Current humidity (", humidity, ") is ideal for ", plantName, ". Maintain regular watering schedule.")
  }

  /** A filled-in template starts with its head and contains the humidity with its percent sign and the plant name. */
  lemma FillContents(head: string, humidity: int, mid: string, plantName: string, tail: string)
    ensures |head| > 0 ==> Fill(head, humidity, mid, plantName, tail)[0] == head[0]
    ensures Includes(Fill(head, humidity, mid, plantName, tail), NumberToString(humidity) + "%")
    ensures Includes(Fill(head, humidity, mid, plantName, tail), plantName)
  {
    var n := NumberToString(humidity);
    var s := Fill(head, humidity, mid, plantName, tail);
    assert s == head + (n + "%") + (mid + plantName + tail);
    IncludesMiddle(head, n + "%", mid + plantName + tail);
    assert s == (head + n + "%" + mid) + plantName + tail;
    IncludesMiddle(head + n + "%" + mid, plantName, tail);
  }

  /**
   * `generateWeatherAdvice(weatherData, plantName)`; the temperature it reads
   * is never used. Every message names the humidity it was chosen for, in
   * decimal with its percent sign, and the plant.
   */
  function GenerateWeatherAdvice(weatherData: WeatherData, plantName: string): (r: string)
    ensures Includes(r, NumberToString(EffectiveHumidity(weatherData)) + "%")
    ensures Includes(r, plantName)
  {
    var humidity := EffectiveHumidity(weatherData);
    if humidity > 70 then
      FillContents("High humidity (", humidity, ") is great for tropical plants like ", plantName, ". Ensure good air circulation.");
      HighHumidityAdvice(humidity, plantName)
    else if humidity < 40 then
      FillContents("Low humidity (", humidity, ") detected. Consider misting ", plantName, " or using a humidifier.");
      LowHumidityAdvice(humidity, plantName)
    else
      FillContents("Current humidity (", humidity, ") is ideal for ", plantName, ". Maintain regular watering schedule.");
      IdealHumidityAdvice(humidity, plantName)
  }

  /**
   * The advice by humidity band: above 70 the high-humidity message, below 40
   * the low-humidity one, otherwise the ideal one; the three kinds of message
   * are told apart by their first letter.
   */
  lemma WeatherAdviceBands(w: WeatherData, plantName: string)
    ensures var h := EffectiveHumidity(w);
      && (GenerateWeatherAdvice(w, plantName) == HighHumidityAdvice(h, plantName) <==> h > 70)
      && (GenerateWeatherAdvice(w, plantName) == LowHumidityAdvice(h, plantName) <==> h < 40)
      && (GenerateWeatherAdvice(w, plantName) == IdealHumidityAdvice(h, plantName) <==> 40 <= h <= 70)
  {
    var h := EffectiveHumidity(w);
    FillContents("High humidity (", h, ") is great for tropical plants like ", plantName, ". Ensure good air circulation.");
    FillContents("Low humidity (", h, ") detected. Consider misting ", plantName, " or using a humidifier.");
    FillContents("Current humidity (", h, ") is ideal for ", plantName, ". Maintain regular watering schedule.");
  }

  /** A missing or zero humidity is read as 50 and so always gives the ideal message. */
  lemma MissingHumidityIsIdeal(w: WeatherData, plantName: string)
    requires w.main.None? || w.main.value.humidity.None? || w.main.value.humidity == Some(0)
    ensures GenerateWeatherAdvice(w, plantName) == IdealHumidityAdvice(50, plantName)
  {
  }

  /** Only the humidity reading matters: the temperature and the conditions never change the advice. */
  lemma AdviceIgnoresTemperature(w1: WeatherData, w2: WeatherData, plantName: string)
    requires (if w1.main.Some? then w1.main.value.humidity else None) == (if w2.main.Some? then w2.main.value.humidity else None)
    ensures GenerateWeatherAdvice(w1, plantName) == GenerateWeatherAdvice(w2, plantName)
  {
  }

  /** The number in the message reads back as the effective humidity. */
  lemma AdviceHumidityReadsBack(w: WeatherData)
    ensures ParseNumber(NumberToString(EffectiveHumidity(w))) == EffectiveHumidity(w)
    ensures EffectiveHumidity(w) != 0
  {
    NumberToStringRoundTrip(EffectiveHumidity(w));
  }
}
