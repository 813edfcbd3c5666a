/**
 * The data contract of shared/schema.ts: the `users` and `plant_analyses`
 * rows and their insert shapes. A column without `notNull()` is nullable
 * (`Option`); an insert shape's nullable column is an optional property that
 * may be missing, `null`, or given.
 */
module Schema {
  import opened JsString
  import PlantId
  import Recommendations
  import WeatherApi

  /** `analysisDate`, as `Date.getTime()`: milliseconds since the epoch. */
  type Timestamp = int

  /** An optional, nullable property of a TypeScript insert object. */
  datatype Input<T> = Missing | Null | Given(value: T)

  /** A row of `users`: `id` is the primary key; `username` and `password` are required. */
  datatype User = User(id: string, username: string, password: string)

  /** `insertUserSchema`: exactly `username` and `password`. */
  datatype InsertUser = InsertUser(username: string, password: string)

  /**
   * A row of `plant_analyses`. Only `id` and `imageUrl` are required; the
   * three JSON columns hold the Plant.id disease suggestions, the synthesised
   * plan and the weather snapshot.
   */
  datatype PlantAnalysis = PlantAnalysis(
    id: string,
    imageUrl: string,
    commonName: Option<string>,
    scientificName: Option<string>,
    confidence: Option<real>,
    healthStatus: Option<string>,
    healthIssues: Option<seq<PlantId.DiseaseSuggestion>>,
    treatmentRecommendations: Option<Recommendations.TreatmentPlan>,
    weatherData: Option<WeatherApi.WeatherData>,
    analysisDate: Option<Timestamp>,
    userId: Option<string>)

  /** `insertPlantAnalysisSchema`: the row without `id` and `analysisDate`. */
  datatype InsertPlantAnalysis = InsertPlantAnalysis(
    imageUrl: string,
    commonName: Input<string>,
    scientificName: Input<string>,
    confidence: Input<real>,
    healthStatus: Input<string>,
    healthIssues: Input<seq<PlantId.DiseaseSuggestion>>,
    treatmentRecommendations: Input<Recommendations.TreatmentPlan>,
    weatherData: Input<WeatherApi.WeatherData>,
    userId: Input<string>)

  /** `x ?? null`: a missing property becomes `null`. */
  function OrNull<T>(x: Input<T>): (r: Option<T>)
    ensures r.Some? <==> x.Given?
    ensures r.Some? ==> r.value == x.value
  {
    match x
    case Given(v) => Some(v)
    case _ => None
  }

  /** A stored nullable column as an insert property: `null` stays `null`. */
  function AsInput<T>(x: Option<T>): Input<T>
  {
    match x
    case Some(v) => Given(v)
    case None => Null
  }

  /** The insert object with every missing property made `null`. */
  function Normalised(i: InsertPlantAnalysis): InsertPlantAnalysis
  {
    InsertPlantAnalysis(
      i.imageUrl, AsInput(OrNull(i.commonName)), AsInput(OrNull(i.scientificName)),
      AsInput(OrNull(i.confidence)), AsInput(OrNull(i.healthStatus)), AsInput(OrNull(i.healthIssues)),
      AsInput(OrNull(i.treatmentRecommendations)), AsInput(OrNull(i.weatherData)), AsInput(OrNull(i.userId)))
  }

  /**
   * The row that an insert object becomes, with the generated `id` and the
   * creation time filled in (the two columns the insert shape omits).
   */
  function FromInsert(i: InsertPlantAnalysis, id: string, now: Timestamp): (a: PlantAnalysis)
    ensures a.id == id && a.analysisDate == Some(now) && a.imageUrl == i.imageUrl
  {
    PlantAnalysis(
      id, i.imageUrl, OrNull(i.commonName), OrNull(i.scientificName), OrNull(i.confidence),
      OrNull(i.healthStatus), OrNull(i.healthIssues), OrNull(i.treatmentRecommendations),
      OrNull(i.weatherData), Some(now), OrNull(i.userId))
  }

  /** The insert shape of a row: the row with `id` and `analysisDate` removed. */
  function ToInsert(a: PlantAnalysis): InsertPlantAnalysis
  {
    InsertPlantAnalysis(
      a.imageUrl, AsInput(a.commonName), AsInput(a.scientificName), AsInput(a.confidence),
      AsInput(a.healthStatus), AsInput(a.healthIssues), AsInput(a.treatmentRecommendations),
      AsInput(a.weatherData), AsInput(a.userId))
  }

  /**
   * The insert shape is the row minus `id` and `analysisDate`: removing them
   * and putting them back gives the row, and a stored row read back as an
   * insert object is the normalised insert object.
   */
  lemma InsertShapeRoundTrip(a: PlantAnalysis, i: InsertPlantAnalysis, id: string, now: Timestamp)
    ensures a.analysisDate.Some? ==> FromInsert(ToInsert(a), a.id, a.analysisDate.value) == a
    ensures ToInsert(FromInsert(i, id, now)) == Normalised(i)
    ensures Normalised(Normalised(i)) == Normalised(i)
    ensures FromInsert(Normalised(i), id, now) == FromInsert(i, id, now)
  {
  }

  /** Every content field of a stored row is exactly the given value, or `null` when it was missing or `null`. */
  lemma FromInsertFields(i: InsertPlantAnalysis, id: string, now: Timestamp)
    ensures var a := FromInsert(i, id, now);
      && (i.commonName.Given? ==> a.commonName == Some(i.commonName.value))
      && (!i.commonName.Given? ==> a.commonName.None?)
      && (i.scientificName.Given? ==> a.scientificName == Some(i.scientificName.value))
      && (!i.scientificName.Given? ==> a.scientificName.None?)
      && (i.confidence.Given? ==> a.confidence == Some(i.confidence.value))
      && (!i.confidence.Given? ==> a.confidence.None?)
      && (i.healthStatus.Given? ==> a.healthStatus == Some(i.healthStatus.value))
      && (!i.healthStatus.Given? ==> a.healthStatus.None?)
      && (i.healthIssues.Given? ==> a.healthIssues == Some(i.healthIssues.value))
      && (!i.healthIssues.Given? ==> a.healthIssues.None?)
      && (i.treatmentRecommendations.Given? ==> a.treatmentRecommendations == Some(i.treatmentRecommendations.value))
      && (!i.treatmentRecommendations.Given? ==> a.treatmentRecommendations.None?)
      && (i.weatherData.Given? ==> a.weatherData == Some(i.weatherData.value))
      && (!i.weatherData.Given? ==> a.weatherData.None?)
      && (i.userId.Given? ==> a.userId == Some(i.userId.value))
      && (!i.userId.Given? ==> a.userId.None?)
  {
  }

  /** `{ ...insertUser, id }`. */
  function UserFromInsert(u: InsertUser, id: string): (r: User)
    ensures r.id == id
  {
    User(id, u.username, u.password)
  }

  /** The user insert shape is the row without its `id`. */
  lemma UserInsertRoundTrip(u: InsertUser, r: User)
    ensures var made := UserFromInsert(u, r.id); InsertUser(made.username, made.password) == u
    ensures UserFromInsert(InsertUser(r.username, r.password), r.id) == r
  {
  }
}
