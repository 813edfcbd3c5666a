/**
 * The logic of the server routes in server/routes.ts: how the analyze
 * handler turns a Plant.id response into a stored record, and the clear-all
 * handler's deletion loop. HTTP plumbing, the image pipeline and the two
 * outbound requests are not modelled; their results arrive as parameters.
 */
module Routes {
  import opened JsString
  import opened PlantId
  import opened Recommendations
  import opened WeatherApi
  import opened Schema
  import opened Storage

  const UnknownPlant := "Unknown Plant"
  const Healthy := "Healthy"
  const IssuesDetected := "Issues Detected"
  const UnknownStatus := "Unknown"

  /** `plantData.result?.classification?.suggestions?.[0]`. */
  function TopSuggestion(plantData: Response): (r: Option<SpeciesSuggestion>)
    ensures r.Some? <==> && plantData.result.Some? && plantData.result.value.classification.Some?
                         && plantData.result.value.classification.value.suggestions.Some?
                         && |plantData.result.value.classification.value.suggestions.value| > 0
    ensures r.Some? ==> r.value == plantData.result.value.classification.value.suggestions.value[0]
  {
    if plantData.result.None? then None
    else
      var c := plantData.result.value.classification;
      if c.None? || c.value.suggestions.None? || |c.value.suggestions.value| == 0 then None
      else Some(c.value.suggestions.value[0])
  }

  /** `plantData.result?.disease`. */
  function HealthAssessment(plantData: Response): Option<Disease>
  {
    if plantData.result.Some? then plantData.result.value.disease else None
  }

  /** Truthiness of `plantData.result?.is_healthy?.binary`. */
  predicate IsHealthy(plantData: Response)
  {
    && plantData.result.Some?
    && plantData.result.value.isHealthy.Some?
    && plantData.result.value.isHealthy.value.binary == Some(true)
  }

  /** `a || b` on two optional strings: the first one that is present and not empty. */
  function OrString(a: Option<string>, b: string): string
  {
    if a.Some? && a.value != "" then a.value else b
  }

  /**
   * `topSuggestion?.name || "Unknown Plant"`: the species name when it is
   * present and not empty, "Unknown Plant" otherwise, so never empty.
   */
  function CommonName(top: Option<SpeciesSuggestion>): (r: string)
    ensures r != ""
    ensures HasName(top) ==> r == top.value.name.value
    ensures !HasName(top) ==> r == UnknownPlant
  {
    OrString(if top.Some? then top.value.name else None, UnknownPlant)
  }

  /** A present, non-empty `details.name_authority` on the top suggestion. */
  predicate HasAuthority(top: Option<SpeciesSuggestion>)
  {
    top.Some? && top.value.details.Some? && top.value.details.value.nameAuthority.Some?
    && top.value.details.value.nameAuthority.value != ""
  }

  /**
   * `topSuggestion?.details?.name_authority || topSuggestion?.name || ""`:
   * the naming authority, else the species name, else the empty string.
   */
  function ScientificName(top: Option<SpeciesSuggestion>): (r: string)
    ensures HasAuthority(top) ==> r == top.value.details.value.nameAuthority.value
    ensures !HasAuthority(top) && HasName(top) ==> r == top.value.name.value
    ensures r == "" <==> !HasAuthority(top) && !HasName(top)
  {
    if top.None? then ""
    else
      var authority := if top.value.details.Some? then top.value.details.value.nameAuthority else None;
      OrString(authority, OrString(top.value.name, ""))
  }

  /** `topSuggestion?.probability || 0`: a missing (or zero) probability is 0. */
  function Confidence(top: Option<SpeciesSuggestion>): (r: real)
    ensures top.Some? && top.value.probability.Some? ==> r == top.value.probability.value
    ensures top.None? || top.value.probability.None? ==> r == 0.0
    ensures (top.None? || top.value.probability.None? || top.value.probability.value >= 0.0) ==> r >= 0.0
  {
    if top.Some? && top.value.probability.Some? && top.value.probability.value != 0.0
    then top.value.probability.value else 0.0
  }

  /** `isHealthy ? "Healthy" : (healthAssessment?.suggestions?.length > 0 ? "Issues Detected" : "Unknown")`. */
  function HealthStatus(plantData: Response): (r: string)
    ensures r in {Healthy, IssuesDetected, UnknownStatus}
    ensures IsHealthy(plantData) ==> r == Healthy
    ensures !IsHealthy(plantData) ==> (r == IssuesDetected <==> |Diseases(HealthAssessment(plantData))| > 0)
  {
    if IsHealthy(plantData) then Healthy
    else if |Diseases(HealthAssessment(plantData))| > 0 then IssuesDetected
    else UnknownStatus
  }

  /**
   * `healthAssessment?.suggestions || []`: an array, even an empty one, is
   * truthy, so the stored issues are exactly the diseases the plan is built from.
   */
  function HealthIssues(plantData: Response): (r: seq<DiseaseSuggestion>)
    ensures r == Diseases(HealthAssessment(plantData))
  {
    var h := HealthAssessment(plantData);
    if h.Some? && h.value.suggestions.Some? then h.value.suggestions.value else []
  }

  /**
   * The `data:` URL of the processed image: `data:${mimetype};base64,${base64Image}`.
   * `uploadedMimetype` is the type the client gave the upload (`req.file.mimetype`),
   * not that of the re-encoded bytes, which are always JPEG: a PNG upload is
   * stored labelled `image/png` around JPEG data.
   */
  function ImageUrl(uploadedMimetype: string, base64Image: string): (r: string)
    ensures |r| == 13 + |uploadedMimetype| + |base64Image|
    ensures r[..5] == "data:" && r[5..5 + |uploadedMimetype|] == uploadedMimetype
    ensures r[5 + |uploadedMimetype|..13 + |uploadedMimetype|] == ";base64,"
    ensures r[13 + |uploadedMimetype|..] == base64Image
  {
    "data:" + uploadedMimetype + ";base64," + base64Image
  }

  /**
   * `analysisData`, the insert object the analyze handler builds from the
   * identification response and the (possibly `null`) weather snapshot.
   */
  function AssembleAnalysis(uploadedMimetype: string, base64Image: string, plantData: Response, weatherData: Option<WeatherData>)
    : (r: InsertPlantAnalysis)
    ensures r.imageUrl == ImageUrl(uploadedMimetype, base64Image)
    ensures r.commonName == Given(CommonName(TopSuggestion(plantData))) && r.commonName.value != ""
    ensures r.scientificName == Given(ScientificName(TopSuggestion(plantData)))
    ensures r.confidence == Given(Confidence(TopSuggestion(plantData)))
    ensures r.healthStatus == Given(HealthStatus(plantData))
    ensures r.healthIssues == Given(HealthIssues(plantData))
    ensures r.treatmentRecommendations == Given(Synthesize(HealthAssessment(plantData), TopSuggestion(plantData)))
    ensures r.weatherData == Null <==> weatherData.None?
    ensures r.userId == Null
  {
    var top := TopSuggestion(plantData);
    InsertPlantAnalysis(
      ImageUrl(uploadedMimetype, base64Image),
      Given(CommonName(top)),
      Given(ScientificName(top)),
      Given(Confidence(top)),
      Given(HealthStatus(plantData)),
      Given(HealthIssues(plantData)),
      Given(Synthesize(HealthAssessment(plantData), top)),
      if weatherData.Some? then Given(weatherData.value) else Null,
      Null)
  }

  /**
   * The health status is one of three strings: "Healthy" exactly when the
   * flag is true, "Issues Detected" exactly when it is not and diseases are
   * listed, and "Unknown" otherwise.
   */
  lemma HealthStatusCases(plantData: Response)
    ensures HealthStatus(plantData) in {Healthy, IssuesDetected, UnknownStatus}
    ensures HealthStatus(plantData) == Healthy <==> IsHealthy(plantData)
    ensures HealthStatus(plantData) == IssuesDetected <==> !IsHealthy(plantData) && |HealthIssues(plantData)| > 0
    ensures HealthStatus(plantData) == UnknownStatus <==> !IsHealthy(plantData) && HealthIssues(plantData) == []
  {
    assert |Healthy| == 7 && |IssuesDetected| == 15 && |UnknownStatus| == 7;
    assert Healthy[0] != UnknownStatus[0];
  }

  /**
   * The two names agree with each other: without a naming authority the
   * scientific name repeats the common name whenever there is a species name,
   * and an empty scientific name goes with "Unknown Plant".
   */
  lemma NameFallbacks(top: Option<SpeciesSuggestion>)
    ensures !HasAuthority(top) && HasName(top) ==> ScientificName(top) == CommonName(top)
    ensures ScientificName(top) == "" ==> CommonName(top) == UnknownPlant
    ensures HasAuthority(top) && HasName(top) ==> (ScientificName(top) == CommonName(top) <==>
              top.value.details.value.nameAuthority.value == top.value.name.value)
  {
  }

  /**
   * The assembled record is self-consistent: the stored health issues are the
   * diseases the plan was synthesised from, the plan's seed comes from the
   * species the names come from, the image URL embeds the MIME type and the
   * encoded image, and the record has no owner.
   */
  lemma AssembledRecordConsistent(uploadedMimetype: string, base64Image: string, plantData: Response, weatherData: Option<WeatherData>)
    ensures var i := AssembleAnalysis(uploadedMimetype, base64Image, plantData, weatherData);
      && i.healthIssues == Given(Diseases(HealthAssessment(plantData)))
      && i.treatmentRecommendations == Given(Synthesize(Some(Disease(Some(i.healthIssues.value))), TopSuggestion(plantData)))
      && (i.commonName.value != UnknownPlant ==> SeedTemplate(TopSuggestion(plantData)) != NoTemplate)
      && i.imageUrl[..5] == "data:"
      && Includes(i.imageUrl, uploadedMimetype) && Includes(i.imageUrl, base64Image)
      && (weatherData.None? <==> i.weatherData == Null)
      && i.userId == Null
  {
    var url := ImageUrl(uploadedMimetype, base64Image);
    IncludesMiddle("data:", uploadedMimetype, ";base64," + base64Image);
    assert url == "data:" + uploadedMimetype + (";base64," + base64Image);
    IncludesMiddle("data:" + uploadedMimetype + ";base64,", base64Image, "");
    assert url == "data:" + uploadedMimetype + ";base64," + base64Image + "";
    var top := TopSuggestion(plantData);
    if CommonName(top) != UnknownPlant {
      assert HasName(top);
      TemplateExclusive(top);
    }
  }

  /**
   * The analyze handler after the image and weather requests: synthesise the
   * plan, assemble the record and store it under the fresh id `id` at time `now`.
   */
  method AnalyzePlant(store: MemStorage, uploadedMimetype: string, base64Image: string, plantData: Response,
                      weatherData: Option<WeatherData>, id: string, now: Timestamp)
    returns (savedAnalysis: PlantAnalysis)
    requires store.Valid()
    requires id !in store.plantAnalyses
    modifies store
    ensures store.Valid()
    ensures savedAnalysis == FromInsert(AssembleAnalysis(uploadedMimetype, base64Image, plantData, weatherData), id, now)
    ensures store.plantAnalyses == old(store.plantAnalyses)[id := savedAnalysis]
    ensures store.analysisOrder == old(store.analysisOrder) + [id]
    ensures store.users == old(store.users) && store.userOrder == old(store.userOrder)
  {
    var topSuggestion := TopSuggestion(plantData);
    var healthAssessment := HealthAssessment(plantData);
    var plan := GenerateTreatmentRecommendations(healthAssessment, topSuggestion);
    var analysisData := InsertPlantAnalysis(
      ImageUrl(uploadedMimetype, base64Image),
      Given(CommonName(topSuggestion)),
      Given(ScientificName(topSuggestion)),
      Given(Confidence(topSuggestion)),
      Given(HealthStatus(plantData)),
      Given(HealthIssues(plantData)),
      Given(plan),
      if weatherData.Some? then Given(weatherData.value) else Null,
      Null);
    savedAnalysis := store.CreatePlantAnalysis(analysisData, id, now);
  }

  /** Only an empty map has an empty key order. */
  lemma EmptyKeyOrder(order: seq<string>, keys: set<string>)
    requires IsKeyOrder(order, keys)
    ensures order == [] <==> keys == {}
  {
    if order != [] {
      assert order[0] in keys;
    }
  }

  /**
   * `DELETE /api/plant-analyses`: list every record, then delete each listed
   * id. Afterwards no plant analysis is left and the users are untouched.
   */
  method ClearAllPlantAnalyses(store: MemStorage)
    requires store.Valid()
    modifies store
    ensures store.Valid()
    ensures store.plantAnalyses == map[] && store.analysisOrder == []
    ensures store.users == old(store.users) && store.userOrder == old(store.userOrder)
  {
    var analyses := store.GetAllPlantAnalyses();
    forall k | k in store.plantAnalyses
      ensures exists j :: 0 <= j < |analyses| && analyses[j].id == k
    {
      var a := store.plantAnalyses[k];
      assert a in store.plantAnalyses.Values;
      var j :| 0 <= j < |analyses| && analyses[j] == a;
    }
    for i := 0 to |analyses|
      invariant store.Valid()
      invariant forall k :: k in store.plantAnalyses ==> exists j :: i <= j < |analyses| && analyses[j].id == k
      invariant store.users == old(store.users) && store.userOrder == old(store.userOrder)
    {
      var _ := store.DeletePlantAnalysis(analyses[i].id);
    }
    EmptyKeyOrder(store.analysisOrder, store.plantAnalyses.Keys);
  }
}
