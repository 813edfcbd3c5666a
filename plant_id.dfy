/**
 * The parts of a Plant.id v3 identification response that the server reads.
 * The server reaches every field with optional chaining, so every field that
 * may be absent from the JSON is an `Option` here.
 */
module PlantId {
  import opened JsString

  /** `disease.details.treatment`: three optional lists of advice. */
  datatype Treatment = Treatment(
    biological: Option<seq<string>>,
    chemical: Option<seq<string>>,
    prevention: Option<seq<string>>)

  datatype DiseaseDetails = DiseaseDetails(treatment: Option<Treatment>)

  /** One entry of `result.disease.suggestions`; stored verbatim as a health issue. */
  datatype DiseaseSuggestion = DiseaseSuggestion(
    name: string,
    probability: real,
    details: Option<DiseaseDetails>)

  /** `result.disease`, the health assessment. */
  datatype Disease = Disease(suggestions: Option<seq<DiseaseSuggestion>>)

  datatype SpeciesDetails = SpeciesDetails(nameAuthority: Option<string>)

  /** One entry of `result.classification.suggestions`. */
  datatype SpeciesSuggestion = SpeciesSuggestion(
    name: Option<string>,
    probability: Option<real>,
    details: Option<SpeciesDetails>)

  datatype Classification = Classification(suggestions: Option<seq<SpeciesSuggestion>>)

  datatype HealthFlag = HealthFlag(binary: Option<bool>)

  datatype IdentificationResult = IdentificationResult(
    classification: Option<Classification>,
    disease: Option<Disease>,
    isHealthy: Option<HealthFlag>)

  /** The whole response body. */
  datatype Response = Response(result: Option<IdentificationResult>)
}
