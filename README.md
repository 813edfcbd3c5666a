# plantcareAI core in Dafny

plantcareAI is a plant-care web app. A user uploads a photo. The server sends
it to the Plant.id identification service and, when a location is given,
fetches the current OpenWeather conditions. It then builds a treatment plan
from the identified species and the diseases Plant.id reports, assembles a
plant-analysis record and keeps it in an in-memory store. The React client
shows the record (health badge, issue dots, weather advice), lists past
records with a search filter, and checks uploads before sending them.

This project models that logic and proves what it promises:

- `Recommendations`: the treatment-plan synthesis of `server/routes.ts`. It is
  an imperative method (the lists are reassigned by the species template and
  then pushed onto disease by disease) proved equal to the specification
  function `Synthesize`. The lemmas state the template rules and the
  append-only augmentation.
- `Routes`: the analyze handler's record assembly with its `||` and `?.`
  fallbacks, the handler itself as a method on the store, and the clear-all
  deletion loop.
- `Storage`: `MemStorage` as a Dafny class. Its two JavaScript `Map`s are
  Dafny maps, each with a sequence of its keys in insertion order, because
  `find` and the stable sort observe that order.
- `Schema`: the `users` and `plant_analyses` rows and their insert shapes.
  A nullable column is an `Option`. An optional insert property is
  `Missing | Null | Given`, so `?? null` is a real normalisation.
- `PlantId` and `WeatherApi`: the JSON the server reads; every field reached
  through `?.` is optional. `WeatherApi` also holds the care-advice rule table.
- `PlantAnalysisView`, `PlantHistoryView`, `ImageUpload` and `ImageProcessing`:
  the client's status mappings, issue-dot bucket, humidity advice, history
  filter, upload gate, resize and thumbnail arithmetic.
- `JsString`: the JavaScript string operations this code relies on.
  `toLowerCase` is an ASCII fold and `includes` is a substring predicate.
  The decimal text of an integer has a parse round trip.

JavaScript truthiness is spelled out: an empty name counts as missing, a
missing or zero probability becomes 0, a missing or zero humidity becomes 50.

Three behaviours of the code that are easy to miss:

- A suggestion without a name gets no template, so the three lists start
  empty (`server/routes.ts:213`).
- The generic template has four organic steps (`server/routes.ts:240-245`).
- `MemStorage` does not keep usernames unique (`server/storage.ts:33-38`).
  Only the database schema declares `unique()`.

## Model

| member | source | states |
|---|---|---|
| Recommendations.Synthesize | server/routes.ts:197-273 | The plan's descriptions and timelines are the fixed literals, and each list starts with its species template's seed |
| Recommendations.GenerateTreatmentRecommendations | server/routes.ts:197-273 | The imperative build (template assignment, then pushes per disease in order) yields exactly `Synthesize`: each list is its seed followed by every disease's additions in disease order; descriptions and timelines are always the fixed literals |
| Recommendations.Slice | server/routes.ts:266 | `slice(0, n)` is a prefix of the list: the whole list when it has at most n entries, and exactly n entries otherwise |
| Recommendations.AddDiseaseTreatments | server/routes.ts:256-269 | The `forEach` over the suggestions leaves each list as it was followed by every disease's contribution to it, in disease order |
| Recommendations.ExtendStep | server/routes.ts:256-268 | After a seed, one more disease's contribution lands after everything added before it |
| Recommendations.AdditionsStep | server/routes.ts:256-268 | Handling one more disease appends that disease's contribution after everything added before |
| Recommendations.AdditionsAppend | server/routes.ts:255-269 | Augmentation is additive over the disease list: the additions of two lists in a row are the first list's followed by the second's |
| Recommendations.ImmediateGrowsByAtMostTwo | server/routes.ts:265-266 | Each disease adds at most two immediate steps |
| Recommendations.AdditionsComeFromDiseases | server/routes.ts:257-267 | Nothing is invented: every added step is among some disease's own entries for that list |
| Recommendations.UntreatedDiseaseAddsNothing | server/routes.ts:257 | A disease without `details.treatment`, wherever it stands, leaves the whole plan unchanged |
| Recommendations.TwoDiseasesInOrder | server/routes.ts:255-269 | With two diseases each list is the seed, then the first disease's entries, then the second's |
| Recommendations.SeedIsPrefix | server/routes.ts:212-269 | The seeded template is a prefix of each final list and the rest is exactly what the diseases add |
| Recommendations.TemplateExclusive | server/routes.ts:213-251 | No template iff the name is missing or empty; Monstera iff the lowered name contains "monstera"; generic otherwise; sizes 4/3/2 and 4/4/3; the two templates share no step |
| Recommendations.NoNameNoTemplate | server/routes.ts:213 | Without a name the three lists hold only the diseases' additions |
| Recommendations.MonsteraMatchIgnoresCase | server/routes.ts:214-216 | Names equal up to case select the same template |
| Recommendations.IsMonsteraSamples | server/routes.ts:214-216 | "Monstera Deliciosa", "monstera deliciosa" and "MONSTERA" select the Monstera template |
| Recommendations.MonsteraLeafSpotScenario | server/routes.ts:213-268 | A Monstera with one treated disease gets the Monstera template plus that disease's biological and chemical entries and only its first two prevention tips |
| Routes.TopSuggestion | server/routes.ts:123 | There is a top suggestion iff the result, its classification and its suggestion list are present and the list is not empty; it is then the list's first entry |
| Routes.CommonName | server/routes.ts:129 | The species name when present and not empty, otherwise "Unknown Plant"; never empty |
| Routes.ScientificName | server/routes.ts:130 | A non-empty naming authority wins; without one the species name; "" iff there is neither |
| Routes.Confidence | server/routes.ts:131 | The reported probability, or 0 when none is reported; not negative when the probability is not |
| Routes.HealthStatus | server/routes.ts:132-133 | One of "Healthy", "Issues Detected", "Unknown"; "Healthy" when the flag is true; otherwise "Issues Detected" iff diseases are listed |
| Routes.HealthIssues | server/routes.ts:134 | The stored issues are exactly the disease list the plan is synthesised from |
| Routes.ImageUrl | server/routes.ts:128 | The URL is "data:", then the uploaded file's MIME type, then ";base64,", then the encoded image, and nothing else |
| Routes.AssembleAnalysis | server/routes.ts:127-138 | Each field holds the value of its own rule: the image URL, the common and scientific name fallbacks, the confidence, the health status, the health issues and the synthesised plan; weather is null iff none was fetched; there is no owner |
| Routes.HealthStatusCases | server/routes.ts:132-134 | "Healthy" iff `is_healthy.binary` is true; "Issues Detected" iff not healthy and diseases are listed; "Unknown" otherwise; never anything else |
| Routes.NameFallbacks | server/routes.ts:129-130 | Without a naming authority the scientific name repeats the common name whenever there is a species name; an empty scientific name goes with "Unknown Plant"; with an authority the two agree iff the authority equals the name |
| Routes.AssembledRecordConsistent | server/routes.ts:127-138 | The stored health issues are exactly the diseases the plan was synthesised from; a real common name implies a template; the image URL is a `data:` URL embedding MIME type and image; weather is null iff none was fetched; no owner |
| Routes.AnalyzePlant | server/routes.ts:122-141 | The handler stores the assembled record under the fresh id with the current time, adds only that entry, last in insertion order, and leaves the users alone |
| Routes.ClearAllPlantAnalyses | server/routes.ts:181-191 | Deleting every listed id leaves no plant analysis in the store and the users untouched |
| Storage.RemoveKey | server/storage.ts:70 | After `Map.delete` the key order holds every other key and only those, as a subsequence of the old order, and stays duplicate-free |
| Storage.ValuesInOrderMembers | server/storage.ts:45 | With every key in the order, the values in key order are exactly the map's values |
| Storage.ValuesInOrder | server/storage.ts:45 | `Array.from(map.values())` has one entry per key, the value of that key, in key order |
| Storage.DateKey | server/storage.ts:46 | The sort key is the analysis date, and a null date reads as time 0 |
| Storage.InsertByDate | server/storage.ts:45-47 | Inserting into a most-recent-first list keeps it ordered and adds exactly the one record |
| Storage.SortByDateDesc | server/storage.ts:45-47 | The sort yields a permutation of its input ordered by analysis date, most recent first |
| Storage.MemStorage.constructor | server/storage.ts:18-21 | A new store holds no users and no analyses |
| Storage.MemStorage.GetUser | server/storage.ts:23-25 | Returns the user stored under the id, or undefined exactly when there is none |
| Storage.MemStorage.GetUserByUsername | server/storage.ts:27-31 | Undefined iff no user has the name; otherwise a stored user with that name with no earlier user of that name in insertion order |
| Storage.MemStorage.CreateUser | server/storage.ts:33-38 | The user is `{...insertUser, id}` under a fresh id; exactly one user is added, last in insertion order; analyses are unchanged |
| Storage.MemStorage.GetPlantAnalysis | server/storage.ts:40-42 | Returns the analysis stored under the id, or undefined exactly when there is none; changes nothing |
| Storage.MemStorage.GetAllPlantAnalyses | server/storage.ts:44-48 | Exactly the stored analyses (as a multiset, so each once), ordered by analysis date non-increasing |
| Storage.MemStorage.CreatePlantAnalysis | server/storage.ts:50-67 | The record is the `?? null`-normalised insert object with the fresh id and the creation time; exactly one entry is added; users are unchanged |
| Storage.MemStorage.DeletePlantAnalysis | server/storage.ts:69-71 | Returns true iff the id was present; only that entry goes; an absent id leaves the store unchanged; users are unchanged |
| Schema.OrNull | server/storage.ts:55-63 | `x ?? null` is the value when one is given and null when it is missing or null |
| Schema.FromInsert | server/storage.ts:52-64 | A stored row carries the generated id, the creation time and the given image URL |
| Schema.FromInsertFields | server/storage.ts:53-63 | Each nullable content field is stored exactly as given, or as null when it was missing or null |
| Schema.InsertShapeRoundTrip | shared/schema.ts:31-34 | The insert shape is the row without `id` and `analysisDate`: removing and restoring them gives the row back; storing is insensitive to missing-versus-null |
| Schema.UserFromInsert | server/storage.ts:35 | The created user has the generated id |
| Schema.UserInsertRoundTrip | shared/schema.ts:26-29 | The user insert shape is exactly username and password: a user is its insert object plus its id |
| WeatherApi.GenerateCareAdvice | client/src/services/weatherApi.ts:71-97 | Throws iff `main` is missing or the `weather` list is empty; otherwise one of the six messages |
| WeatherApi.CareMessagesDistinct | client/src/services/weatherApi.ts:76-96 | The six advice messages are pairwise different |
| WeatherApi.CareAdviceRules | client/src/services/weatherApi.ts:71-97 | Each of the six messages iff its whole condition: rain first, then heat above 85, cold below 50, then humidity below 30 or above 80 only in the normal temperature range, else favourable; missing `main` or an empty `weather` list throws |
| WeatherApi.CareAdviceIsOneOfSix | client/src/services/weatherApi.ts:71-96 | With the fields present exactly one of the six messages comes back, whatever the plant type |
| WeatherApi.BoundaryTemperatures | client/src/services/weatherApi.ts:80-86 | Exactly 50 or 85 degrees triggers neither temperature rule |
| WeatherApi.LightRainSample | client/src/services/weatherApi.ts:74-78 | "Light Rain" counts as rain whatever the temperature and humidity |
| PlantAnalysisView.StatusColor | client/src/components/PlantAnalysis.tsx:33-42 | The badge colour is the class string of the status's tone |
| PlantAnalysisView.StatusIcon | client/src/components/PlantAnalysis.tsx:22-31 | The icon is drawn in the status's tone: check circle iff success, triangle iff warning, cross iff destructive |
| PlantAnalysisView.StatusMapping | client/src/components/PlantAnalysis.tsx:22-42 | "healthy" in any case is success, "issues detected" in any case is warning, anything else destructive; statuses that lower alike get the same tone |
| PlantAnalysisView.ToneClassesDistinct | client/src/components/PlantAnalysis.tsx:33-42 | The three badge class strings differ, so the colour determines the tone |
| PlantAnalysisView.ServerStatusTones | client/src/components/PlantAnalysis.tsx:22-42 | The server's "Healthy", "Issues Detected" and "Unknown" show as success, warning and destructive; a missing status (`|| 'unknown'`) shows as destructive |
| PlantAnalysisView.IssueDotTone | client/src/components/PlantAnalysis.tsx:115-117 | Destructive iff p > 0.7, warning iff 0.4 < p <= 0.7, success iff p <= 0.4 |
| PlantAnalysisView.IssueDotBuckets | client/src/components/PlantAnalysis.tsx:115-117 | The bounds 0.7 and 0.4 fall into the lower bucket; samples just above them fall into the upper one |
| PlantAnalysisView.IssueDotMonotone | client/src/components/PlantAnalysis.tsx:115-117 | A higher probability never gives a less urgent dot |
| PlantAnalysisView.EffectiveHumidity | client/src/components/PlantAnalysis.tsx:207 | The reading when present and non-zero, 50 otherwise; never 0 |
| PlantAnalysisView.GenerateWeatherAdvice | client/src/components/PlantAnalysis.tsx:205-216 | Every message contains the humidity it was chosen for, with its percent sign, and the plant name |
| PlantAnalysisView.AdvicePlantName | client/src/components/PlantAnalysis.tsx:187 | The advice names the common name when it is present and not empty, and "your plant" otherwise; never an empty name |
| PlantAnalysisView.FillContents | client/src/components/PlantAnalysis.tsx:210-214 | A filled-in advice message starts with its head and contains the humidity with its percent sign and the plant name |
| PlantAnalysisView.WeatherAdviceBands | client/src/components/PlantAnalysis.tsx:205-216 | High message iff humidity > 70, low message iff humidity < 40, ideal message iff 40..70 |
| PlantAnalysisView.MissingHumidityIsIdeal | client/src/components/PlantAnalysis.tsx:207 | A missing or zero humidity reads as 50 and gives the ideal message |
| PlantAnalysisView.AdviceIgnoresTemperature | client/src/components/PlantAnalysis.tsx:205-207 | Two snapshots with the same humidity reading give the same advice, whatever their temperatures |
| PlantAnalysisView.AdviceHumidityReadsBack | client/src/components/PlantAnalysis.tsx:207-214 | The humidity printed in the message parses back to the effective humidity, which is never 0 |
| PlantHistoryView.FilteredHistory | client/src/components/PlantHistory.tsx:62-65 | A record is kept iff it was fetched and its lowered common or scientific name contains the lowered term |
| PlantHistoryView.FilterKeepsCopies | client/src/components/PlantHistory.tsx:62-65 | A matching record is kept as many times as it was fetched, a non-matching one not at all |
| PlantHistoryView.FilteredIsSubsequence | client/src/components/PlantHistory.tsx:62-65 | The filtered history is an order-preserving subsequence of the fetched list |
| PlantHistoryView.FilterKeepsDateOrder | client/src/components/PlantHistory.tsx:62-65 | Filtering the most-recent-first list keeps it most recent first |
| PlantHistoryView.FilterIgnoresTermCase | client/src/components/PlantHistory.tsx:63-64 | Search terms equal up to case give the same result |
| PlantHistoryView.FilterTermLowered | client/src/components/PlantHistory.tsx:63-64 | Lowering the term first changes nothing |
| PlantHistoryView.EmptyTermKeepsNamed | client/src/components/PlantHistory.tsx:62-65 | With an empty term a record is kept iff at least one of its names is not null |
| PlantHistoryView.HistoryStatusColor | client/src/components/PlantHistory.tsx:51-60 | The history badge colours a present status exactly as the analysis view does, and an undefined one as destructive |
| PlantHistoryView.HistoryColorAgrees | client/src/components/PlantHistory.tsx:156 | With the `|| 'unknown'` fallback a record's status shows in its analysis-view tone; a missing or empty status is destructive |
| ImageUpload.ValidateFile | client/src/components/ImageUpload.tsx:19-32 | Null iff the type is allowed and the size is at most 5 MB |
| ImageUpload.ValidateFileRules | client/src/components/ImageUpload.tsx:19-32 | Type message iff the type is not one of jpeg/png/webp; size message iff allowed and larger than 5,242,880 bytes |
| ImageUpload.SizeBoundary | client/src/components/ImageUpload.tsx:21-29 | Exactly 5 MB is accepted, one byte more is refused |
| ImageUpload.HandleFileUpload | client/src/components/ImageUpload.tsx:34-43 | The upload starts, with that file, iff validation returns null; otherwise the validation message is shown |
| ImageProcessing.ResizeDimensions | client/src/utils/imageProcessing.ts:10-22 | The reassigned width and height are exactly the fitted size `FitInside`, and neither exceeds the image's own |
| ImageProcessing.FitInside | client/src/utils/imageProcessing.ts:13-20 | The fitted size is never negative and never wider or taller than the image |
| ImageProcessing.FitInsideKeepsRatio | client/src/utils/imageProcessing.ts:13-20 | The fitted size keeps the image's aspect ratio (width times original height equals height times original width) |
| ImageProcessing.FitInsideBranchBound | client/src/utils/imageProcessing.ts:13-20 | A landscape image ends within the width bound, any other within the height bound; the scaled side meets its bound exactly; an image within its branch's bound is unchanged |
| ImageProcessing.EqualBoundsFit | client/src/utils/imageProcessing.ts:2-22 | With equal bounds (the 1024/1024 defaults) both sides end up within the bound |
| ImageProcessing.UnequalBoundsCanExceed | client/src/utils/imageProcessing.ts:12-16 | With unequal bounds the other side is not checked: 800x700 under 1024x600 stays 700 high |
| ImageProcessing.ValidateImage | client/src/utils/imageProcessing.ts:41-69 | Valid iff the upload gate passes and the file decodes, and valid iff no error is reported |
| ImageProcessing.ValidateImageAgrees | client/src/utils/imageProcessing.ts:41-69 | Type, then size, then decodability: a file the gate refuses gets the gate's message; an accepted file that does not decode gets its own third message |
| ImageProcessing.ThumbnailCrop | client/src/utils/imageProcessing.ts:101-104 | The crop is a square of the shorter side, inside the image, with equal margins on each axis and none along the shorter side |
| JsString.LowerChar | server/routes.ts:214 | Only 'A'..'Z' change, each into the lower-case letter at the same place in the alphabet |
| JsString.ToLowerCase | server/routes.ts:214 | Lowering keeps the length and lowers every character on its own |
| JsString.LowerIdempotent | client/src/components/PlantHistory.tsx:63-64 | No upper-case ASCII letter is left after lowering; lowering twice is lowering once |
| JsString.NatToString | client/src/components/PlantAnalysis.tsx:210-214 | The decimal text of a natural number is canonical (digits, no leading zero), one digit long iff the number is below 10, and "0" iff the number is 0 |
| JsString.NumberToString | client/src/components/PlantAnalysis.tsx:210-214 | The text of an integer is not empty, starts with '-' iff the integer is negative, and its digits are canonical (no leading zero, never "-0") |
| JsString.NumberToStringRoundTrip | client/src/components/PlantAnalysis.tsx:210-214 | Parsing the decimal text of an integer gives the integer back |

## Left out

- HTTP routing, status codes and JSON responses of the Express handlers: plumbing. The handlers appear only as "assemble from the response, then call the store".
- The Plant.id and OpenWeather requests and the weather route: network I/O. Their JSON results are parameters of the modelled operations.
- Image resizing and JPEG encoding on the server, base64 encoding and the multer upload limits: foreign libraries. The encoded image is a string parameter.
- `randomUUID()` and `new Date()`: the fresh id is a parameter that must not be in the map, and the time is a `Timestamp` parameter.
- `async`/`Promise` and the exported store singleton: the store is a synchronous class.
- The React rendering, hooks, toasts, navigation, geolocation and progress simulation; canvas, `Image` loading and data URLs in the image utilities. Decoding success in `validateImage` is a boolean parameter.
- `Math.round` display and IEEE floating point: dimensions and probabilities are exact reals, with no claim of float parity. NaN and infinite readings are not modelled.
- Humidity is an integer percent. The message text is exact only for integer readings.
- `toLowerCase` folds ASCII letters only. Unicode case mapping is not modelled.
- Storage.SortByDateDesc: the sort is stable like `Array.prototype.sort`, but the contract does not state the order among records with equal dates; `Storage.InsertByDate` is silent on it too.
- Storage.MemStorage.GetAllPlantAnalyses: the model's sort is stable like `Array.prototype.sort`, but the contract does not state the order among records with equal dates.
- Storage.MemStorage.CreateUser: does not refuse a duplicate username, because `MemStorage` does not. Uniqueness is a database constraint that the in-memory store does not enforce.
- WeatherApi.GenerateCareAdvice: a missing `temp` or `humidity` inside `main` compares as false in JavaScript (`undefined > 85`). The model follows that and does not model the coercion further.
