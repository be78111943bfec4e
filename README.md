# Glowmance rules, modelled in Dafny

Glowmance is a skin-analysis application made of three parts:

- an Android client that keeps the user's session and last result, scores and summarises the analysis history, and runs the sign-in, sign-up and forgot-password forms;
- a Node back end that serves a product catalogue, maps classifier results to product categories, validates request bodies and keeps an in-memory error log;
- two small Python inference services that validate uploads and turn a classifier index into labels and flags.

This project models the rule-bearing core of those parts and proves the properties they promise. The network, the databases and the neural networks are not modelled. Their results are inputs to the model.

The model is organised as one module per source file:

| module | file | models |
|---|---|---|
| `Values` | values.dfy | an option type, JSON values as JavaScript sees them (`undefined` is a missing key), JavaScript truthiness and `\|\|` |
| `Text` | text.dfy | the string functions the core relies on: lower-casing, `includes`, `trim`, `split`, lengths in UTF-16 code units, `parseInt`, Kotlin `toIntOrNull`, `Array.prototype.slice(0, n)` including negative `n` |
| `ProductService` | product_service.dfy | the product service in mock-data mode |
| `ProductController` | product_controller.dfy | the product endpoints' argument parsing and guards |
| `AnalysisController` | analysis_controller.dfy | the history mapping, the label maps and the unified endpoint's product query |
| `ErrorTracking` | error_tracker.dfy | the error tracker, as a class over a sequence field |
| `AiService` | ai_service.dfy | the `/predict` endpoint of the AI service |
| `MlService` | ml_service.dfy | upload validation of the ML service |
| `Preferences` | user_preferences.dfy | the client's preference store, as a class over a map field |
| `History` | history.dfy | the history view model's score and summary, and the history screen's rules |
| `Auth` | auth_repository.dfy | the error-message classification and the blank-token check |
| `NetworkConfig` | network_config.dfy | the image-URL helper |
| `ViewModels` | view_models.dfy | the three form view models, as classes over a `UiState` field |
| `Validators` | validators.dfy | the Joi request schemas, as a small schema interpreter |

## Model

| member | source | states |
|---|---|---|
| ProductService.LoadProducts | backend/src/services/productService.js:15-25 | a readable data file gives its parsed catalogue; an unreadable or unparsable one gives empty skin-type and disease categories |
| ProductService.FindIndex | backend/src/services/productService.js:117-119 | `findIndex` by id returns -1 exactly when no product has the id, otherwise an index holding that id |
| ProductService.FindIndexFirst | backend/src/services/productService.js:117-119 | no product before the index `findIndex` returns carries the id, so it is the first index |
| ProductService.UniqueByIdProps | backend/src/services/productService.js:117-119 | keeping the first product of each id gives distinct ids and exactly the input's ids, using only input products and never more of them |
| ProductService.UniqueByIdSnoc | backend/src/services/productService.js:117-119 | appending a product to the input keeps it exactly when its id is new |
| ProductService.UniqueByIdKeepsOrder | backend/src/services/productService.js:117-119 | de-duplication keeps any pairwise ordering the input list had |
| ProductService.UniqueByIdAppend | backend/src/services/productService.js:114-119 | de-duplicating a concatenation gives the first list's survivors, then the second list's survivors whose ids the first list lacks |
| ProductService.MapFromEntriesProps | backend/src/services/productService.js:48-50 | the values of a `Map` keyed by id hold one product per input id, no other id, and for each id the last product carrying it |
| ProductService.MapFromEntriesLength | backend/src/services/productService.js:48-50 | the map never holds more products than the list it was built from |
| ProductService.Lookup | backend/src/services/productService.js:69-70 | `categories[key] \|\| []`: an absent key gives the empty list, a present one the product list of the first category with that key |
| ProductService.GetAllProducts | backend/src/services/productService.js:31-53 | the push loops over skin types and diseases and the map rebuild compute exactly the catalogue's de-duplicated list, cut to `limit` |
| ProductService.AllProductsProps | backend/src/services/productService.js:35-52 | `getAllProducts` returns at most `limit` products with pairwise-distinct ids and, given room, one product for every catalogue id |
| ProductService.BySkinTypeProps | backend/src/services/productService.js:60-71 | the skin-type look-up ignores case, returns a prefix of its category of length min(limit, size), and nothing for an unknown type |
| ProductService.ByDiseaseProps | backend/src/services/productService.js:78-89 | the disease look-up ignores case, returns a prefix of its category of length min(limit, size), and nothing for an unknown disease |
| ProductService.ByTypeAndDiseaseProps | backend/src/services/productService.js:97-122 | disease products come first, then skin-type products with new ids; each id once; at most `limit` products |
| ProductService.FilterMatching | backend/src/services/productService.js:141-146 | the filter keeps exactly the products whose name, brand or description contains the keyword, ignoring case |
| ProductService.SearchProps | backend/src/services/productService.js:129-154 | every search result matches the keyword and comes from the catalogue; ids are distinct; at most `limit`; given room, every matching id is found |
| ProductService.TrendingIsAllProducts | backend/src/services/productService.js:350-357 | for a non-negative limit the trending list equals `getAllProducts(limit)` |
| ProductService.TrendingDistinct | backend/src/services/productService.js:350-357 | the trending list has distinct ids and at most `limit` products |
| ProductService.CandidatesFor | backend/src/services/productService.js:224-250 | a condition that is neither a known skin type nor a known disease contributes no products |
| ProductService.PushUnseen | backend/src/services/productService.js:231-236 | one `forEach` pushes each product whose id is not yet seen, and the seen set stays the set of pushed ids |
| ProductService.GetRecommendations | backend/src/services/productService.js:214-258 | the loop with its seen set computes the recommendation function: trending for no conditions or no match, otherwise the collected list cut to `limit` |
| ProductService.AddUnseenCandidates | backend/src/services/productService.js:224-250 | one condition's step adds its skin-type list and then its disease list |
| ProductService.CollectIsUniqueCandidates | backend/src/services/productService.js:220-250 | the seen-set loop equals keeping the first product of each id across the conditions' lists, in condition order |
| ProductService.RecommendationsProps | backend/src/services/productService.js:214-257 | empty conditions give `getTrendingProducts(limit)`; no match gives trending; otherwise the de-duplicated candidates cut to `limit`; ids distinct; at most `limit` |
| ProductService.RecommendationsIgnoreUnrecognised | backend/src/services/productService.js:224-250 | dropping the unrecognised conditions does not change the recommendations |
| ProductService.OnlyRecognised | backend/src/services/productService.js:224-250 | the filtered condition list holds only recognised conditions |
| ProductService.ProblemPoints | backend/src/services/productService.js:298-302 | the problem bonus is between 0 and 40 points per user problem |
| ProductService.PositiveOnly | backend/src/services/productService.js:329-330 | the filter keeps exactly the positively scored products: each kept product scores above zero and comes from the input, and every positively scored input product is kept |
| ProductService.SortByScore | backend/src/services/productService.js:331-332 | sorting by score is a permutation of its input |
| ProductService.SortByScoreSorted | backend/src/services/productService.js:331-332 | the sorted list is in non-increasing score order |
| ProductService.RankedProps | backend/src/services/productService.js:274-336 | the ranked list holds only positively scored catalogue products, highest score first, each id once, and every positively scored catalogue product has its id in it |
| ProductService.AdvancedRecommendationsProps | backend/src/services/productService.js:265-344 | advanced recommendations fall back to trending exactly when no catalogue product scores above zero; otherwise, for a non-negative limit, they are the first `limit` entries of the ranking |
| ProductController.ListReply | backend/src/controllers/productController.js:45-49 | every list reply's count equals the length of the data it carries |
| ProductController.GetAllProducts | backend/src/controllers/productController.js:4-11 | the reply carries the service's `getAllProducts()` list for its default limit of 50, with its count: at most 50 products, each id once |
| ProductController.ConditionsShape | backend/src/controllers/productController.js:41 | an absent or empty `conditions` gives no conditions; otherwise one trimmed condition per comma plus one, none containing a comma |
| ProductController.SplitCount | backend/src/controllers/productController.js:41 | splitting on a separator yields one more piece than there are separators |
| ProductController.GetRecommendations | backend/src/controllers/productController.js:38-53 | the reply carries the service's recommendations for the parsed conditions with limit 10, and counts them: at most 10, distinct ids; without `conditions` they are the first 10 catalogue products |
| ProductController.TrendingLimit | backend/src/controllers/productController.js:61 | `parseInt(limit) \|\| 10`: an absent, non-numeric or zero limit becomes 10; any other parsed value is kept |
| ProductController.TrendingLimitDecimal | backend/src/controllers/productController.js:61 | a decimal limit (after white space and a sign, before any non-digit) is used as its value, and a zero value becomes 10 |
| ProductController.TrendingLimitNaN | backend/src/controllers/productController.js:61 | a limit with no digit after the white space and the sign becomes 10 |
| ProductController.GetTrendingProducts | backend/src/controllers/productController.js:59-72 | the reply carries the service's trending list for the limit `parseInt(limit) \|\| 10`, and counts it: distinct ids, and for a positive limit the first `limit` catalogue products; without a limit the first 10 |
| ProductController.SearchProducts | backend/src/controllers/productController.js:78-99 | an absent or empty `q` is answered 400 "Search query is required"; otherwise the search results for `q` with their count |
| ProductController.SearchGuardIgnoresCatalogue | backend/src/controllers/productController.js:82-87 | without a query the 400 reply does not depend on the catalogue, so no service call is involved |
| ProductController.ProductByIdNeverAnswers | backend/src/controllers/productController.js:22-32 | as written, the look-up throws, so every request is passed on as an error and neither the 404 nor the 200 branch is reached |
| ProductController.GetProductByIdAsWritten | backend/src/controllers/productController.js:22-32 | as written, every request is passed on to the error handler, never answered 404 or 200 |
| ProductController.FindById | backend/src/controllers/productController.js:24 | a product found by id is in the catalogue and carries the id; none is found only when no product has it |
| ProductController.GetProductById | backend/src/controllers/productController.js:22-32 | with a working look-up, an unknown id is answered 404 "Product not found" and a known one 200 with that product |
| AnalysisController.FormatHistory | backend/src/controllers/analysisController.js:17-40 | every history row is mapped, in the order the database gives them |
| AnalysisController.EitherProps | backend/src/controllers/analysisController.js:27-34 | `camel \|\| snake \|\| fallback` takes the camelCase value when truthy, else the snake_case one when truthy, else the fallback |
| AnalysisController.HistoryEntryDefaults | backend/src/controllers/analysisController.js:22-36 | each `has*` flag is truthy exactly when its camelCase or snake_case key is, else `false`; levels default to null, products to `[]`, image URL and update time to null |
| AnalysisController.TypeCategory | backend/src/controllers/analysisController.js:73-83 | the skin-type category is always one of oily, dry, combination and normal |
| AnalysisController.TypeCategoryProps | backend/src/controllers/analysisController.js:73-83 | Sensitive, missing and unknown skin types map to `normal`; Oily, Dry and Combination map to their categories |
| AnalysisController.DiseaseCategory | backend/src/controllers/analysisController.js:131-143 | the disease category is always one of acne, rosacea, eczema and healthy |
| AnalysisController.DiseaseCategoryProps | backend/src/controllers/analysisController.js:131-143 | Psoriasis maps to eczema; a missing or unknown disease (Melasma, Vitiligo and General among them) maps to healthy |
| AnalysisController.FullQuery | backend/src/controllers/analysisController.js:275-280 | the unified endpoint's query is always one of acne, eczema, rosacea, oily, dry and normal |
| AnalysisController.FullQueryPriority | backend/src/controllers/analysisController.js:275-280 | each query holds exactly when its branch is the first to fire: acne on a truthy hasAcne; eczema on hasEczema without acne; rosacea on hasRosacea or a disease text containing "rozase" in any case; none when the disease label is truthy but not a text and no flag is set; then oily, dry, and normal for every other skin type |
| AnalysisController.FullMockQuery | backend/src/controllers/analysisController.js:257-263 | when the inference service fails, the mock result asks for `normal` products |
| AnalysisController.AnalyzeSkinType | backend/src/controllers/analysisController.js:46-113 | no file gives 400; otherwise the result is the inference result or the Combination mock, with up to 3 products of its mapped skin-type category, the id and time the database gave, and the stored record holding both; a failed save passes the error on |
| AnalysisController.AnalyzeDisease | backend/src/controllers/analysisController.js:116-210 | no file gives 400; otherwise always 200 with the inference result or the Acne mock and up to 3 products of its mapped disease category |
| AnalysisController.AnalyzeFull | backend/src/controllers/analysisController.js:239-328 | no file gives 400; a falsy user id or a failed save passes the error on; otherwise the inference result or the Healthy/Normal mock, the product list for its query, and the saved id, with the stored record holding both |
| AnalysisController.FullProducts | backend/src/controllers/analysisController.js:270-297 | a query that threw leaves no products; otherwise at most 10 |
| AnalysisController.MockFallbacks | backend/src/controllers/analysisController.js:62-186 | when the inference service fails, the skin-type endpoint recommends `combination` products and the disease endpoint answers the Acne mock with `acne` products |
| AnalysisController.SaveOutcomes | backend/src/controllers/analysisController.js:90-323 | a successful save answers with the id the database gave; a failed save, or a falsy user id on the unified endpoint, passes the error on |
| AnalysisController.FullProductsProps | backend/src/controllers/analysisController.js:282-294 | no products found gives up to 6 `skin` products; fewer than 3 gets 3 `skin` extras appended; otherwise the found list; never more than 10 |
| AnalysisController.MissingFileFirst | backend/src/controllers/analysisController.js:49-51 | without a file every analysis endpoint answers 400, whatever the inference service, the database or the user would have done |
| ErrorTracking.ContextOf | backend/src/utils/errorTracker.js:19-24 | a missing route, method or user id defaults to 'unknown', 'unknown' and 'anonymous'; every key the caller gave is kept as given; no other key is added |
| ErrorTracking.InfoType | backend/src/utils/errorTracker.js:14-18 | the recorded type is the error's name when truthy, else 'Error', and the timestamp is the one given |
| ErrorTracking.PushedProps | backend/src/utils/errorTracker.js:28-31 | the new error goes to index 0; below the cap nothing is lost; at the cap the oldest is dropped; the log never exceeds 100 |
| ErrorTracking.TrackedIsMostRecent | backend/src/utils/errorTracker.js:28 | right after tracking, the most recent error is the one just tracked |
| ErrorTracking.ErrorTracker.constructor | backend/src/utils/errorTracker.js:5-8 | the log starts empty |
| ErrorTracking.ErrorTracker.TrackError | backend/src/utils/errorTracker.js:13-44 | the returned record is built from the error and context; the log becomes the record pushed onto the old log; the cap invariant is kept |
| ErrorTracking.ErrorTracker.GetRecentErrors | backend/src/utils/errorTracker.js:49-51 | the result is the first min(limit, length) errors, with a default limit of 10 |
| ErrorTracking.ErrorTracker.GetErrorStats | backend/src/utils/errorTracker.js:56-81 | the counting loop computes the statistics function of the log |
| ErrorTracking.ErrorTracker.ClearErrors | backend/src/utils/errorTracker.js:86-89 | the log is left empty |
| ErrorTracking.Stats | backend/src/utils/errorTracker.js:56-73 | the total equals the log's length; the by-type and by-route counts each sum to the total; each key appears once |
| ErrorTracking.StatsCounts | backend/src/utils/errorTracker.js:66-73 | each by-type or by-route entry counts exactly the logged errors with that type or route, and a key is present exactly when some error has it |
| ErrorTracking.TallyTotal | backend/src/utils/errorTracker.js:66-73 | a count table has each key once, and its counts sum to the number of keys tallied |
| ErrorTracking.TallyCounts | backend/src/utils/errorTracker.js:66-73 | each entry of a count table counts exactly the occurrences of its key |
| ErrorTracking.IndexOfKey | backend/src/utils/errorTracker.js:68 | the entry index of a key is -1 exactly when the table lacks the key |
| AiService.DiseaseLabel | ai/main.py:18-25 | indices 0-5 give Akne, Egzama, Normal, Rozase, Leke and Siğil; any other index gives "Bilinmiyor" |
| AiService.TypeLabel | ai/main.py:27-32 | indices 0-3 give Kuru, Yağlı, Normal and Karma; any other index gives "Normal" |
| AiService.AddDiseaseSection | ai/main.py:109-131 | the disease block appends exactly the disease section's keys to `data` |
| AiService.AddTypeSection | ai/main.py:133-147 | the type block appends exactly the type section's keys to `data` |
| AiService.Predict | ai/main.py:96-153 | `predict` fills `data` section by section, giving the specified response |
| AiService.DiseaseFlags | ai/main.py:118-126 | hasAcne exactly for Akne (level Orta, else Yok); hasEczema exactly for Egzama (level Hafif, else Yok); hasRosacea exactly for Rozase; at most one flag is set |
| AiService.MissingOrFailedModel | ai/main.py:127-131 | an absent model leaves only its warning and no prediction keys; a model that raised leaves only its error text |
| AiService.SectionsIsolated | ai/main.py:109-147 | whatever one model does, the other model's keys in the response are those of its own section |
| AiService.UndecodableFails | ai/main.py:99-102 | an image that cannot be decoded fails the whole request, whatever the models |
| MlService.AnalyzeSkinType | backend/ml_service/main.py:58-121 | the skin-type endpoint answers only 400 or 500 as errors |
| MlService.SkinTypeContentType | backend/ml_service/main.py:65-70 | a content type outside jpeg, jpg, png and webp is rejected with 400 and the allow-list message, and only such a type is |
| MlService.SkinTypeSizeLimit | backend/ml_service/main.py:75-81 | more than 5 * 1024 * 1024 bytes is rejected with 400; exactly the limit is accepted |
| MlService.SkinTypeUndecodable | backend/ml_service/main.py:84-94 | an accepted, small enough file that does not decode is rejected with 400 and the decoder's message |
| MlService.SkinTypeNoMasking | backend/ml_service/main.py:114-121 | validation errors keep their 400: the only 500 comes from a failed read |
| MlService.DiseaseTypeErrorBecomes500 | backend/ml_service/main.py:131-136 | as written, a text upload to the disease endpoint is answered 500, because the generic handler catches the 400 |
| MlService.AnalyzeDiseaseAsWritten | backend/ml_service/main.py:124-165 | as written, every error of the disease endpoint is a 500, and an analysis is answered exactly for an allowed, readable upload |
| MlService.AnalyzeDisease | backend/ml_service/main.py:124-165 | the corrected disease endpoint answers only 400 or 500 as errors |
| MlService.DiseaseContentType | backend/ml_service/main.py:131-136 | the corrected endpoint rejects a bad content type with 400 exactly as the skin-type endpoint does, and otherwise behaves as written |
| MlService.DiseaseIgnoresSize | backend/ml_service/main.py:138 | the disease endpoint enforces no size limit and does not decode the image |
| Preferences.GetBoolean | frontend/app/src/main/java/com/example/glowmance/data/UserPreferences.kt:20 | an absent key reads as the default; a stored flag reads as stored |
| Preferences.GetString | frontend/app/src/main/java/com/example/glowmance/data/UserPreferences.kt:83 | a string is read exactly when one is stored under the key, and it is the stored one |
| Preferences.ResultRoundTrip | frontend/app/src/main/java/com/example/glowmance/data/UserPreferences.kt:35-68 | saving a result and reading it back gives the same seven values; the other keys are unchanged |
| Preferences.ResultFrame | frontend/app/src/main/java/com/example/glowmance/data/UserPreferences.kt:44-52 | saving a result touches only its seven keys |
| Preferences.ResultReadsBack | frontend/app/src/main/java/com/example/glowmance/data/UserPreferences.kt:44-52 | each of the seven keys holds the saved value |
| Preferences.EmptyStoreDefaults | frontend/app/src/main/java/com/example/glowmance/data/UserPreferences.kt:19-21 | with nothing saved the first analysis is not completed, the result is the defaults (flags false, levels "Yok", normal true) and every string is absent |
| Preferences.StringRoundTrip | frontend/app/src/main/java/com/example/glowmance/data/UserPreferences.kt:73-158 | a saved token or user field reads back; every other key reads as before |
| Preferences.CompletedRoundTrip | frontend/app/src/main/java/com/example/glowmance/data/UserPreferences.kt:19-30 | the first-analysis flag reads back as set and leaves the saved result alone |
| Preferences.WithoutProps | frontend/app/src/main/java/com/example/glowmance/data/UserPreferences.kt:105-110 | removing keys deletes exactly those keys |
| Preferences.ClearTokensOnly | frontend/app/src/main/java/com/example/glowmance/data/UserPreferences.kt:105-110 | clearing tokens removes both tokens and nothing else |
| Preferences.ClearUserDataKeepsAnalysis | frontend/app/src/main/java/com/example/glowmance/data/UserPreferences.kt:163-171 | clearing user data removes name, email, id and both tokens; the analysis result and the first-analysis flag remain |
| Preferences.UserPreferences.constructor | frontend/app/src/main/java/com/example/glowmance/data/UserPreferences.kt:10-17 | the store opens with its persisted contents |
| Preferences.UserPreferences.HasCompletedFirstAnalysis | frontend/app/src/main/java/com/example/glowmance/data/UserPreferences.kt:19-21 | the flag is true exactly when true is stored under its key |
| Preferences.UserPreferences.SetCompletedFirstAnalysis | frontend/app/src/main/java/com/example/glowmance/data/UserPreferences.kt:26-30 | the store gains the flag under its key and nothing else changes |
| Preferences.UserPreferences.SaveLastSkinConditionResult | frontend/app/src/main/java/com/example/glowmance/data/UserPreferences.kt:35-53 | the store becomes the old store with the seven values written |
| Preferences.UserPreferences.GetLastSkinConditionResult | frontend/app/src/main/java/com/example/glowmance/data/UserPreferences.kt:58-68 | a missing flag reads as false, a missing level as "Yok", and a missing normal flag as true |
| Preferences.UserPreferences.SaveAccessToken | frontend/app/src/main/java/com/example/glowmance/data/UserPreferences.kt:73-77 | the access token is written and nothing else changes |
| Preferences.UserPreferences.GetAccessToken | frontend/app/src/main/java/com/example/glowmance/data/UserPreferences.kt:82-84 | the stored access token, or null when there is none |
| Preferences.UserPreferences.SaveRefreshToken | frontend/app/src/main/java/com/example/glowmance/data/UserPreferences.kt:89-93 | the refresh token is written and nothing else changes |
| Preferences.UserPreferences.GetRefreshToken | frontend/app/src/main/java/com/example/glowmance/data/UserPreferences.kt:98-100 | the stored refresh token, or null when there is none |
| Preferences.UserPreferences.ClearTokens | frontend/app/src/main/java/com/example/glowmance/data/UserPreferences.kt:105-110 | the store loses exactly the two token keys |
| Preferences.UserPreferences.SaveUserName | frontend/app/src/main/java/com/example/glowmance/data/UserPreferences.kt:115-119 | the name is written and nothing else changes |
| Preferences.UserPreferences.GetUserName | frontend/app/src/main/java/com/example/glowmance/data/UserPreferences.kt:124-126 | the stored name, or null when there is none |
| Preferences.UserPreferences.SaveUserEmail | frontend/app/src/main/java/com/example/glowmance/data/UserPreferences.kt:131-135 | the email is written and nothing else changes |
| Preferences.UserPreferences.GetUserEmail | frontend/app/src/main/java/com/example/glowmance/data/UserPreferences.kt:140-142 | the stored email, or null when there is none |
| Preferences.UserPreferences.SaveUserId | frontend/app/src/main/java/com/example/glowmance/data/UserPreferences.kt:147-151 | the user id is written and nothing else changes |
| Preferences.UserPreferences.GetUserId | frontend/app/src/main/java/com/example/glowmance/data/UserPreferences.kt:156-158 | the stored user id, or null when there is none |
| Preferences.UserPreferences.ClearUserData | frontend/app/src/main/java/com/example/glowmance/data/UserPreferences.kt:163-171 | the store loses exactly the name, email, id and both token keys |
| History.SeverityPenalty | frontend/app/src/main/java/com/example/glowmance/ui/viewmodel/HistoryViewModel.kt:71-78 | the penalty is 0, 5, 10 or 20, and 0 for a null level |
| History.PenaltyIgnoresCase | frontend/app/src/main/java/com/example/glowmance/ui/viewmodel/HistoryViewModel.kt:72 | the level is matched without regard to case |
| History.PenaltyTable | frontend/app/src/main/java/com/example/glowmance/ui/viewmodel/HistoryViewModel.kt:72-77 | the penalty is 5 exactly for "düşük" and "low", 10 exactly for "orta", "moderate" and "medium", 20 exactly for "yüksek" and "high", in any casing, and 0 exactly for every other level |
| History.PenaltyTableCapitals | frontend/app/src/main/java/com/example/glowmance/ui/viewmodel/HistoryViewModel.kt:72-77 | the names in capitals and mixed case, the Turkish ones included, get their penalties, and "Hafif" gets 0 |
| History.TotalPenalty | frontend/app/src/main/java/com/example/glowmance/ui/viewmodel/HistoryViewModel.kt:63-65 | the summed penalty of the flagged conditions lies in [0, 60] |
| History.CoerceIn | frontend/app/src/main/java/com/example/glowmance/ui/viewmodel/HistoryViewModel.kt:68 | the clamp lands in [lo, hi] and leaves a value already inside unchanged |
| History.CalculateScore | frontend/app/src/main/java/com/example/glowmance/ui/viewmodel/HistoryViewModel.kt:60-69 | the step-by-step decrements compute the score rule, and the result lies in [0, 100] |
| History.ScoreProps | frontend/app/src/main/java/com/example/glowmance/ui/viewmodel/HistoryViewModel.kt:60-69 | the score lies in [40, 100]; with no penalty it is 100 for normal skin and 85 otherwise; with a penalty it is 100 minus the penalty |
| History.Issues | frontend/app/src/main/java/com/example/glowmance/ui/viewmodel/HistoryViewModel.kt:95-98 | each of Akne, Egzama and Rozase is listed exactly when its flag is set |
| History.GenerateSummary | frontend/app/src/main/java/com/example/glowmance/ui/viewmodel/HistoryViewModel.kt:94-105 | the list-building loop computes the summary function |
| History.SummaryProps | frontend/app/src/main/java/com/example/glowmance/ui/viewmodel/HistoryViewModel.kt:95-104 | the summary is "Normal cilt durumu" exactly when no flag is set; otherwise it is the flagged conditions, in the order Akne, Egzama, Rozase, joined by ", " and followed by " tespit edildi" |
| History.SummaryExample | frontend/app/src/main/java/com/example/glowmance/ui/viewmodel/HistoryViewModel.kt:95-104 | acne and rosacea give "Akne, Rozase tespit edildi" |
| History.ScreenScoreCases | frontend/app/src/main/java/com/example/glowmance/ui/screens/HistoryScreen.kt:126-132 | normal scores 95; otherwise no flags 90, eczema with acne 70, any other flag 80; null flags count as false; the 75 arm is unreachable |
| History.ParseId | frontend/app/src/main/java/com/example/glowmance/ui/screens/HistoryScreen.kt:135 | an id without digits becomes 0, and every id becomes a 32-bit value |
| History.ParseIdValue | frontend/app/src/main/java/com/example/glowmance/ui/screens/HistoryScreen.kt:135 | an optional sign and decimal digits give their value when it fits in 32 bits and 0 when it does not; any other id gives 0 |
| History.ParseIdExamples | frontend/app/src/main/java/com/example/glowmance/ui/screens/HistoryScreen.kt:135 | "42" becomes 42, "-7" becomes -7, and "4a" and "" become 0 |
| History.ConvertAll | frontend/app/src/main/java/com/example/glowmance/ui/screens/HistoryScreen.kt:118-146 | every history item is converted, in order |
| History.ConditionSummaryPriority | frontend/app/src/main/java/com/example/glowmance/ui/screens/HistoryScreen.kt:483-490 | the summary priority is normal > eczema with acne > eczema > acne > rosacea > default |
| History.BadgeFor | frontend/app/src/main/java/com/example/glowmance/ui/screens/HistoryScreen.kt:581-585 | the badge is green exactly from 90, orange exactly for 80 to 89, and red exactly below 80 |
| History.BadgeOfEntry | frontend/app/src/main/java/com/example/glowmance/ui/screens/HistoryScreen.kt:126-132 | normal and unflagged entries get a green badge, eczema with acne a red one, and any other flag an orange one |
| Auth.StatusMessage | frontend/app/src/main/java/com/example/glowmance/data/repository/AuthRepository.kt:31-43 | a fixed message exists exactly for status 401, 404, 409 and 500 |
| Auth.Classify | frontend/app/src/main/java/com/example/glowmance/data/repository/AuthRepository.kt:56-101 | the answer is one of the fixed messages or the message itself, and never the register-failure line unless the message is that line |
| Auth.ParseErrorMessage | frontend/app/src/main/java/com/example/glowmance/data/repository/AuthRepository.kt:28-116 | a blank body with no status message gets the generic line; the text read from an object body ("message", else "error", else the body) is classified; a body that is not an object, or whose chosen member cannot be read, gets the status message or else the raw body |
| Auth.ParseErrorFallbacks | frontend/app/src/main/java/com/example/glowmance/data/repository/AuthRepository.kt:28-116 | a blank body gets the status message, the generic one for other codes; an unparsable body gets the status message, or the raw body when there is none |
| Auth.ExtractOrder | frontend/app/src/main/java/com/example/glowmance/data/repository/AuthRepository.kt:47-51 | the message comes from "message", else "error", else the raw body |
| Auth.ClassifyIsFirstMatch | frontend/app/src/main/java/com/example/glowmance/data/repository/AuthRepository.kt:56-101 | the `when` chain is the rule table read top-down, with case-insensitive substring tests, first match winning |
| Auth.FirstFiringRuleWins | frontend/app/src/main/java/com/example/glowmance/data/repository/AuthRepository.kt:56-101 | a firing rule decides the message unless an earlier rule fired |
| Auth.UnmatchedUnchanged | frontend/app/src/main/java/com/example/glowmance/data/repository/AuthRepository.kt:100 | when no rule fires the message is returned unchanged |
| Auth.NotFoundNeeds404 | frontend/app/src/main/java/com/example/glowmance/data/repository/AuthRepository.kt:82-88 | the "not found" rule applies only when the status is 404 |
| Auth.SecondUserNotFoundUnreachable | frontend/app/src/main/java/com/example/glowmance/data/repository/AuthRepository.kt:78-96 | a message containing "user not found" is answered by one of the first eight rules, so the register-failure branch never answers |
| Auth.Authenticate | frontend/app/src/main/java/com/example/glowmance/data/repository/AuthRepository.kt:118-188 | a success is a successful answer whose access token is not blank |
| Auth.AuthenticateCases | frontend/app/src/main/java/com/example/glowmance/data/repository/AuthRepository.kt:125-141 | a blank access token becomes the "Token alınamadı" failure; a non-blank one succeeds; an unsuccessful answer gets the parsed error message |
| NetworkConfig.RemoveSuffix | frontend/app/src/main/java/com/example/glowmance/data/api/NetworkConfig.kt:18 | a text ending with the suffix loses exactly that suffix once; any other text is returned unchanged |
| NetworkConfig.RemoveSuffixAppended | frontend/app/src/main/java/com/example/glowmance/data/api/NetworkConfig.kt:18 | removing a suffix just appended gives the text back |
| NetworkConfig.FullImageUrl | frontend/app/src/main/java/com/example/glowmance/data/api/NetworkConfig.kt:14-21 | the result is empty exactly for a null or empty input |
| NetworkConfig.FullImageUrlPassThrough | frontend/app/src/main/java/com/example/glowmance/data/api/NetworkConfig.kt:15-16 | null or empty gives ""; input starting with "http" is returned unchanged |
| NetworkConfig.FullImageUrlJoin | frontend/app/src/main/java/com/example/glowmance/data/api/NetworkConfig.kt:18-20 | a relative path starting with "/" is appended to IMAGE_BASE_URL as it is; any other relative path gets one "/" in front; the base URL has no trailing "/" |
| NetworkConfig.FullImageUrlIdempotent | frontend/app/src/main/java/com/example/glowmance/data/api/NetworkConfig.kt:16-20 | completing a completed URL changes nothing |
| ViewModels.Started | frontend/app/src/main/java/com/example/glowmance/ui/viewmodel/SignUpViewModel.kt:50-53 | a request starts with loading on and no error message |
| ViewModels.Finished | frontend/app/src/main/java/com/example/glowmance/ui/viewmodel/SignUpViewModel.kt:57-71 | the answer ends loading; success is set exactly for a successful call; a failure shows its message or the fallback |
| ViewModels.SignUpError | frontend/app/src/main/java/com/example/glowmance/ui/viewmodel/SignUpViewModel.kt:26-47 | the form passes exactly when the fields are not blank, the passwords match and the password is at least 6 UTF-16 code units long |
| ViewModels.SignUpCheckOrder | frontend/app/src/main/java/com/example/glowmance/ui/viewmodel/SignUpViewModel.kt:26-47 | the checks are made in order: username blank, email blank, password blank, passwords differ, length below 6 |
| ViewModels.SignUpEmojiPassword | frontend/app/src/main/java/com/example/glowmance/ui/viewmodel/SignUpViewModel.kt:43 | a password of three emoji is six code units long and passes the length check |
| ViewModels.SignInError | frontend/app/src/main/java/com/example/glowmance/ui/viewmodel/SignInViewModel.kt:25-30 | a blank email or password gives "Email and password are required", and only that |
| ViewModels.ResetPasswordError | frontend/app/src/main/java/com/example/glowmance/ui/viewmodel/ForgotPasswordViewModel.kt:25-28 | a blank email gives "Email is required", and only that |
| ViewModels.Rejected | frontend/app/src/main/java/com/example/glowmance/ui/viewmodel/SignUpViewModel.kt:27-46 | a failed check replaces the error message and nothing else |
| ViewModels.ClearErrorIdempotent | frontend/app/src/main/java/com/example/glowmance/ui/viewmodel/SignUpViewModel.kt:75-77 | clearing the error twice is clearing it once, and keeps the flags |
| ViewModels.FailureReplacesStaleError | frontend/app/src/main/java/com/example/glowmance/ui/viewmodel/SignUpViewModel.kt:49-71 | after a rejected attempt, a failure without a message shows the fallback and a success shows no error |
| ViewModels.SignUpViewModel.constructor | frontend/app/src/main/java/com/example/glowmance/ui/viewmodel/SignUpViewModel.kt:21 | the state starts at its defaults |
| ViewModels.SignUpViewModel.SignUp | frontend/app/src/main/java/com/example/glowmance/ui/viewmodel/SignUpViewModel.kt:24-53 | a failed check changes only the error message and launches no call; otherwise the request starts |
| ViewModels.SignUpViewModel.Complete | frontend/app/src/main/java/com/example/glowmance/ui/viewmodel/SignUpViewModel.kt:57-71 | onSuccess is called exactly on success; the state finishes with "Registration failed" as the fallback |
| ViewModels.SignUpViewModel.ClearError | frontend/app/src/main/java/com/example/glowmance/ui/viewmodel/SignUpViewModel.kt:75-77 | only the error message is cleared |
| ViewModels.SignInViewModel.constructor | frontend/app/src/main/java/com/example/glowmance/ui/viewmodel/SignInViewModel.kt:21 | the state starts at its defaults |
| ViewModels.SignInViewModel.SignIn | frontend/app/src/main/java/com/example/glowmance/ui/viewmodel/SignInViewModel.kt:24-36 | a blank email or password sets the error and launches no call; otherwise the request starts |
| ViewModels.SignInViewModel.Complete | frontend/app/src/main/java/com/example/glowmance/ui/viewmodel/SignInViewModel.kt:40-54 | onSuccess is called exactly on success; the state finishes with "Login failed" as the fallback |
| ViewModels.SignInViewModel.ClearError | frontend/app/src/main/java/com/example/glowmance/ui/viewmodel/SignInViewModel.kt:58-60 | only the error message is cleared |
| ViewModels.ForgotPasswordViewModel.constructor | frontend/app/src/main/java/com/example/glowmance/ui/viewmodel/ForgotPasswordViewModel.kt:21 | the state starts at its defaults |
| ViewModels.ForgotPasswordViewModel.ResetPassword | frontend/app/src/main/java/com/example/glowmance/ui/viewmodel/ForgotPasswordViewModel.kt:24-35 | a blank email sets the error and launches no call; otherwise the request starts |
| ViewModels.ForgotPasswordViewModel.Complete | frontend/app/src/main/java/com/example/glowmance/ui/viewmodel/ForgotPasswordViewModel.kt:38-53 | onSuccess is called exactly on success; the state finishes with "Failed to send reset email" as the fallback |
| ViewModels.ForgotPasswordViewModel.ClearError | frontend/app/src/main/java/com/example/glowmance/ui/viewmodel/ForgotPasswordViewModel.kt:56-58 | only the error message is cleared |
| ViewModels.ForgotPasswordViewModel.ResetState | frontend/app/src/main/java/com/example/glowmance/ui/viewmodel/ForgotPasswordViewModel.kt:60-62 | every field returns to its default |
| Validators.CheckValue | backend/src/validators/productValidator.js:7-10 | `allow(null)` and `allow('')` let those values pass whatever the other rules; a `valid(...)` list accepts exactly its members and refuses every other value as not one of them, whatever its type; a text of the right format passes exactly when its length in UTF-16 code units is within the bounds |
| Validators.FieldOutcome | backend/src/validators/productValidator.js:3-12 | a refusal names the key; an accepted key keeps its given value, or takes its default when absent |
| Validators.ValidateFieldsAccepted | backend/src/validators/productValidator.js:3-12 | an object's keys pass exactly when each one does |
| Validators.ValidateFieldsOutput | backend/src/validators/productValidator.js:3-12 | the validated object keeps each given value unchanged and adds the defaults of absent keys |
| Validators.ValidateFieldsFirstIssue | backend/src/validators/productValidator.js:3-12 | the reported refusal is the one at the first key that fails |
| Validators.ProductRequiredFields | backend/src/validators/productValidator.js:4-6 | title is a required text of 3..100 UTF-16 code units, brand one of 2..50, and price a required number of at least 0 |
| Validators.ProductOptionalFields | backend/src/validators/productValidator.js:7-11 | ingredients, image_url, description (at most 1000 code units) and category (at most 50) may be absent, empty or null; stock is a whole number of at least 0 |
| Validators.CreateProductAccepts | backend/src/validators/productValidator.js:3-12 | the create schema accepts an object exactly when it is a valid product body |
| Validators.CreateProductStockDefault | backend/src/validators/productValidator.js:11 | an accepted product always carries a whole, non-negative stock, 0 when none was given |
| Validators.CreateProductTitleFirst | backend/src/validators/productValidator.js:4 | a body without a title is refused for the title before any other key |
| Validators.UpdateProfileAccepts | backend/src/validators/userValidator.js:3-6 | a profile update has an optional name of 2..50 UTF-16 code units and an optional email |
| Validators.UpdateSkinProfileAccepts | backend/src/validators/userValidator.js:8-12 | skin type and goal may be null or empty texts; age is a whole number in 1..120 or null |
| Validators.UpdateSettingsAccepts | backend/src/validators/userValidator.js:14-17 | a settings update holds only the two switches, each a boolean |
| Validators.ChangePasswordAccepts | backend/src/validators/userValidator.js:19-22 | the current password is required; the new one is required with at least 6 UTF-16 code units |
| Validators.ValidateAnalysis | backend/src/validators/analysisValidator.js:3-12 | a refusal is located under image_url or result_json |
| Validators.ResultFields | backend/src/validators/analysisValidator.js:6-10 | skin_type is required and one of Oily, Dry, Combination, Normal and Sensitive; confidence is required in [0, 1]; disease and severity may be null or empty; details is an object |
| Validators.ResultAccepts | backend/src/validators/analysisValidator.js:5-11 | the nested result is accepted exactly when it is a valid result |
| Validators.AnalysisAccepts | backend/src/validators/analysisValidator.js:3-12 | an analysis is accepted exactly when it has a URI image and a valid result |
| Validators.UnknownSkinTypeRefused | backend/src/validators/analysisValidator.js:6 | any skin type outside the five, of whatever JSON type, is refused under result_json.skin_type as not one of the allowed values |
| Validators.EmojiTitleLongEnough | backend/src/validators/productValidator.js:4 | a two-emoji title is four code units long and meets `min(3)` |
| Text.ToLower | backend/src/services/productService.js:61 | lower-casing keeps the length and maps each character on its own |
| Text.ToLowerIdempotent | backend/src/services/productService.js:61 | lower-casing twice is lower-casing once |
| Text.ContainsWitness | backend/src/services/productService.js:141-146 | a string containing a substring has it at some position |
| Text.Trim | backend/src/controllers/productController.js:41 | a trimmed string neither starts nor ends with whitespace |
| Text.JoinSplit | backend/src/controllers/productController.js:41 | splitting on a character and joining back with it restores the string |
| Text.Split | backend/src/controllers/productController.js:41 | splitting gives at least one piece, none containing the separator |
| Text.Utf16Length | backend/src/validators/productValidator.js:4 | the length Joi and Kotlin count lies between the number of characters and twice that |
| Text.Utf16LengthAppend | backend/src/validators/productValidator.js:4 | lengths in code units add up over concatenation |
| Text.Utf16LengthBmp | backend/src/validators/productValidator.js:4 | a text without characters beyond the Basic Multilingual Plane has one code unit per character |
| Text.ParseInt | backend/src/controllers/productController.js:61 | `parseInt` gives a number only when the text has a digit |
| Text.ParseIntDecimal | backend/src/controllers/productController.js:61 | white space, an optional sign, decimal digits and then a non-digit are read as the signed value of the digits |
| Text.ParseIntHex | backend/src/controllers/productController.js:61 | white space, an optional sign, `0x` or `0X`, hex digits and then a non-hex-digit are read as the signed value of the hex digits |
| Text.ParseIntNaN | backend/src/controllers/productController.js:61 | the result is NaN exactly when no digit follows the white space and the sign, or a `0x` prefix has no hex digit after it |
| Text.ToIntOrNull | frontend/app/src/main/java/com/example/glowmance/ui/screens/HistoryScreen.kt:135 | a parsed value lies in the 32-bit range and needs at least one digit |
| Text.ToIntOrNullValue | frontend/app/src/main/java/com/example/glowmance/ui/screens/HistoryScreen.kt:135 | an optional sign and decimal digits are read as their value when it fits in 32 bits, and as null otherwise |
| Text.ToIntOrNullShape | frontend/app/src/main/java/com/example/glowmance/ui/screens/HistoryScreen.kt:135 | only a text made of an optional sign and decimal digits is read as a number |
| Text.SliceTo | backend/src/services/productService.js:52 | `slice(0, n)` is a prefix: min(n, size) items for n >= 0, and size + n items (at least 0) for a negative n |

## Left out

- Network calls, databases, file reads and the neural networks: their outcomes are parameters of the model (`MlCall`, `SaveCall`, `CallOutcome`, `CallResult`, `ModelSlot`, `ImageRead`, `Upload`, the parsed catalogue).
- `fetchFromExternalAPI` in the product service, and the external-API mode in general: only the mock-data mode is modelled.
- `createProduct` in the product service and in the product controller: it builds ids and timestamps from the clock.
- `updateProductSchema`: the module does not export it, so nothing can use it.
- `getHistory`'s database call and `req.user` handling: the rows are an input.
- `last24Hours` in the error statistics, and the timestamp of a tracked error: they depend on the clock, and the timestamp is a parameter. The logger and metrics calls are left out too.
- `fetchHistory` and `formatDate` in the history view model: they are network and locale/clock code.
- HistoryScreen's date parsing and its other UI: they are layout.
- Torch model loading, preprocessing, softmax and argmax in the AI service: the argmax index is an input.
- `AnalysisViewModel` mapping: it calls a `saveLastSkinConditionResult` signature that `UserPreferences` does not have.
- `str(e)` of the service exceptions: an exception's text is an input string, and `str(HTTPException)` is modelled only as its status and detail.
- `refreshToken`, `forgotPassword`, `resetPassword` and `logout` in the authentication repository: they are plain pass-throughs of network calls.
- Numbers are exact: floating-point rounding in JSON numbers, `price` precision and `confidence` bounds are modelled over reals; `parseInt`'s loss of precision above 2^53 is not modelled.
- Text.ToLower: only ASCII, the Latin-1 capitals and the Turkish Ğ and Ş are mapped; other Unicode case mappings (the dotted İ among them) are not.
- Object prototype keys (`constructor`, `toString`) are not looked up in the label maps and count tables: every key is an own key.
- ErrorTracking.GetErrorStats: the tables are keyed by JSON values; JavaScript's conversion of a key to a string (so that, for example, `1` and `"1"` share an entry) is not modelled.
- ErrorTracking.ContextOf: a context key present with the value `undefined` is treated as absent.
- Preferences: a value stored under a key with a different type than the getter expects is read as the default instead of throwing `ClassCastException`.
- Validators: Joi's convert mode (turning "12" into 12 or "true" into true) is not modelled; values must already have their type. `uri()` is reduced to a scheme check and `email()` to its shape. When several unknown keys are present, which one Joi reports first is not modelled.
- Array-valued query parameters (`?q=a&q=b`) are not modelled; a query parameter is an optional string.
- Text.ToIntOrNull: only the ASCII digits 0-9 are read; Kotlin's `toIntOrNull` also accepts the decimal digits of other scripts (Arabic-Indic digits, for example), which the model reads as null.
- The product data file is assumed well-formed, in three ways. First, each category key appears once: with a repeated key JavaScript keeps the last list, while `Lookup` takes the first and `Everything` includes both. Second, every product's name, brand and description is a text; otherwise `searchProducts` would throw. Third, no category key is integer-like; JavaScript's `Object.values` would list such keys first, in numeric order.
- Product ids are texts; a numeric id in the data file is not modelled.
- Validators.ValidateFieldsOutput: in its default convert mode Joi rounds a `precision(2)` price to two decimals (1.234 is stored as 1.23); the model keeps every given value unchanged.
- Validators.CreateProductAccepts: Joi refuses a price or stock beyond ±2^53 (`number.unsafe`), and rounds the price as above; the model works over exact reals and accepts any number within the schema's bounds.
- ProductService.FindIndex: its own contract does not say the index is the first one; ProductService.FindIndexFirst proves that separately.

## Findings

| source | as written | input that shows it | evidently intended | confidence | as-written member | corrected member |
|---|---|---|---|---|---|---|
| backend/ml_service/main.py:131-136 | the disease endpoint raises `HTTPException(400)` for a bad content type inside a `try` whose `except Exception` turns it into a 500 | an upload with content type `text/plain` | a bad content type is answered 400, as the skin-type endpoint does | not executed | MlService.DiseaseTypeErrorBecomes500 | MlService.DiseaseContentType |
| backend/src/controllers/productController.js:22-32 | the controller calls `productService.getProductById`, which the product service does not define, so every request throws and is passed to the error handler | any id, for example `p1` | an unknown id is answered 404 and a known one 200 with the product | not executed | ProductController.ProductByIdNeverAnswers | ProductController.GetProductById |
