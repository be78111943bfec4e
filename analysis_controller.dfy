/** The analysis endpoints of the back end: the history mapping, the label
    tables that turn classifier output into product categories, and the
    request handling of the skin-type, disease and unified analysis
    endpoints. The inference service, the database and the uploaded file's
    bytes are inputs. */
module AnalysisController {
  import opened Values
  import opened Text
  import ProductService

  type Product = ProductService.Product
  type Catalogue = ProductService.Catalogue

  // ---------------------------------------------------------------------
  // getHistory
  // ---------------------------------------------------------------------

  /** A stored analysis row as the database returns it; `None` is a missing column. */
  datatype HistoryRow = HistoryRow(
    id: Option<Json>,
    userId: Option<Json>,
    imageUrl: Option<Json>,
    resultJson: Option<Json>,
    createdAt: Option<Json>,
    updatedAt: Option<Json>)

  /** The entry the client receives for one row. */
  datatype HistoryEntry = HistoryEntry(
    id: Option<Json>,
    userId: Option<Json>,
    imageUrl: Json,
    hasEczema: Json,
    eczemaLevel: Json,
    hasAcne: Json,
    acneLevel: Json,
    hasRosacea: Json,
    rosaceaLevel: Json,
    isNormal: Json,
    products: Json,
    createdAt: Option<Json>,
    updatedAt: Json)

  /** `item.result_json || {}` read as an object: a non-object value has none
      of the fields the mapping reads. */
  function ResultFields(resultJson: Option<Json>): map<string, Json>
  {
    if Truthy(resultJson) && resultJson.value.JObj? then resultJson.value.fields else map[]
  }

  /** `o[camel] || o[snake] || fallback`. */
  function Either(o: map<string, Json>, camel: string, snake: string, fallback: Json): Json
  {
    JsOr(JsOr(Get(o, camel), Get(o, snake)), Some(fallback)).GetOr(fallback)
  }

  function FormatHistoryRow(item: HistoryRow): HistoryEntry
  {
    var r := ResultFields(item.resultJson);
    HistoryEntry(
      item.id,
      item.userId,
      JsOr(item.imageUrl, Some(JNull)).GetOr(JNull),
      Either(r, "hasEczema", "has_eczema", JBool(false)),
      Either(r, "eczemaLevel", "eczema_level", JNull),
      Either(r, "hasAcne", "has_acne", JBool(false)),
      Either(r, "acneLevel", "acne_level", JNull),
      Either(r, "hasRosacea", "has_rosacea", JBool(false)),
      Either(r, "rosaceaLevel", "rosacea_level", JNull),
      Either(r, "isNormal", "is_normal", JBool(false)),
      Either(r, "recommendedProducts", "recommended_products", JArr([])),
      item.createdAt,
      JsOr(item.updatedAt, Some(JNull)).GetOr(JNull))
  }

  /** `getHistory`: every row mapped, in the order the database gives them. */
  function FormatHistory(rows: seq<HistoryRow>): (r: seq<HistoryEntry>)
    ensures |r| == |rows|
    ensures forall k :: 0 <= k < |rows| ==> r[k] == FormatHistoryRow(rows[k])
  {
    seq(|rows|, k requires 0 <= k < |rows| => FormatHistoryRow(rows[k]))
  }

  /** `Either` takes the camelCase value when truthy, else the snake_case one
      when truthy, else the fallback. */
  lemma EitherProps(o: map<string, Json>, camel: string, snake: string, fallback: Json)
    ensures Truthy(Get(o, camel)) ==> Either(o, camel, snake, fallback) == o[camel]
    ensures !Truthy(Get(o, camel)) && Truthy(Get(o, snake)) ==> Either(o, camel, snake, fallback) == o[snake]
    ensures !Truthy(Get(o, camel)) && !Truthy(Get(o, snake)) ==> Either(o, camel, snake, fallback) == fallback
  {
  }

  /** Each `has*` flag is truthy exactly when its camelCase or snake_case key
      is, and is `false` otherwise; the levels default to `null` and the
      products to `[]`. */
  lemma HistoryEntryDefaults(item: HistoryRow)
    ensures var r := ResultFields(item.resultJson);
      var e := FormatHistoryRow(item);
      && (Truthy(Some(e.hasEczema)) <==> Truthy(Get(r, "hasEczema")) || Truthy(Get(r, "has_eczema")))
      && (Truthy(Some(e.hasAcne)) <==> Truthy(Get(r, "hasAcne")) || Truthy(Get(r, "has_acne")))
      && (Truthy(Some(e.hasRosacea)) <==> Truthy(Get(r, "hasRosacea")) || Truthy(Get(r, "has_rosacea")))
      && (Truthy(Some(e.isNormal)) <==> Truthy(Get(r, "isNormal")) || Truthy(Get(r, "is_normal")))
      && (!Truthy(Get(r, "hasEczema")) && !Truthy(Get(r, "has_eczema")) ==> e.hasEczema == JBool(false))
      && (!Truthy(Get(r, "hasAcne")) && !Truthy(Get(r, "has_acne")) ==> e.hasAcne == JBool(false))
      && (!Truthy(Get(r, "hasRosacea")) && !Truthy(Get(r, "has_rosacea")) ==> e.hasRosacea == JBool(false))
      && (!Truthy(Get(r, "isNormal")) && !Truthy(Get(r, "is_normal")) ==> e.isNormal == JBool(false))
      && (!Truthy(Get(r, "eczemaLevel")) && !Truthy(Get(r, "eczema_level")) ==> e.eczemaLevel == JNull)
      && (!Truthy(Get(r, "acneLevel")) && !Truthy(Get(r, "acne_level")) ==> e.acneLevel == JNull)
      && (!Truthy(Get(r, "rosaceaLevel")) && !Truthy(Get(r, "rosacea_level")) ==> e.rosaceaLevel == JNull)
      && (!Truthy(Get(r, "recommendedProducts")) && !Truthy(Get(r, "recommended_products")) ==>
            e.products == JArr([]))
      && (!Truthy(item.imageUrl) ==> e.imageUrl == JNull)
      && (!Truthy(item.updatedAt) ==> e.updatedAt == JNull)
  {
    var r := ResultFields(item.resultJson);
    EitherProps(r, "hasEczema", "has_eczema", JBool(false));
    EitherProps(r, "hasAcne", "has_acne", JBool(false));
    EitherProps(r, "hasRosacea", "has_rosacea", JBool(false));
    EitherProps(r, "isNormal", "is_normal", JBool(false));
  }

  // ---------------------------------------------------------------------
  // Label tables
  // ---------------------------------------------------------------------

  /** `typeMap[skinType] || 'normal'` with `skinType = result.skin_type || 'Normal'`. */
  function TypeCategory(skinType: Option<Json>): (c: string)
    ensures c in {"oily", "dry", "combination", "normal"}
  {
    var t := JsOr(skinType, Some(JStr("Normal"))).GetOr(JStr("Normal"));
    if !t.JStr? then "normal"
    else if t.s == "Oily" then "oily"
    else if t.s == "Dry" then "dry"
    else if t.s == "Combination" then "combination"
    else "normal"
  }

  /** `diseaseMap[disease] || 'healthy'` with `disease = result.disease || 'healthy'`. */
  function DiseaseCategory(disease: Option<Json>): (c: string)
    ensures c in {"acne", "rosacea", "eczema", "healthy"}
  {
    var d := JsOr(disease, Some(JStr("healthy"))).GetOr(JStr("healthy"));
    if !d.JStr? then "healthy"
    else if d.s == "Acne" then "acne"
    else if d.s == "Rosacea" then "rosacea"
    else if d.s == "Eczema" || d.s == "Psoriasis" then "eczema"
    else "healthy"
  }

  /** Sensitive and unknown skin types share the `normal` category; the three
      other known types map to their own. */
  lemma TypeCategoryProps(t: string)
    ensures TypeCategory(Some(JStr("Sensitive"))) == "normal"
    ensures TypeCategory(Some(JStr("Oily"))) == "oily"
    ensures TypeCategory(Some(JStr("Dry"))) == "dry"
    ensures TypeCategory(Some(JStr("Combination"))) == "combination"
    ensures TypeCategory(None) == "normal"
    ensures t !in {"Oily", "Dry", "Combination"} ==> TypeCategory(Some(JStr(t))) == "normal"
  {
  }

  /** Psoriasis is treated as eczema; Melasma, Vitiligo, General, Healthy and
      unknown labels as healthy. */
  lemma DiseaseCategoryProps(d: string)
    ensures DiseaseCategory(Some(JStr("Psoriasis"))) == "eczema"
    ensures DiseaseCategory(Some(JStr("Acne"))) == "acne"
    ensures DiseaseCategory(Some(JStr("Rosacea"))) == "rosacea"
    ensures DiseaseCategory(Some(JStr("Eczema"))) == "eczema"
    ensures DiseaseCategory(None) == "healthy"
    ensures d !in {"Acne", "Rosacea", "Eczema", "Psoriasis"} ==> DiseaseCategory(Some(JStr(d))) == "healthy"
  {
  }

  // ---------------------------------------------------------------------
  // Endpoints
  // ---------------------------------------------------------------------

  /** The uploaded file as the upload middleware leaves it. */
  datatype UploadedFile = UploadedFile(path: Option<string>, filename: string)

  /** What the inference-service client returned: its parsed result, or a
      thrown error (unreachable service, error status). */
  datatype MlCall = MlOk(result: map<string, Json>) | MlFailed

  /** What saving the analysis returned. */
  datatype SaveCall = Saved(id: Json, createdAt: Json) | SaveFailed

  /** The analysis handed to the database. */
  datatype StoredAnalysis = StoredAnalysis(
    userId: Json, imageUrl: string, result: map<string, Json>, productsKey: string, products: seq<Product>)

  datatype Reply =
    | MissingFile                                    // 400 'Image file is required'
    | SkinTypeOk(analysisId: Json, aiResult: map<string, Json>, products: seq<Product>,
                 createdAt: Json, stored: StoredAnalysis)
    | DiseaseOk(data: map<string, Json>, products: seq<Product>)
    | FullOk(analysisId: Json, result: map<string, Json>, products: seq<Product>, stored: StoredAnalysis)
    | Forwarded                                      // next(error): the error middleware answers

  function ImageUrl(file: UploadedFile): string
  {
    if file.path.Some? && file.path.value != "" then "/uploads/" + file.filename else ""
  }

  const SkinTypeMock: map<string, Json> := map[
    "skin_type" := JStr("Combination"), "confidence" := JNum(0.85),
    "note" := JStr("ML Service unavailable - using mock data")]

  const DiseaseMock: map<string, Json> := map[
    "disease" := JStr("Acne"), "severity" := JStr("Moderate"), "confidence" := JNum(0.88),
    "note" := JStr("ML Service unavailable - using mock data")]

  const FullMock: map<string, Json> := map[
    "disease" := JStr("Healthy"), "skin_type" := JStr("Normal"), "hasAcne" := JBool(false),
    "hasEczema" := JBool(false), "note" := JStr("Mock fallback - ML Service Failed")]

  /** `analyzeSkinType`: 400 without a file; otherwise the inference
      result (or the mock when the call failed), up to 3 products of its
      skin-type category, and the saved analysis's id, or the error passed
      on when saving fails. */
  function AnalyzeSkinType(cat: Catalogue, userId: Json, file: Option<UploadedFile>, ml: MlCall, save: SaveCall): (r: Reply)
    ensures r.MissingFile? <==> file.None?
    ensures file.Some? ==> (r.Forwarded? <==> save.SaveFailed?)
    ensures r.SkinTypeOk? ==>
      && r.aiResult == (if ml.MlOk? then ml.result else SkinTypeMock)
      && r.products == ProductService.BySkinType(cat, TypeCategory(Get(r.aiResult, "skin_type")), 3)
      && r.analysisId == save.id && r.createdAt == save.createdAt
      && r.stored == StoredAnalysis(userId, ImageUrl(file.value), r.aiResult, "recommended_products", r.products)
    ensures !r.DiseaseOk? && !r.FullOk?
  {
    if file.None? then MissingFile
    else
      var ai := if ml.MlOk? then ml.result else SkinTypeMock;
      var products := ProductService.BySkinType(cat, TypeCategory(Get(ai, "skin_type")), 3);
      var stored := StoredAnalysis(userId, ImageUrl(file.value), ai, "recommended_products", products);
      match save
      case Saved(id, createdAt) => SkinTypeOk(id, ai, products, createdAt, stored)
      case SaveFailed => Forwarded
  }

  /** `analyzeDisease` (no database write): 400 without a file; otherwise
      the inference result (or the mock) with up to 3 products of its
      disease category. */
  function AnalyzeDisease(cat: Catalogue, file: Option<UploadedFile>, ml: MlCall): (r: Reply)
    ensures r.MissingFile? <==> file.None?
    ensures file.Some? ==> r.DiseaseOk?
    ensures r.DiseaseOk? ==>
      && r.data == (if ml.MlOk? then ml.result else DiseaseMock)
      && r.products == ProductService.ByDisease(cat, DiseaseCategory(Get(r.data, "disease")), 3)
  {
    if file.None? then MissingFile
    else
      var data := if ml.MlOk? then ml.result else DiseaseMock;
      DiseaseOk(data, ProductService.ByDisease(cat, DiseaseCategory(Get(data, "disease")), 3))
  }

  /** The unified endpoint's product query; `None` when reading the disease
      label throws (a truthy label that is not a string has no `toLowerCase`),
      which leaves the product list empty. */
  function FullQuery(ai: map<string, Json>): (q: Option<string>)
    ensures q.Some? ==> q.value in {"acne", "eczema", "rosacea", "oily", "dry", "normal"}
  {
    var disease := Get(ai, "disease");
    if Truthy(Get(ai, "hasAcne")) then Some("acne")
    else if Truthy(Get(ai, "hasEczema")) then Some("eczema")
    else if Truthy(Get(ai, "hasRosacea")) then Some("rosacea")
    else if Truthy(disease) && !disease.value.JStr? then None
    else if Truthy(disease) && Contains(ToLower(disease.value.s), "rozase") then Some("rosacea")
    else if Get(ai, "skin_type") == Some(JStr("Oily")) then Some("oily")
    else if Get(ai, "skin_type") == Some(JStr("Dry")) then Some("dry")
    else Some("normal")
  }

  /** The unified endpoint's product list: up to 10 of the query's category;
      6 general `skin` products when that is empty; 3 `skin` extras appended
      when fewer than 3 were found; nothing when the query threw. */
  function FullProducts(cat: Catalogue, query: Option<string>): (r: seq<Product>)
    ensures query.None? ==> r == []
    ensures query.Some? ==> |r| <= 10
  {
    if query.None? then []
    else
      var found := ProductService.ByDisease(cat, query.value, 10);
      if |found| == 0 then ProductService.ByDisease(cat, "skin", 6)
      else if |found| < 3 then found + ProductService.ByDisease(cat, "skin", 3)
      else found
  }

  /** `analyzeFull`: 400 without a file; otherwise the inference result (or
      the mock), its product list, and the saved analysis's id; a falsy user
      id or a failed save passes the error on. */
  function AnalyzeFull(cat: Catalogue, userId: Option<Json>, file: Option<UploadedFile>, ml: MlCall, save: SaveCall): (r: Reply)
    ensures r.MissingFile? <==> file.None?
    ensures file.Some? ==> (r.Forwarded? <==> !Truthy(userId) || save.SaveFailed?)
    ensures r.FullOk? ==>
      && r.result == (if ml.MlOk? then ml.result else FullMock)
      && r.products == FullProducts(cat, FullQuery(r.result))
      && r.analysisId == save.id
      && r.stored == StoredAnalysis(userId.value, ImageUrl(file.value), r.result, "recommendedProducts", r.products)
    ensures !r.SkinTypeOk? && !r.DiseaseOk?
  {
    if file.None? then MissingFile
    else
      var ai := if ml.MlOk? then ml.result else FullMock;
      var products := FullProducts(cat, FullQuery(ai));
      if !Truthy(userId) then Forwarded
      else
        var stored := StoredAnalysis(userId.value, ImageUrl(file.value), ai, "recommendedProducts", products);
        match save
        case Saved(id, _) => FullOk(id, ai, products, stored)
        case SaveFailed => Forwarded
  }

  /** Without a file every analysis endpoint answers 400, whatever the
      inference service, the database or the user would have done. */
  lemma MissingFileFirst(cat: Catalogue, userId: Json, user: Option<Json>, ml: MlCall, save: SaveCall)
    ensures AnalyzeSkinType(cat, userId, None, ml, save) == MissingFile
    ensures AnalyzeDisease(cat, None, ml) == MissingFile
    ensures AnalyzeFull(cat, user, None, ml, save) == MissingFile
  {
  }

  /** The query priority: acne, then eczema, then rosacea (flag, or a
      string disease label containing "rozase" in any case), then oily, then
      dry, else normal; and no query at all exactly when no flag is set and
      the disease label is truthy but not a string. */
  lemma FullQueryPriority(ai: map<string, Json>)
    ensures var acne := Truthy(Get(ai, "hasAcne"));
      var eczema := Truthy(Get(ai, "hasEczema"));
      var noFlag := !acne && !eczema && !Truthy(Get(ai, "hasRosacea"));
      var d := Get(ai, "disease");
      var throws := Truthy(d) && !d.value.JStr?;
      var rozase := Truthy(d) && d.value.JStr? && Contains(ToLower(d.value.s), "rozase");
      var t := Get(ai, "skin_type");
      && (FullQuery(ai) == Some("acne") <==> acne)
      && (FullQuery(ai) == Some("eczema") <==> !acne && eczema)
      && (FullQuery(ai) == Some("rosacea") <==> !acne && !eczema && (Truthy(Get(ai, "hasRosacea")) || rozase))
      && (FullQuery(ai).None? <==> noFlag && throws)
      && (FullQuery(ai) == Some("oily") <==> noFlag && !throws && !rozase && t == Some(JStr("Oily")))
      && (FullQuery(ai) == Some("dry") <==> noFlag && !throws && !rozase && t == Some(JStr("Dry")))
      && (FullQuery(ai) == Some("normal") <==>
            noFlag && !throws && !rozase && t != Some(JStr("Oily")) && t != Some(JStr("Dry")))
  {
  }

  /** The endpoints fall back to their mock results when the inference
      service fails: the skin-type mock asks for `combination` products, the
      disease mock for `acne` products. */
  lemma MockFallbacks(cat: Catalogue, userId: Json, file: UploadedFile, save: SaveCall)
    ensures var r := AnalyzeSkinType(cat, userId, Some(file), MlFailed, save);
      r.SkinTypeOk? ==> r.aiResult == SkinTypeMock && r.products == ProductService.BySkinType(cat, "combination", 3)
    ensures AnalyzeDisease(cat, Some(file), MlFailed) ==
      DiseaseOk(DiseaseMock, ProductService.ByDisease(cat, "acne", 3))
  {
    assert Get(SkinTypeMock, "skin_type") == Some(JStr("Combination"));
    assert Get(DiseaseMock, "disease") == Some(JStr("Acne"));
  }

  /** A saved analysis is answered with the id the database gave it; a save
      that fails, or (on the unified endpoint) a missing user id, passes the
      error on instead. */
  lemma SaveOutcomes(cat: Catalogue, userId: Json, user: Option<Json>, file: UploadedFile, ml: MlCall, id: Json, at: Json)
    ensures AnalyzeSkinType(cat, userId, Some(file), ml, Saved(id, at)).SkinTypeOk?
    ensures AnalyzeSkinType(cat, userId, Some(file), ml, Saved(id, at)).analysisId == id
    ensures AnalyzeSkinType(cat, userId, Some(file), ml, SaveFailed) == Forwarded
    ensures Truthy(user) ==>
      (AnalyzeFull(cat, user, Some(file), ml, Saved(id, at)).FullOk?
       && AnalyzeFull(cat, user, Some(file), ml, Saved(id, at)).analysisId == id)
    ensures !Truthy(user) ==> AnalyzeFull(cat, user, Some(file), ml, Saved(id, at)) == Forwarded
    ensures AnalyzeFull(cat, user, Some(file), ml, SaveFailed) == Forwarded
  {
  }

  /** When the inference service fails, the mock result asks for `normal` products. */
  lemma FullMockQuery()
    ensures FullQuery(FullMock) == Some("normal")
  {
    var lower := ToLower("Healthy");
    assert forall i :: 0 <= i < |lower| ==> lower[i] != 'z';
    assert 'z' in "rozase";
    ContainsNeedsChar(lower, "rozase", 'z');
  }

  /** The top-up rule: a non-empty query result of fewer than 3 products gets
      the `skin` extras appended after it, an empty one is replaced by up to 6
      `skin` products, and the list never exceeds 10 products. */
  lemma FullProductsProps(cat: Catalogue, query: string)
    ensures var found := ProductService.ByDisease(cat, query, 10);
      var r := FullProducts(cat, Some(query));
      && |r| <= 10
      && (found == [] ==> r == ProductService.ByDisease(cat, "skin", 6) && |r| <= 6)
      && (found != [] ==> found <= r)
      && (|found| >= 3 ==> r == found)
      && (0 < |found| < 3 ==> r[|found|..] == ProductService.ByDisease(cat, "skin", 3))
  {
    var found := ProductService.ByDisease(cat, query, 10);
    var r := FullProducts(cat, Some(query));
    if 0 < |found| < 3 {
      assert r[|found|..] == ProductService.ByDisease(cat, "skin", 3);
    }
  }
}
