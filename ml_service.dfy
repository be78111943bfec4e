/** The request validation of the ML service's two analysis endpoints. The
    uploaded file is described by its declared content type, the outcome of
    reading it, its size and the outcome of opening it as an image; the
    analysis itself returns fixed mock results. */
module MlService {
  import opened Values
  import opened Text

  datatype Upload = Upload(
    contentType: Option<string>,
    readError: Option<string>,     // message of an exception raised while reading
    size: nat,
    decodeError: Option<string>)   // message of an exception raised by the image decoder

  datatype Reply =
    | SkinTypeAnalysis
    | DiseaseAnalysis
    | HttpError(status: int, detail: string)

  const AllowedTypes: seq<string> := ["image/jpeg", "image/jpg", "image/png", "image/webp"]
  const MaxSize: nat := 5 * 1024 * 1024
  const InvalidTypeDetail: string := "Invalid file type. Allowed types: " + JoinWith(AllowedTypes, ", ")

  predicate Allowed(contentType: Option<string>)
  {
    contentType.Some? && contentType.value in AllowedTypes
  }

  function DigitChar(d: nat): char
    requires d < 10
  {
    ['0', '1', '2', '3', '4', '5', '6', '7', '8', '9'][d]
  }

  /** Python `str(n)` for a non-negative integer. */
  function DecimalString(n: nat): string
  {
    if n < 10 then [DigitChar(n)] else DecimalString(n / 10) + [DigitChar(n % 10)]
  }

  function InternalError(message: string): Reply
  {
    HttpError(500, "Internal server error: " + message)
  }

  /** `str()` of an `HTTPException`: its status code, a colon, its detail. */
  function Describe(status: int, detail: string): string
    requires status == 400
  {
    "400: " + detail
  }

  /** `analyze_skin_type`: content type, then size, then decoding; an
      `HTTPException` raised by a check is re-raised unchanged, any other
      exception becomes a 500. */
  function AnalyzeSkinType(u: Upload): (r: Reply)
    ensures r.HttpError? ==> r.status == 400 || r.status == 500
  {
    if !Allowed(u.contentType) then HttpError(400, InvalidTypeDetail)
    else if u.readError.Some? then InternalError(u.readError.value)
    else if u.size > MaxSize then
      HttpError(400, "Image size exceeds 5MB limit. Current size: " + DecimalString(u.size) + " bytes")
    else if u.decodeError.Some? then HttpError(400, "Invalid image file: " + u.decodeError.value)
    else SkinTypeAnalysis
  }

  /** A type outside jpeg/jpg/png/webp is rejected with 400 before anything
      is read; an accepted type is never rejected for its type. */
  lemma SkinTypeContentType(u: Upload)
    ensures !Allowed(u.contentType) <==> AnalyzeSkinType(u) == HttpError(400, InvalidTypeDetail)
  {
    assert InvalidTypeDetail[1] == 'n' && InvalidTypeDetail[8] == 'f';
    if Allowed(u.contentType) && u.readError.None? {
      if u.size > MaxSize {
        var head := "Image size exceeds 5MB limit. Current size: " + DecimalString(u.size);
        assert head[1] == 'm';
        assert (head + " bytes")[1] == 'm';
      } else if u.decodeError.Some? {
        assert ("Invalid image file: " + u.decodeError.value)[8] == 'i';
      }
    }
  }

  /** Once the type is accepted and the bytes are read, the size check
      rejects exactly the payloads larger than 5 MiB; a payload of exactly
      5 MiB that decodes is analysed. */
  lemma SkinTypeSizeLimit(u: Upload)
    requires Allowed(u.contentType) && u.readError.None?
    ensures u.size > MaxSize ==> AnalyzeSkinType(u).HttpError? && AnalyzeSkinType(u).status == 400
    ensures u.size <= MaxSize && u.decodeError.None? ==> AnalyzeSkinType(u) == SkinTypeAnalysis
    ensures u.size == MaxSize && u.decodeError.None? ==> AnalyzeSkinType(u) == SkinTypeAnalysis
  {
  }

  /** An accepted, readable, small enough file that does not decode gets 400. */
  lemma SkinTypeUndecodable(u: Upload)
    requires Allowed(u.contentType) && u.readError.None? && u.size <= MaxSize && u.decodeError.Some?
    ensures AnalyzeSkinType(u) == HttpError(400, "Invalid image file: " + u.decodeError.value)
  {
  }

  /** Validation errors keep their 400: the only 500 comes from a failed read. */
  lemma SkinTypeNoMasking(u: Upload)
    ensures AnalyzeSkinType(u).HttpError? && AnalyzeSkinType(u).status == 500 <==>
      Allowed(u.contentType) && u.readError.Some?
  {
  }

  /** `analyze_disease` as written: the content-type `HTTPException` is
      caught by the generic handler and turned into a 500, so every error
      is a 500; an analysis comes exactly from an allowed, readable upload. */
  function AnalyzeDiseaseAsWritten(u: Upload): (r: Reply)
    ensures r.HttpError? ==> r.status == 500
    ensures r == DiseaseAnalysis <==> Allowed(u.contentType) && u.readError.None?
  {
    if !Allowed(u.contentType) then InternalError(Describe(400, InvalidTypeDetail))
    else if u.readError.Some? then InternalError(u.readError.value)
    else DiseaseAnalysis
  }

  /** A text upload to the disease endpoint is answered 500, not 400. */
  lemma DiseaseTypeErrorBecomes500()
    ensures AnalyzeDiseaseAsWritten(Upload(Some("text/plain"), None, 10, None)).status == 500
    ensures !Allowed(Some("text/plain"))
  {
    assert "text/plain" != AllowedTypes[0] && "text/plain" != AllowedTypes[1];
    assert "text/plain" != AllowedTypes[2] && "text/plain" != AllowedTypes[3];
  }

  /** `analyze_disease` with the content-type rejection answered as 400, as
      its `HTTPException(status_code=400)` intends (and as the skin-type
      endpoint does). */
  function AnalyzeDisease(u: Upload): (r: Reply)
    ensures r.HttpError? ==> r.status == 400 || r.status == 500
  {
    if !Allowed(u.contentType) then HttpError(400, InvalidTypeDetail)
    else if u.readError.Some? then InternalError(u.readError.value)
    else DiseaseAnalysis
  }

  /** The corrected disease endpoint rejects a bad type with 400 exactly as
      the skin-type endpoint does, and differs from the code as written only
      there. */
  lemma DiseaseContentType(u: Upload)
    ensures !Allowed(u.contentType) <==> AnalyzeDisease(u) == HttpError(400, InvalidTypeDetail)
    ensures !Allowed(u.contentType) ==> AnalyzeDisease(u) == AnalyzeSkinType(u)
    ensures Allowed(u.contentType) ==> AnalyzeDisease(u) == AnalyzeDiseaseAsWritten(u)
  {
  }

  /** The disease endpoint enforces no size limit and does not decode: its
      answer does not depend on the size or the image contents. */
  lemma DiseaseIgnoresSize(u: Upload, size: nat, decodeError: Option<string>)
    ensures AnalyzeDisease(u.(size := size, decodeError := decodeError)) == AnalyzeDisease(u)
    ensures AnalyzeDiseaseAsWritten(u.(size := size, decodeError := decodeError)) == AnalyzeDiseaseAsWritten(u)
    ensures Allowed(u.contentType) && u.readError.None? && u.size > MaxSize ==> AnalyzeDisease(u) == DiseaseAnalysis
  {
  }
}
