/** The crop-analysis endpoint: `analyze_crop` in
    app/api/v1/endpoints/crop_analysis.py. It validates the upload's content
    type and size, draws a mock assessment at random, assembles the
    language-specific recommendation text and maps every failure to an HTTP
    error. The random draws are nondeterministic choices within the bounds
    the source draws from; the number renderings `:.1f` and `:.1%` are the
    parameters `fmt` and `pct`; `uuid4()` and `datetime.now()` are the
    parameters `requestId` and `createdAt`. */
module CropAnalysis {
  import opened Wrappers
  import opened Text
  import opened Stats

  const AllowedTypes: seq<string> := ["image/jpeg", "image/png", "image/webp"]
  const AllowedTypesRepr: string := "['image/jpeg', 'image/png', 'image/webp']"
  const MaxSize: nat := 10 * 1024 * 1024
  const TooLargeDetail: string := "File too large. Maximum size: 10485760 bytes"
  const ErrorPrefix: string := "Error analyzing crop: "
  const DiseaseChoices: seq<Option<string>> := [None, Some("Leaf Spot"), Some("Powdery Mildew"), Some("Rust")]
  const GrowthStages: seq<string> := ["Seedling", "Vegetative", "Flowering", "Fruiting", "Mature"]
  const FertilizerThreshold: real := 80.0

  datatype HttpError = HttpError(statusCode: int, detail: string)

  /** What the body of the handler's `try` can raise. */
  datatype Raised = HttpException(error: HttpError) | OtherException(message: string)

  /** `CropAnalysisResponse`; `createdAt` stands for `datetime.now()`. */
  datatype CropAnalysisResponse = CropAnalysisResponse(
    id: string,
    analysisType: string,
    healthScore: Option<real>,
    diseaseDetected: Option<string>,
    diseaseConfidence: Option<real>,
    growthStage: Option<string>,
    recommendations: string,
    language: string,
    createdAt: int,
    processingTime: real)

  // ---------------------------------------------------------------------
  // Validation

  predicate ContentTypeAllowed(contentType: Option<string>)
  {
    contentType.Some? && contentType.value in AllowedTypes
  }

  lemma AllowedTypesReprIsListRepr()
    ensures ListRepr(AllowedTypes) == AllowedTypesRepr
  {
    assert AllowedTypes[1..][1..] == ["image/webp"];
    assert AllowedTypes[1..] == ["image/png", "image/webp"];
  }

  /** The content-type check: `None` when the type is allowed, otherwise the
      400 error naming the type (`None` when the upload has none) and the
      allowed list. */
  function ContentTypeCheck(contentType: Option<string>): (e: Option<HttpError>)
    ensures e.None? <==> ContentTypeAllowed(contentType)
    ensures e.Some? ==> e.value.statusCode == 400
    ensures e.Some? ==>
      e.value.detail == "File type " + ShowOptional(contentType) + " not allowed. Allowed types: " + AllowedTypesRepr
  {
    AllowedTypesReprIsListRepr();
    if ContentTypeAllowed(contentType) then None
    else Some(HttpError(400, "File type " + ShowOptional(contentType) + " not allowed. Allowed types: " + ListRepr(AllowedTypes)))
  }

  lemma MaxSizeRendering()
    ensures NatToString(MaxSize) == "10485760"
  {
    assert NatToString(1) == "1";
    NatToStringStep(10, 1, 0);
    NatToStringStep(104, 10, 4);
    NatToStringStep(1048, 104, 8);
    NatToStringStep(10485, 1048, 5);
    NatToStringStep(104857, 10485, 7);
    NatToStringStep(1048576, 104857, 6);
    NatToStringStep(10485760, 1048576, 0);
  }

  /** The size check: `None` for a body of at most 10 MiB, otherwise the 400
      error stating the limit in bytes. */
  function SizeCheck(content: seq<Byte>): (e: Option<HttpError>)
    ensures e.None? <==> |content| <= 10485760
    ensures e.Some? ==> e.value == HttpError(400, TooLargeDetail)
  {
    MaxSizeRendering();
    if |content| > MaxSize then Some(HttpError(400, "File too large. Maximum size: " + NatToString(MaxSize) + " bytes"))
    else None
  }

  // ---------------------------------------------------------------------
  // Recommendation text

  const EnglishAdvice: string := "Recommendations: Continue regular watering, monitor for pests, and ensure adequate sunlight."
  const EnglishFertilizer: string := "Consider applying organic fertilizer in the next week."
  const EnglishExcellent: string := "Your crop is in excellent condition!"
  const UrduAdvice: string := "تجاویز: باقاعدہ پانی دیتے رہیں، کیڑوں کی نگرانی کریں، اور مناسب دھوپ یقینی بنائیں۔"
  const UrduFertilizer: string := "اگلے ہفتے نامیاتی کھاد لگانے پر غور کریں۔"
  const UrduExcellent: string := "آپ کی فصل بہترین حالت میں ہے!"

  /** The English sentences; `fmt` renders the score with `:.1f`. */
  function EnglishSentences(healthScore: real, growthStage: string, fmt: real -> string): seq<string>
  {
    [ "Your crop shows a health score of " + fmt(healthScore) + "%. ",
      "Current growth stage: " + growthStage + ". ",
      EnglishAdvice,
      if healthScore < FertilizerThreshold then EnglishFertilizer else EnglishExcellent ]
  }

  function UrduSentences(healthScore: real, growthStage: string, fmt: real -> string): seq<string>
  {
    [ "آپ کی فصل کا صحت کا اسکور " + fmt(healthScore) + "% ہے۔ ",
      "موجودہ نمو کا مرحلہ: " + growthStage + "۔ ",
      UrduAdvice,
      if healthScore < FertilizerThreshold then UrduFertilizer else UrduExcellent ]
  }

  /** The `recommendations` dictionary of the handler. */
  function RecommendationTable(healthScore: real, growthStage: string, fmt: real -> string): map<string, seq<string>>
  {
    map["en" := EnglishSentences(healthScore, growthStage, fmt),
        "ur" := UrduSentences(healthScore, growthStage, fmt)]
  }

  /** `recommendations.get(language, recommendations["en"])`: the Urdu
      sentences for "ur" and the English ones for every other tag. */
  function BaseSentences(language: string, healthScore: real, growthStage: string, fmt: real -> string): (s: seq<string>)
    ensures |s| == 4
    ensures s == if language == "ur" then UrduSentences(healthScore, growthStage, fmt)
                 else EnglishSentences(healthScore, growthStage, fmt)
  {
    var table := RecommendationTable(healthScore, growthStage, fmt);
    GetOr(table, language, table["en"])
  }

  function EnglishDiseaseSentence(disease: string, confidence: real, pct: real -> string): string
  {
    " Disease detected: " + disease + " (confidence: " + pct(confidence) + "). Consider treatment with appropriate fungicide."
  }

  function UrduDiseaseSentence(disease: string, confidence: real, pct: real -> string): string
  {
    " بیماری کا پتہ چلا: " + disease + " (اعتماد: " + pct(confidence) + ")۔ مناسب فنگسائڈ سے علاج پر غور کریں۔"
  }

  /** `disease_rec.get(language, disease_rec["en"])`; `pct` renders the
      confidence with `:.1%`. The disease name always occurs in it. */
  function DiseaseSentence(language: string, disease: string, confidence: real, pct: real -> string): (s: string)
    ensures s == if language == "ur" then UrduDiseaseSentence(disease, confidence, pct)
                 else EnglishDiseaseSentence(disease, confidence, pct)
    ensures |s| > 0
    ensures Contains(s, disease)
  {
    var table := map["en" := EnglishDiseaseSentence(disease, confidence, pct),
                     "ur" := UrduDiseaseSentence(disease, confidence, pct)];
    var s := GetOr(table, language, table["en"]);
    DiseaseNameOccurs(language, disease, confidence, pct, s);
    s
  }

  lemma DiseaseNameOccurs(language: string, disease: string, confidence: real, pct: real -> string, s: string)
    requires s == if language == "ur" then UrduDiseaseSentence(disease, confidence, pct)
                 else EnglishDiseaseSentence(disease, confidence, pct)
    ensures Contains(s, disease)
  {
    var lead := if language == "ur" then " بیماری کا پتہ چلا: " else " Disease detected: ";
    var rest := if language == "ur" then " (اعتماد: " + pct(confidence) + ")۔ مناسب فنگسائڈ سے علاج پر غور کریں۔"
                else " (confidence: " + pct(confidence) + "). Consider treatment with appropriate fungicide.";
    OccursAfterPrefix(lead, disease);
    OccursAtExtend(lead + disease, disease, |lead|, rest);
    assert s == lead + disease + rest;
  }

  /** The assembled recommendation: the joined base sentences, followed by
      the disease sentence only when a disease was detected. The caller
      supplies a confidence whenever it supplies a disease. */
  function RecommendationText(language: string, healthScore: real, growthStage: string,
      disease: Option<string>, confidence: Option<real>, fmt: real -> string, pct: real -> string): (text: string)
    requires disease.Some? ==> confidence.Some?
    ensures StartsWith(text, Concat(BaseSentences(language, healthScore, growthStage, fmt)))
    ensures text == Concat(BaseSentences(language, healthScore, growthStage, fmt)) <==> disease.None?
    ensures disease.Some? ==>
      text == Concat(BaseSentences(language, healthScore, growthStage, fmt))
              + DiseaseSentence(language, disease.value, confidence.value, pct)
    ensures disease.Some? ==> Contains(text, disease.value)
  {
    var base := Concat(BaseSentences(language, healthScore, growthStage, fmt));
    assert base[..|base|] == base;
    if disease.None? then base
    else
      var extra := DiseaseSentence(language, disease.value, confidence.value, pct);
      var k :| 0 <= k <= |extra| && OccursAt(extra, disease.value, k);
      OccursShift(base, extra, disease.value, k);
      assert (base + extra)[..|base|] == base;
      base + extra
  }

  /** The last base sentence is the fertilizer advice exactly when the
      score is below 80, and the "excellent condition" sentence otherwise,
      in Urdu for "ur" and in English for every other tag. */
  lemma LastSentenceFollowsScore(language: string, healthScore: real, growthStage: string, fmt: real -> string)
    ensures var last := BaseSentences(language, healthScore, growthStage, fmt)[3];
      if language == "ur" then
        (last == UrduFertilizer <==> healthScore < 80.0) && (last == UrduExcellent <==> healthScore >= 80.0)
      else
        (last == EnglishFertilizer <==> healthScore < 80.0) && (last == EnglishExcellent <==> healthScore >= 80.0)
  {
    assert |EnglishFertilizer| != |EnglishExcellent|;
    assert |UrduFertilizer| != |UrduExcellent|;
  }

  /** A tag other than "en" and "ur" gets exactly the English text. */
  lemma UnsupportedLanguageFallsBackToEnglish(language: string, healthScore: real, growthStage: string,
      disease: Option<string>, confidence: Option<real>, fmt: real -> string, pct: real -> string)
    requires disease.Some? ==> confidence.Some?
    requires language != "en" && language != "ur"
    ensures RecommendationText(language, healthScore, growthStage, disease, confidence, fmt, pct)
         == RecommendationText("en", healthScore, growthStage, disease, confidence, fmt, pct)
  {
  }

  /** The English text opens with the score sentence and the stage sentence. */
  lemma EnglishTextOpening(healthScore: real, growthStage: string,
      disease: Option<string>, confidence: Option<real>, fmt: real -> string, pct: real -> string)
    requires disease.Some? ==> confidence.Some?
    ensures StartsWith(RecommendationText("en", healthScore, growthStage, disease, confidence, fmt, pct),
      ("Your crop shows a health score of " + fmt(healthScore) + "%. ") + ("Current growth stage: " + growthStage + ". "))
  {
    var s := EnglishSentences(healthScore, growthStage, fmt);
    var opening := s[0] + s[1];
    ConcatFour(s[0], s[1], s[2], s[3]);
    assert StartsWith(opening, opening);
    StartsWithExtend(opening, opening, s[2]);
    StartsWithExtend(opening + s[2], opening, s[3]);
    var text := RecommendationText("en", healthScore, growthStage, disease, confidence, fmt, pct);
    StartsWithTransitive(text, Concat(s), opening);
  }

  // ---------------------------------------------------------------------
  // Failure mapping

  /** `except HTTPException: raise` / `except Exception as e: raise
      HTTPException(500, f"Error analyzing crop: {e}")`. */
  function ToHttpError(e: Raised): (h: HttpError)
    ensures e.HttpException? ==> h == e.error
    ensures e.OtherException? ==> h.statusCode == 500
    ensures e.OtherException? ==> StartsWith(h.detail, ErrorPrefix) && h.detail[|ErrorPrefix|..] == e.message
  {
    match e
    case HttpException(err) => err
    case OtherException(m) => HttpError(500, ErrorPrefix + m)
  }

  // ---------------------------------------------------------------------
  // The upload and the handler

  /** The uploaded file: its declared content type, its bytes, the error its
      stream raises when read (if any), and the read position. */
  class UploadFile {
    const contentType: Option<string>
    const data: seq<Byte>
    const readFailure: Option<string>
    var position: nat

    ghost predicate Valid()
      reads this
    {
      position <= |data|
    }

    constructor (contentType: Option<string>, data: seq<Byte>, readFailure: Option<string>)
      ensures Valid()
      ensures this.contentType == contentType && this.data == data && this.readFailure == readFailure
      ensures position == 0
    {
      this.contentType := contentType;
      this.data := data;
      this.readFailure := readFailure;
      position := 0;
    }

    /** `await file.read()`: the rest of the body, which is then consumed,
        or the stream's error. */
    method Read() returns (r: Result<seq<Byte>, string>)
      requires Valid()
      modifies this
      ensures Valid()
      ensures readFailure.Some? ==> r == Err(readFailure.value) && position == old(position)
      ensures readFailure.None? ==> r == Ok(data[old(position)..]) && position == |data|
    {
      if readFailure.Some? {
        r := Err(readFailure.value);
      } else {
        r := Ok(data[position..]);
        position := |data|;
      }
    }
  }

  predicate Between(x: real, lo: real, hi: real)
  {
    lo <= x && x <= hi
  }

  /** A successful response: the request's own fields, draws within their
      bounds, a confidence exactly when a disease, and the recommendation
      text those draws determine. */
  predicate IsAssessment(resp: CropAnalysisResponse, language: string, requestId: string, createdAt: int,
      fmt: real -> string, pct: real -> string)
  {
    && resp.id == requestId && resp.analysisType == "health"
    && resp.language == language && resp.createdAt == createdAt
    && Between(resp.processingTime, 1.0, 3.0)
    && resp.healthScore.Some? && Between(resp.healthScore.value, 60.0, 95.0)
    && resp.diseaseDetected in DiseaseChoices
    && (resp.diseaseConfidence.None? <==> resp.diseaseDetected.None?)
    && (resp.diseaseConfidence.Some? ==> Between(resp.diseaseConfidence.value, 0.7, 0.95))
    && resp.growthStage.Some? && resp.growthStage.value in GrowthStages
    && resp.recommendations == RecommendationText(language, resp.healthScore.value, resp.growthStage.value,
         resp.diseaseDetected, resp.diseaseConfidence, fmt, pct)
  }

  /** The body of the handler's `try`: validation in order (the content type
      before the body is read, then the size), the random draws and the
      recommendation text. */
  method TryAnalyze(file: UploadFile, language: string, requestId: string, createdAt: int,
      fmt: real -> string, pct: real -> string)
    returns (r: Result<CropAnalysisResponse, Raised>)
    requires file.Valid()
    modifies file
    ensures file.Valid()
    ensures !ContentTypeAllowed(file.contentType) ==>
      r == Err(HttpException(ContentTypeCheck(file.contentType).value)) && file.position == old(file.position)
    ensures ContentTypeAllowed(file.contentType) && file.readFailure.Some? ==>
      r == Err(OtherException(file.readFailure.value))
    ensures ContentTypeAllowed(file.contentType) && file.readFailure.None? && |file.data| - old(file.position) > MaxSize ==>
      r == Err(HttpException(HttpError(400, TooLargeDetail)))
    ensures ContentTypeAllowed(file.contentType) && file.readFailure.None? && |file.data| - old(file.position) <= MaxSize ==>
      r.Ok? && IsAssessment(r.value, language, requestId, createdAt, fmt, pct)
    ensures ContentTypeAllowed(file.contentType) && file.readFailure.Some? ==> file.position == old(file.position)
    ensures ContentTypeAllowed(file.contentType) && file.readFailure.None? ==> file.position == |file.data|
  {
    var rejected := ContentTypeCheck(file.contentType);
    if rejected.Some? {
      return Err(HttpException(rejected.value));
    }
    var read := file.Read();
    if read.Err? {
      return Err(OtherException(read.error));
    }
    var content := read.value;
    var tooLarge := SizeCheck(content);
    if tooLarge.Some? {
      return Err(HttpException(tooLarge.value));
    }

    // random.uniform(1.0, 3.0); the time.sleep that follows has no effect on the result
    assert Between(1.0, 1.0, 3.0);
    var processingTime: real :| Between(processingTime, 1.0, 3.0);
    assert Between(60.0, 60.0, 95.0);
    var healthScore: real :| Between(healthScore, 60.0, 95.0);
    assert DiseaseChoices[0] in DiseaseChoices;
    var disease: Option<string> :| disease in DiseaseChoices;
    var confidence: Option<real> := None;
    if disease.Some? {
      assert Between(0.7, 0.7, 0.95);
      var c: real :| Between(c, 0.7, 0.95);
      confidence := Some(c);
    }
    assert GrowthStages[0] in GrowthStages;
    var growthStage: string :| growthStage in GrowthStages;

    var recText := Concat(BaseSentences(language, healthScore, growthStage, fmt));
    if disease.Some? {
      recText := recText + DiseaseSentence(language, disease.value, confidence.value, pct);
    }
    r := Ok(CropAnalysisResponse(requestId, "health", Some(healthScore), disease, confidence,
      Some(growthStage), recText, language, createdAt, processingTime));
  }

  /** `analyze_crop`: the outcome of the `try` body with every failure
      mapped to an HTTP error. */
  method AnalyzeCrop(file: UploadFile, requestId: string, createdAt: int,
      fmt: real -> string, pct: real -> string, language: string := "en")
    returns (r: Result<CropAnalysisResponse, HttpError>)
    requires file.Valid()
    modifies file
    ensures file.Valid()
    ensures !ContentTypeAllowed(file.contentType) ==>
      && r == Err(HttpError(400, "File type " + ShowOptional(file.contentType) + " not allowed. Allowed types: " + AllowedTypesRepr))
      && file.position == old(file.position)
    ensures ContentTypeAllowed(file.contentType) && file.readFailure.Some? ==>
      r == Err(HttpError(500, ErrorPrefix + file.readFailure.value))
    ensures ContentTypeAllowed(file.contentType) && file.readFailure.None? && |file.data| - old(file.position) > MaxSize ==>
      r == Err(HttpError(400, TooLargeDetail))
    ensures ContentTypeAllowed(file.contentType) && file.readFailure.None? && |file.data| - old(file.position) <= MaxSize ==>
      r.Ok? && IsAssessment(r.value, language, requestId, createdAt, fmt, pct)
    ensures ContentTypeAllowed(file.contentType) && file.readFailure.Some? ==> file.position == old(file.position)
    ensures ContentTypeAllowed(file.contentType) && file.readFailure.None? ==> file.position == |file.data|
  {
    var attempt := TryAnalyze(file, language, requestId, createdAt, fmt, pct);
    match attempt
    case Ok(resp) =>
      r := Ok(resp);
    case Err(e) =>
      r := Err(ToHttpError(e));
  }
}
