/** The records threaded through the pipeline (models/schemas.py).

  The external model answers with loosely typed data; the schema layer
  decodes it into these records or fails. A `Raw...` record is that
  undecoded answer: every field may be missing (`None`), and enumerated
  fields are still plain strings.
 */
module Schemas {
  import opened Results

  /* ---------------------------------------------------------------------
     Enumerations and their wire names
     --------------------------------------------------------------------- */

  datatype Category = Garbage | Potholes | Deforestation | Reject

  datatype SeverityLevel = Low | LowHigh | Moderate | ModerateHigh | High | Extreme

  const CategoryNames: set<string> := {"garbage", "potholes", "deforestation", "reject"}

  const SeverityLevelNames: set<string> :=
    {"low", "low-high", "moderate", "moderate-high", "high", "extreme"}

  const MinSeverity: int := 0
  const MaxSeverity: int := 100

  function CategoryName(c: Category): string {
    match c
    case Garbage => "garbage"
    case Potholes => "potholes"
    case Deforestation => "deforestation"
    case Reject => "reject"
  }

  /** Decodes the `category` literal: exactly the four names are accepted. */
  function ParseCategory(s: string): (r: Option<Category>)
    ensures r.Some? <==> s in CategoryNames
    ensures r.Some? ==> CategoryName(r.value) == s
  {
    if s == "garbage" then Some(Garbage)
    else if s == "potholes" then Some(Potholes)
    else if s == "deforestation" then Some(Deforestation)
    else if s == "reject" then Some(Reject)
    else None
  }

  lemma CategoryNameRoundTrip(c: Category)
    ensures CategoryName(c) in CategoryNames
    ensures ParseCategory(CategoryName(c)) == Some(c)
  {
  }

  function SeverityLevelName(l: SeverityLevel): string {
    match l
    case Low => "low"
    case LowHigh => "low-high"
    case Moderate => "moderate"
    case ModerateHigh => "moderate-high"
    case High => "high"
    case Extreme => "extreme"
  }

  /** Decodes the `severity_level` literal: exactly the six names are accepted. */
  function ParseSeverityLevel(s: string): (r: Option<SeverityLevel>)
    ensures r.Some? <==> s in SeverityLevelNames
    ensures r.Some? ==> SeverityLevelName(r.value) == s
  {
    if s == "low" then Some(Low)
    else if s == "low-high" then Some(LowHigh)
    else if s == "moderate" then Some(Moderate)
    else if s == "moderate-high" then Some(ModerateHigh)
    else if s == "high" then Some(High)
    else if s == "extreme" then Some(Extreme)
    else None
  }

  lemma SeverityLevelNameRoundTrip(l: SeverityLevel)
    ensures SeverityLevelName(l) in SeverityLevelNames
    ensures ParseSeverityLevel(SeverityLevelName(l)) == Some(l)
  {
  }

  /* ---------------------------------------------------------------------
     ImageAnalysis: eight required fields, no defaults
     --------------------------------------------------------------------- */

  datatype ImageAnalysis = ImageAnalysis(
    description: string,
    objectsDetected: seq<string>,
    environmentType: string,
    isIndoorHousehold: bool,
    lightingConditions: string,
    imageQuality: string,
    potentialIssues: seq<string>,
    legitimacyAssessment: string)

  datatype RawAnalysis = RawAnalysis(
    description: Option<string>,
    objectsDetected: Option<seq<string>>,
    environmentType: Option<string>,
    isIndoorHousehold: Option<bool>,
    lightingConditions: Option<string>,
    imageQuality: Option<string>,
    potentialIssues: Option<seq<string>>,
    legitimacyAssessment: Option<string>)

  const MissingFieldError := "field required"

  /** The wire form of a decoded analysis: every field present. */
  function AnalysisToRaw(a: ImageAnalysis): RawAnalysis {
    RawAnalysis(Some(a.description), Some(a.objectsDetected), Some(a.environmentType),
                Some(a.isIndoorHousehold), Some(a.lightingConditions), Some(a.imageQuality),
                Some(a.potentialIssues), Some(a.legitimacyAssessment))
  }

  predicate AllAnalysisFieldsPresent(raw: RawAnalysis) {
    && raw.description.Some?
    && raw.objectsDetected.Some?
    && raw.environmentType.Some?
    && raw.isIndoorHousehold.Some?
    && raw.lightingConditions.Some?
    && raw.imageQuality.Some?
    && raw.potentialIssues.Some?
    && raw.legitimacyAssessment.Some?
  }

  /** Schema validation of an analysis: all or nothing. A decoded analysis
      carries exactly the answer's fields, so no partial analysis exists. */
  function ValidateAnalysis(raw: RawAnalysis): (r: Result<ImageAnalysis>)
    ensures r.Ok? <==> AllAnalysisFieldsPresent(raw)
    ensures r.Ok? ==> AnalysisToRaw(r.value) == raw
  {
    if AllAnalysisFieldsPresent(raw) then
      Ok(ImageAnalysis(raw.description.value, raw.objectsDetected.value, raw.environmentType.value,
                       raw.isIndoorHousehold.value, raw.lightingConditions.value, raw.imageQuality.value,
                       raw.potentialIssues.value, raw.legitimacyAssessment.value))
    else
      Fail(MissingFieldError)
  }

  lemma AnalysisRoundTrip(a: ImageAnalysis)
    ensures ValidateAnalysis(AnalysisToRaw(a)) == Ok(a)
  {
  }

  /* ---------------------------------------------------------------------
     ClassificationResult
     --------------------------------------------------------------------- */

  datatype ClassificationResult = ClassificationResult(
    category: Category,
    severity: Option<int>,
    severityLevel: Option<SeverityLevel>,
    scale: Option<string>,
    confidence: real,
    reasoning: string)

  /** The range constraints the schema attaches to the numeric fields. */
  predicate WellFormedClassification(c: ClassificationResult) {
    && (c.severity.Some? ==> MinSeverity <= c.severity.value <= MaxSeverity)
    && 0.0 <= c.confidence <= 1.0
  }

  /** The rule the schema does NOT enforce and the classification node must:
      a rejection carries no severity, level or scale. */
  predicate RejectHasNoDetail(c: ClassificationResult) {
    c.category == Reject ==> HasNoDetail(c)
  }

  /** Severity, level and scale are all null. */
  predicate HasNoDetail(c: ClassificationResult) {
    c.severity.None? && c.severityLevel.None? && c.scale.None?
  }

  datatype RawClassification = RawClassification(
    category: Option<string>,
    severity: Option<int>,
    severityLevel: Option<string>,
    scale: Option<string>,
    confidence: Option<real>,
    reasoning: Option<string>)

  const InvalidLiteralError := "unexpected value; permitted literal values differ"
  const OutOfRangeError := "value out of range"

  function LevelToRaw(l: Option<SeverityLevel>): Option<string> {
    match l
    case None => None
    case Some(v) => Some(SeverityLevelName(v))
  }

  /** The wire form of a decoded classification. */
  function ClassificationToRaw(c: ClassificationResult): RawClassification {
    RawClassification(Some(CategoryName(c.category)), c.severity, LevelToRaw(c.severityLevel),
                      c.scale, Some(c.confidence), Some(c.reasoning))
  }

  /** Schema validation of a classification answer. `category`, `confidence`
      and `reasoning` are required; `severity`, `severity_level` and `scale`
      default to null when missing. */
  function ValidateClassification(raw: RawClassification): (r: Result<ClassificationResult>)
    ensures r.Ok? <==>
      && raw.category.Some? && raw.category.value in CategoryNames
      && (raw.severity.Some? ==> MinSeverity <= raw.severity.value <= MaxSeverity)
      && (raw.severityLevel.Some? ==> raw.severityLevel.value in SeverityLevelNames)
      && raw.confidence.Some? && 0.0 <= raw.confidence.value <= 1.0
      && raw.reasoning.Some?
    ensures r.Ok? ==> WellFormedClassification(r.value) && ClassificationToRaw(r.value) == raw
  {
    if raw.category.None? || raw.confidence.None? || raw.reasoning.None? then
      Fail(MissingFieldError)
    else
      var category := ParseCategory(raw.category.value);
      var level := if raw.severityLevel.Some? then ParseSeverityLevel(raw.severityLevel.value) else None;
      if category.None? || (raw.severityLevel.Some? && level.None?) then
        Fail(InvalidLiteralError)
      else if raw.severity.Some? && !(MinSeverity <= raw.severity.value <= MaxSeverity) then
        Fail(OutOfRangeError)
      else if !(0.0 <= raw.confidence.value <= 1.0) then
        Fail(OutOfRangeError)
      else
        Ok(ClassificationResult(category.value, raw.severity, level, raw.scale,
                                raw.confidence.value, raw.reasoning.value))
  }

  lemma ClassificationRoundTrip(c: ClassificationResult)
    requires WellFormedClassification(c)
    ensures ValidateClassification(ClassificationToRaw(c)) == Ok(c)
  {
    CategoryNameRoundTrip(c.category);
    if c.severityLevel.Some? {
      SeverityLevelNameRoundTrip(c.severityLevel.value);
    }
  }

  /** The schema on its own does not tie severity, level or scale to the
      category: a rejection that still carries a severity validates. */
  lemma SchemaAdmitsRejectWithSeverity()
    ensures ValidateClassification(
              RawClassification(Some("reject"), Some(50), None, None, Some(0.5), Some("")))
            == Ok(ClassificationResult(Reject, Some(50), None, None, 0.5, ""))
  {
  }

  /* ---------------------------------------------------------------------
     GraphState and the public result it ends with
     --------------------------------------------------------------------- */

  /** The four-field response the pipeline exposes; confidence and reasoning
      are not part of it. */
  datatype PublicResult = PublicResult(
    category: Category,
    severity: Option<int>,
    severityLevel: Option<SeverityLevel>,
    scale: Option<string>)

  datatype GraphState = GraphState(
    imageData: string,
    analysis: Option<ImageAnalysis>,
    classification: Option<ClassificationResult>,
    error: Option<string>,
    formattedResult: Option<PublicResult>)

  /** A state built from the image alone: only `image_data` is set. */
  function InitialState(imageData: string): (s: GraphState)
    ensures s.imageData == imageData
    ensures s.analysis.None? && s.classification.None?
    ensures s.error.None? && s.formattedResult.None?
  {
    GraphState(imageData, None, None, None, None)
  }
}
