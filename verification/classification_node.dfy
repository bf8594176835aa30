/** The classification stage (nodes/classification_node.py).

  Three rules in order: fail fast without an analysis; reject
  indoor/household scenes outright; otherwise ask the decision model and
  strip severity, level and scale from any rejection it returns. The
  decision model is an oracle from the evidence embedded in its prompt to
  its raw answer.
 */
module ClassificationNode {
  import opened Results
  import opened Schemas

  const NoAnalysisError := "No analysis available for classification"
  const ClassificationErrorPrefix := "Error in image classification: "

  const IndoorConfidence: real := 0.95
  const IndoorReasoning :=
    "Image identified as household/indoor garbage which is not appropriate for environmental monitoring."

  /** The fixed decision of the gating rule. */
  const IndoorReject := ClassificationResult(Reject, None, None, None, IndoorConfidence, IndoorReasoning)

  /** The analysis fields the decision prompt embeds. Lighting and image
      quality are not among them; the list fields are joined with ", ". The
      fixed instruction text around them is not modelled. */
  datatype DecisionPrompt = DecisionPrompt(
    description: string,
    objects: string,
    environment: string,
    indoorFlag: bool,
    legitimacy: string,
    potentialIssues: string)

  /** What the decision model would answer for a given prompt. */
  type DecisionModel = DecisionPrompt -> Result<RawClassification>

  /** The total length of a list of strings. */
  function TotalLength(parts: seq<string>): nat
    decreases |parts|
  {
    if |parts| == 0 then 0 else |parts[0]| + TotalLength(parts[1..])
  }

  /** Python's `sep.join(parts)`: the parts in order, with one separator
      between each neighbouring pair and none at either end. */
  function Join(parts: seq<string>, sep: string): (r: string)
    decreases |parts|
    ensures |parts| == 0 ==> r == ""
    ensures |parts| > 0 ==> |r| == TotalLength(parts) + (|parts| - 1) * |sep|
    ensures |parts| > 0 ==> parts[0] <= r
    ensures |parts| > 1 ==> parts[0] + sep <= r
  {
    if |parts| == 0 then ""
    else if |parts| == 1 then parts[0]
    else parts[0] + sep + Join(parts[1..], sep)
  }

  /** The evidence the decision prompt carries: six of the analysis's eight
      fields, the two lists each joined into one line. */
  /** `Join` read from the other end: appending a part appends one
      separator and that part, so every later part follows in order. */
  lemma {:induction false} JoinSnoc(parts: seq<string>, x: string, sep: string)
    decreases |parts|
    ensures Join(parts + [x], sep) == if |parts| == 0 then x else Join(parts, sep) + sep + x
  {
    if |parts| == 1 {
      assert (parts + [x])[1..] == [x];
    } else if |parts| > 1 {
      assert (parts + [x])[1..] == parts[1..] + [x];
      JoinSnoc(parts[1..], x, sep);
    }
  }

  function PromptEvidence(a: ImageAnalysis): (p: DecisionPrompt)
    ensures p.description == a.description && p.environment == a.environmentType
    ensures p.indoorFlag == a.isIndoorHousehold && p.legitimacy == a.legitimacyAssessment
    ensures p.objects == Join(a.objectsDetected, ", ")
    ensures p.potentialIssues == Join(a.potentialIssues, ", ")
  {
    DecisionPrompt(a.description, Join(a.objectsDetected, ", "), a.environmentType,
                   a.isIndoorHousehold, a.legitimacyAssessment, Join(a.potentialIssues, ", "))
  }

  /** One structured-output call: the model's answer, decoded against the
      classification schema. */
  function InvokeDecisionModel(model: DecisionModel, prompt: DecisionPrompt): (r: Result<ClassificationResult>)
    ensures r.Ok? <==> model(prompt).Ok? && ValidateClassification(model(prompt).value).Ok?
    ensures r.Ok? ==> model(prompt).Ok? && ClassificationToRaw(r.value) == model(prompt).value
    ensures r.Ok? ==> WellFormedClassification(r.value)
    ensures model(prompt).Fail? ==> r == Fail(model(prompt).message)
  {
    match model(prompt)
    case Fail(msg) => Fail(msg)
    case Ok(raw) => ValidateClassification(raw)
  }

  /** The invariant enforcement applied to the model's answer: a rejection
      loses severity, level and scale; its category, confidence and
      reasoning are kept; any other answer is left as it is. */
  function EnforceRejectInvariant(c: ClassificationResult): (r: ClassificationResult)
    ensures RejectHasNoDetail(r)
    ensures r.category == c.category && r.confidence == c.confidence && r.reasoning == c.reasoning
    ensures c.category != Reject ==> r == c
    ensures RejectHasNoDetail(c) ==> r == c
    ensures WellFormedClassification(c) ==> WellFormedClassification(r)
  {
    if c.category == Reject then c.(severity := None, severityLevel := None, scale := None)
    else c
  }

  /** True when the node goes on to ask the decision model. */
  predicate ConsultsModel(s: GraphState) {
    s.analysis.Some? && !s.analysis.value.isIndoorHousehold
  }

  /** The classification node. It never fails, never changes the image, the
      analysis or the formatted result, and never clears an error. Whatever
      classification it stores is schema-valid and, if a rejection, carries
      no severity, level or scale. */
  function ClassifyImageNode(s: GraphState, model: DecisionModel): (r: GraphState)
    ensures r.imageData == s.imageData
    ensures r.analysis == s.analysis
    ensures r.formattedResult == s.formattedResult
    ensures s.error.Some? ==> r.error.Some?
    ensures r.classification == s.classification
            || (r.classification.Some?
                && WellFormedClassification(r.classification.value)
                && RejectHasNoDetail(r.classification.value))
    // no analysis: fail fast
    ensures s.analysis.None? ==>
              r.error == Some(NoAnalysisError) && r.classification == s.classification
    // gating rule
    ensures s.analysis.Some? && s.analysis.value.isIndoorHousehold ==>
              r.classification == Some(IndoorReject) && r.error == s.error
    // the model's decision, with the rejection rule enforced
    ensures ConsultsModel(s) && InvokeDecisionModel(model, PromptEvidence(s.analysis.value)).Ok? ==>
              r.classification == Some(EnforceRejectInvariant(
                                         InvokeDecisionModel(model, PromptEvidence(s.analysis.value)).value))
              && r.error == s.error
    // the model's failure
    ensures ConsultsModel(s) && InvokeDecisionModel(model, PromptEvidence(s.analysis.value)).Fail? ==>
              r.classification == s.classification
              && r.error.Some? && ClassificationErrorPrefix <= r.error.value
  {
    if s.analysis.None? then
      s.(error := Some(NoAnalysisError))
    else if s.analysis.value.isIndoorHousehold then
      s.(classification := Some(IndoorReject))
    else
      match InvokeDecisionModel(model, PromptEvidence(s.analysis.value))
      case Ok(c) => s.(classification := Some(EnforceRejectInvariant(c)))
      case Fail(msg) => s.(error := Some(ClassificationErrorPrefix + msg))
  }

  /** Without an analysis, or with an indoor/household one, the decision
      model is never consulted: the node's result is the same whatever the
      model would have answered. */
  lemma GatedNodeIgnoresModel(s: GraphState, m1: DecisionModel, m2: DecisionModel)
    requires !ConsultsModel(s)
    ensures ClassifyImageNode(s, m1) == ClassifyImageNode(s, m2)
  {
  }

  /** The gating rule is absolute: whatever else the analysis says and
      whatever the model would answer, an indoor scene is rejected with
      confidence 0.95. */
  lemma IndoorGateIsAbsolute(s: GraphState, model: DecisionModel)
    requires s.analysis.Some? && s.analysis.value.isIndoorHousehold
    ensures ClassifyImageNode(s, model).classification.Some?
    ensures ClassifyImageNode(s, model).classification.value.category == Reject
    ensures ClassifyImageNode(s, model).classification.value.confidence == 0.95
    ensures HasNoDetail(ClassifyImageNode(s, model).classification.value)
  {
  }

  /** The model sees only the prompt evidence: models that agree on it give
      the same state, so lighting and image quality cannot sway the decision. */
  lemma DecisionDependsOnlyOnPromptEvidence(s: GraphState, m1: DecisionModel, m2: DecisionModel)
    requires s.analysis.Some?
    requires m1(PromptEvidence(s.analysis.value)) == m2(PromptEvidence(s.analysis.value))
    ensures ClassifyImageNode(s, m1) == ClassifyImageNode(s, m2)
  {
  }

  /** Two analyses that differ only in lighting and image quality lead to the
      same classification for every model. */
  lemma LightingAndQualityDoNotMatter(s: GraphState, a1: ImageAnalysis, a2: ImageAnalysis, model: DecisionModel)
    requires a1.(lightingConditions := a2.lightingConditions, imageQuality := a2.imageQuality) == a2
    ensures ClassifyImageNode(s.(analysis := Some(a1)), model).classification
            == ClassifyImageNode(s.(analysis := Some(a2)), model).classification
  {
    assert PromptEvidence(a1) == PromptEvidence(a2);
  }
}
