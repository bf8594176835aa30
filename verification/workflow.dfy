/** The pipeline engine (graph/workflow.py): the output formatter, the fixed
  stage graph analyze -> classify -> format_output -> END, and the
  `process_image` entry point.

  The two model calls and a possible fault inside the formatter are the
  pipeline's only inputs besides the image; they are gathered in `Oracles`.
 */
module Workflow {
  import opened Results
  import opened Schemas
  import opened AnalysisNode
  import opened ClassificationNode

  /* ---------------------------------------------------------------------
     The public result
     --------------------------------------------------------------------- */

  /** The fallback payload: `reject` with everything else null. */
  const SafeReject := PublicResult(Reject, None, None, None)

  /** What every public result promises: a rejection carries nothing else,
      and a severity lies in 0..100. */
  predicate WellFormedPublic(p: PublicResult) {
    && (p.category == Reject ==> p.severity.None? && p.severityLevel.None? && p.scale.None?)
    && (p.severity.Some? ==> MinSeverity <= p.severity.value <= MaxSeverity)
  }

  /** The four public fields of a classification; confidence and reasoning
      are dropped. */
  function Project(c: ClassificationResult): PublicResult {
    PublicResult(c.category, c.severity, c.severityLevel, c.scale)
  }

  /** A projection of a schema-valid classification that obeys the rejection
      rule is a well-formed public result. */
  lemma ProjectIsWellFormed(c: ClassificationResult)
    requires WellFormedClassification(c) && RejectHasNoDetail(c)
    ensures WellFormedPublic(Project(c))
    ensures Project(c).category == c.category
  {
  }

  /** JSON values of the response dictionary. */
  datatype JsonValue = JNull | JString(str: string) | JInt(num: int)

  const PublicKeys: set<string> := {"category", "severity", "severity_level", "scale"}

  /** The response as the dictionary the callers receive. */
  function ToDict(p: PublicResult): (d: map<string, JsonValue>)
    ensures d.Keys == PublicKeys
    ensures d["category"] == JString(CategoryName(p.category))
    ensures d["severity"].JNull? <==> p.severity.None?
    ensures d["severity_level"].JNull? <==> p.severityLevel.None?
    ensures d["scale"].JNull? <==> p.scale.None?
    ensures p.severity.Some? ==> d["severity"] == JInt(p.severity.value)
    ensures p.severityLevel.Some? ==> d["severity_level"] == JString(SeverityLevelName(p.severityLevel.value))
    ensures p.scale.Some? ==> d["scale"] == JString(p.scale.value)
  {
    map["category" := JString(CategoryName(p.category)),
        "severity" := (if p.severity.Some? then JInt(p.severity.value) else JNull),
        "severity_level" := (if p.severityLevel.Some? then JString(SeverityLevelName(p.severityLevel.value)) else JNull),
        "scale" := (if p.scale.Some? then JString(p.scale.value) else JNull)]
  }

  /* ---------------------------------------------------------------------
     The output formatter
     --------------------------------------------------------------------- */

  const FormatErrorPrefix := "Error formatting output: "

  /** Python's truthiness of `state.error`: an empty message counts as none. */
  predicate HasError(s: GraphState)
    ensures s.error.None? ==> !HasError(s)
    ensures s.error == Some("") ==> !HasError(s)
    ensures s.error.Some? && |s.error.value| > 0 ==> HasError(s)
  {
    s.error.Some? && s.error.value != ""
  }

  /** The format_output node. `fault` is the message of an exception raised
      inside its body, if any. It always leaves a formatted result; it writes
      nothing but that and, on a fault, `error`. */
  function FormatOutputNode(s: GraphState, fault: Option<string>): (r: GraphState)
    ensures r.imageData == s.imageData
    ensures r.analysis == s.analysis
    ensures r.classification == s.classification
    ensures r.formattedResult.Some?
    ensures fault.None? ==> r.error == s.error
    ensures fault.Some? ==>
              r.formattedResult == Some(SafeReject)
              && r.error.Some? && FormatErrorPrefix <= r.error.value
    // a recorded error wins over any classification
    ensures HasError(s) ==> r.formattedResult == Some(SafeReject)
    ensures fault.None? && !HasError(s) && s.classification.Some? ==>
              r.formattedResult == Some(Project(s.classification.value))
    ensures !HasError(s) && s.classification.None? ==> r.formattedResult == Some(SafeReject)
    // the public shape is guaranteed whenever the stored classification is sound
    ensures (s.classification.Some? ==>
               WellFormedClassification(s.classification.value)
               && RejectHasNoDetail(s.classification.value))
            ==> WellFormedPublic(r.formattedResult.value)
  {
    match fault
    case Some(e) =>
      s.(error := Some(FormatErrorPrefix + e), formattedResult := Some(SafeReject))
    case None =>
      var result :=
        if HasError(s) then SafeReject
        else if s.classification.Some? then Project(s.classification.value)
        else SafeReject;
      s.(formattedResult := Some(result))
  }

  /* ---------------------------------------------------------------------
     The stage graph
     --------------------------------------------------------------------- */

  datatype Node = Analyze | Classify | FormatOutput

  /** Everything outside the pipeline's control: the two models and a fault
      inside the formatter. */
  datatype Oracles = Oracles(
    analysisModel: AnalysisModel,
    decisionModel: DecisionModel,
    formatFault: Option<string>)

  const Entry: Node := Analyze

  /** The graph's edges; `None` is END. */
  function Edge(n: Node): Option<Node> {
    match n
    case Analyze => Some(Classify)
    case Classify => Some(FormatOutput)
    case FormatOutput => None
  }

  /** The number of edges from a node to END. */
  function Distance(n: Node): nat {
    match n
    case Analyze => 2
    case Classify => 1
    case FormatOutput => 0
  }

  /** Every edge leads one step closer to END. */
  lemma EdgeApproachesEnd(n: Node)
    ensures Edge(n).Some? ==> Distance(Edge(n).value) < Distance(n)
    ensures Edge(n).None? <==> Distance(n) == 0
  {
  }

  /** The nodes visited from `n` by following edges until END: each node's
      edge leads to the next one, and the last node's edge leads to END. */
  function PathFrom(n: Node): (p: seq<Node>)
    decreases Distance(n)
    ensures |p| == Distance(n) + 1
    ensures p[0] == n && p[|p| - 1] == FormatOutput
    ensures forall i :: 0 <= i < |p| - 1 ==> Edge(p[i]) == Some(p[i + 1])
    ensures Edge(p[|p| - 1]) == None
  {
    EdgeApproachesEnd(n);
    match Edge(n)
    case None => [n]
    case Some(m) => [n] + PathFrom(m)
  }

  /** Runs one node. No node looks at earlier failures before running. */
  function Step(n: Node, s: GraphState, env: Oracles): GraphState {
    match n
    case Analyze => AnalyzeImageNode(s, env.analysisModel)
    case Classify => ClassifyImageNode(s, env.decisionModel)
    case FormatOutput => FormatOutputNode(s, env.formatFault)
  }

  /** Runs the nodes of a path in order, threading the state. */
  function RunPath(path: seq<Node>, s: GraphState, env: Oracles): GraphState
    decreases |path|
  {
    if |path| == 0 then s else RunPath(path[1..], Step(path[0], s, env), env)
  }

  /** The compiled graph: every node on the path from the entry point. */
  function Invoke(s: GraphState, env: Oracles): GraphState {
    RunPath(PathFrom(Entry), s, env)
  }

  /** The stage order is fixed and unconditional: the graph is the three
      nodes in sequence, whatever the state and whatever fails. */
  lemma InvokeIsStageSequence(s: GraphState, env: Oracles)
    ensures PathFrom(Entry) == [Analyze, Classify, FormatOutput]
    ensures Invoke(s, env)
            == FormatOutputNode(
                 ClassifyImageNode(AnalyzeImageNode(s, env.analysisModel), env.decisionModel),
                 env.formatFault)
  {
    var p := PathFrom(Entry);
    assert p == [Analyze, Classify, FormatOutput];
    var s1 := AnalyzeImageNode(s, env.analysisModel);
    var s2 := ClassifyImageNode(s1, env.decisionModel);
    assert RunPath(p, s, env) == RunPath(p[1..], s1, env);
    assert p[1..][1..] == [FormatOutput];
    assert RunPath(p[1..], s1, env) == RunPath([FormatOutput], s2, env);
  }

  /* ---------------------------------------------------------------------
     The state invariant every node keeps
     --------------------------------------------------------------------- */

  /** Stored classifications are schema-valid and obey the rejection rule,
      formatted results are well-formed, and recorded errors are non-empty
      (so they are all truthy for the formatter). */
  predicate Consistent(s: GraphState) {
    && (s.classification.Some? ==>
          WellFormedClassification(s.classification.value) && RejectHasNoDetail(s.classification.value))
    && (s.formattedResult.Some? ==> WellFormedPublic(s.formattedResult.value))
    && (s.error.Some? ==> s.error.value != "")
  }

  lemma StepPreservesConsistency(n: Node, s: GraphState, env: Oracles)
    requires Consistent(s)
    ensures Consistent(Step(n, s, env))
    ensures s.error.Some? ==> Step(n, s, env).error.Some?
    ensures Step(n, s, env).imageData == s.imageData
  {
  }

  /** Any sequence of nodes keeps the invariant, never clears an error and
      never changes the image. */
  lemma {:induction false} RunPathPreservesConsistency(path: seq<Node>, s: GraphState, env: Oracles)
    requires Consistent(s)
    ensures Consistent(RunPath(path, s, env))
    ensures s.error.Some? ==> RunPath(path, s, env).error.Some?
    ensures RunPath(path, s, env).imageData == s.imageData
    decreases |path|
  {
    if |path| > 0 {
      StepPreservesConsistency(path[0], s, env);
      RunPathPreservesConsistency(path[1..], Step(path[0], s, env), env);
    }
  }

  /* ---------------------------------------------------------------------
     process_image
     --------------------------------------------------------------------- */

  /** Reading `formatted_result` off the final state. */
  function ExtractFormattedResult(s: GraphState): Option<PublicResult> {
    s.formattedResult
  }

  /** The entry point: a fresh state through the graph; the formatted result
      if there is one, the safe reject payload otherwise. The result is
      always well-formed, and it is the formatted result whenever one exists. */
  function ProcessImage(imageBase64: string, env: Oracles): (r: PublicResult)
    ensures WellFormedPublic(r)
    ensures ExtractFormattedResult(Invoke(InitialState(imageBase64), env)).Some? ==>
              r == ExtractFormattedResult(Invoke(InitialState(imageBase64), env)).value
    ensures ExtractFormattedResult(Invoke(InitialState(imageBase64), env)).None? ==> r == SafeReject
  {
    var finalState := Invoke(InitialState(imageBase64), env);
    RunPathPreservesConsistency(PathFrom(Entry), InitialState(imageBase64), env);
    match ExtractFormattedResult(finalState)
    case Some(result) => result
    case None => SafeReject
  }
}
