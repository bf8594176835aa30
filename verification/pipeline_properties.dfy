/** End-to-end behaviour of `process_image` (graph/workflow.py), for every
  image and every behaviour of the two models and of the formatter.
 */
module PipelineProperties {
  import opened Results
  import opened Schemas
  import opened AnalysisNode
  import opened ClassificationNode
  import opened Workflow

  /** The analysis the vision model yields for an image, after decoding. */
  function AnalysisReply(imageBase64: string, env: Oracles): Result<ImageAnalysis> {
    InvokeAnalysisModel(env.analysisModel, ImageUrl(imageBase64))
  }

  /** The graph always leaves a formatted result, so the entry point's
      fallback is never the one that answers. */
  lemma FormattedResultAlwaysPresent(imageBase64: string, env: Oracles)
    ensures ExtractFormattedResult(Invoke(InitialState(imageBase64), env)).Some?
  {
    InvokeIsStageSequence(InitialState(imageBase64), env);
  }

  /** Every answer has exactly the four public keys, and a rejection has
      the other three null. */
  lemma PublicResultShape(imageBase64: string, env: Oracles)
    ensures ToDict(ProcessImage(imageBase64, env)).Keys == PublicKeys
    ensures ProcessImage(imageBase64, env).category == Reject ==>
              && ToDict(ProcessImage(imageBase64, env))["severity"] == JNull
              && ToDict(ProcessImage(imageBase64, env))["severity_level"] == JNull
              && ToDict(ProcessImage(imageBase64, env))["scale"] == JNull
  {
  }

  /** Any error recorded on the way collapses the answer to the safe reject
      payload, whatever classification was stored. */
  lemma ErrorCollapsesToReject(imageBase64: string, env: Oracles)
    requires Invoke(InitialState(imageBase64), env).error.Some?
    ensures ProcessImage(imageBase64, env) == SafeReject
  {
    var s0 := InitialState(imageBase64);
    var s1 := AnalyzeImageNode(s0, env.analysisModel);
    var s2 := ClassifyImageNode(s1, env.decisionModel);
    InvokeIsStageSequence(s0, env);
    RunPathPreservesConsistency([Analyze, Classify], s0, env);
    assert RunPath([Analyze, Classify], s0, env) == s2 by {
      assert [Analyze, Classify][1..] == [Classify];
      assert RunPath([Classify], s1, env) == RunPath([], s2, env);
    }
  }

  /** A failed analysis always ends in the safe reject payload, and the
      decision model plays no part in it. */
  lemma AnalysisFailureEndsInReject(imageBase64: string, env: Oracles, otherDecision: DecisionModel)
    requires AnalysisReply(imageBase64, env).Fail?
    ensures ProcessImage(imageBase64, env) == SafeReject
    ensures ProcessImage(imageBase64, env.(decisionModel := otherDecision)) == SafeReject
    ensures Invoke(InitialState(imageBase64), env).analysis.None?
    ensures Invoke(InitialState(imageBase64), env).classification.None?
  {
    InvokeIsStageSequence(InitialState(imageBase64), env);
    InvokeIsStageSequence(InitialState(imageBase64), env.(decisionModel := otherDecision));
  }

  /** An indoor/household scene ends in the safe reject payload, whatever the
      decision model would say. */
  lemma IndoorSceneEndsInReject(imageBase64: string, env: Oracles)
    requires AnalysisReply(imageBase64, env).Ok?
    requires AnalysisReply(imageBase64, env).value.isIndoorHousehold
    ensures ProcessImage(imageBase64, env) == SafeReject
    ensures Invoke(InitialState(imageBase64), env).classification == Some(IndoorReject)
  {
    InvokeIsStageSequence(InitialState(imageBase64), env);
  }

  /** An outdoor scene with a decoded decision is answered with that
      decision's four public fields; a rejection, even one the model sent
      with a severity, is answered with the safe reject payload. */
  lemma OutdoorDecisionIsProjected(imageBase64: string, env: Oracles)
    requires AnalysisReply(imageBase64, env).Ok?
    requires !AnalysisReply(imageBase64, env).value.isIndoorHousehold
    requires InvokeDecisionModel(env.decisionModel, PromptEvidence(AnalysisReply(imageBase64, env).value)).Ok?
    requires env.formatFault.None?
    ensures var c := InvokeDecisionModel(env.decisionModel, PromptEvidence(AnalysisReply(imageBase64, env).value)).value;
            && ProcessImage(imageBase64, env).category == c.category
            && (c.category != Reject ==> ProcessImage(imageBase64, env) == Project(c))
            && (c.category == Reject ==> ProcessImage(imageBase64, env) == SafeReject)
  {
    InvokeIsStageSequence(InitialState(imageBase64), env);
  }

  /** A failed decision call ends in the safe reject payload. */
  lemma DecisionFailureEndsInReject(imageBase64: string, env: Oracles)
    requires AnalysisReply(imageBase64, env).Ok?
    requires !AnalysisReply(imageBase64, env).value.isIndoorHousehold
    requires InvokeDecisionModel(env.decisionModel, PromptEvidence(AnalysisReply(imageBase64, env).value)).Fail?
    ensures ProcessImage(imageBase64, env) == SafeReject
  {
    InvokeIsStageSequence(InitialState(imageBase64), env);
  }

  /** A fault inside the formatter ends in the safe reject payload. */
  lemma FormatterFaultEndsInReject(imageBase64: string, env: Oracles)
    requires env.formatFault.Some?
    ensures ProcessImage(imageBase64, env) == SafeReject
  {
    InvokeIsStageSequence(InitialState(imageBase64), env);
  }

  /** Conversely, an answer other than `reject` exists only when every stage
      succeeded, the scene was outdoor, and the decision model chose exactly
      that answer. */
  lemma NonRejectComesFromModel(imageBase64: string, env: Oracles)
    requires ProcessImage(imageBase64, env).category != Reject
    ensures env.formatFault.None?
    ensures AnalysisReply(imageBase64, env).Ok?
    ensures !AnalysisReply(imageBase64, env).value.isIndoorHousehold
    ensures InvokeDecisionModel(env.decisionModel, PromptEvidence(AnalysisReply(imageBase64, env).value)).Ok?
    ensures ProcessImage(imageBase64, env)
            == Project(InvokeDecisionModel(env.decisionModel, PromptEvidence(AnalysisReply(imageBase64, env).value)).value)
  {
    InvokeIsStageSequence(InitialState(imageBase64), env);
  }
}
