# Image-classification pipeline, modelled in Dafny

This project models the deterministic control logic of an image-classification
pipeline. The pipeline sorts one image into `garbage`, `potholes`,
`deforestation` or `reject`, and returns a four-field public result.

A state record is threaded through three stages:

- the **analysis node** asks a vision model for a structured scene analysis;
- the **classification node** fails fast without an analysis, rejects
  indoor/household scenes outright, and otherwise asks a decision model. It
  strips severity, level and scale from any rejection that model returns;
- the **output formatter** reduces the state to the four public fields. Any
  recorded error, and any gap, falls back to the safe reject payload.

`process_image` runs the three stages in a fixed order and reads the
formatted result off the final state.

Both model calls are oracles. Each is a total function from the request it
would receive (the image's JPEG data URL, or the evidence embedded in the
decision prompt) to an answer `Ok(raw) | Fail(message)`. The structured-output
layer is modelled as decoding of that raw answer against the schema. A schema
violation is therefore a failure like any other. "No model call" is stated as
independence: the node's result is the same whatever the model would have
answered.

Files, following the source layout:

- `results.dfy`: `Option` and `Result`.
- `schemas.dfy`: the records, the enumerations, schema validation and `InitialState`.
- `analysis_node.dfy`: the analysis node.
- `classification_node.dfy`: the classification node.
- `workflow.dfy`: the formatter, the stage graph, the state invariant and `ProcessImage`.
- `pipeline_properties.dfy`: end-to-end properties of `ProcessImage`.

Where the source's stated intent and its code disagree, the model follows the code:

- The field descriptions (models/schemas.py:54, 58, 62) say severity, level
  and scale are null "if category is 'reject'". The decision prompt
  (nodes/classification_node.py:63-65) asks for them "unless reject". Read
  together, they should be present *if and only if* the category is not
  `reject`. The code enforces only one direction: a reject carries none of
  them. A non-reject answer may still lack them, and the model allows that.
- `if state.error:` in the formatter uses Python truthiness. An empty message
  would count as "no error" (`Workflow.HasError`). Every message the pipeline
  writes starts with a non-empty prefix, so this never happens inside the
  pipeline. `Workflow.Consistent` carries that fact.
- After a failed analysis, the classification node overwrites the analysis
  error with its own "No analysis available for classification" message.

## Model

| member | source | states |
|---|---|---|
| Schemas.ParseCategory | models/schemas.py:47-49 | a category decodes exactly when it is one of `garbage`, `potholes`, `deforestation`, `reject`, and it decodes back to its own name |
| Schemas.CategoryNameRoundTrip | models/schemas.py:47-49 | every category's name is one of the four literals and decodes to that category |
| Schemas.ParseSeverityLevel | models/schemas.py:56-59 | a severity level decodes exactly when it is one of the six literals `low` … `extreme` |
| Schemas.SeverityLevelNameRoundTrip | models/schemas.py:56-59 | every level's name is one of the six literals and decodes to that level |
| Schemas.ValidateAnalysis | models/schemas.py:13-36 | an analysis decodes if and only if all eight fields are present; a decoded analysis carries exactly the answer's fields, so it is complete or absent |
| Schemas.AnalysisRoundTrip | models/schemas.py:13-36 | a complete analysis's wire form decodes to that same analysis |
| Schemas.ValidateClassification | models/schemas.py:47-71 | a classification decodes if and only if the category is a known literal, any severity is in 0..100, any level is a known literal, and confidence is in [0.0, 1.0] with reasoning present; the three optional fields default to null; the decoded value is exactly the answer |
| Schemas.ClassificationRoundTrip | models/schemas.py:47-71 | every schema-valid classification's wire form decodes to that same classification |
| Schemas.SchemaAdmitsRejectWithSeverity | models/schemas.py:50-63 | the schema alone accepts a `reject` that carries a severity, so the rejection rule has to come from the node |
| Schemas.InitialState | models/schemas.py:81-85 | a fresh state holds only the image; analysis, classification, error and formatted result are absent |
| AnalysisNode.ImageUrl | nodes/analysis_node.py:44 | the model is shown `data:image/jpeg;base64,` followed by the unchanged image data |
| AnalysisNode.InvokeAnalysisModel | nodes/analysis_node.py:18-48 | a structured-output call succeeds exactly when the model answers and the answer has every schema field; the result is that answer, decoded |
| AnalysisNode.AnalyzeImageNode | nodes/analysis_node.py:15-55 | on success it stores the analysis and leaves `error` as it was; on any failure it records an error prefixed `Error in image analysis: ` and leaves `analysis` as it was; it never changes the image, classification or formatted result, and never clears an error |
| AnalysisNode.AnalysisDependsOnlyOnImageUrl | nodes/analysis_node.py:41-48 | models that agree on the state's own data URL lead to the same state |
| ClassificationNode.InvokeDecisionModel | nodes/classification_node.py:33-81 | the call succeeds exactly when the model answers and its answer passes classification-schema validation; a decoded decision is the model's answer and is schema-valid; a model failure passes through with its message |
| ClassificationNode.Join | nodes/classification_node.py:71-75 | `", ".join` of a list: empty for no parts; otherwise it starts with the first part, followed by the separator when there is a second, and its length is the parts' total length plus one separator per gap |
| ClassificationNode.JoinSnoc | nodes/classification_node.py:71-75 | appending a part to the list appends exactly one separator and that part to the joined string, so every part after the first follows in order with one separator before it |
| ClassificationNode.PromptEvidence | nodes/classification_node.py:69-75 | the decision prompt carries the description, environment, indoor flag and legitimacy assessment unchanged, with the object and issue lists joined by `", "`; lighting and image quality are not embedded |
| ClassificationNode.EnforceRejectInvariant | nodes/classification_node.py:84-87 | the result never carries severity, level or scale on a `reject`; category, confidence and reasoning are kept; a non-reject answer is left unchanged |
| ClassificationNode.ClassifyImageNode | nodes/classification_node.py:15-94 | with no analysis it sets the fixed error and leaves classification unchanged; an indoor scene gets the fixed reject (confidence 0.95, no detail); otherwise it stores the model's decoded decision with the rejection rule applied, or records an error prefixed `Error in image classification: `; it never changes image, analysis or formatted result, never clears an error, and every classification it stores is schema-valid and obeys the rejection rule |
| ClassificationNode.GatedNodeIgnoresModel | nodes/classification_node.py:15-30 | without an analysis, or with an indoor one, the result is the same for every decision model: the model is not consulted |
| ClassificationNode.IndoorGateIsAbsolute | nodes/classification_node.py:21-30 | whatever the other analysis fields and the model, an indoor scene is classified `reject` with confidence 0.95 and null severity, level and scale |
| ClassificationNode.DecisionDependsOnlyOnPromptEvidence | nodes/classification_node.py:69-81 | models that agree on the prompt's embedded evidence lead to the same state |
| ClassificationNode.LightingAndQualityDoNotMatter | nodes/classification_node.py:69-75 | analyses that differ only in lighting and image quality get the same classification from every model |
| Workflow.ProjectIsWellFormed | graph/workflow.py:57-64 | projecting a schema-valid classification that obeys the rejection rule gives a well-formed public result with the same category |
| Workflow.ToDict | graph/workflow.py:49-72 | the response dictionary has exactly the keys `category`, `severity`, `severity_level`, `scale`; the category is written as its name; each of the last three is null exactly when the field is absent and otherwise carries the field's value (the level as its name) |
| Workflow.HasError | graph/workflow.py:49 | Python truthiness of the `error` field: a missing or empty message counts as no error, and any non-empty message counts as an error |
| Workflow.FormatOutputNode | graph/workflow.py:41-88 | a recorded error yields the safe reject payload even when a classification exists; otherwise a classification is projected to its four fields; otherwise the safe reject payload; a fault in the body records a prefixed error and stores the safe reject payload; it always leaves a formatted result and never changes image, analysis or classification |
| Workflow.PathFrom | graph/workflow.py:29-37 | the path from a node follows the graph's edges: each node's edge leads to the next node on the path, and the last node, always `format_output`, has its edge to END |
| Workflow.InvokeIsStageSequence | graph/workflow.py:23-39 | the compiled graph is exactly analyze, then classify, then format_output, for every state, with no stage skipped after a failure |
| Workflow.StepPreservesConsistency | graph/workflow.py:29-31 | each node keeps the state invariant, never clears an error and never changes the image |
| Workflow.RunPathPreservesConsistency | graph/workflow.py:29-37 | any sequence of nodes keeps the invariant: stored classifications are schema-valid and obey the rejection rule, formatted results are well-formed, and errors are non-empty and never cleared |
| Workflow.ProcessImage | graph/workflow.py:90-121 | the answer is the formatted result when there is one and the safe reject payload otherwise, and it is always well-formed: a `reject` has null severity, level and scale, and any severity lies in 0..100 |
| PipelineProperties.FormattedResultAlwaysPresent | graph/workflow.py:103-121 | the graph always leaves a formatted result, so the fallback never answers |
| PipelineProperties.PublicResultShape | graph/workflow.py:49-72 | every answer has exactly the four public keys, and a `reject` has the other three null |
| PipelineProperties.ErrorCollapsesToReject | graph/workflow.py:49-56 | if any stage recorded an error, the answer is the safe reject payload |
| PipelineProperties.AnalysisFailureEndsInReject | nodes/analysis_node.py:52-55 | a failed analysis ends in the safe reject payload with no analysis and no classification stored, whatever the decision model would answer |
| PipelineProperties.IndoorSceneEndsInReject | nodes/classification_node.py:21-30 | an indoor scene ends in the safe reject payload, and the fixed indoor reject is the stored classification |
| PipelineProperties.OutdoorDecisionIsProjected | graph/workflow.py:57-64 | for an outdoor scene the answer carries the decision's category; a non-reject decision is answered with exactly its four public fields, a reject one with the safe reject payload |
| PipelineProperties.DecisionFailureEndsInReject | nodes/classification_node.py:92-94 | a failed decision call ends in the safe reject payload |
| PipelineProperties.FormatterFaultEndsInReject | graph/workflow.py:79-88 | a fault inside the formatter ends in the safe reject payload |
| PipelineProperties.NonRejectComesFromModel | graph/workflow.py:49-72 | an answer other than `reject` occurs only when the analysis succeeded, the scene was outdoor, the decision succeeded, the formatter did not fault, and the answer is that decision's four fields |

## Left out

- Model calls: the chat client, model name, temperatures and prompt text are not modelled. Each call is an oracle from its request to a raw answer or a failure. The decision request keeps only the analysis fields the prompt embeds; the list fields are joined with `", "`.
- Exception messages: `str(e)` is an opaque string. Validation failures carry fixed placeholder messages. Only the prefixes the nodes add are modelled.
- Formatter fault: the formatter's body cannot raise on a well-typed state. Its exception path is modelled as an injected `formatFault` input.
- Floating point: `confidence` is a `real`; Python float rounding is not modelled.
- Severity banding: the severity-to-level ranges in the decision prompt are guidance to the model and are not enforced in code. The model makes no claim that a level matches a severity, or that a non-reject answer carries a severity.
- Graph machinery: compilation, invocation internals and the dict-or-object shape of the final state are not modelled. The graph is a fold of its nodes along the edge path. Reading the result off the final state is an `Option`.
- Mutation: nodes mutate the state in place in the source. Here each node returns a new state. Nothing else holds a reference to that state, so the two agree.
- The HTTP front end, the interactive UI, image download and normalisation, base64/JPEG encoding and configuration loading are not part of this model. The image is an opaque string.
