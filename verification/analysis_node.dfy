/** The scene-analysis stage (nodes/analysis_node.py).

  The vision model is an oracle: a total function from the image URL it is
  shown to the answer it gives, either a raw analysis or a failure. The
  structured-output layer then decodes that answer against the schema; a
  failure of either kind is caught by the stage and written to `error`.
 */
module AnalysisNode {
  import opened Results
  import opened Schemas

  /** What the vision model would answer for a given image URL. */
  type AnalysisModel = string -> Result<RawAnalysis>

  const ImageUrlPrefix := "data:image/jpeg;base64,"
  const AnalysisErrorPrefix := "Error in image analysis: "

  /** The image as the model receives it: a JPEG data URL. */
  function ImageUrl(imageData: string): (url: string)
    ensures ImageUrlPrefix <= url
    ensures url[|ImageUrlPrefix|..] == imageData
  {
    ImageUrlPrefix + imageData
  }

  /** One structured-output call: the model's answer, decoded against the
      analysis schema. Success means the model answered and the answer
      carries every field. */
  function InvokeAnalysisModel(model: AnalysisModel, url: string): (r: Result<ImageAnalysis>)
    ensures r.Ok? <==> model(url).Ok? && AllAnalysisFieldsPresent(model(url).value)
    ensures r.Ok? ==> AnalysisToRaw(r.value) == model(url).value
  {
    match model(url)
    case Fail(msg) => Fail(msg)
    case Ok(raw) => ValidateAnalysis(raw)
  }

  /** The analysis node. It never fails: on success it stores the analysis
      and leaves `error` as it was; on failure it records a prefixed error
      and leaves `analysis` as it was. It never changes the image, the
      classification or the formatted result. */
  function AnalyzeImageNode(s: GraphState, model: AnalysisModel): (r: GraphState)
    ensures r.imageData == s.imageData
    ensures r.classification == s.classification
    ensures r.formattedResult == s.formattedResult
    ensures InvokeAnalysisModel(model, ImageUrl(s.imageData)).Ok? ==>
              r.analysis == Some(InvokeAnalysisModel(model, ImageUrl(s.imageData)).value)
              && r.error == s.error
    ensures InvokeAnalysisModel(model, ImageUrl(s.imageData)).Fail? ==>
              r.analysis == s.analysis
              && r.error.Some? && AnalysisErrorPrefix <= r.error.value
    ensures s.error.Some? ==> r.error.Some?
  {
    match InvokeAnalysisModel(model, ImageUrl(s.imageData))
    case Ok(a) => s.(analysis := Some(a))
    case Fail(msg) => s.(error := Some(AnalysisErrorPrefix + msg))
  }

  /** The node consults the model only about the data URL of the state's
      own image: two models that agree there lead to the same state. */
  lemma AnalysisDependsOnlyOnImageUrl(s: GraphState, m1: AnalysisModel, m2: AnalysisModel)
    requires m1(ImageUrl(s.imageData)) == m2(ImageUrl(s.imageData))
    ensures AnalyzeImageNode(s, m1) == AnalyzeImageNode(s, m2)
  {
  }
}
