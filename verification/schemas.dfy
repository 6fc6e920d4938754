/**
 * The workflow's shared schemas: intent and tool enumerations, the
 * classification result and the tool result with its three specialised
 * forms. Every result model rejects a confidence outside [0, 1] at
 * construction.
 */
module Schemas {
  import opened Wrappers
  import opened Values
  import opened Errors

  /** `IntentType` */
  datatype IntentType = Question | Complaint | General | Unknown {
    function Value(): string {
      match this
      case Question => "pregunta"
      case Complaint => "queja"
      case General => "conversacion"
      case Unknown => "desconocido"
    }
  }

  /** `IntentType(s)`: the intent whose value is `s`, if any. */
  function ParseIntent(s: string): (r: Option<IntentType>)
    ensures r.Some? <==> s in {"pregunta", "queja", "conversacion", "desconocido"}
    ensures r.Some? ==> r.value.Value() == s
  {
    if s == "pregunta" then Some(Question)
    else if s == "queja" then Some(Complaint)
    else if s == "conversacion" then Some(General)
    else if s == "desconocido" then Some(Unknown)
    else None
  }

  /** Every intent's value parses back to it, so the four values are distinct. */
  lemma IntentRoundTrip(i: IntentType)
    ensures ParseIntent(i.Value()) == Some(i)
  {
  }

  /** `ToolType` */
  datatype ToolType = DocumentTool | ComplaintTool | LlmTool {
    function Value(): string {
      match this
      case DocumentTool => "document"
      case ComplaintTool => "complaint"
      case LlmTool => "llm"
    }
  }

  /** `ToolType(s)`: the tool type whose value is `s`, if any. */
  function ParseToolType(s: string): (r: Option<ToolType>)
    ensures r.Some? <==> s in {"document", "complaint", "llm"}
    ensures r.Some? ==> r.value.Value() == s
  {
    if s == "document" then Some(DocumentTool)
    else if s == "complaint" then Some(ComplaintTool)
    else if s == "llm" then Some(LlmTool)
    else None
  }

  /** A confidence score is a probability. */
  predicate ValidConfidence(c: real) {
    0.0 <= c <= 1.0
  }

  /** `IntentClassificationResult` */
  datatype IntentClassification = IntentClassification(
    intent: IntentType,
    confidence: real,
    reasoning: Option<string>,
    modelUsed: Option<string>
  )

  /** Constructing an `IntentClassificationResult` validates its confidence. */
  function NewIntentClassification(
    intent: IntentType,
    confidence: real,
    reasoning: Option<string> := None,
    modelUsed: Option<string> := None
  ): (r: Result<IntentClassification, Exception>)
    ensures r.Success? <==> ValidConfidence(confidence)
    ensures r.Failure? ==> r.error.TypeName() == "ValidationError"
    ensures r.Success? ==> r.value == IntentClassification(intent, confidence, reasoning, modelUsed)
  {
    if ValidConfidence(confidence) then Success(IntentClassification(intent, confidence, reasoning, modelUsed))
    else Failure(ValidationError("IntentClassificationResult"))
  }

  /** The fields a specialised tool result adds to `ToolResult`. */
  datatype Extra =
    | Plain
    | DocumentExtra(query: Option<string>, chunksFound: int, bestSimilarity: real, documentsSearched: int)
    | ComplaintExtra(complaintId: Option<string>, title: Option<string>, category: Option<string>, priority: Option<string>)
    | ChatExtra(modelUsed: Option<string>, tokensUsed: Option<int>, temperature: Option<real>)

  /** `ToolResult` and its subclasses. */
  datatype ToolResult = ToolResult(
    toolType: ToolType,
    success: bool,
    data: Data,
    sources: seq<string>,
    confidence: real,
    errorType: Option<string>,
    errorMessage: Option<string>,
    errorDetails: Option<Data>,
    executionTime: Option<real>,
    extra: Extra
  )

  /** A tool result as its validators admit it: a valid confidence and the tool type its subclass fixes. */
  predicate WellFormed(r: ToolResult) {
    && ValidConfidence(r.confidence)
    && (r.extra.DocumentExtra? ==> r.toolType == DocumentTool)
    && (r.extra.ComplaintExtra? ==> r.toolType == ComplaintTool)
    && (r.extra.ChatExtra? ==> r.toolType == LlmTool)
  }

  /** Model construction: the result, or a validation error when the confidence is out of range. */
  function Validate(r: ToolResult, model: string): (v: Result<ToolResult, Exception>)
    ensures v.Success? <==> ValidConfidence(r.confidence)
    ensures v.Success? ==> v.value == r
    ensures v.Failure? ==> v.error.TypeName() == "ValidationError"
  {
    if ValidConfidence(r.confidence) then Success(r) else Failure(ValidationError(model))
  }

  /**
   * `ToolResult.success_result`: success, the given data, sources defaulting
   * to the empty list and confidence defaulting to 1.0.
   */
  function SuccessResult(
    toolType: ToolType,
    data: Data,
    sources: Option<seq<string>> := None,
    confidence: real := 1.0
  ): (r: Result<ToolResult, Exception>)
    ensures r.Success? <==> ValidConfidence(confidence)
    ensures r.Success? ==> WellFormed(r.value) && r.value.success && r.value.toolType == toolType
    ensures r.Success? ==> r.value.data == data && r.value.confidence == confidence
    ensures r.Success? ==> r.value.sources == (if sources.Some? then sources.value else [])
    ensures r.Success? ==> r.value.errorType.None? && r.value.errorDetails.None? && r.value.extra.Plain?
  {
    Validate(ToolResult(toolType, true, data, sources.GetOr([]), confidence, None, None, None, None, Plain), "ToolResult")
  }

  /**
   * `ToolResult.error_result`: always constructible; failure, no data, no
   * sources, confidence 0.0 and details defaulting to the empty dictionary.
   */
  function ErrorResult(
    toolType: ToolType,
    errorType: string,
    errorMessage: string,
    errorDetails: Option<Data> := None
  ): (r: ToolResult)
    ensures WellFormed(r) && !r.success && r.toolType == toolType
    ensures r.data == map[] && r.sources == [] && r.confidence == 0.0
    ensures r.errorType == Some(errorType) && r.errorMessage == Some(errorMessage)
    ensures r.errorDetails == Some(if errorDetails.Some? then errorDetails.value else map[])
  {
    ToolResult(toolType, false, map[], [], 0.0, Some(errorType), Some(errorMessage),
      Some(errorDetails.GetOr(map[])), None, Plain)
  }

  /** `DocumentSearchResult(...)`: its tool type is always DOCUMENT. */
  function DocumentSearchResult(
    success: bool, data: Data, sources: seq<string>, confidence: real,
    query: Option<string>, chunksFound: int, bestSimilarity: real, documentsSearched: int
  ): (r: Result<ToolResult, Exception>)
    ensures r.Success? <==> ValidConfidence(confidence)
    ensures r.Success? ==> WellFormed(r.value) && r.value.toolType == DocumentTool
    ensures r.Success? ==> r.value.success == success && r.value.data == data && r.value.sources == sources
    ensures r.Success? ==> r.value.confidence == confidence
    ensures r.Success? ==> r.value.extra == DocumentExtra(query, chunksFound, bestSimilarity, documentsSearched)
  {
    Validate(ToolResult(DocumentTool, success, data, sources, confidence, None, None, None, None,
      DocumentExtra(query, chunksFound, bestSimilarity, documentsSearched)), "DocumentSearchResult")
  }

  /** `ComplaintSubmissionResult(...)`: its tool type is always COMPLAINT. */
  function ComplaintSubmissionResult(
    success: bool, data: Data, sources: seq<string>, confidence: real,
    complaintId: Option<string>, title: Option<string>, category: Option<string>, priority: Option<string>
  ): (r: Result<ToolResult, Exception>)
    ensures r.Success? <==> ValidConfidence(confidence)
    ensures r.Success? ==> WellFormed(r.value) && r.value.toolType == ComplaintTool
    ensures r.Success? ==> r.value.success == success && r.value.data == data && r.value.sources == sources
    ensures r.Success? ==> r.value.confidence == confidence
    ensures r.Success? ==> r.value.extra == ComplaintExtra(complaintId, title, category, priority)
  {
    Validate(ToolResult(ComplaintTool, success, data, sources, confidence, None, None, None, None,
      ComplaintExtra(complaintId, title, category, priority)), "ComplaintSubmissionResult")
  }

  /** `GeneralChatResult(...)`: its tool type is always LLM. */
  function GeneralChatResult(
    success: bool, data: Data, sources: seq<string>, confidence: real,
    modelUsed: Option<string>, tokensUsed: Option<int>, temperature: Option<real>
  ): (r: Result<ToolResult, Exception>)
    ensures r.Success? <==> ValidConfidence(confidence)
    ensures r.Success? ==> WellFormed(r.value) && r.value.toolType == LlmTool
    ensures r.Success? ==> r.value.success == success && r.value.data == data && r.value.sources == sources
    ensures r.Success? ==> r.value.confidence == confidence
    ensures r.Success? ==> r.value.extra == ChatExtra(modelUsed, tokensUsed, temperature)
  {
    Validate(ToolResult(LlmTool, success, data, sources, confidence, None, None, None, None,
      ChatExtra(modelUsed, tokensUsed, temperature)), "GeneralChatResult")
  }
}
