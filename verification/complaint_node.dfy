/**
 * `ComplaintProcessingNode`: files the user's message as a quick,
 * chat-originated complaint and records the outcome as the complaint
 * tool's result. Every failure path records `tool_success = False` and a
 * result with an `error` entry.
 */
module ComplaintNode {
  import opened Wrappers
  import opened Text
  import opened Values
  import opened Errors
  import opened Schemas
  import CS = ConversationState
  import CT = ComplaintTool
  import CM = ComplaintModel
  import opened Toolkit

  const ToolName := "complaint"
  const NoMessage := "No complaint message provided"
  const Unavailable := "Complaint processing not available"
  const FailurePrefix := "Complaint processing failed: "
  const UnknownError := "Unknown error"

  /** The submission the node makes: the message, the user and the conversation of the state. */
  function Submit(service: CT.ComplaintService, s: CS.State): Result<ToolResult, Exception> {
    CT.SubmitQuickComplaint(service, s.userMessage, s.userId, s.conversationId)
  }

  /** What the node records about a successful submission. */
  function SubmittedRecord(result: ToolResult): Result<Data, Exception> {
    match result.extra
    case ComplaintExtra(complaintId, title, category, _) =>
      Success(map["type" := Str("complaint_submitted"), "complaint_id" := OptStr(complaintId),
                  "short_id" := Get(result.data, "short_id", Null),
                  "title" := OptStr(title), "category" := OptStr(category)])
    case _ => Failure(NoAttribute("ToolResult", "complaint_id"))
  }

  /** `error_message or 'Unknown error'` */
  function ErrorText(result: ToolResult): (t: string)
    ensures t != ""
  {
    if result.errorMessage.Some? && result.errorMessage.value != "" then result.errorMessage.value else UnknownError
  }

  /** The fields the node may write. */
  const Written: set<CS.Field> := {CS.ToolTypeF, CS.ToolResultF, CS.ToolSuccessF, CS.StepF, CS.ErrorInfoF}

  /** The recorded failure of the node itself, with its error. */
  function Failed(s: CS.State, message: string): (r: CS.State)
    ensures !r.toolSuccess && r.toolResult == Some(map["error" := Str(message)])
    ensures r.errorInfo.Some? && Get(r.errorInfo.value, "type", Null) == Str("complaint_processing_error")
  {
    CS.AddError(CS.UpdateToolResult(s, ToolName, map["error" := Str(message)], false), "complaint_processing_error", message)
  }

  /** What the node records once the submission has come back. */
  function AfterSubmission(s: CS.State, outcome: Result<ToolResult, Exception>): (r: CS.State)
    ensures r.toolType == Some(ToolName) && r.step == CS.ExecutedStep(ToolName) && r.toolResult.Some?
    ensures CS.Keeps(s, r, Written)
    ensures r.toolSuccess <==> outcome.Success? && outcome.value.success && outcome.value.extra.ComplaintExtra?
    ensures r.toolSuccess ==>
      && r.toolResult.value.Keys == {"type", "complaint_id", "short_id", "title", "category"}
      && r.toolResult.value["type"] == Str("complaint_submitted")
      && r.toolResult.value["short_id"] == Get(outcome.value.data, "short_id", Null)
      && r.errorInfo == s.errorInfo
    ensures !r.toolSuccess ==> "error" in r.toolResult.value
    ensures outcome.Success? && !outcome.value.success ==>
      r == CS.UpdateToolResult(s, ToolName,
        map["type" := Str("complaint_failed"), "error" := Str(ErrorText(outcome.value))], false)
    ensures outcome.Failure? ==> r == Failed(s, FailurePrefix + outcome.error.Text())
  {
    match outcome
    case Failure(e) => Failed(s, FailurePrefix + e.Text())
    case Success(result) =>
      if result.success then
        match SubmittedRecord(result)
        case Success(record) => CS.UpdateToolResult(s, ToolName, record, true)
        case Failure(e) => Failed(s, FailurePrefix + e.Text())
      else
        CS.UpdateToolResult(s, ToolName,
          map["type" := Str("complaint_failed"), "error" := Str(ErrorText(result))], false)
  }

  /** `ComplaintProcessingNode.execute` */
  function Execute(tools: Tools, s: CS.State): (r: CS.State)
    ensures s.userMessage == "" ==>
      r == CS.UpdateToolResult(s, ToolName, map["error" := Str(NoMessage)], false)
    ensures s.userMessage != "" && tools.complaint.None? ==>
      r == CS.UpdateToolResult(s, ToolName, map["error" := Str(Unavailable)], false)
    ensures s.userMessage != "" && tools.complaint.Some? ==>
      r == AfterSubmission(s, Submit(tools.complaint.value, s))
    ensures r.toolType == Some(ToolName) && r.step == CS.ExecutedStep(ToolName) && r.toolResult.Some?
    ensures CS.Keeps(s, r, Written)
    ensures !r.toolSuccess ==> "error" in r.toolResult.value
    ensures r.toolSuccess ==> s.userMessage != "" && tools.complaint.Some?
  {
    if s.userMessage == "" then
      CS.UpdateToolResult(s, ToolName, map["error" := Str(NoMessage)], false)
    else if tools.complaint.None? then
      CS.UpdateToolResult(s, ToolName, map["error" := Str(Unavailable)], false)
    else
      AfterSubmission(s, Submit(tools.complaint.value, s))
  }

  /**
   * The complaint tool either raises or returns a successful result, so
   * the node never records `complaint_failed`: it succeeds exactly when the
   * submission succeeds.
   */
  lemma SuccessIffSubmitted(tools: Tools, s: CS.State)
    requires s.userMessage != "" && tools.complaint.Some?
    ensures Execute(tools, s).toolSuccess <==> Submit(tools.complaint.value, s).Success?
  {
    var outcome := Submit(tools.complaint.value, s);
    assert Execute(tools, s) == AfterSubmission(s, outcome);
    if outcome.Success? {
      assert outcome.value.success && outcome.value.extra.ComplaintExtra?;
    }
  }

  /**
   * A message whose stripped text is shorter than 10 characters is never
   * filed: the node records the tool's `service_error` as its own failure.
   */
  lemma ShortMessageNeverFiled(tools: Tools, s: CS.State)
    requires s.userMessage != "" && tools.complaint.Some?
    requires |Strip(s.userMessage)| < CM.MinDescription
    ensures !Execute(tools, s).toolSuccess
    ensures Execute(tools, s).errorInfo.Some?
    ensures Get(Execute(tools, s).errorInfo.value, "type", Null) == Str("complaint_processing_error")
  {
    var outcome := Submit(tools.complaint.value, s);
    assert Execute(tools, s) == AfterSubmission(s, outcome);
    assert outcome.Failure?;
  }
}
