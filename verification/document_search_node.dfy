/**
 * `DocumentSearchNode`: searches the documents for the user's message and
 * records what was found as the document tool's result. Every path records
 * a result of tool type `document`; only a search that returned content
 * counts as a success and replaces the state's sources.
 */
module DocumentSearchNode {
  import opened Wrappers
  import opened Text
  import opened Values
  import opened Errors
  import opened Schemas
  import CS = ConversationState
  import DT = DocumentTool
  import opened Toolkit

  const ToolName := "document"
  const NoQuery := "No search query provided"
  const Unavailable := "Document search not available"
  const FailurePrefix := "Document search failed: "
  const NoDocuments := "No encontré información específica sobre eso en los documentos de UP."

  /** The node always asks for the three best chunks above similarity 0.7. */
  const SearchLimit := 3
  const SearchThreshold := 0.7

  /** The search the node runs for a message. */
  function Search(service: DT.SearchService, message: string): Result<ToolResult, Exception> {
    DT.SearchDocuments(service, message, None, None, SearchLimit, SearchThreshold)
  }

  /** A successful search with content: what the node records about it. */
  function FoundRecord(result: ToolResult): Result<Data, Exception>
    requires "content" in result.data
  {
    match result.extra
    case DocumentExtra(_, chunksFound, bestSimilarity, _) =>
      Success(map["type" := Str("document_search"), "content" := result.data["content"],
                  "chunks_found" := Int(chunksFound), "best_similarity" := Real(bestSimilarity)])
    case _ => Failure(NoAttribute("ToolResult", "chunks_found"))
  }

  /** The record of a search that found nothing usable: no `error` key. */
  const NotFoundRecord: Data := map["type" := Str("no_documents_found"), "message" := Str(NoDocuments)]

  /** The fields the node may write. */
  const Written: set<CS.Field> := {CS.ToolTypeF, CS.ToolResultF, CS.ToolSuccessF, CS.StepF, CS.SourcesF, CS.ErrorInfoF}

  /** A search result that the node counts as having found documents. */
  predicate Found(result: ToolResult) {
    result.success && "content" in result.data && Truthy(result.data["content"])
  }

  /** The recorded failure of the node itself, with its error. */
  function Failed(s: CS.State, message: string): (r: CS.State)
    ensures !r.toolSuccess && r.toolResult == Some(map["error" := Str(message)])
  {
    CS.AddError(CS.UpdateToolResult(s, ToolName, map["error" := Str(message)], false), "document_search_error", message)
  }

  /** What the node records once the search has come back, successfully or not. */
  function AfterSearch(s: CS.State, outcome: Result<ToolResult, Exception>): (r: CS.State)
    ensures r.toolType == Some(ToolName) && r.step == CS.ExecutedStep(ToolName) && r.toolResult.Some?
    ensures CS.Keeps(s, r, Written)
    ensures r.toolSuccess <==> outcome.Success? && Found(outcome.value) && outcome.value.extra.DocumentExtra?
    ensures r.toolSuccess ==>
      && r.toolResult.value.Keys == {"type", "content", "chunks_found", "best_similarity"}
      && r.toolResult.value["type"] == Str("document_search")
      && r.toolResult.value["content"] == outcome.value.data["content"]
      && r.sources == (if |outcome.value.sources| > 0 then outcome.value.sources else s.sources)
    ensures !r.toolSuccess ==> r.sources == s.sources
    ensures outcome.Success? && !Found(outcome.value) ==> r == CS.UpdateToolResult(s, ToolName, NotFoundRecord, false)
    ensures outcome.Failure? ==> r == Failed(s, FailurePrefix + outcome.error.Text())
    ensures r.errorInfo == s.errorInfo || (r.errorInfo.Some? && Get(r.errorInfo.value, "type", Null) == Str("document_search_error"))
    ensures r.errorInfo != s.errorInfo ==> r.toolResult.value.Keys == {"error"}
  {
    match outcome
    case Failure(e) => Failed(s, FailurePrefix + e.Text())
    case Success(result) =>
      if Found(result) then
        match FoundRecord(result)
        case Success(record) => CS.UpdateToolResult(s, ToolName, record, true, result.sources)
        case Failure(e) => Failed(s, FailurePrefix + e.Text())
      else
        CS.UpdateToolResult(s, ToolName, NotFoundRecord, false)
  }

  /** `DocumentSearchNode.execute` */
  function Execute(tools: Tools, s: CS.State): (r: CS.State)
    ensures s.userMessage == "" ==>
      r == CS.UpdateToolResult(s, ToolName, map["error" := Str(NoQuery)], false)
    ensures s.userMessage != "" && tools.document.None? ==>
      r == CS.UpdateToolResult(s, ToolName, map["error" := Str(Unavailable)], false)
    ensures s.userMessage != "" && tools.document.Some? ==>
      r == AfterSearch(s, Search(tools.document.value, s.userMessage))
    ensures r.toolType == Some(ToolName) && r.step == CS.ExecutedStep(ToolName) && r.toolResult.Some?
    ensures CS.Keeps(s, r, Written)
    ensures r.toolSuccess ==> s.userMessage != "" && tools.document.Some?
  {
    var m := s.userMessage;
    if m == "" then
      CS.UpdateToolResult(s, ToolName, map["error" := Str(NoQuery)], false)
    else if tools.document.None? then
      CS.UpdateToolResult(s, ToolName, map["error" := Str(Unavailable)], false)
    else
      AfterSearch(s, Search(tools.document.value, m))
  }

  /**
   * With the node's fixed limit and threshold, the only argument check a
   * non-empty message can fail is the blank query: a message of white
   * space only is recorded as a failed search.
   */
  lemma BlankMessageRecordedAsError(tools: Tools, s: CS.State)
    requires s.userMessage != "" && IsBlank(s.userMessage) && tools.document.Some?
    ensures var r := Execute(tools, s);
      && !r.toolSuccess
      && r.toolResult == Some(map["error" := Str(FailurePrefix + "Search query cannot be empty")])
      && r.errorInfo.Some? && Get(r.errorInfo.value, "type", Null) == Str("document_search_error")
  {
    var e := InvalidInput("Search query cannot be empty", map["query" := Str(s.userMessage)]);
    assert Search(tools.document.value, s.userMessage) == Failure(e);
    assert e.Text() == "Search query cannot be empty";
  }

  /**
   * A search result always carries the document fields, so the node
   * succeeds exactly when the search came back with chunks whose combined
   * text is not empty.
   */
  lemma SuccessIffContent(tools: Tools, s: CS.State)
    requires s.userMessage != "" && tools.document.Some?
    ensures var service := tools.document.value;
      var request := DT.Request(s.userMessage, None, None, SearchLimit, SearchThreshold);
      Execute(tools, s).toolSuccess <==>
        && Search(service, s.userMessage).Success?
        && request.Success? && service(request.value).Success?
        && DT.CombinedContent(service(request.value).value.chunks) != ""
  {
  }
}
