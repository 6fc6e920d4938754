/**
 * `ModularLangGraphEngine`: builds its tools, nodes and workflow from the
 * supplied services, runs one query through the workflow and converts the
 * final state into the engine's response. Whatever goes wrong, a query is
 * answered and counted. The elapsed time of a query is passed in.
 */
module Engine {
  import opened Wrappers
  import opened Text
  import opened Values
  import opened Errors
  import opened Schemas
  import CS = ConversationState
  import DT = DocumentTool
  import CT = ComplaintTool
  import LT = LlmTool
  import RF = ResponseFormatting
  import CW = ChatWorkflow
  import opened Toolkit

  /** `QueryType` */
  datatype QueryType = DocumentQa | ComplaintSubmission | GeneralInfo | ProcedureHelp {
    function Value(): string {
      match this
      case DocumentQa => "document_qa"
      case ComplaintSubmission => "complaint_submission"
      case GeneralInfo => "general_info"
      case ProcedureHelp => "procedure_help"
    }
  }

  /** The parts of `ConversationContext` a query uses. */
  datatype Context = Context(userId: string, sessionId: string, history: seq<CS.Message>)

  /** `ConversationResponse` */
  datatype Response = Response(
    text: string,
    queryType: QueryType,
    sources: seq<string>,
    confidence: real,
    structuredData: Option<Data>,
    suggestedActions: seq<string>,
    requiresFollowup: bool,
    metadata: Data
  )

  /** The engine: its components and its conversation metrics. */
  datatype Engine = Engine(
    tools: Tools,
    nodes: CW.Registry,
    workflow: Option<CW.Workflow>,
    langgraph: bool,
    count: nat,
    totalTime: real
  )

  // ---------------------------------------------------------------------
  // Set-up

  /** `_setup_nodes`: the node registry, or an empty one when there is no tool. */
  function SetupNodes(tools: Tools): (nodes: CW.Registry)
    ensures nodes.keys == {} <==> tools.Names() == {}
    ensures nodes.keys != {} ==> nodes == CW.CreateNodeRegistry()
  {
    if tools.Names() == {} then CW.CreateNodeRegistry().(keys := {}) else CW.CreateNodeRegistry()
  }

  /** `_setup_workflow`: a workflow over the nodes, or none when there is no node. */
  function SetupWorkflow(nodes: CW.Registry): (w: Option<CW.Workflow>)
    ensures w.None? <==> nodes.keys == {}
    ensures w.Some? ==> w.value == CW.NewWorkflow(nodes)
  {
    if nodes.keys == {} then None else Some(CW.NewWorkflow(nodes))
  }

  /**
   * The engine's components as its set-up builds them, the shape every
   * later state keeps: a workflow exactly when there is a tool, running
   * every node, and nodes that do not write the confidence before
   * formatting.
   */
  ghost predicate Wired(e: Engine) {
    && (e.workflow.None? <==> e.tools.Names() == {})
    && (e.workflow.Some? ==>
          && e.nodes.keys == CW.AllNodes && e.workflow.value.nodes == e.nodes
          && CW.KeepsConfidence(e.nodes))
  }

  /**
   * `ModularLangGraphEngine.__init__`: tools from the supplied services,
   * then nodes, then the workflow; no metrics yet. Without any service there
   * is no workflow at all.
   */
  function NewEngine(
    documentService: Option<DT.SearchService>,
    complaintService: Option<CT.ComplaintService>,
    llmProvider: Option<LT.Llm>,
    codec: LT.JsonCodec,
    langgraph: bool
  ): (e: Engine)
    ensures Wired(e) && e.count == 0 && e.totalTime == 0.0 && e.langgraph == langgraph
    ensures e.tools == CreateToolRegistry(documentService, complaintService, llmProvider, codec)
    ensures e.workflow.None? <==> documentService.None? && complaintService.None? && llmProvider.None?
    ensures e.workflow.Some? ==> e.workflow.value.compiled.None?
  {
    var tools := CreateToolRegistry(documentService, complaintService, llmProvider, codec);
    EmptyIffNoServices(documentService, complaintService, llmProvider, codec);
    CW.NodeRegistryFaithful();
    var nodes := SetupNodes(tools);
    Engine(tools, nodes, SetupWorkflow(nodes), langgraph, 0, 0.0)
  }

  // ---------------------------------------------------------------------
  // _convert_to_response

  /** The intent-to-query-type table; anything else, no intent included, is general information. */
  function QueryTypeOf(intent: Option<string>): (q: QueryType)
    ensures q == DocumentQa <==> intent == Some(Question.Value())
    ensures q == ComplaintSubmission <==> intent == Some(Complaint.Value())
    ensures q != ProcedureHelp
  {
    if intent == Some(Question.Value()) then DocumentQa
    else if intent == Some(Complaint.Value()) then ComplaintSubmission
    else GeneralInfo
  }

  const EngineName := "ModularLangGraphEngine"
  const NoResponse := "Lo siento, no pude procesar tu mensaje."
  const FollowupBelow := 0.5

  /** The engine's own metadata entries. */
  function EngineMetadata(s: CS.State): Data {
    map["engine" := Str(EngineName), "intent" := OptStr(s.intent), "tool_type" := OptStr(s.toolType),
        "tool_success" := Bool(s.toolSuccess), "processing_step" := Str(s.step)]
  }

  /** `bool(state['error_info'])` */
  predicate HasError(s: CS.State) {
    s.errorInfo.Some? && |s.errorInfo.value| > 0
  }

  /**
   * `_convert_to_response`: the response text is never empty; follow-up is
   * needed for a low confidence or a recorded error; the tool result is the
   * structured data unless it is missing or empty; the state's metadata
   * entries override the engine's own.
   */
  function ConvertToResponse(s: CS.State): (r: Response)
    ensures r.text != ""
    ensures s.response.Some? && s.response.value != "" ==> r.text == s.response.value
    ensures s.response.None? || s.response.value == "" ==> r.text == NoResponse
    ensures r.queryType == QueryTypeOf(s.intent)
    ensures r.sources == s.sources && r.confidence == s.confidence && r.suggestedActions == s.suggestedActions
    ensures r.requiresFollowup <==> s.confidence < FollowupBelow || HasError(s)
    ensures r.structuredData.None? <==> s.toolResult.None? || s.toolResult.value == map[]
    ensures r.structuredData.Some? ==> r.structuredData == s.toolResult
    ensures r.metadata.Keys == EngineMetadata(s).Keys + s.metadata.Keys
    ensures forall k :: k in s.metadata ==> r.metadata[k] == s.metadata[k]
    ensures forall k :: k in EngineMetadata(s) && k !in s.metadata ==> r.metadata[k] == EngineMetadata(s)[k]
  {
    var text := if s.response.Some? && s.response.value != "" then s.response.value else NoResponse;
    var structured := if s.toolResult.Some? && s.toolResult.value != map[] then s.toolResult else None;
    Response(text, QueryTypeOf(s.intent), s.sources, s.confidence, structured, s.suggestedActions,
      s.confidence < FollowupBelow || HasError(s), Merge(EngineMetadata(s), s.metadata))
  }

  // ---------------------------------------------------------------------
  // _create_fallback_response

  const FallbackConfidence := 0.1
  const FallbackActions := ["Intenta reformular tu pregunta", "Contacta soporte si el problema persiste"]
  /** The fallback quotes at most this many characters of the message. */
  const QuotedChars := 100

  /** `_create_fallback_response` */
  function FallbackResponse(message: string, error: string): (r: Response)
    ensures r.text == RF.Apology && r.queryType == GeneralInfo && r.sources == []
    ensures r.confidence == FallbackConfidence && r.structuredData.None? && r.requiresFollowup
    ensures r.suggestedActions == FallbackActions
    ensures r.metadata.Keys == {"engine", "error", "fallback", "original_message"}
    ensures r.metadata["original_message"] == Str(Take(message, QuotedChars))
    ensures r.metadata["error"] == Str(error) && r.metadata["fallback"] == Bool(true)
  {
    Response(RF.Apology, GeneralInfo, [], FallbackConfidence, None, FallbackActions, true,
      map["engine" := Str(EngineName), "error" := Str(error), "fallback" := Bool(true),
          "original_message" := Str(Take(message, QuotedChars))])
  }

  // ---------------------------------------------------------------------
  // process_query

  /** The state a query starts from. */
  function InitialState(message: string, context: Context): CS.State {
    CS.Initialize(message, Some(context.userId), Some(context.sessionId), Some(context.history))
  }

  /** A response and the engine after answering it. */
  datatype Answer = Answer(response: Response, engine: Engine)

  /** `_update_metrics`: one more conversation, its time added. */
  function Counted(e: Engine, elapsed: real): (e': Engine)
    ensures e'.count == e.count + 1 && e'.totalTime == e.totalTime + elapsed
    ensures e'.tools == e.tools && e'.nodes == e.nodes && e'.workflow == e.workflow && e'.langgraph == e.langgraph
  {
    e.(count := e.count + 1, totalTime := e.totalTime + elapsed)
  }

  /**
   * `process_query`: runs the workflow on the initial state and converts
   * the final state; without a workflow, or when the workflow raises, the
   * fixed fallback response. The query is counted either way.
   */
  function ProcessQuery(e: Engine, message: string, context: Context, elapsed: real): (a: Answer)
    ensures a.engine.count == e.count + 1 && a.engine.totalTime == e.totalTime + elapsed
    ensures a.engine.nodes == e.nodes && a.engine.langgraph == e.langgraph
    ensures a.engine.tools.Names() == e.tools.Names()
    ensures a.engine.workflow.Some? <==> e.workflow.Some?
    ensures a.engine.workflow.Some? ==> a.engine.workflow.value.nodes == e.workflow.value.nodes
    ensures a.response.text != ""
    ensures e.workflow.None? ==>
      a.response == FallbackResponse(message, NoneAttribute("execute").Text()) && a.engine == Counted(e, elapsed)
    ensures e.workflow.Some? ==>
      var x := CW.Execute(e.workflow.value, e.langgraph, CW.Turn(InitialState(message, context), e.tools));
      && (x.outcome.Success? ==> a.response == ConvertToResponse(x.outcome.value.state))
      && (x.outcome.Failure? ==> a.response == FallbackResponse(message, x.outcome.error.Text()))
  {
    match e.workflow
    case None =>
      Answer(FallbackResponse(message, NoneAttribute("execute").Text()), Counted(e, elapsed))
    case Some(w) =>
      var x := CW.Execute(w, e.langgraph, CW.Turn(InitialState(message, context), e.tools));
      match x.outcome
      case Success(t) =>
        Answer(ConvertToResponse(t.state), Counted(e.(tools := t.tools, workflow := Some(x.workflow)), elapsed))
      case Failure(err) =>
        Answer(FallbackResponse(message, err.Text()), Counted(e.(workflow := Some(x.workflow)), elapsed))
  }

  /** Answers a sequence of queries in order. */
  function ProcessAll(e: Engine, queries: seq<(string, Context, real)>): Engine
    decreases |queries|
  {
    if |queries| == 0 then e
    else ProcessAll(ProcessQuery(e, queries[0].0, queries[0].1, queries[0].2).engine, queries[1..])
  }

  /** The conversation counter goes up by exactly one per query, and the engine stays wired. */
  lemma {:induction false} CountsEveryQuery(e: Engine, queries: seq<(string, Context, real)>)
    requires Wired(e)
    ensures ProcessAll(e, queries).count == e.count + |queries|
    ensures Wired(ProcessAll(e, queries))
    decreases |queries|
  {
    if |queries| > 0 {
      var next := ProcessQuery(e, queries[0].0, queries[0].1, queries[0].2).engine;
      assert Wired(next);
      CountsEveryQuery(next, queries[1..]);
    }
  }

  /**
   * A wired engine without tools, as `NewEngine` builds it from no service
   * at all, answers every query with the fallback response and stays
   * without tools.
   */
  lemma NoServicesAlwaysFallback(e: Engine, message: string, context: Context, elapsed: real)
    requires Wired(e) && e.tools.Names() == {}
    ensures var a := ProcessQuery(e, message, context, elapsed);
      && a.response == FallbackResponse(message, NoneAttribute("execute").Text())
      && a.engine.tools.Names() == {} && Wired(a.engine)
  {
  }

  /**
   * In a wired engine with at least one service the workflow always
   * completes, and since no step before formatting writes the confidence,
   * the response carries the initial 0.0, or 0.1 when formatting failed:
   * every answer asks for a follow-up.
   */
  lemma {:induction false} EveryAnswerAsksForFollowup(e: Engine, message: string, context: Context, elapsed: real)
    requires Wired(e) && e.workflow.Some?
    ensures var a := ProcessQuery(e, message, context, elapsed);
      && (a.response.confidence == 0.0 || a.response.confidence == RF.ErrorConfidence)
      && a.response.requiresFollowup
  {
    var w := e.workflow.value;
    var t := CW.Turn(InitialState(message, context), e.tools);
    CW.ModesAgree(w, t, e.langgraph);
    CW.ConfidenceUntouched(w.nodes, t);
    var f := CW.FallbackExecution(w.nodes, t);
    assert CW.Execute(w, e.langgraph, t).outcome == Success(f);
    assert ProcessQuery(e, message, context, elapsed).response == ConvertToResponse(f.state);
  }
}
