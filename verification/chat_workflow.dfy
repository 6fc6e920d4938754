/**
 * `BaseWorkflow` and `ChatWorkflow`: classify, route by intent to one of
 * three handlers, format. The graph is given as data (entry point,
 * conditional branch, plain edges, finish point) and walked node by node,
 * as the graph runtime does; the sequential fallback runs the same steps
 * in code and absorbs any failure into the state. The workflow's compiled
 * form is built on first use and kept.
 */
module ChatWorkflow {
  import opened Wrappers
  import opened Values
  import opened Errors
  import opened Schemas
  import CS = ConversationState
  import LT = LlmTool
  import CN = ClassificationNode
  import DN = DocumentSearchNode
  import KN = ComplaintNode
  import RF = ResponseFormatting
  import opened Toolkit

  /** The state after a step, and the tools, whose LLM cache a step may fill. */
  datatype Turn = Turn(state: CS.State, tools: Tools)

  // ---------------------------------------------------------------------
  // The node registry

  const ClassificationKey := "classification"
  const DocumentSearchKey := "document_search"
  const ComplaintKey := "complaint_processing"
  const FormattingKey := "response_formatting"

  /** The keys `create_node_registry` registers. */
  const AllNodes: set<string> := {ClassificationKey, DocumentSearchKey, ComplaintKey, FormattingKey}

  /**
   * A node registry: the keys present and each node's `execute`. The
   * workflow only runs the nodes through this record, so what it proves
   * holds for any nodes with the stated properties.
   */
  datatype Registry = Registry(
    keys: set<string>,
    classify: (Tools, CS.State) -> CS.State,
    search: (Tools, CS.State) -> CS.State,
    complaint: (Tools, CS.State) -> CS.State,
    format: CS.State -> CS.State
  )

  /** `create_node_registry`: the four nodes under their keys. */
  function CreateNodeRegistry(): (r: Registry)
    ensures r.keys == AllNodes
  {
    Registry(AllNodes, CN.Execute, DN.Execute, KN.Execute, RF.Execute)
  }

  /** `self.nodes[key].execute(state)`, which raises `KeyError` for a node that is not there. */
  function RunNode(nodes: Registry, key: string, t: Turn): (r: Result<Turn, Exception>)
    ensures r.Failure? <==> key !in nodes.keys
    ensures r.Failure? ==> r.error == MissingKey(key)
    ensures r.Success? ==> r.value.tools == t.tools
  {
    if key !in nodes.keys then Failure(MissingKey(key))
    else if key == ClassificationKey then Success(Turn(nodes.classify(t.tools, t.state), t.tools))
    else if key == DocumentSearchKey then Success(Turn(nodes.search(t.tools, t.state), t.tools))
    else if key == ComplaintKey then Success(Turn(nodes.complaint(t.tools, t.state), t.tools))
    else if key == FormattingKey then Success(Turn(nodes.format(t.state), t.tools))
    else Success(t)
  }

  /** A state formatting has finished with: a non-empty response and at least one suggested action. */
  predicate Formatted(s: CS.State) {
    s.step == CS.ResponseFormatted && s.response.Some? && s.response.value != "" && |s.suggestedActions| > 0
  }

  /** The formatting node always leaves a formatted state. */
  ghost predicate AlwaysFormats(nodes: Registry) {
    forall s :: Formatted(nodes.format(s))
  }

  /** No node before formatting writes the confidence; formatting keeps it or sets its error confidence. */
  ghost predicate KeepsConfidence(nodes: Registry) {
    && (forall tools, s :: nodes.classify(tools, s).confidence == s.confidence)
    && (forall tools, s :: nodes.search(tools, s).confidence == s.confidence)
    && (forall tools, s :: nodes.complaint(tools, s).confidence == s.confidence)
    && (forall s :: nodes.format(s).confidence == s.confidence || nodes.format(s).confidence == RF.ErrorConfidence)
  }

  /** The registered nodes have both properties. */
  lemma NodeRegistryFaithful()
    ensures AlwaysFormats(CreateNodeRegistry()) && KeepsConfidence(CreateNodeRegistry())
  {
    var nodes := CreateNodeRegistry();
    forall tools, s ensures nodes.classify(tools, s).confidence == s.confidence {
      ClassifierKeepsConfidence(tools, s);
    }
    forall tools, s ensures nodes.search(tools, s).confidence == s.confidence {
      SearchKeepsConfidence(tools, s);
    }
    forall tools, s ensures nodes.complaint(tools, s).confidence == s.confidence {
      ComplaintKeepsConfidence(tools, s);
    }
    forall s ensures Formatted(nodes.format(s)) {
      assert nodes.format(s) == RF.Execute(s);
    }
  }

  /** Classification does not write the confidence. */
  lemma ClassifierKeepsConfidence(tools: Tools, s: CS.State)
    ensures CN.Execute(tools, s).confidence == s.confidence
  {
    var r := CN.Execute(tools, s);
    CS.KeepsConfidence(s, r, CN.Written);
  }

  /** The document search does not write the confidence. */
  lemma SearchKeepsConfidence(tools: Tools, s: CS.State)
    ensures DN.Execute(tools, s).confidence == s.confidence
  {
    var r := DN.Execute(tools, s);
    CS.KeepsConfidence(s, r, DN.Written);
  }

  /** Complaint processing does not write the confidence. */
  lemma ComplaintKeepsConfidence(tools: Tools, s: CS.State)
    ensures KN.Execute(tools, s).confidence == s.confidence
  {
    var r := KN.Execute(tools, s);
    CS.KeepsConfidence(s, r, KN.Written);
  }

  // ---------------------------------------------------------------------
  // Routing

  /** The three handlers, named as the graph names them. */
  datatype Route = ToDocumentSearch | ToComplaintProcessing | ToGeneralChat {
    function Name(): string {
      match this
      case ToDocumentSearch => "document_search"
      case ToComplaintProcessing => "complaint_processing"
      case ToGeneralChat => "general_chat"
    }
  }

  /**
   * `_route_by_intent`: total; a question goes to the document search, a
   * complaint to complaint processing, anything else, no intent included,
   * to general chat.
   */
  function RouteByIntent(intent: Option<string>): (r: Route)
    ensures r == ToDocumentSearch <==> intent == Some(Question.Value())
    ensures r == ToComplaintProcessing <==> intent == Some(Complaint.Value())
    ensures r == ToGeneralChat <==> intent != Some(Question.Value()) && intent != Some(Complaint.Value())
  {
    if intent == Some(Question.Value()) then ToDocumentSearch
    else if intent == Some(Complaint.Value()) then ToComplaintProcessing
    else ToGeneralChat
  }

  // ---------------------------------------------------------------------
  // General chat

  const ChatTool := "llm"
  const ChatDefault := "Hola! ¿En qué puedo ayudarte?"
  const NoLlmGreeting := "¡Hola! Soy el asistente de UP. ¿En qué puedo ayudarte?"

  /** The `general_chat` record with the given reply. */
  function ChatRecord(response: Value): Data {
    map["type" := Str("general_chat"), "response" := response]
  }

  /**
   * `_general_chat_node`: the LLM tool is found through any node, so it is
   * used when there is at least one node and the tool exists. The reply is
   * the tool's `response` entry, or a default; without the tool a canned
   * greeting is recorded. `generate_up_response` never raises, so the
   * node's own exception handler is never reached and every path records a
   * successful `general_chat` result of tool type `llm`.
   */
  function GeneralChat(nodes: Registry, t: Turn): (r: Turn)
    ensures CS.Keeps(t.state, r.state, {CS.ToolTypeF, CS.ToolResultF, CS.ToolSuccessF, CS.StepF})
    ensures r.tools.Names() == t.tools.Names()
  {
    if nodes.keys != {} && t.tools.llm.Some? then
      var h := t.tools.llm.value;
      var g := LT.GenerateUpResponse(h.llm, h.cache, t.state.userMessage);
      var result := g.result.value;
      var response := Get(result.data, "response", Str(ChatDefault));
      Turn(CS.UpdateToolResult(t.state, ChatTool, ChatRecord(response), result.success), t.tools.WithCache(g.cache))
    else
      Turn(CS.UpdateToolResult(t.state, ChatTool, ChatRecord(Str(NoLlmGreeting)), true), t.tools)
  }

  /** Every path records a successful `general_chat` result with a reply, of tool type `llm`. */
  lemma GeneralChatRecords(nodes: Registry, t: Turn)
    ensures var r := GeneralChat(nodes, t);
      && r.state.toolType == Some(ChatTool) && r.state.toolSuccess
      && r.state.toolResult.Some? && r.state.toolResult.value.Keys == {"type", "response"}
      && r.state.toolResult.value["type"] == Str("general_chat")
  {
  }

  /**
   * Without a node or without the LLM tool, the canned greeting; otherwise
   * the reply `generate_up_response` gives, or the default when it has no
   * `response` entry, with the LLM tool's cache updated and the other tools
   * as they were.
   */
  lemma GeneralChatReply(nodes: Registry, t: Turn)
    ensures var r := GeneralChat(nodes, t);
      && ((nodes.keys == {} || t.tools.llm.None?) ==>
            r == Turn(CS.UpdateToolResult(t.state, ChatTool, ChatRecord(Str(NoLlmGreeting)), true), t.tools))
      && (nodes.keys != {} && t.tools.llm.Some? ==>
            var h := t.tools.llm.value;
            var g := LT.GenerateUpResponse(h.llm, h.cache, t.state.userMessage);
            && r.tools == t.tools.WithCache(g.cache)
            && r.tools.document == t.tools.document && r.tools.complaint == t.tools.complaint
            && r.state.toolResult.value["response"] == Get(g.result.value.data, "response", Str(ChatDefault)))
  {
  }

  // ---------------------------------------------------------------------
  // The graph

  const Entry := "classify"
  const Finish := "format_response"
  const GraphNodes: set<string> := {Entry, "document_search", "complaint_processing", "general_chat", Finish}

  /** The conditional branch out of `classify`: route name to node. */
  const Branches: map<string, string> :=
    map["document_search" := "document_search", "complaint_processing" := "complaint_processing",
        "general_chat" := "general_chat"]

  /** The plain edges: every handler leads to formatting. */
  const Edges: map<string, string> :=
    map["document_search" := Finish, "complaint_processing" := Finish, "general_chat" := Finish]

  /** The graph's wrapper for one of its nodes. */
  function GraphStep(name: string, nodes: Registry, t: Turn): (r: Result<Turn, Exception>)
    ensures r.Success? ==> r.value.tools.Names() == t.tools.Names()
  {
    if name == Entry then RunNode(nodes, ClassificationKey, t)
    else if name == "document_search" then RunNode(nodes, DocumentSearchKey, t)
    else if name == "complaint_processing" then RunNode(nodes, ComplaintKey, t)
    else if name == "general_chat" then Success(GeneralChat(nodes, t))
    else if name == Finish then RunNode(nodes, FormattingKey, t)
    else Failure(Raised("ValueError", "unknown node " + name))
  }

  /** Where the graph goes after a node: the branch after the entry, the edge after a handler. */
  function Next(name: string, s: CS.State): (n: Option<string>)
    ensures n.Some? ==> n.value in GraphNodes
  {
    if name == Entry then Some(Branches[RouteByIntent(s.intent).Name()])
    else if name in Edges then Some(Edges[name])
    else None
  }

  /** The graph runtime's bound on the number of steps of one run. */
  const RecursionLimit := 25

  /** Runs the graph from a node until the finish point, at most `fuel` further steps. */
  function Walk(name: string, nodes: Registry, t: Turn, fuel: nat): (r: Result<Turn, Exception>)
    ensures r.Success? ==> r.value.tools.Names() == t.tools.Names()
    decreases fuel
  {
    var t' :- GraphStep(name, nodes, t);
    if name == Finish then Success(t')
    else match Next(name, t'.state)
      case None => Success(t')
      case Some(n) =>
        if fuel == 0 then Failure(Raised("GraphRecursionError", "Recursion limit reached"))
        else Walk(n, nodes, t', fuel - 1)
  }

  // ---------------------------------------------------------------------
  // The sequential fallback

  /** How far the sequential steps got: to the end, or to a failure with the state reached so far. */
  datatype Progress = Done(turn: Turn) | Broken(turn: Turn, error: Exception)

  /** The handler step of the sequential run. */
  function Handle(nodes: Registry, route: Route, t: Turn): Result<Turn, Exception> {
    match route
    case ToDocumentSearch => RunNode(nodes, DocumentSearchKey, t)
    case ToComplaintProcessing => RunNode(nodes, ComplaintKey, t)
    case ToGeneralChat => Success(GeneralChat(nodes, t))
  }

  /** The three steps of `_fallback_execution`, stopping at the first one that raises. */
  function Steps(nodes: Registry, t: Turn): Progress {
    match RunNode(nodes, ClassificationKey, t)
    case Failure(e) => Broken(t, e)
    case Success(t1) =>
      match Handle(nodes, RouteByIntent(t1.state.intent), t1)
      case Failure(e) => Broken(t1, e)
      case Success(t2) =>
        match RunNode(nodes, FormattingKey, t2)
        case Failure(e) => Broken(t2, e)
        case Success(t3) => Done(t3)
  }

  const WorkflowErrorConfidence := 0.1

  /**
   * `_fallback_execution`: classification, the handler the intent selects,
   * formatting. A failure leaves the apology at confidence 0.1 with one
   * suggested action and a `workflow_error` on the state reached so far.
   */
  function FallbackExecution(nodes: Registry, t: Turn): (r: Turn)
    ensures r.tools.Names() == t.tools.Names()
    ensures Steps(nodes, t).Done? ==> r == Steps(nodes, t).turn
    ensures Steps(nodes, t).Broken? ==>
      var b := Steps(nodes, t);
      && r.state.response == Some(RF.Apology) && r.state.suggestedActions == RF.RephraseActions
      && r.state.confidence == WorkflowErrorConfidence
      && r.state.errorInfo == Some(CS.ErrorRecord("workflow_error", b.error.Text(), None, CS.ResponseFormatted))
    ensures AllNodes <= nodes.keys ==> Steps(nodes, t).Done?
  {
    match Steps(nodes, t)
    case Done(t3) => t3
    case Broken(tb, e) =>
      var s := CS.UpdateResponse(tb.state, RF.Apology, WorkflowErrorConfidence, RF.RephraseActions);
      Turn(CS.AddError(s, "workflow_error", e.Text()), tb.tools)
  }

  /**
   * With every node present the graph and the sequential fallback do the
   * same thing: the graph walks classify, the routed handler and
   * formatting, and ends with the fallback's state and tools.
   */
  lemma {:induction false} GraphMatchesFallback(nodes: Registry, t: Turn)
    requires AllNodes <= nodes.keys
    ensures Walk(Entry, nodes, t, RecursionLimit) == Success(FallbackExecution(nodes, t))
  {
    var t1 := Turn(nodes.classify(t.tools, t.state), t.tools);
    assert GraphStep(Entry, nodes, t) == Success(t1);
    var route := RouteByIntent(t1.state.intent);
    var handler := Branches[route.Name()];
    assert Next(Entry, t1.state) == Some(handler);
    var t2 := Handle(nodes, route, t1).value;
    assert GraphStep(handler, nodes, t1) == Success(t2);
    assert Next(handler, t2.state) == Some(Finish);
    var t3 := Turn(nodes.format(t2.state), t2.tools);
    assert Walk(Finish, nodes, t2, RecursionLimit - 2) == Success(t3);
    assert Walk(handler, nodes, t1, RecursionLimit - 1) == Success(t3);
  }

  /** A missing node makes the graph raise where the fallback records a `workflow_error`. */
  lemma MissingClassifierRaises(nodes: Registry, t: Turn)
    requires ClassificationKey !in nodes.keys
    ensures Walk(Entry, nodes, t, RecursionLimit) == Failure(MissingKey(ClassificationKey))
    ensures FallbackExecution(nodes, t).state.errorInfo.Some?
    ensures FallbackExecution(nodes, t).state.response == Some(RF.Apology)
  {
  }

  /**
   * Whether the steps finish or break off, the fallback ends with a
   * formatted state: a non-empty response, at least one suggested action.
   */
  lemma FallbackAnswers(nodes: Registry, t: Turn)
    requires AlwaysFormats(nodes)
    ensures Formatted(FallbackExecution(nodes, t).state)
  {
    match Steps(nodes, t)
    case Done(t3) =>
    case Broken(tb, e) =>
  }

  /**
   * No step before formatting writes the confidence: with every node
   * present the run ends with the confidence it started with, or with
   * formatting's error confidence when formatting failed. The response is
   * a formatted one, never the workflow's last-resort apology.
   */
  lemma ConfidenceUntouched(nodes: Registry, t: Turn)
    requires AllNodes <= nodes.keys && KeepsConfidence(nodes)
    ensures Steps(nodes, t).Done?
    ensures var r := FallbackExecution(nodes, t).state;
      r.confidence == t.state.confidence || r.confidence == RF.ErrorConfidence
  {
    var t1 := RunNode(nodes, ClassificationKey, t).value;
    var t2 := Handle(nodes, RouteByIntent(t1.state.intent), t1).value;
    assert t2.state.confidence == t.state.confidence;
    assert Steps(nodes, t) == Done(RunNode(nodes, FormattingKey, t2).value);
  }

  // ---------------------------------------------------------------------
  // BaseWorkflow: memoised compilation and mode dispatch

  /** What `build_workflow` returns: the compiled graph, or the wrapper around the fallback. Both offer `ainvoke`. */
  datatype Compiled = CompiledGraph | FallbackWrapper

  /** A workflow: its nodes and, once built, its compiled form. */
  datatype Workflow = Workflow(nodes: Registry, compiled: Option<Compiled>)

  /** `create_chat_workflow`: nothing compiled yet. */
  function NewWorkflow(nodes: Registry): (w: Workflow)
    ensures w.nodes == nodes && w.compiled.None?
  {
    Workflow(nodes, None)
  }

  /** `build_workflow`: the graph when the graph library is importable, else the wrapper. */
  function Build(langgraph: bool): (c: Compiled)
    ensures c.CompiledGraph? <==> langgraph
  {
    if langgraph then CompiledGraph else FallbackWrapper
  }

  datatype Compilation = Compilation(compiled: Compiled, workflow: Workflow)

  /** `get_compiled_workflow`: builds on the first call and keeps the result. */
  function GetCompiled(w: Workflow, langgraph: bool): (c: Compilation)
    ensures c.workflow.nodes == w.nodes && c.workflow.compiled == Some(c.compiled)
    ensures w.compiled.Some? ==> c.compiled == w.compiled.value && c.workflow == w
    ensures w.compiled.None? ==> c.compiled == Build(langgraph)
  {
    match w.compiled
    case Some(compiled) => Compilation(compiled, w)
    case None =>
      var compiled := Build(langgraph);
      Compilation(compiled, w.(compiled := Some(compiled)))
  }

  /** Once built, the compiled workflow is the same on every later call, and nothing is rebuilt. */
  lemma BuiltOnce(w: Workflow, a: bool, b: bool)
    ensures var first := GetCompiled(w, a);
      GetCompiled(first.workflow, b) == first
  {
  }

  /** Both compiled forms offer `ainvoke`. */
  predicate HasAinvoke(c: Compiled) {
    c.CompiledGraph? || c.FallbackWrapper?
  }

  /** The outcome of `execute` and the workflow with its compiled form kept. */
  datatype Execution = Execution(outcome: Result<Turn, Exception>, workflow: Workflow)

  /**
   * `execute`: `ainvoke` of the compiled form when the graph library is
   * available, the fallback otherwise. The wrapper's `ainvoke` is the
   * fallback too.
   */
  function Execute(w: Workflow, langgraph: bool, t: Turn): (e: Execution)
    ensures e.outcome.Success? ==> e.outcome.value.tools.Names() == t.tools.Names()
    ensures e.workflow == GetCompiled(w, langgraph).workflow
    ensures !langgraph ==> e.outcome == Success(FallbackExecution(w.nodes, t))
    ensures GetCompiled(w, langgraph).compiled.FallbackWrapper? ==> e.outcome == Success(FallbackExecution(w.nodes, t))
    ensures langgraph && GetCompiled(w, langgraph).compiled.CompiledGraph? ==>
      e.outcome == Walk(Entry, w.nodes, t, RecursionLimit)
  {
    var c := GetCompiled(w, langgraph);
    var outcome :=
      if langgraph && HasAinvoke(c.compiled) then
        match c.compiled
        case CompiledGraph => Walk(Entry, w.nodes, t, RecursionLimit)
        case FallbackWrapper => Success(FallbackExecution(w.nodes, t))
      else Success(FallbackExecution(w.nodes, t));
    Execution(outcome, c.workflow)
  }

  /**
   * With every node present both modes give the same final state and
   * tools, and neither raises.
   */
  lemma ModesAgree(w: Workflow, t: Turn, langgraph: bool)
    requires AllNodes <= w.nodes.keys
    ensures Execute(w, langgraph, t).outcome == Success(FallbackExecution(w.nodes, t))
  {
    if langgraph && GetCompiled(w, langgraph).compiled.CompiledGraph? {
      GraphMatchesFallback(w.nodes, t);
    }
  }
}
