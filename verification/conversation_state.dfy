/**
 * The conversation state threaded through the modular workflow and the
 * `StateManager` helpers that update it. The state is a record: every key
 * of the dictionary is always present, so the helpers' `get(key, default)`
 * defaults never apply. Timestamps and logging are not modelled.
 */
module ConversationState {
  import opened Wrappers
  import opened Values

  /** One previous message: a dictionary such as `{'role': ..., 'content': ...}`. */
  type Message = map<string, string>

  datatype State = State(
    userMessage: string,
    userId: Option<string>,
    conversationId: Option<string>,
    history: seq<Message>,
    intent: Option<string>,
    intentConfidence: real,
    step: string,
    toolResult: Option<Data>,
    toolType: Option<string>,
    toolSuccess: bool,
    response: Option<string>,
    sources: seq<string>,
    confidence: real,
    suggestedActions: seq<string>,
    metadata: Data,
    errorInfo: Option<Data>
  )

  /** The processing-step markers the helpers write. */
  const Initialized := "initialized"
  const IntentClassified := "intent_classified"
  const ResponseFormatted := "response_formatted"
  const ResetStep := "reset"

  /** The fields of the state, for stating what an update leaves alone. */
  datatype Field =
    | UserMessageF | UserIdF | ConversationIdF | HistoryF
    | IntentF | IntentConfidenceF | StepF
    | ToolResultF | ToolTypeF | ToolSuccessF
    | ResponseF | SourcesF | ConfidenceF | ActionsF
    | MetadataF | ErrorInfoF

  /** Every field of `r` outside `changed` equals the same field of `s`. */
  predicate Keeps(s: State, r: State, changed: set<Field>) {
    && (UserMessageF !in changed ==> r.userMessage == s.userMessage)
    && (UserIdF !in changed ==> r.userId == s.userId)
    && (ConversationIdF !in changed ==> r.conversationId == s.conversationId)
    && (HistoryF !in changed ==> r.history == s.history)
    && (IntentF !in changed ==> r.intent == s.intent)
    && (IntentConfidenceF !in changed ==> r.intentConfidence == s.intentConfidence)
    && (StepF !in changed ==> r.step == s.step)
    && (ToolResultF !in changed ==> r.toolResult == s.toolResult)
    && (ToolTypeF !in changed ==> r.toolType == s.toolType)
    && (ToolSuccessF !in changed ==> r.toolSuccess == s.toolSuccess)
    && (ResponseF !in changed ==> r.response == s.response)
    && (SourcesF !in changed ==> r.sources == s.sources)
    && (ConfidenceF !in changed ==> r.confidence == s.confidence)
    && (ActionsF !in changed ==> r.suggestedActions == s.suggestedActions)
    && (MetadataF !in changed ==> r.metadata == s.metadata)
    && (ErrorInfoF !in changed ==> r.errorInfo == s.errorInfo)
  }

  /** A state that keeps every field outside `changed`, confidence among them, keeps the confidence. */
  lemma KeepsConfidence(s: State, r: State, changed: set<Field>)
    requires Keeps(s, r, changed) && ConfidenceF !in changed
    ensures r.confidence == s.confidence
  {
  }

  /** The input fields a reset keeps. */
  const InputFields: set<Field> := {UserMessageF, UserIdF, ConversationIdF, HistoryF, MetadataF}

  /**
   * `initialize_state`: the inputs as given (history defaulting to the empty
   * list) and every processing field empty.
   */
  function Initialize(
    userMessage: string,
    userId: Option<string>,
    conversationId: Option<string> := None,
    history: Option<seq<Message>> := None
  ): (s: State)
    ensures s.userMessage == userMessage && s.userId == userId && s.conversationId == conversationId
    ensures s.history == (if history.Some? then history.value else [])
    ensures s.intent.None? && s.intentConfidence == 0.0 && s.step == Initialized
    ensures s.toolResult.None? && s.toolType.None? && !s.toolSuccess
    ensures s.response.None? && s.sources == [] && s.confidence == 0.0 && s.suggestedActions == []
    ensures s.metadata == map[] && s.errorInfo.None?
  {
    State(userMessage, userId, conversationId, history.GetOr([]),
      None, 0.0, Initialized,
      None, None, false,
      None, [], 0.0, [],
      map[], None)
  }

  /** `update_intent`: records the intent and its confidence and nothing else. */
  function UpdateIntent(s: State, intent: string, confidence: real): (r: State)
    ensures r.intent == Some(intent) && r.intentConfidence == confidence && r.step == IntentClassified
    ensures Keeps(s, r, {IntentF, IntentConfidenceF, StepF})
  {
    s.(intent := Some(intent), intentConfidence := confidence, step := IntentClassified)
  }

  /** The step marker `update_tool_result` writes: `f"{tool_type}_executed"`. */
  function ExecutedStep(toolType: string): string {
    toolType + "_executed"
  }

  /**
   * `update_tool_result`: records the tool's outcome; the sources are
   * replaced only by a non-empty list.
   */
  function UpdateToolResult(s: State, toolType: string, toolResult: Data, success: bool, sources: seq<string> := []): (r: State)
    ensures r.toolType == Some(toolType) && r.toolResult == Some(toolResult) && r.toolSuccess == success
    ensures r.step == ExecutedStep(toolType)
    ensures r.sources == (if |sources| > 0 then sources else s.sources)
    ensures Keeps(s, r, {ToolTypeF, ToolResultF, ToolSuccessF, StepF, SourcesF})
  {
    var r := s.(toolType := Some(toolType), toolResult := Some(toolResult), toolSuccess := success,
      step := ExecutedStep(toolType));
    if |sources| > 0 then r.(sources := sources) else r
  }

  /**
   * `update_response`: records the final text and confidence; the suggested
   * actions are replaced only by a non-empty list.
   */
  function UpdateResponse(s: State, response: string, confidence: real, actions: seq<string> := []): (r: State)
    ensures r.response == Some(response) && r.confidence == confidence && r.step == ResponseFormatted
    ensures r.suggestedActions == (if |actions| > 0 then actions else s.suggestedActions)
    ensures Keeps(s, r, {ResponseF, ConfidenceF, StepF, ActionsF})
  {
    var r := s.(response := Some(response), confidence := confidence, step := ResponseFormatted);
    if |actions| > 0 then r.(suggestedActions := actions) else r
  }

  /** The error record `add_error` stores (its timestamp left out). */
  function ErrorRecord(errorType: string, message: string, details: Option<Data>, step: string): Data {
    map["type" := Str(errorType), "message" := Str(message),
        "details" := Dict(details.GetOr(map[])), "processing_step" := Str(step)]
  }

  /**
   * `add_error`: stores the error with a snapshot of the current step,
   * details defaulting to the empty dictionary; the step itself is kept.
   */
  function AddError(s: State, errorType: string, message: string, details: Option<Data> := None): (r: State)
    ensures r.errorInfo.Some? && r.errorInfo.value.Keys == {"type", "message", "details", "processing_step"}
    ensures r.errorInfo.value["type"] == Str(errorType) && r.errorInfo.value["message"] == Str(message)
    ensures r.errorInfo.value["processing_step"] == Str(s.step)
    ensures r.errorInfo.value["details"] == Dict(if details.Some? then details.value else map[])
    ensures Keeps(s, r, {ErrorInfoF})
  {
    s.(errorInfo := Some(ErrorRecord(errorType, message, details, s.step)))
  }

  /** `validate_state`: both required inputs are present and not None. */
  predicate Valid(s: State) {
    s.userId.Some?
  }

  /** A state is valid exactly when it was initialized with a user id, the empty string included. */
  lemma ValidIffUserId(m: string, u: Option<string>, c: Option<string>, h: Option<seq<Message>>)
    ensures Valid(Initialize(m, u, c, h)) <==> u.Some?
    ensures Valid(Initialize("", Some(""), c, h))
  {
  }

  /** `is_ready_for_response` */
  predicate ReadyForResponse(s: State) {
    s.intent.Some? && s.toolResult.Some? && s.toolSuccess
  }

  /**
   * `reset_processing_state`: clears every processing field and keeps the
   * inputs and the metadata.
   */
  function Reset(s: State): (r: State)
    ensures Keeps(s, r, (set f: Field | f !in InputFields))
    ensures r.intent.None? && r.intentConfidence == 0.0 && r.step == ResetStep
    ensures r.toolResult.None? && r.toolType.None? && !r.toolSuccess
    ensures r.response.None? && r.sources == [] && r.confidence == 0.0 && r.suggestedActions == []
    ensures r.errorInfo.None?
  {
    s.(intent := None, intentConfidence := 0.0, step := ResetStep,
       toolResult := None, toolType := None, toolSuccess := false,
       response := None, sources := [], confidence := 0.0, suggestedActions := [],
       errorInfo := None)
  }

  /**
   * A reset brings any state back to the freshly initialized state of the
   * same inputs, except for the step marker and the kept metadata.
   */
  lemma ResetMatchesInitialize(s: State)
    ensures Reset(s) == Initialize(s.userMessage, s.userId, s.conversationId, Some(s.history))
                          .(step := ResetStep, metadata := s.metadata)
    ensures !ReadyForResponse(Reset(s)) && Reset(Reset(s)) == Reset(s)
  {
  }

  /** Classifying and then recording a successful tool result makes the state ready to respond. */
  lemma ReadyAfterSuccessfulTool(s: State, intent: string, c: real, toolType: string, result: Data, sources: seq<string>)
    ensures ReadyForResponse(UpdateToolResult(UpdateIntent(s, intent, c), toolType, result, true, sources))
    ensures !ReadyForResponse(UpdateToolResult(UpdateIntent(s, intent, c), toolType, result, false, sources))
  {
  }
}
