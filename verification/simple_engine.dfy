/**
 * `SimpleLangGraphEngine`: the older engine. With the graph library it
 * runs three steps over a state dictionary (classify the intent with the
 * LLM, act on the exact intent string, format the reply); without it,
 * every query takes a keyword router. The search, complaint and LLM
 * services are oracles.
 */
module SimpleEngine {
  import opened Wrappers
  import opened Text
  import opened Values
  import opened Errors
  import CS = ConversationState
  import DM = DocumentModel
  import CM = ComplaintModel
  import DT = DocumentTool
  import CT = ComplaintTool
  import LT = LlmTool
  import RF = ResponseFormatting
  import E = Engine

  /** The engine: its three services and whether the graph library could be imported. */
  datatype SimpleEngine = SimpleEngine(
    search: DT.SearchService,
    submit: CT.ComplaintService,
    llm: LT.Llm,
    graph: bool
  )

  /** The `ConversationState` dictionary the three steps pass along. */
  datatype GraphState = GraphState(
    userMessage: string,
    userId: string,
    history: seq<CS.Message>,
    intent: Option<string>,
    toolResult: Option<Data>,
    response: Option<string>,
    sources: seq<string>,
    confidence: real,
    actions: seq<string>,
    metadata: Data
  )

  const InitialConfidence := 0.8

  /** The state a graph run starts from. */
  function InitialState(message: string, ctx: E.Context): (s: GraphState)
    ensures s.userMessage == message && s.userId == ctx.userId && s.history == ctx.history
    ensures s.intent.None? && s.toolResult.None? && s.response.None?
    ensures s.sources == [] && s.actions == [] && s.metadata == map[]
    ensures s.confidence == InitialConfidence
  {
    GraphState(message, ctx.userId, ctx.history, None, None, None, [], InitialConfidence, [], map[])
  }

  // ---------------------------------------------------------------------
  // Step 1: intent

  const Pregunta := "pregunta"
  const Queja := "queja"
  const Conversacion := "conversacion"

  const IntentPromptHead :=
    "\nAnaliza este mensaje de un estudiante de Universidad del Pacífico y clasifica su intención:\n\n"
    + "Mensaje: \""
  const IntentPromptTail :=
    "\"\n\nResponde con UNA sola palabra:\n"
    + "- \"pregunta\" - si está preguntando sobre procedimientos, reglamentos, fechas límite de UP\n"
    + "- \"queja\" - si está reportando un problema, issue o queja\n"
    + "- \"conversacion\" - si es saludo, agradecimiento, o conversación general\n\n"
    + "Respuesta:"
  const IntentTokens := 10
  const IntentTemperature := 0.1

  /** The LLM's answer to the classification prompt around the user's message. */
  function IntentReply(llm: LT.Llm, message: string): Result<string, Exception> {
    llm.generate(IntentPromptHead + message + IntentPromptTail, IntentTokens, IntentTemperature)
  }

  /**
   * `_classify_intent`: the intent is the LLM's reply stripped and
   * lower-cased, whatever it says; when the LLM fails it is 'conversacion'.
   * Nothing else in the state changes.
   */
  function ClassifyIntent(llm: LT.Llm, s: GraphState): (r: GraphState)
    ensures r == s.(intent := r.intent) && r.intent.Some?
    ensures IntentReply(llm, s.userMessage).Failure? ==> r.intent == Some(Conversacion)
    ensures IntentReply(llm, s.userMessage).Success? ==>
      r.intent == Some(Lower(Strip(IntentReply(llm, s.userMessage).value)))
  {
    match IntentReply(llm, s.userMessage)
    case Success(reply) => s.(intent := Some(Lower(Strip(reply))))
    case Failure(_) => s.(intent := Some(Conversacion))
  }

  // ---------------------------------------------------------------------
  // Step 2: action

  /** What the action step writes: the tool result, the sources and the confidence. */
  datatype Action = Action(toolResult: Data, sources: seq<string>, confidence: real)

  const SearchLimit := 3
  const SearchThreshold := 0.7
  /** Sources are the file names of at most this many leading chunks. */
  const CitedChunks := 2
  const ConfidenceCap := 0.9
  const ConfidenceBonus := 0.1
  const NotFoundConfidence := 0.3
  const ReportTitle := "Reporte desde chat"
  const ShortIdChars := 8
  const SubmittedConfidence := 0.95
  const ChatTokens := 200
  const ChatTemperature := 0.7
  const ChatConfidence := 0.8
  const ErrorConfidence := 0.1
  const NotFoundMessage := "No encontré información específica sobre eso en los documentos de UP."

  /** Python's `min(a, b)`. */
  function Min(a: real, b: real): (m: real)
    ensures m <= a && m <= b && (m == a || m == b)
  {
    if b < a then b else a
  }

  /** `tool_result['type']`, or none when it is absent. */
  function Kind(d: Data): Value {
    Get(d, "type", Null)
  }

  function FoundResult(best: DM.Chunk): (d: Data)
    ensures "type" in d && Kind(d) == Str("document_search")
    ensures Get(d, "similarity_score", Null) == Real(best.similarityScore)
  {
    map["type" := Str("document_search"), "content" := Str(best.content),
        "document_name" := Str(best.document.filename), "similarity_score" := Real(best.similarityScore)]
  }

  const NotFoundResult: Data := map["type" := Str("no_documents"), "message" := Str(NotFoundMessage)]

  /** The result's short id is the first eight characters of its complaint id. */
  predicate ShortIdOf(d: Data) {
    && Get(d, "short_id", Null).Str? && Get(d, "complaint_id", Null).Str?
    && Get(d, "short_id", Null).s == Take(Get(d, "complaint_id", Null).s, ShortIdChars)
  }

  function SubmittedResult(c: CM.Complaint): (d: Data)
    ensures "type" in d && Kind(d) == Str("complaint_submitted")
    ensures ShortIdOf(d)
  {
    map["type" := Str("complaint_submitted"), "complaint_id" := Str(c.id), "short_id" := Str(Take(c.id, ShortIdChars))]
  }

  function ChatResult(reply: string): (d: Data)
    ensures "type" in d && Kind(d) == Str("general_chat")
  {
    map["type" := Str("general_chat"), "response" := Str(reply)]
  }

  const ErrorResult: Data := map["type" := Str("error"), "response" := Str(RF.Apology)]

  /** The file names of the chunks, in order. */
  function Filenames(chunks: seq<DM.Chunk>): (names: seq<string>)
    ensures |names| == |chunks|
    ensures forall i :: 0 <= i < |chunks| ==> names[i] == chunks[i].document.filename
  {
    if chunks == [] then [] else [chunks[0].document.filename] + Filenames(chunks[1..])
  }

  /** The general-chat prompt around the user's message. */
  function ChatPrompt(message: string): string {
    "\nEres un asistente útil para estudiantes de Universidad del Pacífico en Lima, Perú.\n"
    + "Responde de manera amigable y profesional.\n\n"
    + "Estudiante: " + message + "\n\nRespuesta:"
  }

  /** The LLM's answer to the general-chat prompt. */
  function ChatReply(e: SimpleEngine, message: string): Result<string, Exception> {
    e.llm.generate(ChatPrompt(message), ChatTokens, ChatTemperature)
  }

  /** The search a question makes. */
  function Search(e: SimpleEngine, message: string): (r: Result<DM.SearchResponse, Exception>)
    ensures DM.NewSearchRequest(message, None, None, SearchLimit, SearchThreshold).Failure? ==> r.Failure?
    ensures 1 <= |Strip(message)| <= DM.MaxQuery ==>
      var request := DM.NewSearchRequest(message, None, None, SearchLimit, SearchThreshold);
      && request.Success?
      && request.value.query == Strip(message) && request.value.limit == 3 && request.value.similarityThreshold == 0.7
      && request.value.documentType.None? && request.value.faculty.None?
      && r == e.search(request.value)
  {
    var request :- DM.NewSearchRequest(message, None, None, SearchLimit, SearchThreshold);
    e.search(request)
  }

  /** The complaint a report files: anonymous, category OTHER, a fixed title. */
  function Report(e: SimpleEngine, message: string, userId: string): (r: Result<CM.Complaint, Exception>)
    ensures |Strip(message)| < CM.MinDescription ==> r.Failure? && r.error.TypeName() == "ValidationError"
    ensures CM.MinDescription <= |Strip(message)| <= CM.MaxDescription ==>
      var request := CM.NewSubmissionRequest(ReportTitle, message, CM.Other, true, Some(userId));
      && request.Success?
      && request.value.title == "Reporte desde chat" && request.value.description == Strip(message)
      && request.value.category == CM.Other && request.value.isAnonymous
      && request.value.userId == Some(Strip(userId)) && request.value.conversationId.None?
      && r == e.submit(request.value)
    ensures |Strip(message)| > CM.MaxDescription ==> r.Failure? && r.error.TypeName() == "ValidationError"
  {
    var request :- CM.NewSubmissionRequest(ReportTitle, message, CM.Other, true, Some(userId));
    e.submit(request)
  }

  /** The result types the action step's `try` body can write for an intent. */
  function KindsOf(intent: Option<string>): set<Value> {
    if intent == Some(Pregunta) then {Str("document_search"), Str("no_documents")}
    else if intent == Some(Queja) then {Str("complaint_submitted")}
    else {Str("general_chat")}
  }

  /** The body of `_execute_action`'s `try`, on the exact intent string. */
  function Act(e: SimpleEngine, intent: Option<string>, message: string, userId: string): (r: Result<Action, Exception>)
    ensures r.Success? ==> "type" in r.value.toolResult && Kind(r.value.toolResult) in KindsOf(intent)
  {
    if intent == Some(Pregunta) then
      var found :- Search(e, message);
      if |found.chunks| > 0 then
        var best := found.chunks[0];
        var leading := if |found.chunks| <= CitedChunks then found.chunks else found.chunks[..CitedChunks];
        Success(Action(FoundResult(best), Filenames(leading),
          Min(ConfidenceCap, best.similarityScore + ConfidenceBonus)))
      else
        Success(Action(NotFoundResult, [], NotFoundConfidence))
    else if intent == Some(Queja) then
      var complaint :- Report(e, message, userId);
      Success(Action(SubmittedResult(complaint), [], SubmittedConfidence))
    else
      var reply :- ChatReply(e, message);
      Success(Action(ChatResult(reply), [], ChatConfidence))
  }

  /**
   * What the `try` body records per intent: for a question, the best
   * chunk's score plus 0.1 capped at 0.9 and one or two cited file names,
   * or the not-found result at 0.3; for a complaint, the confirmation at
   * 0.95 with the short id; otherwise the chat reply at 0.8.
   */
  lemma ActFigures(e: SimpleEngine, intent: Option<string>, message: string, userId: string)
    requires Act(e, intent, message, userId).Success?
    ensures var a := Act(e, intent, message, userId).value;
      && (intent == Some(Pregunta) ==>
        if Kind(a.toolResult) == Str("document_search") then
          && 1 <= |a.sources| <= CitedChunks
          && Get(a.toolResult, "similarity_score", Null).Real?
          && a.confidence == Min(ConfidenceCap, Get(a.toolResult, "similarity_score", Null).r + ConfidenceBonus)
        else a == Action(NotFoundResult, [], NotFoundConfidence))
      && (intent == Some(Queja) ==>
        && Kind(a.toolResult) == Str("complaint_submitted") && ShortIdOf(a.toolResult)
        && a.sources == [] && a.confidence == SubmittedConfidence)
      && (intent != Some(Pregunta) && intent != Some(Queja) ==>
        Kind(a.toolResult) == Str("general_chat") && a.sources == [] && a.confidence == ChatConfidence)
  {
    if intent == Some(Pregunta) {
      QuestionFigures(e, message, userId);
    } else if intent == Some(Queja) {
      ComplaintFigures(e, message, userId);
    } else {
      ChatFigures(e, intent, message, userId);
    }
  }

  /** The question case of `ActFigures`. */
  lemma QuestionFigures(e: SimpleEngine, message: string, userId: string)
    requires Act(e, Some(Pregunta), message, userId).Success?
    ensures var a := Act(e, Some(Pregunta), message, userId).value;
      if Kind(a.toolResult) == Str("document_search") then
        && 1 <= |a.sources| <= CitedChunks
        && Get(a.toolResult, "similarity_score", Null).Real?
        && a.confidence == Min(ConfidenceCap, Get(a.toolResult, "similarity_score", Null).r + ConfidenceBonus)
      else a == Action(NotFoundResult, [], NotFoundConfidence)
  {
    var a := Act(e, Some(Pregunta), message, userId).value;
    var found := Search(e, message).value;
    if |found.chunks| > 0 {
      assert a.toolResult == FoundResult(found.chunks[0]);
    } else {
      assert a == Action(NotFoundResult, [], NotFoundConfidence);
    }
  }

  /** The complaint case of `ActFigures`. */
  lemma ComplaintFigures(e: SimpleEngine, message: string, userId: string)
    requires Act(e, Some(Queja), message, userId).Success?
    ensures var a := Act(e, Some(Queja), message, userId).value;
      && Kind(a.toolResult) == Str("complaint_submitted") && ShortIdOf(a.toolResult)
      && a.sources == [] && a.confidence == SubmittedConfidence
  {
    var a := Act(e, Some(Queja), message, userId).value;
    assert a.toolResult == SubmittedResult(Report(e, message, userId).value);
  }

  /** The general-chat case of `ActFigures`. */
  lemma ChatFigures(e: SimpleEngine, intent: Option<string>, message: string, userId: string)
    requires intent != Some(Pregunta) && intent != Some(Queja)
    requires Act(e, intent, message, userId).Success?
    ensures var a := Act(e, intent, message, userId).value;
      Kind(a.toolResult) == Str("general_chat") && a.sources == [] && a.confidence == ChatConfidence
  {
    var a := Act(e, intent, message, userId).value;
    assert a.toolResult == ChatResult(ChatReply(e, message).value);
  }

  /**
   * `_execute_action`: only the exact intents 'pregunta' and 'queja' reach
   * the search and the complaint service; every other intent is general
   * chat. A failure anywhere leaves an error result at confidence 0.1.
   */
  function ExecuteAction(e: SimpleEngine, s: GraphState): (r: GraphState)
    ensures r == s.(toolResult := r.toolResult, sources := r.sources, confidence := r.confidence)
    ensures r.toolResult.Some? && "type" in r.toolResult.value
    ensures Kind(r.toolResult.value) in KindsOf(s.intent) || r.toolResult.value == ErrorResult
  {
    match Act(e, s.intent, s.userMessage, s.userId)
    case Success(a) => s.(toolResult := Some(a.toolResult), sources := a.sources, confidence := a.confidence)
    case Failure(_) => s.(toolResult := Some(ErrorResult), sources := [], confidence := ErrorConfidence)
  }

  /**
   * The result type follows the intent: a document result only for a
   * question, a confirmation only for a complaint, and for any other
   * intent general chat or the error result.
   */
  lemma KindFollowsIntent(e: SimpleEngine, s: GraphState)
    ensures var r := ExecuteAction(e, s);
      && (Kind(r.toolResult.value) in {Str("document_search"), Str("no_documents")} ==> s.intent == Some(Pregunta))
      && (Kind(r.toolResult.value) == Str("complaint_submitted") ==> s.intent == Some(Queja))
      && (s.intent != Some(Pregunta) && s.intent != Some(Queja) ==>
        Kind(r.toolResult.value) in {Str("general_chat"), Str("error")})
  {
    var r := ExecuteAction(e, s);
    KindsSeparate(s.intent, r.toolResult.value);
  }

  /** A result of a type the intent allows, or the error result, tells the intent apart. */
  lemma KindsSeparate(intent: Option<string>, d: Data)
    requires Kind(d) in KindsOf(intent) || d == ErrorResult
    ensures Kind(d) in {Str("document_search"), Str("no_documents")} ==> intent == Some(Pregunta)
    ensures Kind(d) == Str("complaint_submitted") ==> intent == Some(Queja)
    ensures intent != Some(Pregunta) && intent != Some(Queja) ==> Kind(d) in {Str("general_chat"), Str("error")}
  {
    KindsDiffer();
    assert Kind(ErrorResult) == Str("error");
  }

  /**
   * What each result type of the action step carries: a found document
   * cites one or two file names at the capped score plus 0.1, no document
   * 0.3 with no `error` key, a filed complaint 0.95 and its short id,
   * general chat 0.8, and a failure the error result at 0.1.
   */
  lemma ActionFigures(e: SimpleEngine, s: GraphState)
    ensures var r := ExecuteAction(e, s);
      && (Kind(r.toolResult.value) == Str("document_search") ==>
        && r.confidence <= ConfidenceCap
        && 1 <= |r.sources| <= CitedChunks
        && Get(r.toolResult.value, "similarity_score", Null).Real?
        && r.confidence == Min(ConfidenceCap, Get(r.toolResult.value, "similarity_score", Null).r + ConfidenceBonus))
      && (Kind(r.toolResult.value) == Str("no_documents") ==>
        r.confidence == NotFoundConfidence && r.sources == [] && "error" !in r.toolResult.value)
      && (Kind(r.toolResult.value) == Str("complaint_submitted") ==>
        && r.confidence == SubmittedConfidence && r.sources == []
        && ShortIdOf(r.toolResult.value))
      && (Kind(r.toolResult.value) == Str("general_chat") ==> r.confidence == ChatConfidence && r.sources == [])
      && (Kind(r.toolResult.value) == Str("error") ==>
        r.confidence == ErrorConfidence && r.sources == [] && r.toolResult.value == ErrorResult)
  {
    KindsDiffer();
    if Act(e, s.intent, s.userMessage, s.userId).Success? {
      ActFigures(e, s.intent, s.userMessage, s.userId);
    }
  }

  /** The five result types are told apart. */
  lemma KindsDiffer()
    ensures Str("document_search") != Str("no_documents") && Str("document_search") != Str("complaint_submitted")
    ensures Str("document_search") != Str("general_chat") && Str("document_search") != Str("error")
    ensures Str("no_documents") != Str("complaint_submitted") && Str("no_documents") != Str("general_chat")
    ensures Str("no_documents") != Str("error") && Str("complaint_submitted") != Str("general_chat")
    ensures Str("complaint_submitted") != Str("error") && Str("general_chat") != Str("error")
  {
    assert "no_documents"[0] != "general_chat"[0];
  }

  /** Only the exact intents 'pregunta' and 'queja' consult the search and complaint services. */
  lemma OtherIntentsIgnoreServices(e1: SimpleEngine, e2: SimpleEngine, s: GraphState)
    requires e1.llm == e2.llm
    requires s.intent != Some(Pregunta) && s.intent != Some(Queja)
    ensures ExecuteAction(e1, s) == ExecuteAction(e2, s)
  {
  }

  /**
   * A report whose stripped text is shorter than the shortest complaint
   * description is never filed: the request is rejected before the
   * service is called, and the step records the error result.
   */
  lemma ShortReportNeverFiled(e: SimpleEngine, s: GraphState)
    requires s.intent == Some(Queja) && |Strip(s.userMessage)| < CM.MinDescription
    ensures ExecuteAction(e, s).toolResult == Some(ErrorResult)
    ensures ExecuteAction(e, s).confidence == ErrorConfidence
  {
    assert Report(e, s.userMessage, s.userId).Failure?;
  }

  // ---------------------------------------------------------------------
  // Step 3: formatting

  const NotFoundTail :=
    "\n\n¿Podrías ser más específico o usar palabras clave diferentes? También puedo ayudarte con:\n"
    + "• Procedimientos académicos\n• Fechas límite importantes\n• Reglamentos de la universidad"
  const NotFoundActions := ["Intenta con palabras clave más específicas", "Pregunta sobre un tema específico"]
  const ChatActions := ["Pregunta sobre procedimientos de UP", "Reporta un problema"]
  const ErrorActions := ["Intenta reformular tu pregunta", "Contacta soporte si el problema persiste"]
  const FormatFailure := "Lo siento, hubo un error procesando tu mensaje."

  /**
   * `tool_result[key]` as the f-string or the state receives it; a missing
   * key raises `KeyError`.
   */
  function Field(d: Data, key: string): (r: Result<string, Exception>)
    ensures r.Success? <==> key in d
    ensures key in d && d[key].Str? ==> r.value == d[key].s
  {
    if key in d then Success(Show(d[key])) else Failure(MissingKey(key))
  }

  /** The `try` body of `_format_response`: the reply text and actions by result type. */
  function Compose(toolResult: Option<Data>): (r: Result<RF.Reply, Exception>)
    ensures toolResult.None? ==> r.Failure?
    ensures toolResult.Some? && "type" !in toolResult.value ==> r.Failure?
  {
    if toolResult.None? then Failure(NoneSubscript())
    else
      var d := toolResult.value;
      if "type" !in d then Failure(MissingKey("type"))
      else if d["type"] == Str("document_search") then
        var content :- Field(d, "content");
        var name :- Field(d, "document_name");
        Success(RF.Reply(RF.DocumentsHeader + content + RF.SourceLabel + name, RF.FoundActions))
      else if d["type"] == Str("no_documents") then
        var message :- Field(d, "message");
        Success(RF.Reply(message + NotFoundTail, NotFoundActions))
      else if d["type"] == Str("complaint_submitted") then
        var shortId :- Field(d, "short_id");
        Success(RF.Reply(RF.ConfirmationHead + shortId + RF.ConfirmationTail, RF.SubmittedActions))
      else if d["type"] == Str("general_chat") then
        var reply :- Field(d, "response");
        Success(RF.Reply(reply, ChatActions))
      else
        var reply :- Field(d, "response");
        Success(RF.Reply(reply, ErrorActions))
  }

  /** The metadata a formatted state carries. */
  function Formatted(d: Data): (m: Data)
    requires "type" in d
    ensures m.Keys == {"tool_used", "processing_time"}
  {
    map["tool_used" := d["type"], "processing_time" := Null]
  }

  /**
   * `_format_response`: the reply depends on the result type; an unknown
   * type is answered like an error, echoing the result's 'response'. When
   * the result cannot be read the reply is a fixed apology with no actions
   * and the metadata is left alone.
   */
  function FormatResponse(s: GraphState): (r: GraphState)
    ensures r == s.(response := r.response, actions := r.actions, metadata := r.metadata)
    ensures r.response.Some?
    ensures r.metadata == s.metadata || r.metadata.Keys == {"tool_used", "processing_time"}
    ensures Compose(s.toolResult).Failure? <==> r.response == Some(FormatFailure) && r.actions == []
    ensures Compose(s.toolResult).Failure? ==> r.metadata == s.metadata
    ensures Compose(s.toolResult).Success? ==>
      && r.metadata == Formatted(s.toolResult.value)
      && r.response == Some(Compose(s.toolResult).value.text)
      && r.actions == Compose(s.toolResult).value.actions
  {
    match Compose(s.toolResult)
    case Success(reply) =>
      s.(response := Some(reply.text), actions := reply.actions, metadata := Formatted(s.toolResult.value))
    case Failure(_) => s.(response := Some(FormatFailure), actions := [])
  }

  /** The error result is answered with its own apology and the error actions. */
  lemma ErrorResultFormats()
    ensures Compose(Some(ErrorResult)) == Success(RF.Reply(RF.Apology, ErrorActions))
  {
    assert Field(ErrorResult, "response") == Success(RF.Apology);
  }

  /** A found document is formatted as the header, its content and its file name. */
  lemma FoundFormats(best: DM.Chunk)
    ensures Compose(Some(FoundResult(best))) ==
      Success(RF.Reply(RF.DocumentsHeader + best.content + RF.SourceLabel + best.document.filename, RF.FoundActions))
  {
    var d := FoundResult(best);
    assert Field(d, "content") == Success(best.content);
    assert Field(d, "document_name") == Success(best.document.filename);
  }

  lemma NotFoundFormats()
    ensures Compose(Some(NotFoundResult)) == Success(RF.Reply(NotFoundMessage + NotFoundTail, NotFoundActions))
  {
    assert Field(NotFoundResult, "message") == Success(NotFoundMessage);
  }

  /** A filed complaint is confirmed with its short id. */
  lemma SubmittedFormats(c: CM.Complaint)
    ensures Compose(Some(SubmittedResult(c))) ==
      Success(RF.Reply(RF.ConfirmationHead + Take(c.id, ShortIdChars) + RF.ConfirmationTail, RF.SubmittedActions))
  {
    assert Field(SubmittedResult(c), "short_id") == Success(Take(c.id, ShortIdChars));
  }

  /** General chat answers with the LLM's text as it is. */
  lemma ChatFormats(reply: string)
    ensures Compose(Some(ChatResult(reply))) == Success(RF.Reply(reply, ChatActions))
  {
    assert Field(ChatResult(reply), "response") == Success(reply);
  }

  /** Every result the action step's `try` body writes is formatted without failure. */
  lemma ActedResultsFormat(e: SimpleEngine, intent: Option<string>, message: string, userId: string)
    requires Act(e, intent, message, userId).Success?
    ensures Compose(Some(Act(e, intent, message, userId).value.toolResult)).Success?
  {
    if intent == Some(Pregunta) {
      QuestionResultFormats(e, message, userId);
    } else if intent == Some(Queja) {
      ComplaintResultFormats(e, message, userId);
    } else {
      ChatResultFormats(e, intent, message, userId);
    }
  }

  lemma QuestionResultFormats(e: SimpleEngine, message: string, userId: string)
    requires Act(e, Some(Pregunta), message, userId).Success?
    ensures Compose(Some(Act(e, Some(Pregunta), message, userId).value.toolResult)).Success?
  {
    var d := Act(e, Some(Pregunta), message, userId).value.toolResult;
    var found := Search(e, message).value;
    if |found.chunks| > 0 {
      assert d == FoundResult(found.chunks[0]);
      FoundFormats(found.chunks[0]);
    } else {
      assert d == NotFoundResult;
      NotFoundFormats();
    }
  }

  lemma ComplaintResultFormats(e: SimpleEngine, message: string, userId: string)
    requires Act(e, Some(Queja), message, userId).Success?
    ensures Compose(Some(Act(e, Some(Queja), message, userId).value.toolResult)).Success?
  {
    assert Act(e, Some(Queja), message, userId).value.toolResult == SubmittedResult(Report(e, message, userId).value);
    SubmittedFormats(Report(e, message, userId).value);
  }

  lemma ChatResultFormats(e: SimpleEngine, intent: Option<string>, message: string, userId: string)
    requires intent != Some(Pregunta) && intent != Some(Queja)
    requires Act(e, intent, message, userId).Success?
    ensures Compose(Some(Act(e, intent, message, userId).value.toolResult)).Success?
  {
    assert Act(e, intent, message, userId).value.toolResult == ChatResult(ChatReply(e, message).value);
    ChatFormats(ChatReply(e, message).value);
  }

  /** Formatting never fails on what the action step leaves behind. */
  lemma ActionResultsFormat(e: SimpleEngine, s: GraphState)
    ensures Compose(ExecuteAction(e, s).toolResult).Success?
  {
    match Act(e, s.intent, s.userMessage, s.userId)
    case Success(a) =>
      ActedResultsFormat(e, s.intent, s.userMessage, s.userId);
    case Failure(_) =>
      ErrorResultFormats();
  }

  // ---------------------------------------------------------------------
  // The engine

  /** The three steps in their graph order. */
  function RunGraph(e: SimpleEngine, s: GraphState): (r: GraphState)
    ensures r.response.Some?
    ensures s.metadata == map[] ==> "engine" !in r.metadata && "intent" !in r.metadata
  {
    FormatResponse(ExecuteAction(e, ClassifyIntent(e.llm, s)))
  }

  /** The graph records an intent and a tool result, and leaves the message, the user and the history alone. */
  lemma RunGraphRecords(e: SimpleEngine, s: GraphState)
    ensures var r := RunGraph(e, s);
      && r.toolResult.Some? && r.intent.Some?
      && r.userMessage == s.userMessage && r.userId == s.userId && r.history == s.history
  {
  }

  const GraphEngine := "langgraph"

  /** The response the graph's final state converts into. */
  function ToResponse(result: GraphState): (r: E.Response)
    requires result.response.Some?
    ensures r.text == result.response.value
    ensures r.queryType == E.QueryTypeOf(result.intent)
    ensures r.sources == result.sources && r.confidence == result.confidence
    ensures r.structuredData == result.toolResult && r.suggestedActions == result.actions
    ensures !r.requiresFollowup
    ensures r.metadata.Keys == {"engine", "intent"} + result.metadata.Keys
    ensures "engine" !in result.metadata ==> r.metadata["engine"] == Str(GraphEngine)
    ensures "intent" !in result.metadata ==> r.metadata["intent"] == OptStr(result.intent)
    ensures forall k :: k in result.metadata ==> r.metadata[k] == result.metadata[k]
  {
    E.Response(result.response.value, E.QueryTypeOf(result.intent), result.sources, result.confidence,
      result.toolResult, result.actions, false,
      Merge(map["engine" := Str(GraphEngine), "intent" := OptStr(result.intent)], result.metadata))
  }

  // ---------------------------------------------------------------------
  // Keyword router used without the graph library

  const QuestionKeywords: seq<string> := ["cómo", "cuándo", "dónde", "qué", "quién", "procedimiento", "reglamento"]
  const ComplaintKeywords: seq<string> := ["problema", "issue", "error", "falla", "no funciona"]
  const FallbackLimit := 2
  const FallbackConfidence := 0.7
  const FallbackActions := ["Pregunta sobre procedimientos", "Reporta un problema"]
  const NoInformation := "No encontré información específica sobre eso en los documentos."
  const ProblemNoticed := "He notado que reportas un problema. ¿Podrías dar más detalles para ayudarte mejor?"
  const GreetingHead := "Hola! Soy el asistente de UP. Vi tu mensaje: '"
  const GreetingTail := "'. ¿En qué puedo ayudarte específicamente?"
  const FallbackActionsOnError := ["Intenta de nuevo", "Contacta soporte"]
  const RouterEngine := "fallback"
  const RouterErrorEngine := "error_fallback"

  /** What the router decides: the text, the query type and the sources. */
  datatype Routed = Routed(text: string, queryType: E.QueryType, sources: seq<string>)

  /** The `try` body of `_fallback_processing`. */
  function Route(e: SimpleEngine, message: string): (r: Result<Routed, Exception>)
    ensures !ContainsAny(Lower(message), QuestionKeywords) ==> r.Success?
    ensures r.Success? && r.value.queryType == E.DocumentQa ==>
      ContainsAny(Lower(message), QuestionKeywords) && r.value.sources != []
    ensures r.Success? && r.value.queryType == E.ComplaintSubmission <==>
      !ContainsAny(Lower(message), QuestionKeywords) && ContainsAny(Lower(message), ComplaintKeywords)
    ensures r.Success? ==> r.value.queryType != E.ProcedureHelp
    ensures ContainsAny(Lower(message), QuestionKeywords) ==>
      var request := DM.NewSearchRequest(message, None, None, FallbackLimit);
      && (r.Success? <==> request.Success? && e.search(request.value).Success?)
      && (request.Success? ==>
            request.value.query == Strip(message) && request.value.limit == 2 && request.value.similarityThreshold == 0.7)
      && (r.Success? ==>
            var chunks := e.search(request.value).value.chunks;
            && (chunks != [] ==> r.value == Routed(RF.DocumentsHeader + chunks[0].content, E.DocumentQa, Filenames(chunks)))
            && (chunks == [] ==> r.value == Routed(NoInformation, E.GeneralInfo, [])))
    ensures !ContainsAny(Lower(message), QuestionKeywords) && ContainsAny(Lower(message), ComplaintKeywords) ==>
      r == Success(Routed(ProblemNoticed, E.ComplaintSubmission, []))
    ensures !ContainsAny(Lower(message), QuestionKeywords) && !ContainsAny(Lower(message), ComplaintKeywords) ==>
      r == Success(Routed(GreetingHead + message + GreetingTail, E.GeneralInfo, []))
  {
    var lowered := Lower(message);
    if ContainsAny(lowered, QuestionKeywords) then
      var request :- DM.NewSearchRequest(message, None, None, FallbackLimit);
      var found :- e.search(request);
      if |found.chunks| > 0 then
        Success(Routed(RF.DocumentsHeader + found.chunks[0].content, E.DocumentQa, Filenames(found.chunks)))
      else
        Success(Routed(NoInformation, E.GeneralInfo, []))
    else if ContainsAny(lowered, ComplaintKeywords) then
      Success(Routed(ProblemNoticed, E.ComplaintSubmission, []))
    else
      Success(Routed(GreetingHead + message + GreetingTail, E.GeneralInfo, []))
  }

  /**
   * `_fallback_processing`: confidence 0.7 exactly when routing succeeds,
   * 0.1 with the apology otherwise; the metadata names which.
   */
  function Fallback(e: SimpleEngine, message: string): (r: E.Response)
    ensures r.confidence == FallbackConfidence <==> Route(e, message).Success?
    ensures r.metadata.Keys == {"engine"}
    ensures r.confidence == FallbackConfidence <==> r.metadata["engine"] == Str(RouterEngine)
    ensures r.confidence != FallbackConfidence ==>
      && r.confidence == ErrorConfidence && r.text == RF.Apology && r.queryType == E.GeneralInfo
      && r.metadata["engine"] == Str(RouterErrorEngine) && r.suggestedActions == FallbackActionsOnError
    ensures !r.requiresFollowup && r.structuredData.None?
    ensures Route(e, message).Success? ==>
      var routed := Route(e, message).value;
      && r.text == routed.text && r.queryType == routed.queryType && r.sources == routed.sources
      && r.suggestedActions == FallbackActions
    ensures Route(e, message).Failure? ==> r.sources == []
  {
    match Route(e, message)
    case Success(routed) =>
      E.Response(routed.text, routed.queryType, routed.sources, FallbackConfidence, None,
        FallbackActions, false, map["engine" := Str(RouterEngine)])
    case Failure(_) =>
      E.Response(RF.Apology, E.GeneralInfo, [], ErrorConfidence, None,
        FallbackActionsOnError, false, map["engine" := Str(RouterErrorEngine)])
  }

  /**
   * `process_query`: through the graph when the library is there, through
   * the keyword router otherwise; the metadata's 'engine' tells which.
   */
  function ProcessQuery(e: SimpleEngine, message: string, ctx: E.Context): (r: E.Response)
    ensures !r.requiresFollowup
    ensures e.graph ==> "engine" in r.metadata && r.metadata["engine"] == Str(GraphEngine)
    ensures !e.graph ==> r.metadata.Keys == {"engine"} && r.metadata["engine"] in {Str(RouterEngine), Str(RouterErrorEngine)}
    ensures !e.graph ==> r == Fallback(e, message)
    ensures e.graph ==>
      var result := RunGraph(e, InitialState(message, ctx));
      && result.response.Some? && r.text == result.response.value
      && r.sources == result.sources && r.confidence == result.confidence
      && r.structuredData == result.toolResult && r.suggestedActions == result.actions
  {
    if e.graph then ToResponse(RunGraph(e, InitialState(message, ctx))) else Fallback(e, message)
  }

  /** A message with a question keyword is never taken for a complaint by the router, whatever else it says. */
  lemma QuestionWordsFirst(e: SimpleEngine, message: string)
    requires ContainsAny(Lower(message), QuestionKeywords)
    ensures Fallback(e, message).queryType != E.ComplaintSubmission
  {
  }

  /** The intent word for a complaint is already stripped and lower-case. */
  lemma QuejaNormal()
    ensures Lower(Strip(Queja)) == Queja
  {
    assert Strip(Queja) == Queja;
    assert Lower(Queja) == Queja;
  }

  /** The graph's run on a short message the LLM calls a complaint. */
  lemma ShortReportRun(e: SimpleEngine, s0: GraphState)
    requires |Strip(s0.userMessage)| < CM.MinDescription
    requires IntentReply(e.llm, s0.userMessage) == Success(Queja)
    ensures RunGraph(e, s0).response == Some(RF.Apology)
    ensures RunGraph(e, s0).confidence == ErrorConfidence
    ensures RunGraph(e, s0).intent == Some(Queja)
  {
    var s1 := ClassifyIntent(e.llm, s0);
    QuejaNormal();
    ShortReportNeverFiled(e, s1);
    var s2 := ExecuteAction(e, s1);
    ErrorResultFormats();
    assert FormatResponse(s2).response == Some(RF.Apology);
  }

  /**
   * With the graph, a message the LLM calls a complaint but which is too
   * short to be a complaint description is answered with the apology at
   * confidence 0.1, still typed as a complaint submission.
   */
  lemma ShortReportAnsweredWithApology(e: SimpleEngine, message: string, ctx: E.Context)
    requires e.graph && |Strip(message)| < CM.MinDescription
    requires IntentReply(e.llm, message) == Success(Queja)
    ensures ProcessQuery(e, message, ctx).text == RF.Apology
    ensures ProcessQuery(e, message, ctx).confidence == ErrorConfidence
    ensures ProcessQuery(e, message, ctx).queryType == E.ComplaintSubmission
  {
    ShortReportRun(e, InitialState(message, ctx));
  }
}
