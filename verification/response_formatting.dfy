/**
 * `ResponseFormattingNode`: turns the intent and the handler's result into
 * the final text and suggested actions. Questions and complaints depend on
 * the recorded tool result; every other intent depends on the user's
 * message alone. The confidence already in the state passes through.
 */
module ResponseFormatting {
  import opened Wrappers
  import opened Text
  import opened Values
  import opened Errors
  import opened Schemas
  import CS = ConversationState

  /** A formatted reply: the text and the suggested actions. */
  datatype Reply = Reply(text: string, actions: seq<string>)

  const DocumentsHeader := "Según los documentos de UP:\n\n"
  const SourceLabel := "\n\n📄 Fuente: "
  /** At most this many sources are cited. */
  const CitedSources := 2

  const NoInformation :=
    "No encontré información específica sobre eso en los documentos de UP.\n\n"
    + "¿Podrías ser más específico o usar palabras clave diferentes? También puedo ayudarte con:\n"
    + "• Procedimientos académicos\n• Fechas límite importantes  \n• Reglamentos de la universidad"
  const FoundActions := ["¿Necesitas más detalles sobre este tema?", "¿Hay algo más en lo que pueda ayudarte?"]
  const NotFoundActions := ["Intenta con palabras clave más específicas", "Pregunta sobre un tema específico", "Reporta un problema"]

  const ConfirmationHead := "✅ He registrado tu reporte exitosamente.\n\n📋 ID del reporte: #"
  const ConfirmationTail :=
    "\n\nTu reporte será revisado por el equipo administrativo. Puedes hacer seguimiento con este ID."
  const UnknownShortId := "desconocido"
  const ComplaintApology :=
    "Lo siento, no pude registrar tu reporte en este momento.\n\n"
    + "Por favor intenta de nuevo en unos minutos, o contacta directamente con la administración si es urgente."
  const SubmittedActions := ["¿Hay algo más en lo que pueda ayudarte?", "¿Quieres reportar otro problema?"]
  const NotSubmittedActions := ["Intenta reportar de nuevo", "Pregunta sobre procedimientos de UP"]

  const Greetings: seq<string> := ["hola", "buenos", "buenas"]
  const Thanks: seq<string> := ["gracias", "thank"]
  const GreetingText :=
    "¡Hola! Soy el asistente virtual de Universidad del Pacífico.\n\nPuedo ayudarte con:\n"
    + "• Información sobre procedimientos académicos\n• Búsqueda en documentos oficiales de UP\n"
    + "• Registro de reportes o problemas\n\n¿En qué puedo ayudarte hoy?"
  const ThanksText :=
    "¡De nada! Me alegra haber podido ayudarte.\n\n"
    + "Si tienes más preguntas sobre UP o necesitas ayuda con algún procedimiento, no dudes en preguntar."
  const EchoHead := "Vi tu mensaje: \""
  const EchoTail := "...\"\n\nSoy el asistente de Universidad del Pacífico. ¿En qué puedo ayudarte específicamente?"
  /** The general reply quotes at most this many characters of the message. */
  const EchoedChars := 50
  const GeneralActions := ["Pregunta sobre procedimientos de UP", "Buscar en documentos oficiales", "Reportar un problema"]

  /** The reply when formatting itself fails, shared with the workflow's last resort. */
  const Apology := "Lo siento, tuve un problema procesando tu mensaje. ¿Puedes intentar de nuevo?"
  const RephraseActions := ["Intenta reformular tu pregunta"]
  const ErrorConfidence := 0.1

  /** `tool_result.get('type') == wanted`, which raises on a missing result. */
  function HasType(toolResult: Option<Data>, wanted: string): Result<bool, Exception> {
    match toolResult
    case None => Failure(NoneAttribute("get"))
    case Some(d) => Success(Get(d, "type", Null) == Str(wanted))
  }

  /** The citation line: the first two sources, comma separated, when there are any. */
  function Citation(sources: seq<string>): (c: string)
    ensures sources == [] <==> c == ""
    ensures sources != [] ==> c == SourceLabel + Join(Take2(sources), ", ")
  {
    if |sources| > 0 then SourceLabel + Join(Take2(sources), ", ") else ""
  }

  /** `sources[:2]` */
  function Take2(sources: seq<string>): (t: seq<string>)
    ensures |t| == if |sources| < CitedSources then |sources| else CitedSources
    ensures t == sources[..|t|]
  {
    if |sources| <= CitedSources then sources else sources[..CitedSources]
  }

  /** `_format_question_response` */
  function FormatQuestion(toolResult: Option<Data>, success: bool, sources: seq<string>): (r: Result<Reply, Exception>)
    ensures r.Failure? <==> success && toolResult.None?
    ensures r.Success? ==>
      (r.value.actions == FoundActions <==> success && Get(toolResult.value, "type", Null) == Str("document_search"))
    ensures r.Success? && r.value.actions == FoundActions ==>
      r.value.text == DocumentsHeader + Show(Get(toolResult.value, "content", Str(""))) + Citation(sources)
    ensures r.Success? && r.value.actions != FoundActions ==> r.value == Reply(NoInformation, NotFoundActions)
  {
    if !success then Success(Reply(NoInformation, NotFoundActions))
    else
      var found :- HasType(toolResult, "document_search");
      if found then
        var content := Show(Get(toolResult.value, "content", Str("")));
        Success(Reply(DocumentsHeader + content + Citation(sources), FoundActions))
      else Success(Reply(NoInformation, NotFoundActions))
  }

  /** `_format_complaint_response` */
  function FormatComplaint(toolResult: Option<Data>, success: bool): (r: Result<Reply, Exception>)
    ensures r.Failure? <==> success && toolResult.None?
    ensures r.Success? ==>
      (r.value.actions == SubmittedActions <==> success && Get(toolResult.value, "type", Null) == Str("complaint_submitted"))
    ensures r.Success? && r.value.actions == SubmittedActions ==>
      r.value.text == ConfirmationHead + Show(Get(toolResult.value, "short_id", Str(UnknownShortId))) + ConfirmationTail
    ensures r.Success? && r.value.actions != SubmittedActions ==> r.value == Reply(ComplaintApology, NotSubmittedActions)
  {
    if !success then Success(Reply(ComplaintApology, NotSubmittedActions))
    else
      var submitted :- HasType(toolResult, "complaint_submitted");
      if submitted then
        var shortId := Show(Get(toolResult.value, "short_id", Str(UnknownShortId)));
        Success(Reply(ConfirmationHead + shortId + ConfirmationTail, SubmittedActions))
      else Success(Reply(ComplaintApology, NotSubmittedActions))
  }

  /** `_format_general_response`: greetings first, then thanks, else an echo of the message's start. */
  function FormatGeneral(message: string): (r: Reply)
    ensures r.actions == GeneralActions
    ensures ContainsAny(Lower(message), Greetings) ==> r.text == GreetingText
    ensures !ContainsAny(Lower(message), Greetings) && ContainsAny(Lower(message), Thanks) ==> r.text == ThanksText
    ensures !ContainsAny(Lower(message), Greetings) && !ContainsAny(Lower(message), Thanks) ==>
      r.text == EchoHead + Take(message, EchoedChars) + EchoTail
  {
    var text :=
      if ContainsAny(Lower(message), Greetings) then GreetingText
      else if ContainsAny(Lower(message), Thanks) then ThanksText
      else EchoHead + Take(message, EchoedChars) + EchoTail;
    Reply(text, GeneralActions)
  }

  /** The formatter `execute` chooses for the state's intent. */
  function Format(s: CS.State): Result<Reply, Exception> {
    if s.intent == Some(Question.Value()) then FormatQuestion(s.toolResult, s.toolSuccess, s.sources)
    else if s.intent == Some(Complaint.Value()) then FormatComplaint(s.toolResult, s.toolSuccess)
    else Success(FormatGeneral(s.userMessage))
  }

  /** The fields the node may write. */
  const Written: set<CS.Field> := {CS.ResponseF, CS.ConfidenceF, CS.StepF, CS.ActionsF, CS.ErrorInfoF}

  /**
   * `ResponseFormattingNode.execute`: the formatted reply at the state's
   * own confidence, or, when formatting raises, the apology at confidence
   * 0.1 with the error recorded. Either way the state ends with a non-empty
   * response and non-empty suggested actions.
   */
  function Execute(s: CS.State): (r: CS.State)
    ensures r.step == CS.ResponseFormatted
    ensures r.response.Some? && r.response.value != "" && |r.suggestedActions| > 0
    ensures CS.Keeps(s, r, Written)
    ensures Format(s).Success? ==>
      && r.response == Some(Format(s).value.text) && r.suggestedActions == Format(s).value.actions
      && r.confidence == s.confidence && r.errorInfo == s.errorInfo
    ensures Format(s).Failure? ==>
      && r.response == Some(Apology) && r.suggestedActions == RephraseActions && r.confidence == ErrorConfidence
      && r.errorInfo == Some(CS.ErrorRecord("response_formatting_error",
                               "Response formatting failed: " + Format(s).error.Text(), None, CS.ResponseFormatted))
    ensures Format(s).Failure? <==> s.toolSuccess && s.toolResult.None? && s.intent in {Some(Question.Value()), Some(Complaint.Value())}
  {
    match Format(s)
    case Success(reply) => CS.UpdateResponse(s, reply.text, s.confidence, reply.actions)
    case Failure(e) =>
      CS.AddError(CS.UpdateResponse(s, Apology, ErrorConfidence, RephraseActions),
        "response_formatting_error", "Response formatting failed: " + e.Text())
  }

  /**
   * For any intent other than question and complaint, the reply depends on
   * the user's message only: two states with the same message and such an
   * intent get the same text, whatever their tool results.
   */
  lemma GeneralIgnoresToolResult(s: CS.State, t: CS.State)
    requires s.userMessage == t.userMessage
    requires s.intent !in {Some(Question.Value()), Some(Complaint.Value())}
    requires t.intent !in {Some(Question.Value()), Some(Complaint.Value())}
    ensures Execute(s).response == Execute(t).response
    ensures Execute(s).suggestedActions == Execute(t).suggestedActions
  {
  }

  /** A document answer cites at most two sources, and only sources the state holds. */
  lemma CitesAtMostTwo(sources: seq<string>)
    ensures |Take2(sources)| <= CitedSources
    ensures forall x :: x in Take2(sources) ==> x in sources
    ensures |sources| > 0 ==> Take2(sources)[0] == sources[0]
  {
  }
}
