/**
 * `LLMTool`: intent classification through the language model with its
 * reply parser and keyword fallbacks, and text generation with a bounded
 * response cache. The provider's `generate_text` and the JSON decoder are
 * oracles; the cache is passed in and handed back.
 */
module LlmTool {
  import opened Wrappers
  import opened Text
  import opened Values
  import opened Errors
  import opened Schemas
  import CS = ConversationState

  /** The language-model provider: `generate_text(prompt, max_tokens, temperature)` and its name. */
  datatype Llm = Llm(generate: (string, int, real) -> Result<string, Exception>, name: string)

  /**
   * The JSON layer of the reply parser: `json.loads` of an object (none when
   * it raises a decoding error) and `float(s)` of a string (none when it
   * raises a value error).
   */
  datatype JsonCodec = JsonCodec(decode: string -> Option<Data>, parseFloat: string -> Option<real>)

  // ---------------------------------------------------------------------
  // Classification prompt

  const ClassifyHead :=
    "Clasifica este mensaje de un estudiante de Universidad del Pacífico.\n\n"
    + "Categorías disponibles:\n"
    + "- \"pregunta\" - Pregunta sobre procedimientos, reglamentos, fechas límite, trámites de UP\n"
    + "- \"queja\" - Reporte de problemas, issues, quejas sobre servicios de la universidad  \n"
    + "- \"conversacion\" - Saludos, agradecimientos, conversación general\n\n"
    + "Mensaje del estudiante: \""
  const ClassifyTail :=
    "\"\n\nResponde SOLO con el formato JSON:\n"
    + "{\"intent\": \"pregunta|queja|conversacion\", \"confidence\": 0.0-1.0, \"reasoning\": \"breve explicación\"}\n\n"
    + "Respuesta JSON:"
  const HistoryHead := "Contexto de conversación previa:\n"

  /** How many previous messages the prompt quotes, and how much of each. */
  const HistoryWindow := 3
  const HistoryExcerpt := 50

  /** One quoted history line: `role: content[:50]`, the role defaulting to `user`. */
  function HistoryLine(m: CS.Message): string {
    (if "role" in m then m["role"] else "user") + ": " + Take(if "content" in m then m["content"] else "", HistoryExcerpt)
  }

  /** The last three messages, one line each. */
  function HistoryText(history: seq<CS.Message>): string {
    var recent := if |history| <= HistoryWindow then history else history[|history| - HistoryWindow..];
    Join(seq(|recent|, i requires 0 <= i < |recent| => HistoryLine(recent[i])), "\n")
  }

  /** The base prompt quoting the message. */
  function ClassificationBase(message: string): (p: string)
    ensures OccursAt(p, message, |ClassifyHead|)
  {
    var p := ClassifyHead + message + ClassifyTail;
    assert p[|ClassifyHead|..|ClassifyHead| + |message|] == message;
    p
  }

  /**
   * `_build_classification_prompt`: the base prompt, preceded by the last
   * three history messages when a non-empty history is given.
   */
  function ClassificationPrompt(message: string, history: Option<seq<CS.Message>>): (p: string)
    ensures (history.None? || |history.value| == 0) ==> p == ClassificationBase(message)
    ensures |p| >= |ClassificationBase(message)|
    ensures p[|p| - |ClassificationBase(message)|..] == ClassificationBase(message)
  {
    if history.Some? && |history.value| > 0 then
      HistoryHead + HistoryText(history.value) + "\n\n" + ClassificationBase(message)
    else
      ClassificationBase(message)
  }

  // ---------------------------------------------------------------------
  // Reply parser

  /** What `_parse_classification_response` returns. */
  datatype Parsed = Parsed(intent: IntentType, confidence: real, reasoning: Value)

  /**
   * The text `re.search(r'\{.*\}', response, re.DOTALL)` matches: from the
   * first `{` to the last `}`, when a `}` follows that `{`.
   */
  function JsonCandidate(response: string): (c: Option<string>)
    ensures c.Some? ==> |c.value| >= 2 && c.value[0] == '{' && c.value[|c.value| - 1] == '}'
    ensures c.None? <==> forall i, j :: 0 <= i < j < |response| ==> !(response[i] == '{' && response[j] == '}')
  {
    var i := Find(response, "{");
    if i < 0 then
      assert forall k :: 0 <= k < |response| ==> !OccursAt(response, "{", k);
      assert forall k :: 0 <= k < |response| ==> response[k] != '{' by {
        forall k | 0 <= k < |response| ensures response[k] != '{' {
          assert !OccursAt(response, "{", k);
          assert response[k..k + 1] == [response[k]];
        }
      }
      None
    else
      assert response[i..i + 1] == "{";
      assert response[i] == '{';
      var j := RFind(response, "}", 0, |response|);
      NoEarlierBrace(response, i);
      if j <= i then
        assert forall k :: i < k < |response| ==> response[k] != '}' by {
          forall k | i < k < |response| ensures response[k] != '}' {
            assert !OccursAt(response, "}", k);
            assert response[k..k + 1] == [response[k]];
          }
        }
        None
      else
        assert response[j..j + 1] == "}";
        assert response[i] == '{' && response[j] == '}';
        Some(response[i..j + 1])
  }

  /** No `{` comes before the first one `Find` reports. */
  lemma NoEarlierBrace(response: string, i: int)
    requires 0 <= i && Find(response, "{") == i
    ensures forall k :: 0 <= k < i ==> response[k] != '{'
  {
    forall k | 0 <= k < i ensures response[k] != '{' {
      assert !OccursAt(response, "{", k);
      assert response[k..k + 1] == [response[k]];
    }
  }

  /** `intent_mapping.get(intent_str, UNKNOWN)` */
  function IntentOfLabel(tag: string): (i: IntentType)
    ensures i == Question <==> tag == "pregunta"
    ensures i == Complaint <==> tag == "queja"
    ensures i == General <==> tag == "conversacion" || tag == "general"
  {
    if tag == "pregunta" then Question
    else if tag == "queja" then Complaint
    else if tag == "conversacion" || tag == "general" then General
    else Unknown
  }

  /** The keyword stage's reasoning texts. */
  const KeywordReasoning := "Keyword-based classification"
  const UnparsedReasoning := "Unable to parse classification"

  /**
   * The keyword stage: `pregunta`, then `queja`, then `conversacion` in the
   * lower-cased reply, each at 0.6; otherwise UNKNOWN at 0.3.
   */
  function KeywordStage(response: string): (p: Parsed)
    ensures p.intent == Question <==> Contains(Lower(response), "pregunta")
    ensures p.intent == Complaint <==> !Contains(Lower(response), "pregunta") && Contains(Lower(response), "queja")
    ensures p.intent == General <==>
      !Contains(Lower(response), "pregunta") && !Contains(Lower(response), "queja") && Contains(Lower(response), "conversacion")
    ensures p.confidence == (if p.intent == Unknown then 0.3 else 0.6)
    ensures p.reasoning == Str(if p.intent == Unknown then UnparsedReasoning else KeywordReasoning)
  {
    var lower := Lower(response);
    if Contains(lower, "pregunta") then Parsed(Question, 0.6, Str(KeywordReasoning))
    else if Contains(lower, "queja") then Parsed(Complaint, 0.6, Str(KeywordReasoning))
    else if Contains(lower, "conversacion") then Parsed(General, 0.6, Str(KeywordReasoning))
    else Parsed(Unknown, 0.3, Str(UnparsedReasoning))
  }

  /** How `float(v)` reads a decoded JSON value: a number, a value error, or another (escaping) error. */
  datatype FloatReading = Number(x: real) | BadString | NotNumeric(typeName: string)

  function ReadFloat(codec: JsonCodec, v: Value): FloatReading {
    match v
    case Int(i) => Number(i as real)
    case Real(x) => Number(x)
    case Bool(b) => Number(if b then 1.0 else 0.0)
    case Str(s) => (match codec.parseFloat(s) case Some(x) => Number(x) case None => BadString)
    case _ => NotNumeric(TypeOf(v))
  }

  /**
   * The intent, confidence and reasoning a decoded object gives when its
   * intent is a string and its confidence (0.5 when absent) reads as a
   * number; `None` otherwise.
   */
  function Fields(codec: JsonCodec, obj: map<string, Value>): (f: Option<Parsed>)
    ensures f.Some? <==> Get(obj, "intent", Str("")).Str? && ReadFloat(codec, Get(obj, "confidence", Real(0.5))).Number?
    ensures f.Some? ==>
      && f.value.intent == IntentOfLabel(Lower(Get(obj, "intent", Str("")).s))
      && f.value.confidence == ReadFloat(codec, Get(obj, "confidence", Real(0.5))).x
      && f.value.reasoning == Get(obj, "reasoning", Str(""))
  {
    var tag := Get(obj, "intent", Str(""));
    var reading := ReadFloat(codec, Get(obj, "confidence", Real(0.5)));
    if tag.Str? && reading.Number? then Some(Parsed(IntentOfLabel(Lower(tag.s)), reading.x, Get(obj, "reasoning", Str(""))))
    else None
  }

  /**
   * `_parse_classification_response`. A decoded JSON object gives the
   * mapped intent, its confidence (0.5 when absent) and its reasoning. A
   * missing object, a decoding error or an unreadable confidence string
   * falls through to the keyword stage. A non-string intent or a
   * non-numeric confidence raises out of the parser.
   */
  function ParseReply(codec: JsonCodec, response: string): (r: Result<Parsed, Exception>)
    ensures JsonCandidate(response).None? ==> r == Success(KeywordStage(response))
    ensures JsonCandidate(response).Some? && codec.decode(JsonCandidate(response).value).None? ==>
      r == Success(KeywordStage(response))
    ensures r.Failure? ==> r.error.Raised?
    ensures JsonCandidate(response).Some? && codec.decode(JsonCandidate(response).value).Some? ==>
      var obj := codec.decode(JsonCandidate(response).value).value;
      "intent" in obj && !obj["intent"].Str? ==> r.Failure?
    ensures JsonCandidate(response).Some? && codec.decode(JsonCandidate(response).value).Some? ==>
      var obj := codec.decode(JsonCandidate(response).value).value;
      var tag := Get(obj, "intent", Str(""));
      r.Success? && r.value != KeywordStage(response) ==> tag.Str? && r.value.intent == IntentOfLabel(Lower(tag.s))
    ensures JsonCandidate(response).Some? && codec.decode(JsonCandidate(response).value).Some? ==>
      var obj := codec.decode(JsonCandidate(response).value).value;
      "confidence" !in obj && ("intent" in obj ==> obj["intent"].Str?) ==> r.Success? && r.value.confidence == 0.5
    ensures JsonCandidate(response).Some? && codec.decode(JsonCandidate(response).value).Some? ==>
      var fields := Fields(codec, codec.decode(JsonCandidate(response).value).value);
      fields.Some? ==> r == Success(fields.value)
    ensures JsonCandidate(response).Some? && codec.decode(JsonCandidate(response).value).Some? ==>
      var obj := codec.decode(JsonCandidate(response).value).value;
      Get(obj, "intent", Str("")).Str? && ReadFloat(codec, Get(obj, "confidence", Real(0.5))).BadString? ==>
        r == Success(KeywordStage(response))
    ensures JsonCandidate(response).Some? && codec.decode(JsonCandidate(response).value).Some? ==>
      var obj := codec.decode(JsonCandidate(response).value).value;
      Get(obj, "intent", Str("")).Str? && ReadFloat(codec, Get(obj, "confidence", Real(0.5))).NotNumeric? ==>
        r.Failure? && r.error.TypeName() == "TypeError"
  {
    match JsonCandidate(response)
    case None => Success(KeywordStage(response))
    case Some(candidate) =>
      match codec.decode(candidate)
      case None => Success(KeywordStage(response))
      case Some(obj) =>
        var intentValue := Get(obj, "intent", Str(""));
        if !intentValue.Str? then
          Failure(Raised("AttributeError", "'" + TypeOf(intentValue) + "' object has no attribute 'lower'"))
        else
          var intent := IntentOfLabel(Lower(intentValue.s));
          match ReadFloat(codec, Get(obj, "confidence", Real(0.5)))
          case BadString => Success(KeywordStage(response))
          case NotNumeric(t) => Failure(Raised("TypeError", "float() argument must be a string or a real number, not '" + t + "'"))
          case Number(x) => Success(Parsed(intent, x, Get(obj, "reasoning", Str(""))))
  }

  // ---------------------------------------------------------------------
  // Keyword fallback

  const QuestionKeywords: seq<string> :=
    ["cómo", "cuándo", "dónde", "qué", "quién", "por qué", "procedimiento", "trámite", "registro", "matrícula"]
  const ComplaintKeywords: seq<string> :=
    ["problema", "issue", "error", "falla", "no funciona", "mal", "deficiente", "queja", "reclamo"]

  /**
   * `_fallback_classification`: UNKNOWN for the empty message; otherwise a
   * question keyword wins over a complaint keyword, and GENERAL is the
   * default.
   */
  function FallbackClassification(message: string): (i: IntentType)
    ensures i == Unknown <==> message == ""
    ensures i == Question <==> message != "" && ContainsAny(Lower(message), QuestionKeywords)
    ensures i == Complaint <==>
      message != "" && !ContainsAny(Lower(message), QuestionKeywords) && ContainsAny(Lower(message), ComplaintKeywords)
  {
    if message == "" then Unknown
    else if ContainsAny(Lower(message), QuestionKeywords) then Question
    else if ContainsAny(Lower(message), ComplaintKeywords) then Complaint
    else General
  }

  // ---------------------------------------------------------------------
  // classify_intent

  /** `Optional[str]` validation of the reasoning field. */
  function ReasoningField(v: Value): (r: Result<Option<string>, Exception>)
    ensures r.Success? <==> v.Str? || v.Null?
    ensures v.Str? ==> r == Success(Some(v.s))
  {
    match v
    case Str(s) => Success(Some(s))
    case Null => Success(None)
    case _ => Failure(ValidationError("IntentClassificationResult"))
  }

  /** The classification prompt is sent with 50 tokens at temperature 0.1. */
  const ClassifyTokens := 50
  const ClassifyTemperature := 0.1

  /** The classification through the model, before any fallback. */
  function ModelClassification(llm: Llm, codec: JsonCodec, message: string, history: Option<seq<CS.Message>>): (r: Result<IntentClassification, Exception>)
    ensures r.Success? ==> ValidConfidence(r.value.confidence) && r.value.modelUsed == Some(llm.name)
    ensures r.Success? ==> exists reply :: llm.generate(ClassificationPrompt(message, history), ClassifyTokens, ClassifyTemperature) == Success(reply)
                                           && ParseReply(codec, reply).Success?
                                           && ParseReply(codec, reply).value.intent == r.value.intent
    ensures var reply := llm.generate(ClassificationPrompt(message, history), ClassifyTokens, ClassifyTemperature);
      r.Success? ==>
        && reply.Success? && ParseReply(codec, reply.value).Success?
        && var parsed := ParseReply(codec, reply.value).value;
        && ReasoningField(parsed.reasoning).Success?
        && r.value.confidence == parsed.confidence
        && r.value.reasoning == ReasoningField(parsed.reasoning).value
    ensures var reply := llm.generate(ClassificationPrompt(message, history), ClassifyTokens, ClassifyTemperature);
      reply.Success? && ParseReply(codec, reply.value).Success? ==>
        var parsed := ParseReply(codec, reply.value).value;
        ReasoningField(parsed.reasoning).Success? && ValidConfidence(parsed.confidence) ==>
          r == Success(IntentClassification(parsed.intent, parsed.confidence, ReasoningField(parsed.reasoning).value, Some(llm.name)))
  {
    var reply :- llm.generate(ClassificationPrompt(message, history), ClassifyTokens, ClassifyTemperature);
    var parsed :- ParseReply(codec, reply);
    var reasoning :- ReasoningField(parsed.reasoning);
    NewIntentClassification(parsed.intent, parsed.confidence, reasoning, Some(llm.name))
  }

  /** The result `classify_intent` falls back to. */
  function FallbackResult(userMessage: string): IntentClassification {
    IntentClassification(FallbackClassification(userMessage), 0.3,
      Some("Fallback classification due to LLM error"), Some("fallback"))
  }

  /**
   * `classify_intent`: a blank message raises `invalid_input`. Otherwise
   * the stripped message is classified by the model; any failure other
   * than a `ToolExecutionError` (the provider failing, an unparseable
   * reply, a confidence outside [0, 1]) gives the keyword fallback at 0.3
   * with model "fallback".
   */
  function ClassifyIntent(llm: Llm, codec: JsonCodec, userMessage: string, history: Option<seq<CS.Message>> := None): (r: Result<IntentClassification, Exception>)
    ensures IsBlank(userMessage) ==>
      r == Failure(InvalidInput("User message cannot be empty", map["user_message" := Str(userMessage)]))
    ensures r.Failure? ==> r.error.ToolExecutionError?
    ensures r.Success? ==> ValidConfidence(r.value.confidence)
    ensures !IsBlank(userMessage) ==>
      var attempt := ModelClassification(llm, codec, Strip(userMessage), history);
      && (attempt.Success? ==> r == attempt)
      && (attempt.Failure? && attempt.error.Raised? ==> r == Success(FallbackResult(userMessage)))
      && (attempt.Failure? && attempt.error.ToolExecutionError? ==> r == attempt)
  {
    if IsBlank(userMessage) then
      Failure(InvalidInput("User message cannot be empty", map["user_message" := Str(userMessage)]))
    else
      var attempt := ModelClassification(llm, codec, Strip(userMessage), history);
      if attempt.Success? || attempt.error.ToolExecutionError? then attempt
      else Success(FallbackResult(userMessage))
  }

  /**
   * A reply the validator rejects for its confidence is not an error for
   * the caller: the keyword fallback is used at confidence 0.3.
   */
  lemma OutOfRangeConfidenceFallsBack(llm: Llm, codec: JsonCodec, userMessage: string, history: Option<seq<CS.Message>>, reply: string)
    requires !IsBlank(userMessage)
    requires llm.generate(ClassificationPrompt(Strip(userMessage), history), ClassifyTokens, ClassifyTemperature) == Success(reply)
    requires ParseReply(codec, reply).Success?
    requires ParseReply(codec, reply).value.reasoning.Str?
    requires !ValidConfidence(ParseReply(codec, reply).value.confidence)
    ensures ClassifyIntent(llm, codec, userMessage, history) == Success(FallbackResult(userMessage))
    ensures FallbackResult(userMessage).confidence == 0.3 && FallbackResult(userMessage).intent != Unknown
  {
  }

  // ---------------------------------------------------------------------
  // generate_response and its cache

  /** The cache key's parts: `f"{prompt}_{max_tokens}_{temperature}"` is injective on them. */
  datatype CacheKey = CacheKey(prompt: string, maxTokens: int, temperature: real)

  type Cache = map<CacheKey, string>

  const CacheCapacity := 100
  /** Only replies longer than this are cached. */
  const CacheableLength := 10
  /** How much of the prompt the key keeps as written. */
  const KeyPrefix := 100

  /** The key as written: only the first 100 characters of the prompt. */
  function CacheKeyAsWritten(promptText: string, maxTokens: int, temperature: real): CacheKey {
    CacheKey(Take(promptText, KeyPrefix), maxTokens, temperature)
  }

  /** The corrected key: the whole prompt. */
  function CacheKeyOf(promptText: string, maxTokens: int, temperature: real): CacheKey {
    CacheKey(promptText, maxTokens, temperature)
  }

  /** A result of `generate_response` together with the cache after the call. */
  datatype Generation = Generation(result: Result<ToolResult, Exception>, cache: Cache)

  /** The checks `generate_response` makes before the cache is consulted. */
  function PromptChecks(prompt: string, maxTokens: int, temperature: real): (e: Option<Exception>)
    ensures e.Some? <==> IsBlank(prompt) || maxTokens <= 0 || maxTokens > 1000 || !(0.0 <= temperature <= 1.0)
    ensures e.Some? ==> e.value.ToolExecutionError? && e.value.errorType == "invalid_input"
  {
    if IsBlank(prompt) then Some(InvalidInput("Prompt cannot be empty", map["prompt" := Str(prompt)]))
    else if maxTokens <= 0 || maxTokens > 1000 then
      Some(InvalidInput("Max tokens must be between 1 and 1000", map["max_tokens" := Int(maxTokens)]))
    else if !(0.0 <= temperature <= 1.0) then
      Some(InvalidInput("Temperature must be between 0.0 and 1.0", map["temperature" := Real(temperature)]))
    else None
  }

  /** The chat result `generate_response` builds, cached or fresh. */
  function ChatResult(llm: Llm, text: string, promptText: string, cached: bool, tokens: int, temperature: real): (r: ToolResult)
    requires 0.0 <= temperature <= 1.0
    ensures WellFormed(r) && r.success && r.toolType == LlmTool && r.confidence == 0.8
    ensures r.data == map["response" := Str(text), "prompt" := Str(promptText), "cached" := Bool(cached)]
    ensures r.extra == ChatExtra(Some(llm.name), Some(tokens), Some(temperature))
  {
    GeneralChatResult(true,
      map["response" := Str(text), "prompt" := Str(promptText), "cached" := Bool(cached)],
      [], 0.8, Some(llm.name), Some(tokens), Some(temperature)).value
  }

  /**
   * The provider call of `generate_response` on the stripped prompt: the
   * stripped reply, `empty_response` for a blank reply, a recoverable
   * `service_error` for any other failure of the provider.
   */
  function Ask(llm: Llm, prompt: string, maxTokens: int, temperature: real): (r: Result<string, Exception>)
    ensures r.Success? <==>
      llm.generate(Strip(prompt), maxTokens, temperature).Success? && !IsBlank(llm.generate(Strip(prompt), maxTokens, temperature).value)
    ensures r.Success? ==> r.value == Strip(llm.generate(Strip(prompt), maxTokens, temperature).value) && r.value != ""
    ensures r.Failure? ==> r.error.ToolExecutionError?
    ensures r.Failure? && llm.generate(Strip(prompt), maxTokens, temperature).Success? ==> r.error.errorType == "empty_response"
  {
    var promptText := Strip(prompt);
    match llm.generate(promptText, maxTokens, temperature)
    case Failure(e) =>
      if e.ToolExecutionError? then Failure(e)
      else Failure(ServiceError("LLM response generation failed: " + e.Text(),
        map["prompt" := Str(Take(prompt, KeyPrefix)), "max_tokens" := Int(maxTokens),
            "temperature" := Real(temperature), "exception_type" := Str(e.TypeName())]))
    case Success(reply) =>
      if IsBlank(reply) then
        Failure(NewToolExecutionError("LLM returned empty response", "empty_response",
          Some(map["prompt" := Str(Take(promptText, KeyPrefix))])))
      else Success(Strip(reply))
  }

  /** `len(response_text.split()) + len(prompt_text.split())` */
  function EstimatedTokens(responseText: string, promptText: string): nat {
    WordCount(responseText) + WordCount(promptText)
  }

  /** The cache after a fresh reply: stored only when longer than ten characters and the cache has room. */
  function Store(cache: Cache, key: CacheKey, text: string): (c: Cache)
    ensures c == cache || (|text| > CacheableLength && |cache| < CacheCapacity && c == cache[key := text])
    ensures |cache| <= CacheCapacity && key !in cache ==> |c| <= CacheCapacity
  {
    if |text| > CacheableLength && |cache| < CacheCapacity then cache[key := text] else cache
  }

  /** The call succeeded and answered `text`. */
  predicate Answers(g: Generation, text: string) {
    g.result.Success? && "response" in g.result.value.data && g.result.value.data["response"] == Str(text)
  }

  /** The call succeeded, its `cached` flag is `cached`, and it reports `tokens` tokens used. */
  predicate Reports(g: Generation, cached: bool, tokens: int) {
    && g.result.Success? && "cached" in g.result.value.data && g.result.value.data["cached"] == Bool(cached)
    && g.result.value.extra.ChatExtra? && g.result.value.extra.tokensUsed == Some(tokens)
  }

  /** `after` keeps every entry of `before` and adds none but `key`. */
  predicate KeepsEntries(before: Cache, after: Cache, key: CacheKey) {
    && after.Keys <= before.Keys + {key}
    && forall k :: k in before ==> k in after && after[k] == before[k]
  }

  /**
   * `generate_response` after validation, with the cache keyed by `key`: a
   * hit answers with the stored text, no tokens and `cached` set, and
   * leaves the cache alone; a miss answers what the provider says, and a
   * failure leaves the cache alone. No entry is lost or changed, and only
   * `key` can be added, holding a reply longer than ten characters.
   */
  function Respond(llm: Llm, cache: Cache, key: CacheKey, prompt: string, maxTokens: int, temperature: real): (g: Generation)
    requires 0.0 <= temperature <= 1.0
    ensures g.result.Success? ==> WellFormed(g.result.value) && g.result.value.success && g.result.value.toolType == LlmTool
    ensures g.result.Failure? ==> g.result.error.ToolExecutionError? && g.cache == cache
    ensures key in cache ==> Answers(g, cache[key]) && Reports(g, true, 0) && g.cache == cache
    ensures key !in cache ==>
      var asked := Ask(llm, prompt, maxTokens, temperature);
      && (g.result.Success? <==> asked.Success?)
      && (asked.Failure? ==> g.result.error == asked.error)
      && (asked.Success? ==> Answers(g, asked.value) && Reports(g, false, EstimatedTokens(asked.value, Strip(prompt))))
    ensures KeepsEntries(cache, g.cache, key)
    ensures key in g.cache && key !in cache ==>
      && Ask(llm, prompt, maxTokens, temperature).Success?
      && g.cache[key] == Ask(llm, prompt, maxTokens, temperature).value
      && |g.cache[key]| > CacheableLength && |cache| < CacheCapacity
  {
    if key in cache then
      Generation(Success(ChatResult(llm, cache[key], Strip(prompt), true, 0, temperature)), cache)
    else
      match Ask(llm, prompt, maxTokens, temperature)
      case Failure(e) => Generation(Failure(e), cache)
      case Success(text) =>
        Generation(Success(ChatResult(llm, text, Strip(prompt), false, EstimatedTokens(text, Strip(prompt)), temperature)),
          Store(cache, key, text))
  }

  /**
   * `generate_response` as written, keyed by the first 100 characters of
   * the stripped prompt: a prompt whose truncated key is cached is answered
   * from the cache, whatever its remaining characters; otherwise the
   * provider's reply to the whole prompt is stored under the truncated key.
   */
  function GenerateResponseAsWritten(llm: Llm, cache: Cache, prompt: string, maxTokens: int := 200, temperature: real := 0.7): (g: Generation)
    ensures PromptChecks(prompt, maxTokens, temperature).Some? ==>
      g == Generation(Failure(PromptChecks(prompt, maxTokens, temperature).value), cache)
    ensures g.result.Failure? ==> g.result.error.ToolExecutionError? && g.cache == cache
    ensures g.result.Success? ==> WellFormed(g.result.value) && g.result.value.success && g.result.value.toolType == LlmTool
    ensures PromptChecks(prompt, maxTokens, temperature).None? ==>
      var key := CacheKeyAsWritten(Strip(prompt), maxTokens, temperature);
      && KeepsEntries(cache, g.cache, key)
      && (key in cache ==> Answers(g, cache[key]) && Reports(g, true, 0) && g.cache == cache)
      && (key !in cache ==>
            var asked := Ask(llm, prompt, maxTokens, temperature);
            && (g.result.Success? <==> asked.Success?)
            && (asked.Success? ==> Answers(g, asked.value) && g.cache == Store(cache, key, asked.value)))
  {
    match PromptChecks(prompt, maxTokens, temperature)
    case Some(e) => Generation(Failure(e), cache)
    case None => Respond(llm, cache, CacheKeyAsWritten(Strip(prompt), maxTokens, temperature), prompt, maxTokens, temperature)
  }

  /**
   * `generate_response`, keyed by the whole prompt. Invalid arguments raise
   * `invalid_input`; every failure leaves the cache as it was; the cache
   * never grows past 100 entries. A cached prompt is answered from the
   * cache; any other is answered with the provider's stripped reply, which
   * is then stored.
   */
  function GenerateResponse(llm: Llm, cache: Cache, prompt: string, maxTokens: int := 200, temperature: real := 0.7): (g: Generation)
    ensures PromptChecks(prompt, maxTokens, temperature).Some? ==>
      g == Generation(Failure(PromptChecks(prompt, maxTokens, temperature).value), cache)
    ensures g.result.Failure? ==> g.result.error.ToolExecutionError? && g.cache == cache
    ensures g.result.Success? ==> WellFormed(g.result.value) && g.result.value.success && g.result.value.toolType == LlmTool
    ensures |cache| <= CacheCapacity ==> |g.cache| <= CacheCapacity
    ensures g.cache.Keys >= cache.Keys && forall k :: k in cache ==> g.cache[k] == cache[k]
    ensures PromptChecks(prompt, maxTokens, temperature).None? ==>
      var key := CacheKeyOf(Strip(prompt), maxTokens, temperature);
      && KeepsEntries(cache, g.cache, key)
      && (key in cache ==> Answers(g, cache[key]) && Reports(g, true, 0) && g.cache == cache)
      && (key !in cache ==>
            var asked := Ask(llm, prompt, maxTokens, temperature);
            && (g.result.Success? <==> asked.Success?)
            && (asked.Success? ==> Answers(g, asked.value) && g.cache == Store(cache, key, asked.value)))
  {
    match PromptChecks(prompt, maxTokens, temperature)
    case Some(e) => Generation(Failure(e), cache)
    case None => Respond(llm, cache, CacheKeyOf(Strip(prompt), maxTokens, temperature), prompt, maxTokens, temperature)
  }

  /** Every cached entry is the stripped reply the provider gives for its key, longer than ten characters. */
  ghost predicate Coherent(llm: Llm, cache: Cache) {
    forall k :: k in cache ==>
      && llm.generate(k.prompt, k.maxTokens, k.temperature).Success?
      && Strip(llm.generate(k.prompt, k.maxTokens, k.temperature).value) == cache[k]
      && |cache[k]| > CacheableLength
  }

  /** The corrected cache stays coherent with the provider. */
  lemma CacheStaysCoherent(llm: Llm, cache: Cache, prompt: string, maxTokens: int, temperature: real)
    requires Coherent(llm, cache)
    ensures Coherent(llm, GenerateResponse(llm, cache, prompt, maxTokens, temperature).cache)
  {
    var c := GenerateResponse(llm, cache, prompt, maxTokens, temperature).cache;
    if c != cache {
      var key := CacheKeyOf(Strip(prompt), maxTokens, temperature);
      var asked := Ask(llm, prompt, maxTokens, temperature);
      assert key !in cache && asked.Success? && c == Store(cache, key, asked.value);
      StoreKeepsCoherent(llm, cache, key, asked.value);
    }
  }

  /** Storing the provider's stripped reply under its own key keeps the cache coherent. */
  lemma StoreKeepsCoherent(llm: Llm, cache: Cache, key: CacheKey, text: string)
    requires Coherent(llm, cache)
    requires llm.generate(key.prompt, key.maxTokens, key.temperature).Success?
    requires Strip(llm.generate(key.prompt, key.maxTokens, key.temperature).value) == text
    ensures Coherent(llm, Store(cache, key, text))
  {
  }

  /**
   * With the corrected key, the cache is transparent: a call answers the
   * same text as the same call on an empty cache, and fails exactly when
   * that call fails.
   */
  lemma {:induction false} CacheTransparent(llm: Llm, cache: Cache, prompt: string, maxTokens: int, temperature: real)
    requires Coherent(llm, cache)
    ensures var a := GenerateResponse(llm, cache, prompt, maxTokens, temperature).result;
            var b := GenerateResponse(llm, map[], prompt, maxTokens, temperature).result;
            && (a.Success? <==> b.Success?)
            && (a.Failure? ==> a == b)
            && (a.Success? ==> a.value.data["response"] == b.value.data["response"])
  {
    if PromptChecks(prompt, maxTokens, temperature).None? {
      var key := CacheKeyOf(Strip(prompt), maxTokens, temperature);
      if key in cache {
        var reply := llm.generate(key.prompt, maxTokens, temperature).value;
        assert Strip(reply) == cache[key];
        assert Ask(llm, prompt, maxTokens, temperature) == Success(cache[key]);
      }
    }
  }

  // ---------------------------------------------------------------------
  // generate_up_response

  const UpPreamble :=
    "Eres un asistente virtual útil "
    + "para estudiantes de Universidad del Pacífico (UP) en Lima, Perú.\n\n"
    + "Responde de manera:\n"
    + "- Amigable y profesional\n"
    + "- Enfocada en estudiantes universitarios\n"
    + "- Específica para el contexto de UP cuando sea posible\n"
    + "- En español claro y natural\n\n"
    + "Estudiante: "
  const UpSuffix := "\n\nRespuesta del asistente de UP:"

  /** The prompt `generate_up_response` sends for a student's message. */
  function UpPrompt(userMessage: string): string {
    UpPreamble + userMessage + UpSuffix
  }

  /** The canned reply when generation fails, echoing the first 50 characters of the message. */
  function UpFallbackText(userMessage: string): string {
    "Hola! Soy el asistente de UP. Vi tu mensaje sobre '" + Take(userMessage, 50) + "'. ¿En qué más puedo ayudarte?"
  }

  /**
   * `generate_up_response`: never fails. A generated reply is returned as
   * `generate_response` shapes it; on any failure the canned reply is
   * returned with success, confidence 0.5 and model "fallback".
   */
  function GenerateUpResponse(llm: Llm, cache: Cache, userMessage: string): (g: Generation)
    ensures g.result.Success? && WellFormed(g.result.value) && g.result.value.success
    ensures g.result.value.toolType == LlmTool
    ensures var attempt := GenerateResponse(llm, cache, UpPrompt(userMessage), 200, 0.7);
      && (attempt.result.Success? ==> g == attempt)
      && (attempt.result.Failure? ==>
            && g.cache == cache
            && g.result.value.confidence == 0.5
            && "response" in g.result.value.data
            && g.result.value.data["response"] == Str(UpFallbackText(userMessage))
            && g.result.value.extra.ChatExtra? && g.result.value.extra.modelUsed == Some("fallback"))
  {
    var attempt := GenerateResponse(llm, cache, UpPrompt(userMessage), 200, 0.7);
    if attempt.result.Success? then attempt
    else
      var data := map["response" := Str(UpFallbackText(userMessage)), "prompt" := Str(userMessage), "fallback" := Bool(true)];
      Generation(Success(GeneralChatResult(true, data, [], 0.5, Some("fallback"), None, None).value), cache)
  }

  /** Every prompt of `generate_up_response` starts with the same preamble of at least 100 characters. */
  lemma {:induction false} UpPromptsShareKeyPrefix(m1: string, m2: string)
    ensures |UpPreamble| >= KeyPrefix
    ensures Strip(UpPrompt(m1)) == UpPrompt(m1) && !IsBlank(UpPrompt(m1))
    ensures CacheKeyAsWritten(UpPrompt(m1), 200, 0.7) == CacheKeyAsWritten(UpPrompt(m2), 200, 0.7)
    ensures m1 != m2 ==> UpPrompt(m1) != UpPrompt(m2)
  {
    var p1, p2 := UpPrompt(m1), UpPrompt(m2);
    assert UpPreamble[0] == 'E';
    assert p1[0] == 'E';
    assert p1[|p1| - 1] == ':';
    StripTrimmed(p1);
    assert Take(p1, KeyPrefix) == UpPreamble[..KeyPrefix];
    assert Take(p2, KeyPrefix) == UpPreamble[..KeyPrefix];
    if m1 != m2 && |m1| == |m2| {
      assert p1[|UpPreamble|..|UpPreamble| + |m1|] == m1;
      assert p2[|UpPreamble|..|UpPreamble| + |m2|] == m2;
    }
  }

  /**
   * As written, two prompts that agree on their first 100 characters share
   * one cache entry: once the first prompt's reply is cached, the second
   * prompt is answered with it, whatever the provider would say to it.
   */
  lemma {:induction false} AsWrittenCacheConflatesPrompts(llm: Llm, p1: string, p2: string)
    requires !IsBlank(p1) && !IsBlank(p2)
    requires Take(Strip(p1), KeyPrefix) == Take(Strip(p2), KeyPrefix)
    requires llm.generate(Strip(p1), 200, 0.7).Success?
    requires |Strip(llm.generate(Strip(p1), 200, 0.7).value)| > CacheableLength
    ensures var first := GenerateResponseAsWritten(llm, map[], p1, 200, 0.7);
            var second := GenerateResponseAsWritten(llm, first.cache, p2, 200, 0.7);
            && second.result.Success? && "response" in second.result.value.data && "cached" in second.result.value.data
            && second.result.value.data["response"] == Str(Strip(llm.generate(Strip(p1), 200, 0.7).value))
            && second.result.value.data["cached"] == Bool(true)
  {
    var key := CacheKeyAsWritten(Strip(p1), 200, 0.7);
    assert key == CacheKeyAsWritten(Strip(p2), 200, 0.7);
    var text := Strip(llm.generate(Strip(p1), 200, 0.7).value);
    FirstReplyCached(llm, p1);
    var first := GenerateResponseAsWritten(llm, map[], p1, 200, 0.7);
    assert first.cache[key] == text;
    CachedHit(llm, first.cache, p2);
  }

  /** A prompt whose as-written key is cached is answered with the cached text, marked as cached. */
  lemma CachedHit(llm: Llm, cache: Cache, prompt: string)
    requires !IsBlank(prompt) && CacheKeyAsWritten(Strip(prompt), 200, 0.7) in cache
    ensures GenerateResponseAsWritten(llm, cache, prompt, 200, 0.7).result
      == Success(ChatResult(llm, cache[CacheKeyAsWritten(Strip(prompt), 200, 0.7)], Strip(prompt), true, 0, 0.7))
  {
    assert PromptChecks(prompt, 200, 0.7).None?;
  }

  /** On an empty cache, a reply longer than ten characters is stored under the as-written key. */
  lemma FirstReplyCached(llm: Llm, p1: string)
    requires !IsBlank(p1)
    requires llm.generate(Strip(p1), 200, 0.7).Success?
    requires |Strip(llm.generate(Strip(p1), 200, 0.7).value)| > CacheableLength
    ensures GenerateResponseAsWritten(llm, map[], p1, 200, 0.7).cache
      == map[CacheKeyAsWritten(Strip(p1), 200, 0.7) := Strip(llm.generate(Strip(p1), 200, 0.7).value)]
  {
    var text := Strip(llm.generate(Strip(p1), 200, 0.7).value);
    assert PromptChecks(p1, 200, 0.7).None?;
    assert Ask(llm, p1, 200, 0.7) == Success(text);
  }

  const GreetingReply := "Hola, bienvenido a la UP."
  const EnrolmentReply := "La matrícula es en marzo."

  /** The provider of the example: it greets the student who greets, and answers everyone else about enrolment. */
  function ExampleLlm(greeting: string): Llm {
    Llm((p, n, t) => Success(if p == UpPrompt(greeting) then GreetingReply else EnrolmentReply), "openai")
  }

  /**
   * As written, after a student says "hola", a second student asking about
   * "matrícula" is handed the greeting's answer.
   */
  lemma StaleReplyExample(m1: string, m2: string)
    requires m1 == "hola" && m2 == "matrícula"
    ensures Answers(GenerateResponseAsWritten(ExampleLlm(m1), GenerateResponseAsWritten(ExampleLlm(m1), map[], UpPrompt(m1), 200, 0.7).cache,
                                              UpPrompt(m2), 200, 0.7), GreetingReply)
  {
    var a := GreetingReply;
    assert a[0] == 'H' && a[|a| - 1] == '.';
    StripTrimmed(a);
    UpPromptsShareKeyPrefix(m1, m2);
    UpPromptsShareKeyPrefix(m2, m1);
    assert ExampleLlm(m1).generate(UpPrompt(m1), 200, 0.7) == Success(a);
    AsWrittenCacheConflatesPrompts(ExampleLlm(m1), UpPrompt(m1), UpPrompt(m2));
  }

  // ---------------------------------------------------------------------
  // health_check

  const HealthPrompt := "Responde con 'OK' si puedes procesar este mensaje."

  /** `health_check`: the provider answers the probe prompt with non-blank text. */
  function HealthCheck(llm: Llm): (ok: bool)
    ensures ok <==> llm.generate(HealthPrompt, 10, 0.0).Success? && !IsBlank(llm.generate(HealthPrompt, 10, 0.0).value)
  {
    match llm.generate(HealthPrompt, 10, 0.0)
    case Success(reply) => !IsBlank(reply)
    case Failure(_) => false
  }
}
