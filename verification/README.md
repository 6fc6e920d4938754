# University chatbot conversation core, modelled in Dafny

This project models the conversation core of a university help-desk chatbot
for students of Universidad del Pacífico. Students write in Spanish. The
chatbot classifies each message as a question (`pregunta`), a complaint
(`queja`) or general conversation (`conversacion`). A question is answered
from the university's documents, a complaint is filed, and everything else
gets a chat reply.

The model covers:

- **Tools** (`BaseTool`, `DocumentTool`, `ComplaintTool`, `LlmTool`, the tool
  registry): monitored execution with metrics, parameter sanitising,
  document search results, complaint submission with title generation and
  keyword categorisation, intent classification and reply parsing, and the
  LLM response cache.
- **Conversation state** (`StateManager`) and the result schemas of the
  tools.
- **Nodes**: classification, document search, complaint processing and
  response formatting.
- **The chat workflow**: the graph of five nodes, routing by intent, the
  sequential run used when the graph library is missing, and compilation
  on first use.
- **`ModularLangGraphEngine`**: set-up from services, query processing,
  conversion to a response, and metrics.
- **`SimpleLangGraphEngine`**, the older three-step engine and its keyword
  router.
- **The two text chunkers** and the PDF text chunking, page-number reading
  and cleaning of `DocumentProcessor`.

External services are oracles. The document search, the complaint service,
the LLM provider and the JSON decoder are function-typed parameters
returning a success or an exception. Numbers are exact: confidences and
similarities are `real`, and counters are `nat`. Every operation that can
raise in the source returns a `Result` whose failure names the exception.

Modules follow the source files one to one:

- `Wrappers`, `Text`, `Values` and `Errors` are shared vocabulary: options
  and results, Python's string methods, dictionary values, and exceptions.
- `Schemas` covers `state/schemas.py`.
- `ComplaintModel` and `DocumentModel` cover the request models.
- `ConversationState` covers `StateManager`.
- `BaseTool`, `DocumentTool`, `ComplaintTool`, `LlmTool` and `Toolkit` cover
  the tools.
- `ClassificationNode`, `DocumentSearchNode`, `ComplaintNode` and
  `ResponseFormatting` cover the nodes.
- `ChatWorkflow` covers the workflows and the node registry.
- `Engine` covers `ModularLangGraphEngine`, and `SimpleEngine` covers
  `SimpleLangGraphEngine`.
- `TextChunking` and `DocumentProcessing` cover the utilities.

## Model

| member | source | states |
|---|---|---|
| Text.Strip | app/engines/langgraph/tools/llm_tool.py:191 | stripping drops exactly the white space at both ends: the result is a slice of the input, neither of its ends is white space, and it is empty exactly when the input is blank |
| Text.StripTrimmed | app/engines/langgraph/tools/complaint_tool.py:114-116 | stripping a string whose ends are not white space returns it unchanged, so stripping twice is stripping once |
| Text.NonSpaceStrip | app/engines/langgraph/tools/complaint_tool.py:114 | stripping never removes a non-space character |
| Text.Lower | app/engines/langgraph/tools/complaint_tool.py:292 | lower-casing keeps the length and maps every character on its own, upper-case letters to their lower-case form |
| Text.ContainsIffOccurs | app/engines/langgraph/nodes/classification.py:110-123 | a substring test succeeds exactly when the key occurs at some index of the text |
| Text.Find | app/engines/langgraph/tools/llm_tool.py:380-386 | the index returned is the first occurrence of the key, and -1 means the key occurs nowhere |
| Text.RFind | app/utils/document_processing.py:94-99 | the index returned is the last occurrence of the key inside the window, and -1 means it occurs nowhere in the window |
| Text.JoinSplit | app/utils/document_processing.py:158-161 | joining the pieces of a split with the same separator gives back the original text |
| Text.SplitPiecesAvoidSeparator | app/engines/langgraph/tools/complaint_tool.py:272 | no piece of a split contains the separator |
| Text.SplitJoin | app/engines/langgraph/tools/document_tool.py:152 | splitting a join with the same separator gives back the parts, provided no part runs into the separator |
| Text.WordCount | app/engines/langgraph/tools/llm_tool.py:240 | a text has no words exactly when it is blank |
| Values.Get | app/engines/langgraph/engine.py:265-266 | a dictionary lookup with a default returns the stored value when the key is present and the default otherwise |
| Values.Merge | app/engines/langgraph/tools/base_tool.py:153-158 | merging two dictionaries keeps every key of both, and the second dictionary wins on shared keys |
| Errors.NewToolExecutionError | app/engines/langgraph/tools/base_tool.py:31-43 | a tool error carries its message as its text, the error type and recoverability given (defaults `execution_error`, recoverable), and an empty dictionary when no details are given |
| Schemas.ParseIntent | app/engines/langgraph/state/schemas.py:21-26 | exactly the four Spanish intent values name an intent, and the intent found has that value |
| Schemas.IntentRoundTrip | app/engines/langgraph/state/schemas.py:21-26 | every intent's value converts back to the same intent, so no two intents share a value |
| Schemas.ParseToolType | app/engines/langgraph/state/schemas.py:29-33 | exactly `document`, `complaint` and `llm` name a tool type, and the type found has that value |
| Schemas.NewIntentClassification | app/engines/langgraph/state/schemas.py:48-65 | a classification is built exactly when its confidence lies in [0, 1]; otherwise construction raises a validation error |
| Schemas.Validate | app/engines/langgraph/state/schemas.py:80-96 | a tool result is admitted unchanged exactly when its confidence lies in [0, 1], and rejected with a validation error otherwise |
| Schemas.SuccessResult | app/engines/langgraph/state/schemas.py:98-113 | a success result exists exactly for a confidence in [0, 1]; it is well formed, successful, keeps the data and confidence, has no error fields and defaults missing sources to the empty list |
| Schemas.ErrorResult | app/engines/langgraph/state/schemas.py:115-133 | an error result can always be built: failed, well formed, no data, no sources, confidence 0, the error type and message given, and empty details when none are given |
| Schemas.DocumentSearchResult | app/engines/langgraph/state/schemas.py:136-145 | a document search result exists exactly for a valid confidence and always has tool type DOCUMENT with the search fields attached |
| Schemas.ComplaintSubmissionResult | app/engines/langgraph/state/schemas.py:155-164 | a complaint result exists exactly for a valid confidence and always has tool type COMPLAINT with the complaint fields attached |
| Schemas.GeneralChatResult | app/engines/langgraph/state/schemas.py:174-182 | a chat result exists exactly for a valid confidence and always has tool type LLM with the model fields attached |
| ComplaintModel.ParseCategory | app/models/complaint.py:11-18 | a string names a category exactly when it is one of the seven values, and the category found has that value |
| ComplaintModel.CategoriesComplete | app/models/complaint.py:11-18 | there are seven categories, each listed once with a distinct value, and every value converts back to its category |
| ComplaintModel.StripOpt | app/models/base.py:24-28 | an optional string field is whitespace-stripped when present and stays absent when absent |
| ComplaintModel.NewSubmissionRequest | app/models/complaint.py:45-52 | a complaint request is accepted exactly when the stripped title has 5 to 200 characters and the stripped description 10 to 2000; the accepted request holds the stripped fields, and a rejection is a validation error |
| DocumentModel.NewSearchRequest | app/models/document.py:38-44 | a search request is accepted exactly when the stripped query has 1 to 500 characters, the limit lies in 1..50 and the threshold in [0, 1]; the accepted request holds the stripped query and faculty |
| ConversationState.Initialize | app/engines/langgraph/state/conversation_state.py:64-110 | a new state holds the inputs as given, an empty history when none is given, and every processing field empty with step `initialized` |
| ConversationState.UpdateIntent | app/engines/langgraph/state/conversation_state.py:113-139 | recording an intent sets the intent, its confidence and step `intent_classified`, and leaves every other field unchanged |
| ConversationState.UpdateToolResult | app/engines/langgraph/state/conversation_state.py:142-177 | recording a tool outcome sets type, result, success and step `<type>_executed`, replaces the sources only by a non-empty list, and leaves every other field unchanged |
| ConversationState.UpdateResponse | app/engines/langgraph/state/conversation_state.py:180-212 | recording the reply sets text, confidence and step `response_formatted`, replaces the actions only by a non-empty list, and leaves every other field unchanged |
| ConversationState.AddError | app/engines/langgraph/state/conversation_state.py:215-247 | the error record holds the type, the message, the details (empty when none are given) and the step current at the time; nothing else in the state changes |
| ConversationState.ValidIffUserId | app/engines/langgraph/state/conversation_state.py:250-269 | a freshly initialized state is valid exactly when a user id was given; an empty message and an empty user id still pass |
| ConversationState.Reset | app/engines/langgraph/state/conversation_state.py:315-339 | a reset clears every processing field and keeps the message, user, conversation, history and metadata |
| ConversationState.ResetMatchesInitialize | app/engines/langgraph/state/conversation_state.py:64-110 | a reset state equals a freshly initialized state of the same inputs apart from the step marker and the kept metadata; it is never ready to respond, and a second reset changes nothing |
| ConversationState.ReadyAfterSuccessfulTool | app/engines/langgraph/state/conversation_state.py:298-312 | after an intent and a successful tool result the state is ready to respond; after a failed tool result it is not |
| BaseTool.UpdateMetrics | app/engines/langgraph/tools/base_tool.py:237-241 | recording an execution adds one to the count, adds its time to the total and remembers it as the last time |
| BaseTool.AverageTime | app/engines/langgraph/tools/base_tool.py:221-224 | the reported average times the count gives back the total time, and a tool that never ran reports 0 |
| BaseTool.ExecuteWithMonitoring | app/engines/langgraph/tools/base_tool.py:94-184 | a monitored execution never raises and always counts one execution; a returned result gets its execution time; a tool error becomes a failed, well-formed result of the tool's type with the same error type and message and its details extended by time, execution id (count + 1) and recoverable flag; any other exception becomes a recoverable `unexpected_error` naming the tool and the exception's class |
| BaseTool.CountsEveryCall | app/engines/langgraph/tools/base_tool.py:107-108 | over any sequence of monitored calls, successes and failures alike, the count rises by the number of calls, the total by the sum of their times, and the last time is the last call's |
| BaseTool.SanitizeValue | app/engines/langgraph/tools/base_tool.py:255-265 | a logged string is at most 103 characters: short strings unchanged, long ones cut to 100 plus `...`; numbers and booleans unchanged; containers shown as their type and length; anything else as its type name |
| BaseTool.SanitizeParams | app/engines/langgraph/tools/base_tool.py:243-267 | sanitising keeps exactly the parameter names and sanitises each value on its own |
| BaseTool.SanitizeIdempotent | app/engines/langgraph/tools/base_tool.py:243-267 | sanitising an already sanitised dictionary changes nothing |
| BaseTool.HealthCheck | app/engines/langgraph/tools/base_tool.py:186-207 | a tool is healthy when the service's own health check, else its ping, answers true without raising; a service with neither is healthy exactly when it exists |
| BaseTool.Register | app/engines/langgraph/tools/base_tool.py:295-298 | registering binds the name to the tool, replacing an earlier binding, and leaves every other name as it was |
| BaseTool.GetTool | app/engines/langgraph/tools/base_tool.py:300-302 | a lookup finds a tool exactly when the name is registered, and then finds the registered tool |
| BaseTool.ToolsByType | app/engines/langgraph/tools/base_tool.py:304-309 | the view of a type holds exactly the registered tools of that type, under their names |
| BaseTool.ListTools | app/engines/langgraph/tools/base_tool.py:311-316 | the listing names every registered tool exactly once, with its type's value |
| BaseTool.TypeViewsPartition | app/engines/langgraph/tools/base_tool.py:304-309 | the three type views are pairwise disjoint and together cover the registry |
| BaseTool.RegisterThenGet | app/engines/langgraph/tools/base_tool.py:295-302 | after registering a tool its name finds it, and every other name finds what it found before |
| Toolkit.CreateToolRegistry | app/engines/langgraph/tools/__init__.py:43-70 | a tool is registered under `document`, `complaint` or `llm` exactly when its service was supplied, no other name appears, and a new LLM tool starts with an empty cache |
| Toolkit.EmptyIffNoServices | app/engines/langgraph/tools/__init__.py:59-70 | the registry is empty exactly when no service at all was supplied |
| DocumentTool.BestSimilarity | app/engines/langgraph/tools/document_tool.py:134-136 | the best similarity is the score of some returned chunk and no chunk scores higher |
| DocumentTool.Distinct | app/engines/langgraph/tools/document_tool.py:138-139 | the sources list every file name of the chunks exactly once and nothing else |
| DocumentTool.CombinedContent | app/engines/langgraph/tools/document_tool.py:141-152 | the combined content is empty when nothing was found and otherwise begins with the text of the best-ranked chunk |
| DocumentTool.CombinedContentIgnoresLater | app/engines/langgraph/tools/document_tool.py:142-143 | chunks past the third never show in the combined content: it equals the content of the first three chunks alone |
| DocumentTool.CombinedContentSplits | app/engines/langgraph/tools/document_tool.py:142-152 | splitting the combined content at its blank lines gives back exactly the texts of the first (up to) three chunks, in order, when none of those texts runs into a blank line of its own |
| DocumentTool.ChunkEntries | app/engines/langgraph/tools/document_tool.py:153-161 | the result lists one entry per returned chunk, in the service's order |
| DocumentTool.SearchOutcome | app/engines/langgraph/tools/document_tool.py:128-182 | the shaped search result succeeds exactly when a chunk came back; its confidence is then the best similarity (else 0); it cites the distinct file names; and it is rejected only when that similarity lies outside [0, 1] |
| DocumentTool.SearchDocuments | app/engines/langgraph/tools/document_tool.py:62-204 | a search rejects, in this order, a blank query, a limit outside 1..50 and a threshold outside [0, 1] with `invalid_input`; with valid arguments the stripped request validates exactly when the stripped query has at most 500 characters, and a longer one becomes a `service_error`; a validated request whose service answer is accepted and whose best similarity is a valid confidence (or that found nothing) always succeeds; a failing service becomes a `service_error` unless it raised a tool error; a returned result is well formed and describes the chunks the service returned for the stripped request |
| DocumentTool.GetDocumentById | app/engines/langgraph/tools/document_tool.py:206-289 | a blank id raises `invalid_input`; a tool error from the service passes through and any other failure becomes `service_error`; a missing document is an unsuccessful result with confidence 0, no sources, data holding only the given id, and query `document_id:<id>` with 0 chunks; a found one succeeds with confidence 1 citing its file name, with data giving the id, file name, document type value, faculty, processing status value and metadata, and query `document_id:<id>` with 1 chunk at similarity 1 |
| DocumentTool.GetProcessingStatus | app/engines/langgraph/tools/document_tool.py:291-353 | every failure, the blank-id rejection included, comes out as a `service_error`; a result exists exactly when the id is not blank and the service answers, and it reports the status and whether it is completed or failed |
| ComplaintTool.GenerateTitle | app/engines/langgraph/tools/complaint_tool.py:261-280 | the generated title is the first sentence when it has 6 to 100 characters, else the whole description up to 50 characters, else its first 47 characters and `...` (exactly 50); it never exceeds 100 characters |
| ComplaintTool.GeneratedTitleAccepted | app/engines/langgraph/tools/complaint_tool.py:113-116 | for a stripped description the submission request accepts, the generated title is itself accepted: 5 to 100 characters and unchanged by stripping |
| ComplaintTool.GeneratedTitleAcceptedOrShort | app/engines/langgraph/tools/complaint_tool.py:272-280 | the title generated from a non-blank stripped description is never blank |
| ComplaintTool.EffectiveTitle | app/engines/langgraph/tools/complaint_tool.py:113-116 | the submitted title is the stripped title unless it is shorter than 5 characters or one of the four generic words (case-insensitively), in which case it is generated from the description |
| ComplaintTool.ScoreCountsMatches | app/engines/langgraph/tools/complaint_tool.py:331-338 | a keyword score counts the distinct keywords of the list that occur in the text |
| ComplaintTool.Scores | app/engines/langgraph/tools/complaint_tool.py:292-338 | there are six scores, one per scored category in the dictionary's order, each computed over the lower-cased text |
| ComplaintTool.ScoresCountDistinctMatches | app/engines/langgraph/tools/complaint_tool.py:295-338 | every category's score is the number of its distinct keywords found in the lower-cased text |
| ComplaintTool.FirstMax | app/engines/langgraph/tools/complaint_tool.py:341 | the index chosen holds a maximal score and every earlier score is strictly smaller |
| ComplaintTool.Pick | app/engines/langgraph/tools/complaint_tool.py:340-350 | the category is OTHER exactly when every score is zero, and otherwise the first category in scoring order with the top score |
| ComplaintTool.TieGoesToEarlier | app/engines/langgraph/tools/complaint_tool.py:331-341 | a tie between technology and infrastructure goes to technology, the one listed first |
| ComplaintTool.ComplaintData | app/engines/langgraph/tools/complaint_tool.py:143-152 | the result data holds exactly the keys id, title, category, priority, status, is_anonymous, created_at and short_id; each field carries the stored complaint's value (enumerations by their string value) and the short id is the id's first 8 characters, or none for an empty id |
| ComplaintTool.BuildRequest | app/engines/langgraph/tools/complaint_tool.py:113-137 | the request validates exactly when the effective title and the stripped description have allowed lengths, and otherwise fails with a validation error; it carries the stripped description, the given category or else the detected one, the anonymity flag, and the stripped user id only when the complaint is not anonymous |
| ComplaintTool.SubmittedResult | app/engines/langgraph/tools/complaint_tool.py:159-169 | a stored complaint gives a well-formed successful COMPLAINT result with confidence 1 and no sources |
| ComplaintTool.SubmitComplaint | app/engines/langgraph/tools/complaint_tool.py:64-190 | a submission rejects, in this order, a blank title, a blank description and a non-anonymous complaint without a user id with `invalid_input`; a request that fails validation becomes a recoverable `service_error`, and so does a failing service unless it raised a tool error, which passes through unchanged; it succeeds exactly when the checks pass, the built request validates and the service stores it, and then it reports the stored complaint with confidence 1 |
| ComplaintTool.SubmitQuickComplaint | app/engines/langgraph/tools/complaint_tool.py:192-259 | a blank message raises `invalid_input`; a message with an empty user id is refused with `invalid_input`; a message shorter than 10 characters after stripping always ends in a recoverable `service_error`; a message of allowed length always yields a valid request and is stored whenever the service accepts it; a stored quick complaint was submitted with the generated title, the stripped message, the detected category, anonymously exactly when there is no user id, and reports the stored complaint |
| ComplaintTool.QuickSubmissionStored | app/engines/langgraph/tools/complaint_tool.py:220-241 | a stored quick complaint was submitted with the generated title, the message as description, the detected category, anonymously exactly when there is no user id, and the tool reports the complaint the service stored |
| ComplaintTool.ShortQuickComplaintFails | app/engines/langgraph/tools/complaint_tool.py:220-241 | a quick complaint whose message has fewer than 10 characters is never stored, whatever the service does: the request fails validation and the tool raises a recoverable `service_error` |
| ComplaintTool.QuickComplaintRequest | app/engines/langgraph/tools/complaint_tool.py:220-241 | a quick complaint of acceptable length always yields a valid request with the generated title, the message as description and the detected category, anonymous exactly when there is no user id, and is stored whenever the service accepts that request |
| ComplaintTool.EmptyUserIdRefused | app/engines/langgraph/tools/complaint_tool.py:106-111 | a quick complaint with an empty user id is treated as non-anonymous without a user and refused with `invalid_input` |
| LlmTool.ClassificationBase | app/engines/langgraph/tools/llm_tool.py:348-360 | the classification prompt quotes the student's message verbatim right after its fixed heading |
| LlmTool.ClassificationPrompt | app/engines/langgraph/tools/llm_tool.py:340-374 | without a non-empty history the prompt is the base prompt; with one, the base prompt is kept intact at the end after the history context |
| LlmTool.JsonCandidate | app/engines/langgraph/tools/llm_tool.py:380-382 | a JSON candidate is found exactly when some `{` is followed later by a `}`, and it runs from a `{` to a `}` |
| LlmTool.IntentOfLabel | app/engines/langgraph/tools/llm_tool.py:390-397 | `pregunta` maps to QUESTION, `queja` to COMPLAINT, `conversacion` and `general` to GENERAL, and every other label to UNKNOWN |
| LlmTool.KeywordStage | app/engines/langgraph/tools/llm_tool.py:407-416 | without a usable JSON object, `pregunta` wins over `queja`, which wins over `conversacion`, each at confidence 0.6; a reply naming none of them is UNKNOWN at 0.3 |
| LlmTool.Fields | app/engines/langgraph/tools/llm_tool.py:384-386 | a decoded object yields fields exactly when its intent is a string and its confidence (0.5 when absent) reads as a number; they are the mapped lower-cased intent label, that number, and the reasoning entry ("" when absent) |
| LlmTool.ParseReply | app/engines/langgraph/tools/llm_tool.py:376-416 | a reply with no JSON object, or one that does not decode, is read by the keyword stage; a decoded object with a non-string intent makes the parser raise; with a string intent, a readable confidence gives the lower-cased intent label mapped, that confidence (0.5 when absent) and the reasoning entry ("" when absent), a string confidence `float()` rejects falls back to the keyword stage, and a non-numeric confidence raises TypeError |
| LlmTool.FallbackClassification | app/engines/langgraph/tools/llm_tool.py:418-446 | the empty message is UNKNOWN; otherwise a question keyword wins over a complaint keyword, and everything else is GENERAL |
| LlmTool.ReasoningField | app/engines/langgraph/state/schemas.py:53 | a reasoning value is accepted exactly when it is a string or none |
| LlmTool.ModelClassification | app/engines/langgraph/tools/llm_tool.py:94-123 | a model classification has a valid confidence and names the provider as its model; it carries the intent and the confidence parsed from the provider's reply to the classification prompt, and that reply's reasoning entry after Optional[str] validation; a parsed reply with a confidence in [0, 1] and a string or null reasoning always gives that classification |
| LlmTool.ClassifyIntent | app/engines/langgraph/tools/llm_tool.py:68-145 | a blank message raises `invalid_input`; only tool errors escape; every returned classification has a valid confidence; any other failure of the model path gives the keyword fallback of the original message at 0.3 with model `fallback` |
| LlmTool.OutOfRangeConfidenceFallsBack | app/engines/langgraph/tools/llm_tool.py:118-145 | a reply whose confidence lies outside [0, 1] does not reach the caller as an error: the keyword fallback at 0.3 is returned, and it is never UNKNOWN for a non-blank message |
| LlmTool.PromptChecks | app/engines/langgraph/tools/llm_tool.py:170-189 | generation is refused with `invalid_input` exactly for a blank prompt, a token budget outside 1..1000 or a temperature outside [0, 1] |
| LlmTool.ChatResult | app/engines/langgraph/tools/llm_tool.py:199-212 | a generated or cached reply is a well-formed successful LLM result with confidence 0.8 recording the reply, the stripped prompt and whether it was cached |
| LlmTool.Ask | app/engines/langgraph/tools/llm_tool.py:220-233 | the provider call succeeds exactly when the provider answers the stripped prompt with non-blank text, and then yields that text stripped; a blank answer is `empty_response`; every failure is a tool error |
| LlmTool.Store | app/engines/langgraph/tools/llm_tool.py:235-237 | a reply is cached only when it is longer than ten characters and the cache holds fewer than 100 entries, so a cache within capacity stays within it |
| LlmTool.Respond | app/engines/langgraph/tools/llm_tool.py:194-260 | a cache hit answers the stored text with no tokens and `cached` set and leaves the cache alone; a miss succeeds exactly when the provider gives a non-blank reply, answers that reply with `cached` unset and the word count of reply and prompt as tokens, and passes the provider's error on otherwise; a failure leaves the cache alone; no entry is lost or changed, and only the given key can be added, holding a reply longer than ten characters while the cache had room |
| LlmTool.GenerateResponseAsWritten | app/engines/langgraph/tools/llm_tool.py:147-281 | generation as written: invalid arguments are refused before the cache is read; a prompt whose key (the first 100 characters of the stripped prompt) is cached is answered with the cached text marked as cached, whatever the rest of the prompt says; otherwise it succeeds exactly when the provider answers, and the reply to the whole prompt is stored under the truncated key; failures leave the cache alone and no entry is lost |
| LlmTool.GenerateResponse | app/engines/langgraph/tools/llm_tool.py:147-281 | corrected generation (key over the whole stripped prompt with max_tokens and temperature): invalid arguments are refused; every failure is a tool error and leaves the cache unchanged; a cached key is answered with the cached text, marked cached with 0 tokens, and leaves the cache alone; otherwise the call succeeds exactly when the provider gives a non-blank reply, answers that stripped reply and stores it; no entry is lost or changed, only the key can be added, and the cache never grows past 100 |
| LlmTool.CacheStaysCoherent | app/engines/langgraph/tools/llm_tool.py:235-237 | with the corrected key, every cached entry stays equal to the provider's stripped reply for its key |
| LlmTool.StoreKeepsCoherent | app/engines/langgraph/tools/llm_tool.py:235-237 | storing the provider's own stripped reply under its key keeps the cache coherent |
| LlmTool.CacheTransparent | app/engines/langgraph/tools/llm_tool.py:194-260 | with the corrected key the cache is invisible to the caller: a call fails exactly when the same call on an empty cache fails, with the same error, and otherwise answers the same text |
| LlmTool.GenerateUpResponse | app/engines/langgraph/tools/llm_tool.py:283-338 | the university reply never fails: a generated reply is returned as generation shapes it, and any failure gives the canned greeting echoing the first 50 characters at confidence 0.5 with model `fallback` and the cache untouched |
| LlmTool.UpPromptsShareKeyPrefix | app/engines/langgraph/tools/llm_tool.py:300-310 | every university prompt starts with the same preamble of more than 100 characters, so all of them get the same as-written cache key although different messages give different prompts |
| LlmTool.AsWrittenCacheConflatesPrompts | app/engines/langgraph/tools/llm_tool.py:194-197 | as written, once a prompt's reply is cached, any prompt agreeing with it on the first 100 characters is answered with that reply, marked cached, whatever the provider would say to it |
| LlmTool.CachedHit | app/engines/langgraph/tools/llm_tool.py:194-212 | a prompt whose as-written key is cached is answered with the cached text and no tokens |
| LlmTool.FirstReplyCached | app/engines/langgraph/tools/llm_tool.py:233-237 | on an empty cache, a reply longer than ten characters ends up as the only entry, under the as-written key |
| LlmTool.StaleReplyExample | app/engines/langgraph/tools/llm_tool.py:300-317 | as written, after one student says "hola", a second student asking about "matrícula" is handed the greeting's answer |
| LlmTool.HealthCheck | app/engines/langgraph/tools/llm_tool.py:448-467 | the LLM tool is healthy exactly when the provider answers the probe prompt with non-blank text |
| ClassificationNode.SimpleFallback | app/engines/langgraph/nodes/classification.py:97-123 | the node's keyword rule never answers UNKNOWN: the empty message is GENERAL, question words win over complaint words, and everything else is GENERAL |
| ClassificationNode.Execute | app/engines/langgraph/nodes/classification.py:32-95 | the node always records a known intent with a confidence in [0, 1] and step `intent_classified`, touching only the intent, confidence, step, metadata and error fields: GENERAL at 0.5 for the empty message, the keyword rule at 0.3 without an LLM tool, the LLM's classification with its model and reasoning in the metadata, or on an error the keyword rule at 0.2 with a `classification_error` recorded |
| ClassificationNode.WhitespaceMessageFallsBack | app/engines/langgraph/nodes/classification.py:86-95 | a message of white space only is refused by the LLM tool, so the node records a `classification_error` and falls back to GENERAL at 0.2 |
| ClassificationNode.BlankContainsNoWord | app/engines/langgraph/nodes/classification.py:110-120 | white space contains none of the keyword rule's words |
| DocumentSearchNode.AfterSearch | app/engines/langgraph/nodes/document_search.py:72-120 | once the search is back, the node records a document result and counts success exactly when the search succeeded with non-empty content; only then the sources are replaced and the record holds the content; a search that found nothing is recorded without error; an exception is recorded as `document_search_error` with the message in the result |
| DocumentSearchNode.Failed | app/engines/langgraph/nodes/document_search.py:108-120 | a node failure is recorded as an unsuccessful result holding only the error message |
| DocumentSearchNode.Execute | app/engines/langgraph/nodes/document_search.py:31-120 | the node always records a `document` result with step `document_executed`, touching only the tool, step, source and error fields; an empty message and a missing tool are recorded as failures without searching; success requires a message and a document tool |
| DocumentSearchNode.BlankMessageRecordedAsError | app/engines/langgraph/nodes/document_search.py:72-76 | a message of white space only passes the node's own check, is refused by the search, and is recorded as a failed search with a `document_search_error` |
| DocumentSearchNode.SuccessIffContent | app/engines/langgraph/nodes/document_search.py:79-92 | with a message and a tool, the node succeeds exactly when the service answered the stripped request and the combined text of the chunks is not empty |
| ComplaintNode.ErrorText | app/engines/langgraph/nodes/complaint_processing.py:102 | the recorded error text is never empty: the tool's message, or `Unknown error` |
| ComplaintNode.Failed | app/engines/langgraph/nodes/complaint_processing.py:110-121 | a node failure is recorded as an unsuccessful result holding only the error message, with a `complaint_processing_error` |
| ComplaintNode.AfterSubmission | app/engines/langgraph/nodes/complaint_processing.py:74-121 | once the submission is back, the node counts success exactly when the tool returned a successful complaint result and then records its id, short id, title and category without an error; every unsuccessful record holds an `error` entry; an exception becomes a `complaint_processing_error` |
| ComplaintNode.Execute | app/engines/langgraph/nodes/complaint_processing.py:31-123 | the node always records a `complaint` result with step `complaint_executed`, touching only the tool, step and error fields; an empty message and a missing tool are recorded as failures without submitting; a failure always carries an `error` entry |
| ComplaintNode.SuccessIffSubmitted | app/engines/langgraph/nodes/complaint_processing.py:81-105 | the complaint tool either raises or returns a success, so the node succeeds exactly when the submission succeeds and never records `complaint_failed` |
| ComplaintNode.ShortMessageNeverFiled | app/engines/langgraph/nodes/complaint_processing.py:74-78 | a chat message shorter than 10 characters after stripping is never filed, whether blank, sent with an empty user id or merely short: the node records a `complaint_processing_error` |
| ResponseFormatting.Citation | app/engines/langgraph/nodes/response_formatting.py:95-97 | a citation line appears exactly when there are sources, and names the first two separated by commas |
| ResponseFormatting.Take2 | app/engines/langgraph/nodes/response_formatting.py:96 | at most the first two sources are cited, in order |
| ResponseFormatting.FormatQuestion | app/engines/langgraph/nodes/response_formatting.py:85-119 | a question is answered with the found content and its citation exactly when the search succeeded with a `document_search` record; otherwise with the no-information text; a success without a recorded result raises |
| ResponseFormatting.FormatComplaint | app/engines/langgraph/nodes/response_formatting.py:121-150 | a complaint is confirmed with its short id (or `desconocido`) exactly when it was submitted with a `complaint_submitted` record; otherwise the apology is given; a success without a recorded result raises |
| ResponseFormatting.FormatGeneral | app/engines/langgraph/nodes/response_formatting.py:152-184 | a greeting wins over thanks, and any other message is echoed by its first 50 characters; the three general actions are always offered |
| ResponseFormatting.Execute | app/engines/langgraph/nodes/response_formatting.py:32-83 | the node always ends with a non-empty response, non-empty actions and step `response_formatted`, touching only the response fields and the error; a formatted reply keeps the state's confidence; formatting fails exactly for a successful question or complaint without a recorded result, and then the apology at 0.1 is given with a `response_formatting_error` |
| ResponseFormatting.GeneralIgnoresToolResult | app/engines/langgraph/nodes/response_formatting.py:51-56 | for any intent but question and complaint, the reply and actions depend on the user's message only, not on the tool result |
| ResponseFormatting.CitesAtMostTwo | app/engines/langgraph/nodes/response_formatting.py:95-97 | a document answer cites at most two sources, all held by the state, starting with the first |
| ChatWorkflow.CreateNodeRegistry | app/engines/langgraph/nodes/__init__.py:32-47 | the node registry holds exactly the four nodes under `classification`, `document_search`, `complaint_processing` and `response_formatting` |
| ChatWorkflow.NodeRegistryFaithful | app/engines/langgraph/nodes/__init__.py:42-47 | the registered nodes are the ones the workflow relies on: formatting always leaves a non-empty response with actions, and no node before formatting touches the confidence |
| ChatWorkflow.ClassifierKeepsConfidence | app/engines/langgraph/nodes/classification.py:55-95 | classification writes only the intent confidence, never the reply confidence |
| ChatWorkflow.SearchKeepsConfidence | app/engines/langgraph/nodes/document_search.py:72-120 | the document search never writes the reply confidence |
| ChatWorkflow.ComplaintKeepsConfidence | app/engines/langgraph/nodes/complaint_processing.py:74-123 | complaint processing never writes the reply confidence |
| ChatWorkflow.RunNode | app/engines/langgraph/workflows/chat_workflow.py:101-111 | running a node raises a `KeyError` exactly when its key is not registered, and never changes the tools |
| ChatWorkflow.RouteByIntent | app/engines/langgraph/workflows/chat_workflow.py:81-98 | routing is total: a question goes to the document search, a complaint to complaint processing, and every other intent, none included, to general chat |
| ChatWorkflow.GeneralChat | app/engines/langgraph/workflows/chat_workflow.py:113-170 | general chat touches only the tool fields and the step of the state, and keeps the set of tools |
| ChatWorkflow.GeneralChatRecords | app/engines/langgraph/workflows/chat_workflow.py:132-152 | every general-chat path records a successful `general_chat` result with a reply, of tool type `llm` |
| ChatWorkflow.GeneralChatReply | app/engines/langgraph/workflows/chat_workflow.py:117-152 | without any node or without the LLM tool the canned greeting is recorded; otherwise the university reply (or the default when it has none), with the LLM tool's cache updated and the other tools as they were |
| ChatWorkflow.GraphStep | app/engines/langgraph/workflows/chat_workflow.py:51-55 | a graph step never changes the set of tools |
| ChatWorkflow.Next | app/engines/langgraph/workflows/chat_workflow.py:58-77 | every edge and branch of the graph leads to one of its five nodes |
| ChatWorkflow.Walk | app/engines/langgraph/workflows/chat_workflow.py:58-79 | a run of the graph never changes the set of tools |
| ChatWorkflow.FallbackExecution | app/engines/langgraph/workflows/chat_workflow.py:192-245 | the sequential run returns the state after classification, the routed handler and formatting; when a step raises it gives the apology at 0.1 with one action and a `workflow_error` on the state reached so far; with every node present no step raises |
| ChatWorkflow.GraphMatchesFallback | app/engines/langgraph/workflows/chat_workflow.py:48-79 | with every node present, the graph walks classify, the routed handler and formatting within the step limit and ends exactly where the sequential run ends |
| ChatWorkflow.MissingClassifierRaises | app/engines/langgraph/workflows/chat_workflow.py:204-245 | without the classification node the graph raises a `KeyError`, while the sequential run records the error and answers with the apology |
| ChatWorkflow.FallbackAnswers | app/engines/langgraph/workflows/chat_workflow.py:204-245 | given a formatting node that always formats, the sequential run ends with a formatted state (step `response_formatted`, a non-empty response, at least one suggested action) whether its steps finish or break off |
| ChatWorkflow.ConfidenceUntouched | app/engines/langgraph/workflows/chat_workflow.py:204-228 | with every node present the run ends with the confidence it started with, or formatting's error confidence; the workflow's own apology is never reached |
| ChatWorkflow.NewWorkflow | app/engines/langgraph/workflows/base_workflow.py:36-45 | a new workflow holds its nodes and nothing compiled |
| ChatWorkflow.Build | app/engines/langgraph/workflows/chat_workflow.py:32-43 | the compiled graph is built exactly when the graph library is available, the fallback wrapper otherwise |
| ChatWorkflow.GetCompiled | app/engines/langgraph/workflows/base_workflow.py:60-69 | the compiled form is built on the first request and the stored one is returned afterwards |
| ChatWorkflow.BuiltOnce | app/engines/langgraph/workflows/base_workflow.py:67-69 | once built, every later request returns the same compiled form and changes nothing |
| ChatWorkflow.Execute | app/engines/langgraph/workflows/base_workflow.py:71-88 | execution runs the graph when the library is available and the graph was compiled, and the sequential run in every other case, the wrapper included; the compiled form is kept |
| ChatWorkflow.ModesAgree | app/engines/langgraph/workflows/base_workflow.py:81-88 | with every node present both execution modes give the same final state and tools, and neither raises |
| Engine.SetupNodes | app/engines/langgraph/engine.py:216-230 | the engine has no node exactly when it has no tool, and otherwise the full node registry |
| Engine.SetupWorkflow | app/engines/langgraph/engine.py:232-246 | the engine has a workflow exactly when it has a node, and that workflow holds the nodes and is not yet compiled |
| Engine.NewEngine | app/engines/langgraph/engine.py:40-58 | a new engine has the tool registry built from its services, no metrics, and a workflow exactly when at least one service was supplied; that workflow runs every node, none of which writes the confidence before formatting |
| Engine.QueryTypeOf | app/engines/langgraph/engine.py:258-266 | a question intent, and only it, maps to document QA; a complaint, and only it, to complaint submission; every other intent, none included, to general information; procedure help is never produced |
| Engine.ConvertToResponse | app/engines/langgraph/engine.py:248-304 | the response text is the state's reply or the fixed apology when the reply is missing or empty; follow-up is asked for exactly when the confidence is below 0.5 or an error is recorded; the structured data is the tool result exactly when that is present and non-empty; the metadata holds the engine's entries and the state's, the state's winning on a shared key |
| Engine.FallbackResponse | app/engines/langgraph/engine.py:306-334 | the fallback answer is the apology as general information at confidence 0.1, with no sources and no data, asks for a follow-up, offers the two fixed actions, and records the error and at most the first 100 characters of the message |
| Engine.Counted | app/engines/langgraph/engine.py:336-339 | recording a query adds one to the conversation count and its time to the total, and changes nothing else |
| Engine.ProcessQuery | app/engines/langgraph/engine.py:65-126 | every query is answered with a non-empty text and counted once; without a workflow the answer is the fallback for the missing `execute` attribute; otherwise the converted final state when the workflow completes and the fallback carrying its error when it raises; the tools, nodes and workflow keep their shape |
| Engine.CountsEveryQuery | app/engines/langgraph/engine.py:102-117 | after any sequence of queries the conversation count has grown by exactly their number, and the engine keeps the shape its set-up gave it |
| Engine.NoServicesAlwaysFallback | app/engines/langgraph/engine.py:96-126 | an engine built without any service answers every query with the fallback response and stays without tools |
| Engine.EveryAnswerAsksForFollowup | app/engines/langgraph/engine.py:273-283 | in an engine with a workflow, every answer carries confidence 0.0 or 0.1 and so always asks for a follow-up, because no step before formatting writes the confidence |
| SimpleEngine.InitialState | app/engines/langgraph_engine.py:88-100 | a graph run starts with the message, user and history of the query, no intent, result or reply, no sources, actions or metadata, and confidence 0.8 |
| SimpleEngine.ClassifyIntent | app/engines/langgraph_engine.py:126-152 | classification changes only the intent, which is always set: the LLM's reply stripped and lower-cased, whatever it says, or `conversacion` when the LLM fails |
| SimpleEngine.Filenames | app/engines/langgraph_engine.py:180 | the sources are the chunks' file names, one per chunk and in order |
| SimpleEngine.Search | app/engines/langgraph_engine.py:163-169 | a question whose search request is invalid never reaches the search service; a question of 1 to 500 stripped characters sends the service the request with the stripped message as query, limit 3, threshold 0.7 and no filters, and returns the service's answer |
| SimpleEngine.Report | app/engines/langgraph_engine.py:193-201 | a report whose stripped text is shorter or longer than the complaint description bounds fails with a validation error and is never sent; otherwise the service receives a request titled "Reporte desde chat" with the stripped message, category OTHER, marked anonymous and still carrying the stripped user id, and its answer is returned |
| SimpleEngine.Act | app/engines/langgraph_engine.py:160-233 | when the action succeeds, its result type is one the intent allows: a document result or none for `pregunta`, a confirmation for `queja`, general chat for any other intent |
| SimpleEngine.ActFigures | app/engines/langgraph_engine.py:171-232 | a successful action records, for a question, the best score plus 0.1 capped at 0.9 with one or two cited files, or the not-found result at 0.3; for a complaint, the confirmation with its short id at 0.95; otherwise the chat reply at 0.8 |
| SimpleEngine.ExecuteAction | app/engines/langgraph_engine.py:154-246 | the action step writes only the tool result, sources and confidence, always leaves a typed result, and that type is one the intent allows or the error result |
| SimpleEngine.KindFollowsIntent | app/engines/langgraph_engine.py:161-233 | a document result appears only for the intent `pregunta`, a confirmation only for `queja`, and every other intent gets general chat or the error result |
| SimpleEngine.KindsSeparate | app/engines/langgraph_engine.py:174-242 | the five result types are distinct, so a result's type tells which intent branch produced it |
| SimpleEngine.ActionFigures | app/engines/langgraph_engine.py:171-244 | each result type comes with its own confidence and sources: a found document at most 0.9 with one or two files, no document 0.3, a filed complaint 0.95 with its short id, general chat 0.8, and a failure the error result at 0.1, the last four with no sources |
| SimpleEngine.OtherIntentsIgnoreServices | app/engines/langgraph_engine.py:211-232 | for any intent other than the exact `pregunta` and `queja` the action does not depend on the search or complaint service |
| SimpleEngine.ShortReportNeverFiled | app/engines/langgraph_engine.py:191-244 | a report shorter than a complaint description ends in the error result at confidence 0.1 |
| SimpleEngine.Field | app/engines/langgraph_engine.py:256-304 | reading a key of the tool result succeeds exactly when the key is present, and gives the string stored there |
| SimpleEngine.Compose | app/engines/langgraph_engine.py:250-308 | formatting fails when there is no tool result or it has no type |
| SimpleEngine.FormatResponse | app/engines/langgraph_engine.py:248-321 | formatting writes only the reply, actions and metadata, always leaves a reply, and answers with the fixed apology and no actions exactly when the result cannot be read, leaving the metadata alone; otherwise the metadata is the tool used and the processing time |
| SimpleEngine.ErrorResultFormats | app/engines/langgraph_engine.py:303-308 | the error result is answered with its own apology and the two error actions |
| SimpleEngine.FoundFormats | app/engines/langgraph_engine.py:254-268 | a found document is answered with the header, its content and its file name |
| SimpleEngine.NotFoundFormats | app/engines/langgraph_engine.py:270-281 | no document is answered with the not-found message, the suggestions and the two retry actions |
| SimpleEngine.SubmittedFormats | app/engines/langgraph_engine.py:283-294 | a filed complaint is confirmed with the first eight characters of its id |
| SimpleEngine.ChatFormats | app/engines/langgraph_engine.py:296-301 | general chat answers with the LLM's text as it is |
| SimpleEngine.ActedResultsFormat | app/engines/langgraph_engine.py:171-301 | every result a successful action writes is formatted without failure |
| SimpleEngine.ActionResultsFormat | app/engines/langgraph_engine.py:154-321 | formatting never fails on what the action step leaves, so the fixed formatting apology is never given after a full graph run |
| SimpleEngine.RunGraph | app/engines/langgraph_engine.py:62-75 | a graph run always leaves a reply, and never writes the `engine` or `intent` metadata keys |
| SimpleEngine.RunGraphRecords | app/engines/langgraph_engine.py:62-75 | a graph run records an intent and a tool result and leaves the message, user and history alone |
| SimpleEngine.ToResponse | app/engines/langgraph_engine.py:106-119 | the response carries the final state's reply, sources, confidence, result and actions, maps `pregunta` and `queja` to their query types and everything else to general information, never asks for a follow-up, and its metadata holds `engine` and `intent` overridden by the state's own entries |
| SimpleEngine.Route | app/engines/langgraph_engine.py:338-368 | a question word sends the message with limit 2 and threshold 0.7 to the search, and routing succeeds exactly when that request is valid and the search succeeds; found chunks give the documents header plus the first chunk's content as document QA citing every chunk's file name, none gives the no-information text; otherwise a complaint word gives the problem-noticed text as a complaint, and anything else the greeting quoting the message; a question word always wins |
| SimpleEngine.Fallback | app/engines/langgraph_engine.py:332-392 | the keyword answer has confidence 0.7, engine `fallback`, the router's text, query type and sources and the two fixed suggestions exactly when routing succeeds, and otherwise the apology at 0.1 with engine `error_fallback`, no sources and the two error suggestions; it never asks for a follow-up and has no structured data |
| SimpleEngine.ProcessQuery | app/engines/langgraph_engine.py:77-124 | without the graph library the answer is the keyword router's (`fallback` or `error_fallback`); with it the answer carries the final state's reply, sources, confidence, tool result and actions, tagged `langgraph`; no answer asks for a follow-up |
| SimpleEngine.QuestionWordsFirst | app/engines/langgraph_engine.py:343-362 | a message with a question word is never taken for a complaint by the router, whatever complaint words it has |
| SimpleEngine.ShortReportAnsweredWithApology | app/engines/langgraph_engine.py:141-246 | with the graph, a message the LLM calls a complaint but too short to be one is answered with the apology at confidence 0.1, still typed as a complaint submission |
| TextChunking.NextBreak | app/utils/text_chunking.py:14 | the next sentence break is a sentence end followed by white space, and no break is skipped before it |
| TextChunking.SentencesEndAtBreaks | app/utils/text_chunking.py:14 | every sentence but the last is non-empty and ends with `.`, `!` or `?`, so the split only cuts after a sentence end |
| TextChunking.SentencesKeepText | app/utils/text_chunking.py:14 | splitting into sentences drops only the white space between them: every other character is kept, in order |
| TextChunking.ParagraphsKeepText | app/utils/text_chunking.py:31 | splitting at blank lines drops only white space |
| TextChunking.JoinKeepsText | app/utils/text_chunking.py:19-23 | joining pieces with a blank separator adds only white space |
| TextChunking.Pack | app/utils/text_chunking.py:15-26 | each chunk is non-empty, stripped, and the stripped accumulation of its own run of consecutive pieces; the runs come in order without overlap; a chunk of two or more pieces stays within the size limit; and the chunks together hold every non-space character of the pieces, in order |
| TextChunking.ChunkBySentences | app/utils/text_chunking.py:10-26 | blank text gives no chunks; every chunk is non-empty, stripped and made of whole consecutive sentences in order; a chunk over the size limit is a single sentence; no non-space character of the text is lost, added or reordered |
| TextChunking.ChunkByParagraphs | app/utils/text_chunking.py:29-43 | blank text gives no chunks; every chunk is non-empty, stripped and made of whole consecutive paragraphs in order; a chunk over the size limit is a single paragraph; no non-space character of the text is lost, added or reordered |
| DocumentProcessing.DigitRun | app/utils/document_processing.py:139 | the digit run is the longest prefix of decimal digits |
| DocumentProcessing.FirstMark | app/utils/document_processing.py:139 | the first page marker at or after a position is a marker, and none lies before it; when there is none, no marker lies after the position |
| DocumentProcessing.ExtractPageNumber | app/utils/document_processing.py:134-146 | the page number is absent exactly when the text has no `[Página N]` marker, and otherwise is the number in the first marker |
| DocumentProcessing.PageNumberRoundTrip | app/utils/document_processing.py:62 | the page number written in the header the PDF extraction puts before a page's text is read back unchanged from that text |
| DocumentProcessing.RemoveMarks | app/utils/document_processing.py:152 | removing the page markers never lengthens the text |
| DocumentProcessing.RemoveMarksWithoutMarks | app/utils/document_processing.py:152 | a text with no page marker anywhere is left unchanged |
| DocumentProcessing.RemoveMarksOfPageHeader | app/utils/document_processing.py:62 | the header written before a page loses its `[Página N]` marker and keeps the line breaks around it, and the page text is cleaned on its own |
| DocumentProcessing.Collapse | app/utils/document_processing.py:155 | after collapsing, every white-space character is a single blank and no two are adjacent, and the text starts with white space exactly when it did before |
| DocumentProcessing.CollapseKeepsText | app/utils/document_processing.py:155 | collapsing white space keeps every other character, in order |
| DocumentProcessing.KeepLines | app/utils/document_processing.py:158-159 | filtering lines never adds one, and every kept line is stripped and longer than three characters |
| DocumentProcessing.KeepLinesComplete | app/utils/document_processing.py:158-159 | every line longer than three characters once stripped is kept, stripped |
| DocumentProcessing.KeepLinesSound | app/utils/document_processing.py:158-159 | nothing but a stripped input line is kept |
| DocumentProcessing.KeepLinesAppend | app/utils/document_processing.py:158-159 | the filter keeps the lines' order: filtering a concatenation concatenates the filtered parts |
| DocumentProcessing.CleanChunkText | app/utils/document_processing.py:148-161 | the cleaned text is the marker-free, white-space-collapsed text stripped, when that is longer than three characters, and empty otherwise |
| DocumentProcessing.OneLine | app/utils/document_processing.py:158-161 | a text without a newline is one line, so the line filter keeps it stripped when it is longer than three characters and drops it otherwise |
| DocumentProcessing.CleanShape | app/utils/document_processing.py:148-161 | the cleaned text is empty or longer than three characters, stripped, has no newline and never two white-space characters in a row |
| DocumentProcessing.CleanKeepsText | app/utils/document_processing.py:148-161 | cleaning, unless it drops everything, keeps exactly the non-space characters of the text outside the markers, in order |
| DocumentProcessing.WindowEnd | app/utils/document_processing.py:88-101 | a window ends after its start and within the chunk size, and keeps its full size when it reaches the end of the text |
| DocumentProcessing.ParagraphBreakFirst | app/utils/document_processing.py:92-96 | a window that does not reach the end of the text ends at its last paragraph break when one lies more than 30% in |
| DocumentProcessing.SentenceBreakNext | app/utils/document_processing.py:97-101 | failing a paragraph break, it ends just after its last full stop when one lies more than 50% in |
| DocumentProcessing.FullSizeLast | app/utils/document_processing.py:88-101 | failing both, the window keeps its full size |
| DocumentProcessing.Cut | app/utils/document_processing.py:103-123 | a window yields a chunk exactly when its stripped, cleaned text is longer than 50 characters; the chunk carries the document id, the cleaned text and its length, the page number of the stripped text, the window's bounds and the running index |
| DocumentProcessing.NextStart | app/utils/document_processing.py:126 | the next window starts at least one character further on and no more than the overlap before this window's end; with a non-negative overlap it leaves no gap |
| DocumentProcessing.ChunkText | app/utils/document_processing.py:78-132 | blank text gives no chunks; otherwise the loop visits the windows from position 0 until the next start passes the end; the chunks are numbered 0, 1, 2, … in order of strictly increasing start, each what its window yields, overlapping earlier chunks by at most the overlap, and every visited window whose cleaned text is long enough has its chunk |
| DocumentProcessing.WindowsCover | app/utils/document_processing.py:125-130 | with a non-negative overlap every character of the text lies inside some visited window |

## Left out

- PDF reading (`process_pdf`, `_extract_pdf_text`, `extract_metadata`): file I/O through `pypdf`. Only the page header the extraction writes is modelled, for the page-number round trip.
- Timing, timestamps and logging: the elapsed time of a query or tool call is a parameter.
- Floating point: confidences, similarities, temperatures and times are exact reals. NaN, infinities and rounding are not modelled. The window thresholds `chunk_size * 0.3` and `chunk_size * 0.5` are compared exactly, scaled to integers.
- The JSON decoder used on LLM replies is an oracle. Python's `float()` on its fields is an oracle too.
- `str.lower()` folds only ASCII and Latin-1 upper-case letters. `str.isspace()` covers the ASCII and Unicode spaces listed in `Text.IsSpace`. `\d` in the page-marker pattern matches only ASCII digits.
- Non-string values inside f-strings are rendered by `Values.Show`: exact for strings, `None`, booleans and integers, and a type placeholder for floats, lists, dicts and other objects.
- `clear_cache`, `get_cache_stats`, `get_capabilities` and `get_tools_info`: reporting helpers with no logic of their own.
- `health_check_all`, `get_all_metrics`, `reset_metrics`: reporting and reset helpers over the registry. Of `get_metrics`, only the average time is modelled.
- The tools' and nodes' `execute()` entry points: they only delegate to the modelled operations.
- `StateManager.get_state_summary` and `get_workflow_info`: logging summaries.
- `ModularLangGraphEngine.health_check`, `initialize_documents` and `_get_metrics`: they report or delegate. The same goes for `SimpleLangGraphEngine.initialize_documents` and `health_check`.
- The LangGraph runtime is modelled as a walk over the five nodes with a step limit, which the three-step path never reaches.
- Tool and node registries are records of the fixed keys the source uses, so a registry cannot hold an unexpected key.
- A service is present exactly when it was supplied (`Option`). Python truthiness of a supplied service object is taken as true.
- `SimpleLangGraphEngine`'s three services are always supplied. A `None` service would raise inside the action step's `try` and give the error result; that path is not modelled.
- General chat's `except` branch in `chat_workflow.py:156-170` is not modelled: nothing inside its `try` can raise once the LLM tool's own errors are caught, so the branch is unreachable.
- When the LangGraph run raises, the model keeps the tools as they were before the run. Cache entries written by the LLM tool earlier in that same run are therefore lost. This can only happen when a node is missing from the registry, and a missing classifier raises before any tool is called.
- `StateManager` defaults such as `state.get('processing_step', 'unknown')` are not modelled: the state is a record whose fields are always present, so those defaults never apply.
- `list(set(sources))` in the document tool is modelled in first-occurrence order. Python's set order is unspecified, so the contracts state only the set of sources and that it has no duplicates.
- SimpleEngine.ToResponse: requires the final state to carry a reply. The graph always writes one (`SimpleEngine.RunGraph`), so the `None` response text the source would pass on cannot arise.
- BaseTool.SanitizeIdempotent: requires every value to be describable, meaning a container has fewer than `10 ** 90` elements and an object's type name is at most 100 characters. A longer description would itself be truncated on the second pass.
- DocumentProcessing.ChunkText: requires `chunk_size > 0`. For a zero or negative size the source's windows are empty or reach backwards (`text[start:-1]`), and that is not modelled.
- DocumentProcessing.WindowEnd: requires `chunk_size > 0` and a start inside the text, as `_chunk_text`'s loop guarantees.
- DocumentProcessing.Cut: requires `chunk_size > 0` and a start inside the text, as `_chunk_text`'s loop guarantees.
- DocumentProcessing.NextStart: requires `chunk_size > 0` and a start inside the text, as `_chunk_text`'s loop guarantees.
- LlmTool.Respond: takes a temperature already checked to lie in [0, 1] by `LlmTool.PromptChecks`, which `generate_response` runs first.
- LlmTool.ChatResult: takes a temperature already checked to lie in [0, 1], as its callers guarantee.
- LlmTool.GenerateUpResponse: is built on the corrected `LlmTool.GenerateResponse`, whose cache key is the whole prompt, not on the as-written key of `llm_tool.py:193` (see "## Findings"). As written, every university prompt shares one key, so once a reply is cached every later student receives it; `LlmTool.StaleReplyExample` shows this on the as-written function.
- ChatWorkflow.GeneralChatReply: calls `LlmTool.GenerateUpResponse` and so uses the corrected whole-prompt cache key, not the as-written 100-character key.
- Engine.ProcessQuery: reaches the LLM tool only through `ChatWorkflow.GeneralChatReply`, and so models the corrected whole-prompt cache key, not the as-written one.

## Findings

| source | as written | input that shows it | evidently intended | confidence | as-written member | corrected member |
|---|---|---|---|---|---|---|
| app/engines/langgraph/tools/llm_tool.py:193 | the response cache key is the first 100 characters of the prompt plus the token limit and temperature | `generate_up_response("hola")` and then `generate_up_response("matrícula")`: both prompts share a preamble longer than 100 characters, so the second student gets the cached greeting | the key covers the whole prompt, so a cached reply is only returned for the same prompt | not executed | LlmTool.GenerateResponseAsWritten (LlmTool.AsWrittenCacheConflatesPrompts, LlmTool.StaleReplyExample) | LlmTool.GenerateResponse (LlmTool.CacheTransparent, LlmTool.CacheStaysCoherent) |
