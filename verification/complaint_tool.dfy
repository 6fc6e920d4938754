/**
 * `ComplaintTool`: argument validation, title generation, keyword-score
 * categorisation and the shaping of the submission result. The complaint
 * service is an oracle from a validated request to a stored complaint or
 * an exception.
 */
module ComplaintTool {
  import opened Wrappers
  import opened Text
  import opened Values
  import opened Errors
  import opened Schemas
  import CM = ComplaintModel

  /** The complaint service's `submit_complaint`. */
  type ComplaintService = CM.SubmissionRequest -> Result<CM.Complaint, Exception>

  // ---------------------------------------------------------------------
  // Title generation

  /** The text before the first '.', stripped: `description.split('.')[0].strip()`. */
  function FirstSentence(description: string): string {
    Strip(Split(description, ".")[0])
  }

  /**
   * `_generate_title_from_description`: the first sentence when it has 6 to
   * 100 characters, else the whole description when it has at most 50,
   * else its first 47 characters followed by "...".
   */
  function GenerateTitle(description: string): (t: string)
    ensures 5 < |FirstSentence(description)| <= 100 ==> t == FirstSentence(description)
    ensures !(5 < |FirstSentence(description)| <= 100) && |description| <= 50 ==> t == description
    ensures !(5 < |FirstSentence(description)| <= 100) && |description| > 50 ==>
              t == description[..47] + "..." && |t| == 50
    ensures |t| <= 100
  {
    var first := FirstSentence(description);
    if 5 < |first| <= 100 then first
    else if |description| <= 50 then description
    else description[..47] + "..."
  }

  /**
   * The title generated from an already stripped description that the
   * submission request accepts is itself accepted: it has 5 to 100
   * characters and stripping leaves it unchanged.
   */
  lemma {:induction false} GeneratedTitleAccepted(description: string)
    requires IsTrimmed(description)
    requires CM.MinDescription <= |description| <= CM.MaxDescription
    ensures Strip(GenerateTitle(description)) == GenerateTitle(description)
    ensures CM.MinTitle <= |GenerateTitle(description)| <= 100
  {
    var first := FirstSentence(description);
    if 5 < |first| <= 100 {
      StripTrimmed(first);
    } else if |description| <= 50 {
      StripTrimmed(description);
    } else {
      var t := description[..47] + "...";
      assert t[0] == description[0] && t[|t| - 1] == '.';
      StripTrimmed(t);
    }
  }

  /** Titles so generic that a title is generated from the description instead. */
  const GenericTitles: seq<string> := ["problema", "issue", "error", "queja"]

  /** The title `submit_complaint` submits: the stripped title unless it is short or generic. */
  function EffectiveTitle(title: string, description: string): (t: string)
    ensures (|Strip(title)| < 5 || Lower(Strip(title)) in GenericTitles) ==> t == GenerateTitle(Strip(description))
    ensures !(|Strip(title)| < 5 || Lower(Strip(title)) in GenericTitles) ==> t == Strip(title)
  {
    var t := Strip(title);
    if |t| < 5 || Lower(t) in GenericTitles then GenerateTitle(Strip(description)) else t
  }

  // ---------------------------------------------------------------------
  // Category detection

  const AcademicKeywords: seq<string> :=
    ["califica", "nota", "examen", "profesor", "clase", "curso", "materia", "horario", "aula", "laboratorio"]
  const AdministrativeKeywords: seq<string> :=
    ["matricula", "inscripción", "registro", "documento", "certificado", "trámite", "pago", "beca", "admisión"]
  const TechnologyKeywords: seq<string> :=
    ["sistema", "plataforma", "internet", "wifi", "computadora", "aplicación", "página", "login", "contraseña"]
  const InfrastructureKeywords: seq<string> :=
    ["edificio", "aula", "baño", "biblioteca", "cafetería", "estacionamiento", "ascensor", "aire acondicionado"]
  const ServicesKeywords: seq<string> :=
    ["atención", "servicio", "personal", "secretaría", "ventanilla", "información", "ayuda"]
  const FinancialKeywords: seq<string> :=
    ["pago", "dinero", "costo", "precio", "beca", "financiamiento", "cuota", "mensualidad"]

  /** The order in which the scores are listed, and so the order that breaks ties. */
  const ScoringOrder: seq<CM.Category> :=
    [CM.Academic, CM.Administrative, CM.Technology, CM.Infrastructure, CM.Services, CM.Financial]

  /** The keyword list of each scored category. */
  const KeywordTable: seq<seq<string>> :=
    [AcademicKeywords, AdministrativeKeywords, TechnologyKeywords,
     InfrastructureKeywords, ServicesKeywords, FinancialKeywords]

  /** No keyword is listed twice. */
  predicate Distinct(keys: seq<string>) {
    forall i, j :: 0 <= i < j < |keys| ==> keys[i] != keys[j]
  }

  /** `sum(1 for keyword in keys if keyword in text)` */
  function KeywordScore(text: string, keys: seq<string>): nat
    decreases |keys|
  {
    if |keys| == 0 then 0
    else (if Contains(text, keys[0]) then 1 else 0) + KeywordScore(text, keys[1..])
  }

  /** The keywords of `keys` that occur in `text`. */
  function Matches(text: string, keys: seq<string>): set<string> {
    set k | k in keys && Contains(text, k)
  }

  /** With distinct keywords, the score is the number of distinct keywords that occur. */
  lemma {:induction false} ScoreCountsMatches(text: string, keys: seq<string>)
    requires Distinct(keys)
    ensures KeywordScore(text, keys) == |Matches(text, keys)|
    decreases |keys|
  {
    if |keys| > 0 {
      var rest := keys[1..];
      assert Distinct(rest);
      ScoreCountsMatches(text, rest);
      assert keys[0] !in rest;
      if Contains(text, keys[0]) {
        assert Matches(text, keys) == {keys[0]} + Matches(text, rest);
      } else {
        assert Matches(text, keys) == Matches(text, rest);
      }
    }
  }

  /** The six scores of a complaint text, in scoring order, over the lower-cased text. */
  function Scores(text: string): (s: seq<nat>)
    ensures |s| == |ScoringOrder| == 6
    ensures forall i :: 0 <= i < 6 ==> s[i] == KeywordScore(Lower(text), KeywordTable[i])
  {
    var t := Lower(text);
    seq(6, i requires 0 <= i < 6 => KeywordScore(t, KeywordTable[i]))
  }

  /** Each category's score is the number of distinct keywords of its list found in the lower-cased text. */
  lemma ScoresCountDistinctMatches(text: string)
    ensures forall i :: 0 <= i < 6 ==> Scores(text)[i] == |Matches(Lower(text), KeywordTable[i])|
  {
    forall i | 0 <= i < 6
      ensures Scores(text)[i] == |Matches(Lower(text), KeywordTable[i])|
    {
      assert Distinct(KeywordTable[i]);
      ScoreCountsMatches(Lower(text), KeywordTable[i]);
    }
  }

  /** Python's `max`: the index of the first maximal element. */
  function FirstMax(xs: seq<nat>): (k: nat)
    requires |xs| > 0
    ensures k < |xs|
    ensures forall j :: 0 <= j < |xs| ==> xs[j] <= xs[k]
    ensures forall j :: 0 <= j < k ==> xs[j] < xs[k]
    decreases |xs|
  {
    if |xs| == 1 then 0
    else
      var k := FirstMax(xs[..|xs| - 1]);
      if xs[|xs| - 1] > xs[k] then |xs| - 1 else k
  }

  /**
   * The category chosen from six scores listed in scoring order: OTHER
   * exactly when every score is zero, otherwise the first category whose
   * score is maximal.
   */
  function Pick(s: seq<nat>): (c: CM.Category)
    requires |s| == 6
    ensures c == CM.Other <==> forall i :: 0 <= i < 6 ==> s[i] == 0
    ensures c != CM.Other ==>
      exists k :: 0 <= k < 6 && ScoringOrder[k] == c
        && (forall j :: 0 <= j < 6 ==> s[j] <= s[k])
        && (forall j :: 0 <= j < k ==> s[j] < s[k])
  {
    var k := FirstMax(s);
    if s[k] > 0 then ScoringOrder[k] else CM.Other
  }

  /** `_detect_category`: the category picked from the text's six scores. */
  function DetectCategory(text: string): CM.Category {
    Pick(Scores(text))
  }

  /**
   * Ties go to the category scored first: when technology and
   * infrastructure share the top score, technology is chosen (as for a
   * text mentioning "wifi" and "biblioteca" and no other keyword).
   */
  lemma TieGoesToEarlier(s: seq<nat>)
    requires |s| == 6 && s[2] > 0 && s[2] == s[3]
    requires s[0] < s[2] && s[1] < s[2] && s[4] <= s[2] && s[5] <= s[2]
    ensures Pick(s) == CM.Technology
  {
  }

  // ---------------------------------------------------------------------
  // Submission

  /** `not user_id`: no user id, or the empty one. */
  predicate Missing(s: Option<string>) {
    s.None? || s.value == ""
  }

  /** `result_data` of a stored complaint. */
  function ComplaintData(c: CM.Complaint): (d: Data)
    ensures d.Keys == {"id", "title", "category", "priority", "status", "is_anonymous", "created_at", "short_id"}
    ensures d["id"] == Str(c.id) && d["title"] == Str(c.title) && d["created_at"] == Str(c.createdAt)
    ensures d["category"] == Str(c.category.Value()) && d["priority"] == Str(c.priority.Value())
    ensures d["status"] == Str(c.status.Value()) && d["is_anonymous"] == Bool(c.isAnonymous)
    ensures d["short_id"] == (if c.id == "" then Null else Str(Take(c.id, 8)))
  {
    map[
      "id" := Str(c.id),
      "title" := Str(c.title),
      "category" := Str(c.category.Value()),
      "priority" := Str(c.priority.Value()),
      "status" := Str(c.status.Value()),
      "is_anonymous" := Bool(c.isAnonymous),
      "created_at" := Str(c.createdAt),
      "short_id" := if c.id == "" then Null else Str(Take(c.id, 8))
    ]
  }

  /** The `ComplaintSubmissionResult` for a stored complaint. */
  function SubmittedResult(c: CM.Complaint): (r: ToolResult)
    ensures WellFormed(r) && r.success && r.toolType == ComplaintTool
    ensures r.confidence == 1.0 && r.sources == [] && r.data == ComplaintData(c)
    ensures r.extra == ComplaintExtra(Some(c.id), Some(c.title), Some(c.category.Value()), Some(c.priority.Value()))
  {
    ComplaintSubmissionResult(true, ComplaintData(c), [], 1.0,
      Some(c.id), Some(c.title), Some(c.category.Value()), Some(c.priority.Value())).value
  }

  /**
   * The request `submit_complaint` builds once its arguments pass the
   * checks: the stripped description, the given category or else the one
   * detected from it, and the user id only for a complaint that is not
   * anonymous.
   */
  function BuildRequest(
    title: string, description: string, userId: Option<string>,
    category: Option<CM.Category>, isAnonymous: bool, conversationId: Option<string>
  ): (r: Result<CM.SubmissionRequest, Exception>)
    ensures r.Success? <==>
      CM.MinTitle <= |Strip(EffectiveTitle(title, description))| <= CM.MaxTitle
      && CM.MinDescription <= |Strip(description)| <= CM.MaxDescription
    ensures r.Failure? ==> r.error.Raised? && r.error.TypeName() == "ValidationError"
    ensures r.Success? ==> r.value.description == Strip(description) && r.value.isAnonymous == isAnonymous
    ensures r.Success? ==> r.value.userId == (if isAnonymous then None else CM.StripOpt(userId))
    ensures r.Success? ==> r.value.category == (if category.Some? then category.value else DetectCategory(Strip(description)))
  {
    var c := if category.Some? then category.value else DetectCategory(Strip(description));
    StripTrimmed(Strip(description));
    CM.NewSubmissionRequest(EffectiveTitle(title, description), Strip(description), c,
      isAnonymous, if isAnonymous then None else userId, conversationId)
  }

  /**
   * `submit_complaint`. Invalid arguments raise `invalid_input` in this
   * order: blank title, blank description, non-anonymous without a user id.
   * A request that fails validation, or a failing service, raises a
   * recoverable `service_error`; a `ToolExecutionError` from below passes
   * through unchanged.
   */
  function SubmitComplaint(
    service: ComplaintService,
    title: string,
    description: string,
    userId: Option<string> := None,
    category: Option<CM.Category> := None,
    isAnonymous: bool := true,
    conversationId: Option<string> := None
  ): (r: Result<ToolResult, Exception>)
    ensures IsBlank(title) ==>
      r == Failure(InvalidInput("Complaint title cannot be empty", map["title" := Str(title)]))
    ensures !IsBlank(title) && IsBlank(description) ==>
      r == Failure(InvalidInput("Complaint description cannot be empty", map["description" := Str(Take(description, 100))]))
    ensures !IsBlank(title) && !IsBlank(description) && !isAnonymous && Missing(userId) ==>
      r.Failure? && r.error.ToolExecutionError? && r.error.errorType == "invalid_input"
    ensures r.Success? ==> WellFormed(r.value) && r.value.success && r.value.confidence == 1.0
    ensures r.Success? ==> r.value.toolType == ComplaintTool && r.value.extra.ComplaintExtra?
    ensures r.Failure? ==> r.error.ToolExecutionError?
    ensures r.Success? ==>
      var request := BuildRequest(title, description, userId, category, isAnonymous, conversationId);
      request.Success? && service(request.value).Success? && r.value == SubmittedResult(service(request.value).value)
    ensures !IsBlank(title) && !IsBlank(description) && (isAnonymous || !Missing(userId)) ==>
      var request := BuildRequest(title, description, userId, category, isAnonymous, conversationId);
      && (request.Failure? ==> r.Failure? && r.error.errorType == "service_error" && r.error.recoverable)
      && (request.Success? && service(request.value).Failure? ==>
            var e := service(request.value).error;
            r.Failure? && if e.ToolExecutionError? then r.error == e
                          else r.error.errorType == "service_error" && r.error.recoverable)
    ensures r.Success? <==>
      && !IsBlank(title) && !IsBlank(description) && (isAnonymous || !Missing(userId))
      && BuildRequest(title, description, userId, category, isAnonymous, conversationId).Success?
      && service(BuildRequest(title, description, userId, category, isAnonymous, conversationId).value).Success?
  {
    if IsBlank(title) then
      Failure(InvalidInput("Complaint title cannot be empty", map["title" := Str(title)]))
    else if IsBlank(description) then
      Failure(InvalidInput("Complaint description cannot be empty", map["description" := Str(Take(description, 100))]))
    else if !isAnonymous && Missing(userId) then
      Failure(InvalidInput("User ID is required for non-anonymous complaints",
        map["is_anonymous" := Bool(isAnonymous), "user_id" := OptStr(userId)]))
    else
      var request := BuildRequest(title, description, userId, category, isAnonymous, conversationId);
      var outcome := if request.Failure? then Failure(request.error) else service(request.value);
      match outcome
      case Success(complaint) => Success(SubmittedResult(complaint))
      case Failure(e) =>
        if e.ToolExecutionError? then Failure(e)
        else Failure(ServiceError("Complaint submission failed: " + e.Text(),
          map["title" := Str(EffectiveTitle(title, description)),
              "description_length" := Int(|description|),
              "exception_type" := Str(e.TypeName())]))
  }

  /**
   * `submit_quick_complaint`: a blank message raises `invalid_input`;
   * otherwise the stripped message is submitted with a generated title and
   * a detected category, anonymously exactly when there is no user id. An
   * empty user id is refused, a message shorter than ten characters never
   * passes validation, and any other message up to the length limit is
   * stored whenever the service accepts its request.
   */
  function SubmitQuickComplaint(
    service: ComplaintService,
    userMessage: string,
    userId: Option<string> := None,
    conversationId: Option<string> := None
  ): (r: Result<ToolResult, Exception>)
    ensures IsBlank(userMessage) ==>
      r == Failure(InvalidInput("User message cannot be empty", map["user_message" := Str(userMessage)]))
    ensures r.Failure? ==> r.error.ToolExecutionError?
    ensures !IsBlank(userMessage) && userId == Some("") ==>
      r.Failure? && r.error.errorType == "invalid_input"
    ensures !IsBlank(userMessage) && |Strip(userMessage)| < CM.MinDescription && (userId.None? || userId.value != "") ==>
      r.Failure? && r.error.errorType == "service_error" && r.error.recoverable
    ensures r.Success? ==>
      var m := Strip(userMessage);
      var request := QuickRequest(m, userId, conversationId);
      && request.Success? && QuickRequestShape(m, userId, request.value)
      && service(request.value).Success? && r.value == SubmittedResult(service(request.value).value)
    ensures CM.MinDescription <= |Strip(userMessage)| <= CM.MaxDescription && (userId.None? || userId.value != "") ==>
      var request := QuickRequest(Strip(userMessage), userId, conversationId);
      request.Success? && (service(request.value).Success? ==> r.Success?)
  {
    if IsBlank(userMessage) then
      Failure(InvalidInput("User message cannot be empty", map["user_message" := Str(userMessage)]))
    else
      var m := Strip(userMessage);
      QuickSubmissionStored(service, m, userId, conversationId);
      if userId == Some("") then
        EmptyUserIdRefused(service, m, conversationId);
        QuickSubmission(service, m, userId, conversationId)
      else if |m| < CM.MinDescription then
        ShortQuickComplaintFails(service, m, userId, conversationId);
        QuickSubmission(service, m, userId, conversationId)
      else if |m| <= CM.MaxDescription then
        QuickComplaintRequest(service, m, userId, conversationId);
        QuickSubmission(service, m, userId, conversationId)
      else
        QuickSubmission(service, m, userId, conversationId)
  }

  /** What a quick complaint submits for its stripped message `m`. */
  function QuickSubmission(service: ComplaintService, m: string, userId: Option<string>, c: Option<string>): Result<ToolResult, Exception> {
    SubmitComplaint(service, GenerateTitle(m), m, userId, Some(DetectCategory(m)), userId.None?, c)
  }

  /** The request a quick complaint builds for its stripped message `m`. */
  function QuickRequest(m: string, userId: Option<string>, c: Option<string>): Result<CM.SubmissionRequest, Exception> {
    BuildRequest(GenerateTitle(m), m, userId, Some(DetectCategory(m)), userId.None?, c)
  }

  /**
   * A quick complaint's request: the generated title, the message as
   * description, the detected category, anonymous exactly when there is
   * no user id, and the stripped user id forwarded otherwise.
   */
  predicate QuickRequestShape(m: string, userId: Option<string>, request: CM.SubmissionRequest) {
    && request.title == GenerateTitle(m) && request.description == m
    && request.category == DetectCategory(m)
    && request.isAnonymous == userId.None? && request.userId == CM.StripOpt(userId)
  }

  /**
   * A stored quick complaint was submitted with the request its message
   * determines, and the tool reports the complaint the service stored.
   */
  lemma QuickSubmissionStored(service: ComplaintService, m: string, userId: Option<string>, c: Option<string>)
    requires IsTrimmed(m) && !IsBlank(m)
    ensures QuickSubmission(service, m, userId, c).Success? ==>
      var request := QuickRequest(m, userId, c);
      && request.Success? && QuickRequestShape(m, userId, request.value)
      && service(request.value).Success?
      && QuickSubmission(service, m, userId, c).value == SubmittedResult(service(request.value).value)
  {
    if QuickSubmission(service, m, userId, c).Success? {
      StripTrimmed(m);
      GeneratedTitleAccepted(m);
      assert EffectiveTitle(GenerateTitle(m), m) == GenerateTitle(m);
    }
  }

  /**
   * A quick complaint whose message has fewer than 10 characters can never
   * be stored: the request fails validation and the tool raises a
   * recoverable `service_error`, whatever the service would do.
   */
  lemma ShortQuickComplaintFails(service: ComplaintService, m: string, userId: Option<string>, c: Option<string>)
    requires IsTrimmed(m) && !IsBlank(m) && |m| < CM.MinDescription
    requires userId.None? || userId.value != ""
    ensures QuickSubmission(service, m, userId, c).Failure?
    ensures QuickSubmission(service, m, userId, c).error.errorType == "service_error"
    ensures QuickSubmission(service, m, userId, c).error.recoverable
  {
    StripTrimmed(m);
    assert !IsSpace(m[0]);
    GeneratedTitleAcceptedOrShort(m);
    assert QuickRequest(m, userId, c).Failure?;
  }

  /**
   * A quick complaint of acceptable length from an anonymous user or one
   * with a non-empty id always yields a valid request of the expected
   * shape, and is stored whenever the service accepts that request.
   */
  lemma QuickComplaintRequest(service: ComplaintService, m: string, userId: Option<string>, c: Option<string>)
    requires IsTrimmed(m) && CM.MinDescription <= |m| <= CM.MaxDescription
    requires userId.None? || userId.value != ""
    ensures QuickRequest(m, userId, c).Success?
    ensures QuickRequestShape(m, userId, QuickRequest(m, userId, c).value)
    ensures service(QuickRequest(m, userId, c).value).Success? ==> QuickSubmission(service, m, userId, c).Success?
  {
    StripTrimmed(m);
    GeneratedTitleAccepted(m);
    assert EffectiveTitle(GenerateTitle(m), m) == GenerateTitle(m);
    assert !IsBlank(m);
  }

  /** A quick complaint with an empty user id is not anonymous and is refused. */
  lemma EmptyUserIdRefused(service: ComplaintService, m: string, c: Option<string>)
    requires IsTrimmed(m) && !IsBlank(m)
    ensures QuickSubmission(service, m, Some(""), c).Failure?
    ensures QuickSubmission(service, m, Some(""), c).error.errorType == "invalid_input"
  {
    GeneratedTitleAcceptedOrShort(m);
  }

  /** A generated title is never blank when the description is not. */
  lemma GeneratedTitleAcceptedOrShort(description: string)
    requires IsTrimmed(description) && !IsBlank(description)
    ensures !IsBlank(GenerateTitle(description))
  {
    var first := FirstSentence(description);
    if 5 < |first| <= 100 {
      assert !IsSpace(first[0]);
    } else if |description| > 50 {
      var t := description[..47] + "...";
      assert t[0] == description[0];
    }
  }
}
