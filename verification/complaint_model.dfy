/**
 * The complaint records: the category, priority and status enumerations,
 * the validated submission request, and the stored complaint the
 * complaint service hands back.
 */
module ComplaintModel {
  import opened Wrappers
  import opened Text
  import opened Errors

  /** `ComplaintCategory`, in declaration order. */
  datatype Category =
    | Administrative
    | Academic
    | Infrastructure
    | Technology
    | Services
    | Financial
    | Other
  {
    /** The enumeration's string value. */
    function Value(): string {
      match this
      case Administrative => "administrative"
      case Academic => "academic"
      case Infrastructure => "infrastructure"
      case Technology => "technology"
      case Services => "services"
      case Financial => "financial"
      case Other => "other"
    }
  }

  /** The categories in declaration order. */
  const Categories: seq<Category> :=
    [Administrative, Academic, Infrastructure, Technology, Services, Financial, Other]

  /** `ComplaintCategory(s)`: the category whose value is `s`, if any. */
  function ParseCategory(s: string): (c: Option<Category>)
    ensures c.Some? ==> c.value.Value() == s
    ensures c.None? ==> forall k: Category :: k.Value() != s
  {
    if s == "administrative" then Some(Administrative)
    else if s == "academic" then Some(Academic)
    else if s == "infrastructure" then Some(Infrastructure)
    else if s == "technology" then Some(Technology)
    else if s == "services" then Some(Services)
    else if s == "financial" then Some(Financial)
    else if s == "other" then Some(Other)
    else None
  }

  /**
   * There are exactly seven categories, each listed once, with distinct
   * values, and each value parses back to its category.
   */
  lemma CategoriesComplete(c: Category)
    ensures |Categories| == 7 && c in Categories
    ensures forall i, j :: 0 <= i < j < |Categories| ==> Categories[i].Value() != Categories[j].Value()
    ensures ParseCategory(c.Value()) == Some(c)
  {
  }

  /** `ComplaintPriority` */
  datatype Priority = Low | Medium | High | Urgent {
    function Value(): string {
      match this
      case Low => "low"
      case Medium => "medium"
      case High => "high"
      case Urgent => "urgent"
    }
  }

  /** `ComplaintStatus` */
  datatype Status = Submitted | Acknowledged | InProgress | Escalated | Resolved | Closed {
    function Value(): string {
      match this
      case Submitted => "submitted"
      case Acknowledged => "acknowledged"
      case InProgress => "in_progress"
      case Escalated => "escalated"
      case Resolved => "resolved"
      case Closed => "closed"
    }
  }

  /** A validated `ComplaintSubmissionRequest`. */
  datatype SubmissionRequest = SubmissionRequest(
    title: string,
    description: string,
    category: Category,
    isAnonymous: bool,
    userId: Option<string>,
    conversationId: Option<string>
  )

  /** Title length bounds of a submission request. */
  const MinTitle := 5
  const MaxTitle := 200
  /** Description length bounds of a submission request. */
  const MinDescription := 10
  const MaxDescription := 2000

  /** Every string field of a request model is stripped before it is checked. */
  function StripOpt(o: Option<string>): (r: Option<string>)
    ensures r.Some? <==> o.Some?
    ensures o.Some? ==> r.value == Strip(o.value)
  {
    match o
    case Some(s) => Some(Strip(s))
    case None => None
  }

  /**
   * `ComplaintSubmissionRequest(...)`: the stripped title must have 5 to 200
   * characters and the stripped description 10 to 2000, otherwise
   * construction raises a validation error. `is_anonymous` defaults to
   * false and `user_id` to none.
   */
  function NewSubmissionRequest(
    title: string,
    description: string,
    category: Category,
    isAnonymous: bool := false,
    userId: Option<string> := None,
    conversationId: Option<string> := None
  ): (r: Result<SubmissionRequest, Exception>)
    ensures r.Success? <==>
      MinTitle <= |Strip(title)| <= MaxTitle && MinDescription <= |Strip(description)| <= MaxDescription
    ensures r.Failure? ==> r.error.TypeName() == "ValidationError"
    ensures r.Success? ==> r.value.title == Strip(title) && r.value.description == Strip(description)
    ensures r.Success? ==> r.value.category == category && r.value.isAnonymous == isAnonymous
    ensures r.Success? ==> r.value.userId == StripOpt(userId) && r.value.conversationId == StripOpt(conversationId)
  {
    var t, d := Strip(title), Strip(description);
    if MinTitle <= |t| <= MaxTitle && MinDescription <= |d| <= MaxDescription then
      Success(SubmissionRequest(t, d, category, isAnonymous, StripOpt(userId), StripOpt(conversationId)))
    else
      Failure(ValidationError("ComplaintSubmissionRequest"))
  }

  /** The stored complaint the service returns (`ComplaintResponse`), as far as the tools read it. */
  datatype Complaint = Complaint(
    id: string,
    title: string,
    description: string,
    category: Category,
    priority: Priority,
    status: Status,
    isAnonymous: bool,
    createdAt: string
  )
}
