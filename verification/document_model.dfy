/**
 * The document records: document types, processing states, the validated
 * search request, and the stored documents and chunks the document
 * service hands back.
 */
module DocumentModel {
  import opened Wrappers
  import opened Text
  import opened Values
  import opened Errors

  /** `DocumentType` */
  datatype DocumentType =
    | AcademicRegulations
    | Procedures
    | DeadlinesCalendar
    | AdministrativeRules
    | FacultySpecific
    | GeneralInformation
  {
    function Value(): string {
      match this
      case AcademicRegulations => "academic_regulations"
      case Procedures => "procedures"
      case DeadlinesCalendar => "deadlines_calendar"
      case AdministrativeRules => "administrative_rules"
      case FacultySpecific => "faculty_specific"
      case GeneralInformation => "general_information"
    }
  }

  /** `ProcessingStatus` */
  datatype ProcessingStatus = Pending | Processing | Completed | Failed | Reprocessing {
    function Value(): string {
      match this
      case Pending => "pending"
      case Processing => "processing"
      case Completed => "completed"
      case Failed => "failed"
      case Reprocessing => "reprocessing"
    }
  }

  /** A validated `DocumentSearchRequest`. */
  datatype SearchRequest = SearchRequest(
    query: string,
    documentType: Option<DocumentType>,
    faculty: Option<string>,
    limit: int,
    similarityThreshold: real
  )

  const MaxQuery := 500
  const MaxLimit := 50

  /**
   * `DocumentSearchRequest(...)`: the stripped query must have 1 to 500
   * characters, the limit must lie in 1..50 and the threshold in [0, 1];
   * otherwise construction raises a validation error.
   */
  function NewSearchRequest(
    query: string,
    documentType: Option<DocumentType> := None,
    faculty: Option<string> := None,
    limit: int := 10,
    similarityThreshold: real := 0.7
  ): (r: Result<SearchRequest, Exception>)
    ensures r.Success? <==>
      1 <= |Strip(query)| <= MaxQuery && 1 <= limit <= MaxLimit && 0.0 <= similarityThreshold <= 1.0
    ensures r.Failure? ==> r.error.TypeName() == "ValidationError"
    ensures r.Success? ==> r.value.query == Strip(query) && r.value.limit == limit
    ensures r.Success? ==> r.value.similarityThreshold == similarityThreshold && r.value.documentType == documentType
    ensures r.Success? ==> (r.value.faculty.Some? <==> faculty.Some?)
    ensures r.Success? && faculty.Some? ==> r.value.faculty.value == Strip(faculty.value)
  {
    var q := Strip(query);
    if 1 <= |q| <= MaxQuery && 1 <= limit <= MaxLimit && 0.0 <= similarityThreshold <= 1.0 then
      var f := match faculty case Some(s) => Some(Strip(s)) case None => None;
      Success(SearchRequest(q, documentType, f, limit, similarityThreshold))
    else
      Failure(ValidationError("DocumentSearchRequest"))
  }

  /** A stored document (`DocumentResponse`), as far as the tools read it. */
  datatype Document = Document(
    id: string,
    filename: string,
    documentType: DocumentType,
    faculty: Option<string>,
    processingStatus: ProcessingStatus,
    metadata: Data
  )

  /** A matching chunk of a document (`DocumentChunkResponse`). */
  datatype Chunk = Chunk(
    id: string,
    content: string,
    pageNumber: Option<int>,
    sectionTitle: Option<string>,
    similarityScore: real,
    document: Document
  )

  /** `DocumentSearchResponse` */
  datatype SearchResponse = SearchResponse(query: string, chunks: seq<Chunk>, totalFound: int)
}
