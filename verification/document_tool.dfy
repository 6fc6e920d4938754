/**
 * `DocumentTool`: argument validation for document search and the shaping
 * of search, retrieval and status results. The document service is a set
 * of oracles that return a value or raise.
 */
module DocumentTool {
  import opened Wrappers
  import opened Text
  import opened Values
  import opened Errors
  import opened Schemas
  import DM = DocumentModel

  /** The document service's `search_documents`. */
  type SearchService = DM.SearchRequest -> Result<DM.SearchResponse, Exception>
  /** The document service's `get_document_by_id`. */
  type LookupService = string -> Result<Option<DM.Document>, Exception>
  /** The document service's `get_processing_status`. */
  type StatusService = string -> Result<DM.ProcessingStatus, Exception>

  /** How many chunk texts make up the combined content. */
  const ContentChunks := 3
  const Paragraph := "\n\n"
  /** The `invalid_input` message for a blank document id. */
  const EmptyId := "Document ID cannot be empty"

  /** The highest similarity among the chunks. */
  function BestSimilarity(chunks: seq<DM.Chunk>): (b: real)
    requires |chunks| > 0
    ensures exists i :: 0 <= i < |chunks| && chunks[i].similarityScore == b
    ensures forall i :: 0 <= i < |chunks| ==> chunks[i].similarityScore <= b
    decreases |chunks|
  {
    if |chunks| == 1 then chunks[0].similarityScore
    else
      var rest := BestSimilarity(chunks[1..]);
      assert forall i :: 1 <= i < |chunks| ==> chunks[i] == chunks[1..][i - 1];
      if chunks[0].similarityScore >= rest then chunks[0].similarityScore else rest
  }

  /** The file name of the document each chunk belongs to, in order. */
  function Filenames(chunks: seq<DM.Chunk>): (f: seq<string>)
    ensures |f| == |chunks|
    ensures forall i :: 0 <= i < |chunks| ==> f[i] == chunks[i].document.filename
  {
    seq(|chunks|, i requires 0 <= i < |chunks| => chunks[i].document.filename)
  }

  /** No element is listed twice. */
  predicate NoDuplicates(xs: seq<string>) {
    forall i, j :: 0 <= i < j < |xs| ==> xs[i] != xs[j]
  }

  /**
   * `list(set(xs))`: the distinct elements of `xs`. Python leaves their
   * order unspecified; this model keeps first occurrences in order.
   */
  function Distinct(xs: seq<string>): (d: seq<string>)
    ensures NoDuplicates(d)
    ensures forall x :: x in d <==> x in xs
    ensures |d| <= |xs|
    decreases |xs|
  {
    if |xs| == 0 then []
    else
      var rest := Distinct(xs[..|xs| - 1]);
      var last := xs[|xs| - 1];
      assert forall x :: x in xs <==> x in xs[..|xs| - 1] || x == last;
      if last in rest then rest else rest + [last]
  }

  /** The text of each chunk, in order. */
  function Contents(chunks: seq<DM.Chunk>): (c: seq<string>)
    ensures |c| == |chunks|
    ensures forall i :: 0 <= i < |chunks| ==> c[i] == chunks[i].content
  {
    seq(|chunks|, i requires 0 <= i < |chunks| => chunks[i].content)
  }

  /** One entry of `data['chunks']`. */
  function ChunkEntry(c: DM.Chunk): Value {
    Dict(map[
      "content" := Str(c.content),
      "similarity_score" := Real(c.similarityScore),
      "document_filename" := Str(c.document.filename),
      "page_number" := match c.pageNumber case Some(n) => Int(n) case None => Null
    ])
  }

  /** `data['chunks']`: one entry per returned chunk, in order. */
  function ChunkEntries(chunks: seq<DM.Chunk>): (v: seq<Value>)
    ensures |v| == |chunks|
    ensures forall i :: 0 <= i < |chunks| ==> v[i] == ChunkEntry(chunks[i])
  {
    seq(|chunks|, i requires 0 <= i < |chunks| => ChunkEntry(chunks[i]))
  }

  /** The chunks whose texts make up the combined content: at most the first three. */
  function Leading(chunks: seq<DM.Chunk>): (c: seq<DM.Chunk>)
    ensures |c| == if |chunks| <= ContentChunks then |chunks| else ContentChunks
    ensures c == chunks[..|c|]
  {
    if |chunks| <= ContentChunks then chunks else chunks[..ContentChunks]
  }

  /**
   * The combined content: the first three chunk texts separated by blank
   * lines. It starts with the first text.
   */
  function CombinedContent(chunks: seq<DM.Chunk>): (s: string)
    ensures |chunks| == 0 ==> s == ""
    ensures |chunks| > 0 ==> Take(s, |chunks[0].content|) == chunks[0].content
  {
    var parts := Contents(Leading(chunks));
    assert |parts| > 0 ==> parts[0] == chunks[0].content;
    JoinStartsWithFirst(parts, Paragraph);
    Join(parts, Paragraph)
  }

  /** Chunks past the third do not show in the combined content. */
  lemma CombinedContentIgnoresLater(chunks: seq<DM.Chunk>)
    requires |chunks| > ContentChunks
    ensures CombinedContent(chunks) == CombinedContent(chunks[..ContentChunks])
  {
    assert Leading(chunks) == Leading(chunks[..ContentChunks]);
  }

  /**
   * The combined content splits back at its blank lines into the texts of
   * the leading chunks, as long as none of those texts runs into a blank
   * line of its own (contains one, or ends in a line break).
   */
  lemma CombinedContentSplits(chunks: seq<DM.Chunk>)
    requires |chunks| > 0
    requires forall i :: 0 <= i < |chunks| && i < ContentChunks ==>
      Find(chunks[i].content + Paragraph, Paragraph) == |chunks[i].content|
    ensures Split(CombinedContent(chunks), Paragraph) == Contents(Leading(chunks))
  {
    SplitJoin(Contents(Leading(chunks)), Paragraph);
  }

  /** A join begins with its first part. */
  lemma {:induction false} JoinStartsWithFirst(parts: seq<string>, sep: string)
    ensures |parts| > 0 ==> |Join(parts, sep)| >= |parts[0]| && Join(parts, sep)[..|parts[0]|] == parts[0]
  {
    if |parts| > 1 {
      assert Join(parts, sep) == parts[0] + (sep + Join(parts[1..], sep));
    }
  }

  /** The search result shaped from the service's response, before validation. */
  function SearchOutcome(query: string, response: DM.SearchResponse): (r: Result<ToolResult, Exception>)
    ensures r.Failure? <==> |response.chunks| > 0 && !ValidConfidence(BestSimilarity(response.chunks))
    ensures r.Failure? ==> r.error.Raised? && r.error.TypeName() == "ValidationError"
    ensures r.Success? ==> WellFormed(r.value) && SearchResultShape(query, response.chunks, r.value)
  {
    var chunks := response.chunks;
    var found := |chunks| > 0;
    var best := if found then BestSimilarity(chunks) else 0.0;
    DocumentSearchResult(found, SearchData(query, chunks, response.totalFound), Distinct(Filenames(chunks)),
      if found then best else 0.0, Some(query), |chunks|, best, 1)
  }

  /** The `result_data` of a search: the query, the combined content, every chunk and the total found. */
  function SearchData(query: string, chunks: seq<DM.Chunk>, totalFound: int): (d: Data)
    ensures d.Keys == {"query", "content", "chunks", "total_found"}
    ensures d["query"] == Str(query) && d["content"] == Str(CombinedContent(chunks))
    ensures d["chunks"] == List(ChunkEntries(chunks)) && d["total_found"] == Int(totalFound)
  {
    map[
      "query" := Str(query),
      "content" := Str(CombinedContent(chunks)),
      "chunks" := List(ChunkEntries(chunks)),
      "total_found" := Int(totalFound)
    ]
  }

  /** The details of a search's `service_error`. */
  function SearchErrorDetails(query: string, documentType: Option<DM.DocumentType>, faculty: Option<string>, e: Exception): Data {
    map[
      "query" := Str(query),
      "document_type" := (match documentType case Some(t) => Str(t.Value()) case None => Null),
      "faculty" := OptStr(faculty),
      "exception_type" := Str(e.TypeName())
    ]
  }

  /**
   * `search_documents`. Invalid arguments raise `invalid_input` in this
   * order: blank query, limit outside 1..50, threshold outside [0, 1]. A
   * request or result that fails validation, or a failing service, raises
   * a recoverable `service_error`. On success the result succeeds exactly
   * when a chunk came back; its confidence is then the best similarity,
   * its sources are the distinct file names, its content joins the first
   * three chunk texts and its data lists every chunk in order.
   */
  function SearchDocuments(
    service: SearchService,
    query: string,
    documentType: Option<DM.DocumentType> := None,
    faculty: Option<string> := None,
    limit: int := 5,
    similarityThreshold: real := 0.7
  ): (r: Result<ToolResult, Exception>)
    ensures IsBlank(query) ==>
      r == Failure(InvalidInput("Search query cannot be empty", map["query" := Str(query)]))
    ensures !IsBlank(query) && (limit <= 0 || limit > DM.MaxLimit) ==>
      r == Failure(InvalidInput("Search limit must be between 1 and 50", map["limit" := Int(limit)]))
    ensures !IsBlank(query) && 0 < limit <= DM.MaxLimit && !(0.0 <= similarityThreshold <= 1.0) ==>
      r == Failure(InvalidInput("Similarity threshold must be between 0.0 and 1.0",
                                map["similarity_threshold" := Real(similarityThreshold)]))
    ensures r.Failure? ==> r.error.ToolExecutionError?
    ensures !IsBlank(query) && 0 < limit <= DM.MaxLimit && 0.0 <= similarityThreshold <= 1.0 && |Strip(query)| > DM.MaxQuery ==>
      r.Failure? && r.error.errorType == "service_error"
    ensures !IsBlank(query) && 0 < limit <= DM.MaxLimit && 0.0 <= similarityThreshold <= 1.0 && |Strip(query)| <= DM.MaxQuery ==>
      Request(query, documentType, faculty, limit, similarityThreshold).Success?
    ensures !IsBlank(query) && 0 < limit <= DM.MaxLimit && 0.0 <= similarityThreshold <= 1.0 ==>
      var request := Request(query, documentType, faculty, limit, similarityThreshold);
      request.Success? && service(request.value).Success? ==>
        var chunks := service(request.value).value.chunks;
        (chunks == [] || ValidConfidence(BestSimilarity(chunks))) ==> r.Success?
    ensures r.Success? ==> WellFormed(r.value) && r.value.toolType == DocumentTool
    ensures r.Success? ==>
      var request := Request(query, documentType, faculty, limit, similarityThreshold);
      && request.Success? && service(request.value).Success?
      && SearchResultShape(query, service(request.value).value.chunks, r.value)
    ensures !IsBlank(query) && 0 < limit <= DM.MaxLimit && 0.0 <= similarityThreshold <= 1.0 ==>
      var request := Request(query, documentType, faculty, limit, similarityThreshold);
      request.Success? && service(request.value).Failure? ==>
        var e := service(request.value).error;
        r == Failure(if e.ToolExecutionError? then e
                     else ServiceError("Document search failed: " + e.Text(),
                                       SearchErrorDetails(query, documentType, faculty, e)))
  {
    if IsBlank(query) then
      Failure(InvalidInput("Search query cannot be empty", map["query" := Str(query)]))
    else if limit <= 0 || limit > DM.MaxLimit then
      Failure(InvalidInput("Search limit must be between 1 and 50", map["limit" := Int(limit)]))
    else if !(0.0 <= similarityThreshold <= 1.0) then
      Failure(InvalidInput("Similarity threshold must be between 0.0 and 1.0",
                           map["similarity_threshold" := Real(similarityThreshold)]))
    else
      var request := Request(query, documentType, faculty, limit, similarityThreshold);
      StripTrimmed(Strip(query));
      var outcome :=
        if request.Failure? then Failure(request.error)
        else match service(request.value)
          case Success(response) => SearchOutcome(query, response)
          case Failure(e) => Failure(e);
      match outcome
      case Success(result) => Success(result)
      case Failure(e) =>
        if e.ToolExecutionError? then Failure(e)
        else Failure(ServiceError("Document search failed: " + e.Text(),
          SearchErrorDetails(query, documentType, faculty, e)))
  }

  /** The request `search_documents` builds from its arguments, the query stripped first. */
  function Request(
    query: string, documentType: Option<DM.DocumentType>, faculty: Option<string>, limit: int, similarityThreshold: real
  ): Result<DM.SearchRequest, Exception> {
    DM.NewSearchRequest(Strip(query), documentType, faculty, limit, similarityThreshold)
  }

  /** What a successful search result says about the chunks it was built from. */
  ghost predicate SearchResultShape(query: string, chunks: seq<DM.Chunk>, r: ToolResult) {
    && (r.success <==> |chunks| > 0)
    && (|chunks| > 0 ==> r.confidence == BestSimilarity(chunks))
    && (|chunks| == 0 ==> r.confidence == 0.0)
    && NoDuplicates(r.sources)
    && (forall x :: x in r.sources <==> x in Filenames(chunks))
    && r.data.Keys == {"query", "content", "chunks", "total_found"}
    && r.data["query"] == Str(query)
    && r.data["content"] == Str(CombinedContent(chunks))
    && r.data["chunks"] == List(ChunkEntries(chunks))
    && r.extra.DocumentExtra? && r.extra.chunksFound == |chunks| && r.extra.documentsSearched == 1
  }

  /**
   * `get_document_by_id`: a blank id raises `invalid_input`; a missing
   * document gives an unsuccessful result with confidence 0.0; a found
   * document gives a successful result citing its file name with
   * confidence 1.0. A failing service raises a recoverable `service_error`.
   */
  function GetDocumentById(service: LookupService, documentId: string): (r: Result<ToolResult, Exception>)
    ensures IsBlank(documentId) ==>
      r == Failure(InvalidInput(EmptyId, map["document_id" := Str(documentId)]))
    ensures !IsBlank(documentId) ==>
      match service(Strip(documentId))
      case Failure(e) => r.Failure? && r.error.ToolExecutionError?
                         && (e.Raised? ==> r.error.errorType == "service_error")
      case Success(None) => r.Success? && !r.value.success && r.value.confidence == 0.0 && r.value.sources == []
      case Success(Some(d)) => r.Success? && r.value.success && r.value.confidence == 1.0 && r.value.sources == [d.filename]
    ensures r.Success? ==> WellFormed(r.value) && r.value.toolType == DocumentTool
    ensures !IsBlank(documentId) && service(Strip(documentId)).Failure? && service(Strip(documentId)).error.ToolExecutionError? ==>
      r == Failure(service(Strip(documentId)).error)
    ensures !IsBlank(documentId) && service(Strip(documentId)) == Success(None) ==>
      && r.value.data == map["document_id" := Str(documentId)]
      && r.value.extra == DocumentExtra(Some("document_id:" + documentId), 0, 0.0, 1)
    ensures !IsBlank(documentId) && service(Strip(documentId)).Success? && service(Strip(documentId)).value.Some? ==>
      var d := service(Strip(documentId)).value.value;
      && r.value.data.Keys == {"document_id", "filename", "document_type", "faculty", "processing_status", "metadata"}
      && r.value.data["document_id"] == Str(documentId)
      && r.value.data["filename"] == Str(d.filename)
      && r.value.data["document_type"] == Str(d.documentType.Value())
      && r.value.data["faculty"] == OptStr(d.faculty)
      && r.value.data["processing_status"] == Str(d.processingStatus.Value())
      && r.value.data["metadata"] == Dict(d.metadata)
      && r.value.extra == DocumentExtra(Some("document_id:" + documentId), 1, 1.0, 1)
  {
    if IsBlank(documentId) then
      Failure(InvalidInput(EmptyId, map["document_id" := Str(documentId)]))
    else
      var query := Some("document_id:" + documentId);
      match service(Strip(documentId))
      case Failure(e) =>
        if e.ToolExecutionError? then Failure(e)
        else Failure(ServiceError("Document retrieval failed: " + e.Text(),
          map["document_id" := Str(documentId), "exception_type" := Str(e.TypeName())]))
      case Success(None) =>
        Success(DocumentSearchResult(false, map["document_id" := Str(documentId)], [], 0.0, query, 0, 0.0, 1).value)
      case Success(Some(d)) =>
        var data := map[
          "document_id" := Str(documentId),
          "filename" := Str(d.filename),
          "document_type" := Str(d.documentType.Value()),
          "faculty" := OptStr(d.faculty),
          "processing_status" := Str(d.processingStatus.Value()),
          "metadata" := Dict(d.metadata)
        ];
        Success(DocumentSearchResult(true, data, [d.filename], 1.0, query, 1, 1.0, 1).value)
  }

  /**
   * `get_processing_status`: reports whether the document is completed or
   * failed. Every exception, the blank-id `invalid_input` included, is
   * turned into a recoverable `service_error`.
   */
  function GetProcessingStatus(service: StatusService, documentId: string): (r: Result<ToolResult, Exception>)
    ensures IsBlank(documentId) ==>
      r == Failure(ServiceError("Document status check failed: " + EmptyId,
        map["document_id" := Str(documentId), "exception_type" := Str("ToolExecutionError")]))
    ensures r.Failure? ==> r.error.ToolExecutionError? && r.error.errorType == "service_error"
    ensures r.Success? <==> !IsBlank(documentId) && service(Strip(documentId)).Success?
    ensures r.Success? ==> WellFormed(r.value) && r.value.success && r.value.confidence == 1.0
    ensures r.Success? ==> var status := service(Strip(documentId)).value;
      && r.value.data.Keys == {"document_id", "processing_status", "is_completed", "is_failed"}
      && r.value.data["processing_status"] == Str(status.Value())
      && r.value.data["is_completed"] == Bool(status == DM.Completed)
      && r.value.data["is_failed"] == Bool(status == DM.Failed)
  {
    var outcome :=
      if IsBlank(documentId) then
        Failure(InvalidInput(EmptyId, map["document_id" := Str(documentId)]))
      else service(Strip(documentId));
    match outcome
    case Failure(e) =>
      Failure(ServiceError("Document status check failed: " + e.Text(),
        map["document_id" := Str(documentId), "exception_type" := Str(e.TypeName())]))
    case Success(status) =>
      var data := map[
        "document_id" := Str(documentId),
        "processing_status" := Str(status.Value()),
        "is_completed" := Bool(status.Value() == "completed"),
        "is_failed" := Bool(status.Value() == "failed")
      ];
      Success(DocumentSearchResult(true, data, [], 1.0, Some("status:" + documentId), 0, 1.0, 1).value)
  }
}
