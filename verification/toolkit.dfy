/**
 * The tools a conversation engine works with, keyed as `create_tool_registry`
 * keys them: a tool exists exactly when its service was supplied. The LLM
 * tool carries its response cache, which starts empty.
 */
module Toolkit {
  import opened Wrappers
  import DT = DocumentTool
  import CT = ComplaintTool
  import LT = LlmTool

  /** An `LLMTool`: the provider, the JSON layer its parser uses, and its response cache. */
  datatype LlmHandle = LlmHandle(llm: LT.Llm, codec: LT.JsonCodec, cache: LT.Cache)

  /** The tool dictionary: `document`, `complaint` and `llm`, each possibly absent. */
  datatype Tools = Tools(
    document: Option<DT.SearchService>,
    complaint: Option<CT.ComplaintService>,
    llm: Option<LlmHandle>
  ) {
    /** The dictionary's keys. */
    function Names(): set<string> {
      (if document.Some? then {"document"} else {})
      + (if complaint.Some? then {"complaint"} else {})
      + (if llm.Some? then {"llm"} else {})
    }

    /** The same tools with the LLM tool's cache replaced. */
    function WithCache(cache: LT.Cache): (t: Tools)
      ensures t.Names() == Names() && t.document == document && t.complaint == complaint
      ensures llm.Some? ==> t.llm == Some(llm.value.(cache := cache))
      ensures llm.None? ==> t == this
    {
      if llm.Some? then this.(llm := Some(llm.value.(cache := cache))) else this
    }
  }

  /**
   * `create_tool_registry`: one tool per supplied service, under its fixed
   * name, each new LLM tool with an empty cache.
   */
  function CreateToolRegistry(
    documentService: Option<DT.SearchService>,
    complaintService: Option<CT.ComplaintService>,
    llmProvider: Option<LT.Llm>,
    codec: LT.JsonCodec
  ): (t: Tools)
    ensures ("document" in t.Names()) <==> documentService.Some?
    ensures ("complaint" in t.Names()) <==> complaintService.Some?
    ensures ("llm" in t.Names()) <==> llmProvider.Some?
    ensures t.Names() <= {"document", "complaint", "llm"}
    ensures t.document == documentService && t.complaint == complaintService
    ensures llmProvider.Some? ==> t.llm == Some(LlmHandle(llmProvider.value, codec, map[]))
  {
    Tools(documentService, complaintService,
      if llmProvider.Some? then Some(LlmHandle(llmProvider.value, codec, map[])) else None)
  }

  /** The registry is empty exactly when no service at all was supplied. */
  lemma EmptyIffNoServices(d: Option<DT.SearchService>, c: Option<CT.ComplaintService>, l: Option<LT.Llm>, codec: LT.JsonCodec)
    ensures CreateToolRegistry(d, c, l, codec).Names() == {} <==> d.None? && c.None? && l.None?
  {
    var t := CreateToolRegistry(d, c, l, codec);
    if d.Some? { assert "document" in t.Names(); }
    if c.Some? { assert "complaint" in t.Names(); }
    if l.Some? { assert "llm" in t.Names(); }
  }
}
