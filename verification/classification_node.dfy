/**
 * `ClassificationNode`: records the intent of the user's message in the
 * state. An empty message is general conversation; without an LLM tool a
 * keyword rule decides; otherwise the LLM tool's classification is copied.
 * Any exception is absorbed: the keyword rule decides at a lower confidence
 * and the error is recorded.
 */
module ClassificationNode {
  import opened Wrappers
  import opened Text
  import opened Values
  import opened Errors
  import opened Schemas
  import CS = ConversationState
  import LT = LlmTool
  import opened Toolkit

  const QuestionWords: seq<string> := ["cómo", "cuándo", "dónde", "qué", "quién", "por qué"]
  const ComplaintWords: seq<string> := ["problema", "issue", "error", "no funciona", "mal"]

  /**
   * `_simple_fallback_classification`: question words are looked for
   * before complaint words; anything else, the empty message included, is
   * general conversation.
   */
  function SimpleFallback(message: string): (i: IntentType)
    ensures i != Unknown
    ensures message == "" ==> i == General
    ensures i == Question <==> message != "" && ContainsAny(Lower(message), QuestionWords)
    ensures i == Complaint <==>
      message != "" && !ContainsAny(Lower(message), QuestionWords) && ContainsAny(Lower(message), ComplaintWords)
  {
    if message == "" then General
    else if ContainsAny(Lower(message), QuestionWords) then Question
    else if ContainsAny(Lower(message), ComplaintWords) then Complaint
    else General
  }

  /** Confidences of the three paths that do not use the LLM's answer. */
  const EmptyConfidence := 0.5
  const NoToolConfidence := 0.3
  const ErrorConfidence := 0.2

  /** `metadata['classification']` after a successful classification. */
  function ClassificationMetadata(c: IntentClassification): Value {
    Dict(map["model_used" := OptStr(c.modelUsed), "reasoning" := OptStr(c.reasoning)])
  }

  /** The fields the node may write. */
  const Written: set<CS.Field> := {CS.IntentF, CS.IntentConfidenceF, CS.StepF, CS.MetadataF, CS.ErrorInfoF}

  /** `ClassificationNode.execute` */
  function Execute(tools: Tools, s: CS.State): (r: CS.State)
    ensures r.step == CS.IntentClassified
    ensures r.intent.Some? && ParseIntent(r.intent.value).Some?
    ensures ValidConfidence(r.intentConfidence)
    ensures CS.Keeps(s, r, Written)
    ensures s.userMessage == "" ==> r == CS.UpdateIntent(s, General.Value(), EmptyConfidence)
    ensures s.userMessage != "" && tools.llm.None? ==>
      r == CS.UpdateIntent(s, SimpleFallback(s.userMessage).Value(), NoToolConfidence)
    ensures s.userMessage != "" && tools.llm.Some? ==>
      var h := tools.llm.value;
      match LT.ClassifyIntent(h.llm, h.codec, s.userMessage, Some(s.history))
      case Success(c) =>
        && r.intent == Some(c.intent.Value()) && r.intentConfidence == c.confidence
        && r.metadata == s.metadata["classification" := ClassificationMetadata(c)]
        && r.errorInfo == s.errorInfo
      case Failure(e) =>
        && r.intent == Some(SimpleFallback(s.userMessage).Value()) && r.intentConfidence == ErrorConfidence
        && r.metadata == s.metadata
        && r.errorInfo == Some(CS.ErrorRecord("classification_error", "Classification failed: " + e.Text(), None, CS.IntentClassified))
  {
    var m := s.userMessage;
    if m == "" then
      CS.UpdateIntent(s, General.Value(), EmptyConfidence)
    else if tools.llm.None? then
      CS.UpdateIntent(s, SimpleFallback(m).Value(), NoToolConfidence)
    else
      var h := tools.llm.value;
      match LT.ClassifyIntent(h.llm, h.codec, m, Some(s.history))
      case Success(c) =>
        var r := CS.UpdateIntent(s, c.intent.Value(), c.confidence);
        r.(metadata := r.metadata["classification" := ClassificationMetadata(c)])
      case Failure(e) =>
        CS.AddError(CS.UpdateIntent(s, SimpleFallback(m).Value(), ErrorConfidence),
          "classification_error", "Classification failed: " + e.Text())
  }

  /**
   * A message of white space only is refused by the LLM tool, so the node
   * records the refusal and falls back to general conversation at 0.2.
   */
  lemma WhitespaceMessageFallsBack(tools: Tools, s: CS.State)
    requires s.userMessage != "" && IsBlank(s.userMessage) && tools.llm.Some?
    ensures Execute(tools, s).intent == Some(General.Value())
    ensures Execute(tools, s).intentConfidence == ErrorConfidence
    ensures Execute(tools, s).errorInfo.Some?
    ensures Execute(tools, s).errorInfo.value["type"] == Str("classification_error")
  {
    assert !ContainsAny(Lower(s.userMessage), QuestionWords) by {
      BlankContainsNoWord(s.userMessage, QuestionWords);
    }
    assert !ContainsAny(Lower(s.userMessage), ComplaintWords) by {
      BlankContainsNoWord(s.userMessage, ComplaintWords);
    }
  }

  /** White space, lower-cased, contains none of the keywords, which all start with a letter. */
  lemma BlankContainsNoWord(m: string, words: seq<string>)
    requires IsBlank(m)
    requires forall k :: 0 <= k < |words| ==> |words[k]| > 0 && !IsSpace(words[k][0])
    ensures !ContainsAny(Lower(m), words)
  {
    forall k | 0 <= k < |words| ensures !Contains(Lower(m), words[k]) {
      ContainsIffOccurs(Lower(m), words[k]);
      forall i | 0 <= i && i + |words[k]| <= |m| ensures !OccursAt(Lower(m), words[k], i) {
        assert Lower(m)[i..i + |words[k]|][0] == LowerChar(m[i]) == m[i];
      }
    }
  }

}
