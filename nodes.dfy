/**
 * The pipeline's nodes (app/graph/nodes.py). Each node reads the state and
 * returns a partial update, which the graph engine merges by overwriting the
 * keys the update carries (`RagState.Merge`). A node "appends" to the error
 * list by returning the state's errors plus one entry.
 *
 * Collaborators are parameters: the cache lookup's outcome, the retriever,
 * the chat client and JSON parser behind `GroqLLM`, the judge's outcome and
 * the clock. `memory_node` changes the short-term memory and the filesystem
 * cache in place.
 */
module Nodes {
  import opened Common
  import opened Text
  import opened RagState
  import opened Prompts
  import GroqLlm
  import ShortTerm
  import FsCache

  const CacheErrorPrefix := "Cache error: "
  const RetrievalErrorPrefix := "Retrieval error: "
  const GenerationErrorPrefix := "Generation error: "
  const JudgeErrorPrefix := "Judge error: "

  /** `state.get("query", "")` and its siblings. */
  function Query(s: State): string { s.query.GetOr("") }
  function SessionId(s: State): string { s.sessionId.GetOr("") }
  function UserId(s: State): string { s.userId.GetOr("") }

  /** `state.get("errors", []) + [entry]`. */
  function AppendError(s: State, entry: string): (errs: seq<string>)
    ensures |errs| == |Errors(s)| + 1 && errs[..|Errors(s)|] == Errors(s) && errs[|Errors(s)|] == entry
  {
    Errors(s) + [entry]
  }

  // ---------------------------------------------------------------------------
  // cache_node

  /**
   * `cache_node`, given what `cache.get(query, session_id, user_id)` returned
   * (or the text of what it raised). Only a non-empty answer is a hit.
   */
  function CacheUpdate(s: State, lookup: Result<Option<string>, string>): (u: State)
    ensures u.cacheHit == Some(lookup.Success? && lookup.value.Some? && lookup.value.value != "")
    ensures u.cacheHit == Some(true) ==> u.cachedAnswer == lookup.value && u.finalAnswer == lookup.value
    ensures u.cacheHit == Some(false) ==> u.cachedAnswer.None? && u.finalAnswer.None?
    ensures u.errors.Some? <==> lookup.Failure?
    ensures lookup.Failure? ==> u.errors == Some(AppendError(s, CacheErrorPrefix + lookup.error))
    ensures u.(cacheHit := None, cachedAnswer := None, finalAnswer := None, errors := None) == Empty
  {
    match lookup
    case Failure(e) => Empty.(cacheHit := Some(false), errors := Some(AppendError(s, CacheErrorPrefix + e)))
    case Success(found) =>
      if found.Some? && found.value != "" then
        Empty.(cacheHit := Some(true), cachedAnswer := found, finalAnswer := found)
      else Empty.(cacheHit := Some(false))
  }

  /** `cache_node` on the filesystem cache, whose `get` never raises. */
  method CacheNode(s: State, cache: FsCache.FilesystemCache, fault: bool) returns (u: State)
    ensures u == CacheUpdate(s, Success(if fault then None else FsCache.Find(cache.files, CachedKey(cache, s))))
    ensures u.errors.None?
  {
    var found := cache.Get(Query(s), SessionId(s), UserId(s), fault);
    u := CacheUpdate(s, Success(found));
  }

  // ---------------------------------------------------------------------------
  // retrieval_node

  /** What the retriever hands back for one hit: a dict (any key may be missing) or another object. */
  datatype RawDoc =
    | DictDoc(content: Option<string>, metadata: Option<map<string, string>>, distance: Option<real>)
    | OtherDoc(text: string)

  /** `retriever.retrieve(query, k)`: the hits, or the text of what it raised. */
  type Retriever = (string, nat) -> Result<seq<RawDoc>, string>

  /** The number of documents the retrieval node asks for. */
  const TopK: nat := 2

  /** The record the retrieval node stores for one hit; a non-dict hit keeps only its text. */
  function ToDoc(raw: RawDoc): (d: Doc)
    ensures raw.OtherDoc? ==> d == Doc(raw.text, map[], Some(0.0))
    ensures raw.DictDoc? ==> d.content == raw.content.GetOr("") && d.distance == Some(raw.distance.GetOr(0.0))
    ensures raw.DictDoc? ==> d.metadata == raw.metadata.GetOr(map[])
  {
    match raw
    case DictDoc(c, m, dist) => Doc(c.GetOr(""), m.GetOr(map[]), Some(dist.GetOr(0.0)))
    case OtherDoc(t) => Doc(t, map[], Some(0.0))
  }

  function ToDocs(raws: seq<RawDoc>): (docs: seq<Doc>)
    ensures |docs| == |raws|
    ensures forall i :: 0 <= i < |raws| ==> docs[i] == ToDoc(raws[i])
  {
    seq(|raws|, i requires 0 <= i < |raws| => ToDoc(raws[i]))
  }

  /** The update `retrieval_node` returns. */
  function RetrievalUpdate(s: State, retriever: Retriever): (u: State)
  {
    if CacheHit(s) then Empty
    else match retriever(Query(s), TopK)
      case Failure(e) =>
        Empty.(retrievedDocs := Some([]), retrievalMetadata := Some(map["error" := JStr(e)]),
               errors := Some(AppendError(s, RetrievalErrorPrefix + e)))
      case Success(raws) =>
        Empty.(retrievedDocs := Some(ToDocs(raws)), retrievalMetadata := Some(map["num_docs" := JNum(|raws| as real)]))
  }

  /**
   * `retrieval_node` returns {} exactly on a cache hit, writes no key but
   * retrieved_docs, retrieval_metadata and errors, and reports an error with
   * no docs and one more error entry.
   */
  lemma RetrievalUpdateKeys(s: State, retriever: Retriever)
    ensures var u := RetrievalUpdate(s, retriever);
      (u == Empty <==> CacheHit(s))
      && u.(retrievedDocs := None, retrievalMetadata := None, errors := None) == Empty
      && (u.errors.Some? ==>
            u.retrievedDocs == Some([]) && |u.errors.value| == |Errors(s)| + 1 && u.errors.value[..|Errors(s)|] == Errors(s))
  {
  }

  /** `retrieval_node`: skipped on a cache hit; otherwise the top 2 hits, or [] and one error. */
  method RetrievalNode(s: State, retriever: Retriever) returns (u: State)
    ensures u == RetrievalUpdate(s, retriever)
    ensures CacheHit(s) ==> u == Empty
    ensures !CacheHit(s) && retriever(Query(s), TopK).Success? ==>
      var docs := ToDocs(retriever(Query(s), TopK).value);
      u == Empty.(retrievedDocs := Some(docs), retrievalMetadata := Some(map["num_docs" := JNum(|docs| as real)]))
    ensures !CacheHit(s) && retriever(Query(s), TopK).Failure? ==>
      var e := retriever(Query(s), TopK).error;
      u == Empty.(retrievedDocs := Some([]), retrievalMetadata := Some(map["error" := JStr(e)]),
                  errors := Some(AppendError(s, RetrievalErrorPrefix + e)))
  {
    if CacheHit(s) {
      return Empty;
    }
    var outcome := retriever(Query(s), TopK);
    if outcome.Failure? {
      return Empty.(retrievedDocs := Some([]), retrievalMetadata := Some(map["error" := JStr(outcome.error)]),
                    errors := Some(AppendError(s, RetrievalErrorPrefix + outcome.error)));
    }
    var raws := outcome.value;
    var docs: seq<Doc> := [];
    var i := 0;
    while i < |raws|
      invariant 0 <= i <= |raws|
      invariant docs == ToDocs(raws[..i])
    {
      docs := docs + [ToDoc(raws[i])];
      i := i + 1;
    }
    assert raws[..i] == raws;
    u := Empty.(retrievedDocs := Some(docs), retrievalMetadata := Some(map["num_docs" := JNum(|docs| as real)]));
  }

  // ---------------------------------------------------------------------------
  // llm_node: context and history text

  const NoDocuments := "No relevant documents found."
  const DocContentLimit: nat := 300
  const HistoryWindow: nat := 4
  const HistoryContentLimit: nat := 100

  /** `metadata.get("source")` taken as a truth value. */
  predicate HasSource(d: Doc) {
    "source" in d.metadata && d.metadata["source"] != ""
  }

  /** The "Document i:" header, with the source when the metadata names one. */
  function DocHeader(rank: nat, d: Doc): string {
    "Document " + NatToString(rank) + ":" + (if HasSource(d) then " (Source: " + d.metadata["source"] + ")" else "")
  }

  /** The block for the document at 1-based `rank`: none when its content is empty. */
  function DocBlock(rank: nat, d: Doc): (b: seq<string>)
    ensures |b| <= 1
    ensures b == [] <==> d.content == ""
    ensures b != [] ==> b[0] == DocHeader(rank, d) + "\n" + Take(d.content, DocContentLimit)
  {
    var content := Take(d.content, DocContentLimit);
    if content == "" then [] else [DocHeader(rank, d) + "\n" + content]
  }

  /** The blocks of `docs`, numbered by their position in the whole list. */
  function ContextBlocks(docs: seq<Doc>): (blocks: seq<string>)
    ensures |blocks| <= |docs|
    ensures blocks == [] <==> forall i :: 0 <= i < |docs| ==> docs[i].content == ""
  {
    if |docs| == 0 then []
    else ContextBlocks(docs[..|docs| - 1]) + DocBlock(|docs|, docs[|docs| - 1])
  }

  /** The blocks of a list are those of all but its last document, then the last one's. */
  lemma ContextBlocksSnoc(docs: seq<Doc>)
    requires |docs| > 0
    ensures ContextBlocks(docs) == ContextBlocks(docs[..|docs| - 1]) + DocBlock(|docs|, docs[|docs| - 1])
  {
  }

  /** Every block is the block of one document with content, at its 1-based position. */
  lemma {:induction false} BlocksComeFromDocs(docs: seq<Doc>)
    ensures forall b :: b in ContextBlocks(docs) ==>
      exists i :: 0 <= i < |docs| && docs[i].content != "" && b == DocBlock(i + 1, docs[i])[0]
  {
    if |docs| > 0 {
      var n := |docs| - 1;
      var init := docs[..n];
      BlocksComeFromDocs(init);
      var last := DocBlock(n + 1, docs[n]);
      ContextBlocksSnoc(docs);
      forall b | b in ContextBlocks(docs)
        ensures exists i :: 0 <= i < |docs| && docs[i].content != "" && b == DocBlock(i + 1, docs[i])[0]
      {
        if b in ContextBlocks(init) {
          var i :| 0 <= i < |init| && init[i].content != "" && b == DocBlock(i + 1, init[i])[0];
          assert init[i] == docs[i];
        } else {
          assert b in last && docs[n].content != "";
        }
      }
    }
  }

  /** Every document with content contributes its block. */
  lemma {:induction false} DocGivesBlock(docs: seq<Doc>, i: nat)
    requires i < |docs| && docs[i].content != ""
    ensures DocBlock(i + 1, docs[i])[0] in ContextBlocks(docs)
  {
    var n := |docs| - 1;
    ContextBlocksSnoc(docs);
    if i < n {
      var init := docs[..n];
      DocGivesBlock(init, i);
      assert init[i] == docs[i];
    } else {
      var last := DocBlock(n + 1, docs[n]);
      assert last[0] in last;
    }
  }

  /** Every block comes from one non-empty document, and every non-empty document gives its block. */
  lemma ContextBlocksFromDocs(docs: seq<Doc>)
    ensures forall b :: b in ContextBlocks(docs) ==>
      exists i :: 0 <= i < |docs| && docs[i].content != "" && b == DocBlock(i + 1, docs[i])[0]
    ensures forall i :: 0 <= i < |docs| && docs[i].content != "" ==> DocBlock(i + 1, docs[i])[0] in ContextBlocks(docs)
  {
    BlocksComeFromDocs(docs);
    forall i | 0 <= i < |docs| && docs[i].content != "" ensures DocBlock(i + 1, docs[i])[0] in ContextBlocks(docs) {
      DocGivesBlock(docs, i);
    }
  }

  /** The context the LLM sees: the blocks joined by blank lines, or the no-documents sentence. */
  function ContextText(docs: seq<Doc>): (c: string)
    ensures c == NoDocuments <==> ContextBlocks(docs) == [] || Join("\n\n", ContextBlocks(docs)) == NoDocuments
  {
    var blocks := ContextBlocks(docs);
    if blocks == [] then NoDocuments else Join("\n\n", blocks)
  }

  /** The "ROLE: content" line of a history message; none when its role or content is empty. */
  function HistoryLine(m: Message): (line: seq<string>)
    ensures |line| <= 1
    ensures line == [] <==> m.role == "" || m.content == ""
  {
    if m.role != "" && m.content != "" then [Upper(m.role) + ": " + Take(m.content, HistoryContentLimit)] else []
  }

  function HistoryLines(msgs: seq<Message>): (lines: seq<string>)
    ensures |lines| <= |msgs|
  {
    if |msgs| == 0 then [] else HistoryLines(msgs[..|msgs| - 1]) + HistoryLine(msgs[|msgs| - 1])
  }

  /** The conversation text the LLM sees: the lines of the last four messages, joined by newlines. */
  function HistoryText(msgs: seq<Message>): string {
    Join("\n", HistoryLines(Last(msgs, HistoryWindow)))
  }

  /** Only the last four messages matter: earlier ones never reach the prompt. */
  lemma HistoryIgnoresOlder(older: seq<Message>, recent: seq<Message>)
    requires |recent| >= HistoryWindow
    ensures HistoryText(older + recent) == HistoryText(recent)
  {
    var all := older + recent;
    assert Last(all, HistoryWindow) == Last(recent, HistoryWindow);
  }

  /** The context loop of `llm_node`. */
  method BuildContext(docs: seq<Doc>) returns (context: string)
    ensures context == ContextText(docs)
  {
    var parts: seq<string> := [];
    var i := 0;
    while i < |docs|
      invariant 0 <= i <= |docs|
      invariant parts == ContextBlocks(docs[..i])
    {
      var content := Take(docs[i].content, DocContentLimit);
      if content != "" {
        parts := parts + [DocHeader(i + 1, docs[i]) + "\n" + content];
      }
      assert docs[..i + 1][..i] == docs[..i];
      i := i + 1;
    }
    assert docs[..i] == docs;
    context := if parts == [] then NoDocuments else Join("\n\n", parts);
  }

  /** The history loop of `llm_node`. */
  method BuildHistory(msgs: seq<Message>) returns (history: string)
    ensures history == HistoryText(msgs)
  {
    if msgs == [] {
      return "";
    }
    var recent := Last(msgs, HistoryWindow);
    var items: seq<string> := [];
    var i := 0;
    while i < |recent|
      invariant 0 <= i <= |recent|
      invariant items == HistoryLines(recent[..i])
    {
      var m := recent[i];
      if m.role != "" && m.content != "" {
        items := items + [Upper(m.role) + ": " + Take(m.content, HistoryContentLimit)];
      }
      assert recent[..i + 1][..i] == recent[..i];
      i := i + 1;
    }
    assert recent[..i] == recent;
    history := Join("\n", items);
  }

  // ---------------------------------------------------------------------------
  // llm_node

  function Docs(s: State): seq<Doc> { s.retrievedDocs.GetOr([]) }
  function History(s: State): seq<Message> { s.conversationHistory.GetOr([]) }

  /** The text of the exception `generate` ends with; the model keeps the last attempt's error. */
  function GenerationErrorText(e: GroqLlm.GenerateError): string { e.lastError }

  /** The update `llm_node` returns. */
  function GenerationUpdate(s: State, client: GroqLlm.Client): (u: State)
  {
    if CacheHit(s) then Empty
    else
      var context := ContextText(Docs(s));
      match GroqLlm.Generate(client, Query(s), context, HistoryText(History(s)))
      case Failure(error) =>
        var e := GenerationErrorText(error);
        Empty.(generatedAnswer := Some(""), generationMetadata := Some(map["error" := JStr(e)]),
               errors := Some(AppendError(s, GenerationErrorPrefix + e)))
      case Success(answer) =>
        Empty.(generatedAnswer := Some(answer), generationMetadata := Some(map[
          "context_length" := JNum(|context| as real), "num_context_docs" := JNum(|Docs(s)| as real),
          "answer_length" := JNum(|answer| as real), "has_history" := JBool(History(s) != [])]))
  }

  /**
   * `llm_node` returns {} exactly on a cache hit, writes no key but
   * generated_answer, generation_metadata and errors, and reports an error
   * with an empty answer and one more error entry.
   */
  lemma GenerationUpdateKeys(s: State, client: GroqLlm.Client)
    ensures var u := GenerationUpdate(s, client);
      (u == Empty <==> CacheHit(s))
      && u.(generatedAnswer := None, generationMetadata := None, errors := None) == Empty
      && (u.errors.Some? ==>
            u.generatedAnswer == Some("") && |u.errors.value| == |Errors(s)| + 1 && u.errors.value[..|Errors(s)|] == Errors(s))
  {
  }

  /** `llm_node`: skipped on a cache hit; otherwise the answer and its metadata, or "" and one error. */
  method LlmNode(s: State, client: GroqLlm.Client) returns (u: State)
    ensures u == GenerationUpdate(s, client)
    ensures CacheHit(s) ==> u == Empty
    ensures !CacheHit(s) ==>
      var context := ContextText(Docs(s));
      var outcome := GroqLlm.Generate(client, Query(s), context, HistoryText(History(s)));
      (outcome.Success? ==>
        u == Empty.(generatedAnswer := Some(outcome.value), generationMetadata := Some(map[
          "context_length" := JNum(|context| as real), "num_context_docs" := JNum(|Docs(s)| as real),
          "answer_length" := JNum(|outcome.value| as real), "has_history" := JBool(History(s) != [])])))
      && (outcome.Failure? ==>
        u == Empty.(generatedAnswer := Some(""),
                    generationMetadata := Some(map["error" := JStr(GenerationErrorText(outcome.error))]),
                    errors := Some(AppendError(s, GenerationErrorPrefix + GenerationErrorText(outcome.error)))))
  {
    if CacheHit(s) {
      return Empty;
    }
    var context := BuildContext(Docs(s));
    var history := BuildHistory(History(s));
    var outcome := GroqLlm.Generate(client, Query(s), context, history);
    if outcome.Failure? {
      var e := GenerationErrorText(outcome.error);
      return Empty.(generatedAnswer := Some(""), generationMetadata := Some(map["error" := JStr(e)]),
                    errors := Some(AppendError(s, GenerationErrorPrefix + e)));
    }
    u := Empty.(generatedAnswer := Some(outcome.value), generationMetadata := Some(map[
      "context_length" := JNum(|context| as real), "num_context_docs" := JNum(|Docs(s)| as real),
      "answer_length" := JNum(|outcome.value| as real), "has_history" := JBool(History(s) != [])]));
  }

  // ---------------------------------------------------------------------------
  // judge_node

  function Evaluation(score: real, reasons: string, criteria: map<string, Json>): Json {
    JObj(map["score" := JNum(score), "reasons" := JStr(reasons), "criteria" := JObj(criteria)])
  }

  const CachedEvaluation := Evaluation(1.0, "Cached answer", map["cached" := JBool(true)])
  const NoAnswerEvaluation := Evaluation(0.0, "No answer generated", map[])
  /** Stand-in for the text `float()` raises with on a score that is not a number. */
  const BadScoreDetail := "could not convert the judge score to float"

  /** `float(evaluation.get("score", 0.0))` on what the judge returned; a failure carries the exception text. */
  function ScoreOf(evaluation: Result<Json, string>): (r: Result<real, string>)
    ensures evaluation.Failure? ==> r == Failure(evaluation.error)
    ensures evaluation.Success? && evaluation.value.JObj? && "score" !in evaluation.value.fields ==> r == Success(0.0)
    ensures (evaluation.Success? && evaluation.value.JObj? && "score" in evaluation.value.fields
             && evaluation.value.fields["score"].JNum?) ==> r == Success(evaluation.value.fields["score"].n)
    ensures evaluation.Success? && !evaluation.value.JObj? ==> r == Failure(BadScoreDetail)
  {
    match evaluation
    case Failure(e) => Failure(e)
    case Success(ev) =>
      match GetField(ev, "score", JNum(0.0))
      case None => Failure(BadScoreDetail)
      case Some(v) =>
        match FloatOf(v)
        case None => Failure(BadScoreDetail)
        case Some(x) => Success(x)
  }

  /**
   * `judge_node`, given what `llm.judge_answer(...)` returned (or raised). A
   * cache hit passes with score 1.0; an empty answer fails with 0.0; else the
   * answer passes iff its score reaches the threshold; a failure, including a
   * score `float()` rejects, passes leniently with 0.5 and one error.
   */
  function JudgeUpdate(s: State, evaluation: Result<Json, string>, threshold: real): (u: State)
    ensures u.qualityPassed.Some? && u.judgeScore.Some? && u.finalAnswer.Some? && u.judgeEvaluation.Some?
    ensures CacheHit(s) ==>
      u == Empty.(qualityPassed := Some(true), judgeScore := Some(1.0), judgeEvaluation := Some(CachedEvaluation),
                  finalAnswer := Some(s.cachedAnswer.GetOr("")))
    ensures !CacheHit(s) && s.generatedAnswer.GetOr("") == "" ==>
      u == Empty.(qualityPassed := Some(false), judgeScore := Some(0.0), judgeEvaluation := Some(NoAnswerEvaluation),
                  finalAnswer := Some(""))
    ensures !CacheHit(s) && s.generatedAnswer.GetOr("") != "" ==>
      (u.finalAnswer == Some(if u.qualityPassed.value then s.generatedAnswer.value else ""))
      && (u.errors.Some? <==> ScoreOf(evaluation).Failure?)
      && (ScoreOf(evaluation).Success? ==>
            u.judgeScore == Some(ScoreOf(evaluation).value) && Success(u.judgeEvaluation.value) == evaluation
            && (u.qualityPassed.value <==> ScoreOf(evaluation).value >= threshold))
      && (ScoreOf(evaluation).Failure? ==>
            u.qualityPassed == Some(true) && u.judgeScore == Some(0.5)
            && u.judgeEvaluation == Some(Evaluation(0.5, "Evaluation error: " + ScoreOf(evaluation).error, map[]))
            && u.errors == Some(AppendError(s, JudgeErrorPrefix + ScoreOf(evaluation).error)))
    ensures CacheHit(s) || s.generatedAnswer.GetOr("") == "" ==> u.errors.None?
    ensures u.(qualityPassed := None, judgeScore := None, judgeEvaluation := None, finalAnswer := None, errors := None) == Empty
  {
    if CacheHit(s) then
      Empty.(qualityPassed := Some(true), judgeScore := Some(1.0), judgeEvaluation := Some(CachedEvaluation),
             finalAnswer := Some(s.cachedAnswer.GetOr("")))
    else
      var answer := s.generatedAnswer.GetOr("");
      if answer == "" then
        Empty.(qualityPassed := Some(false), judgeScore := Some(0.0), judgeEvaluation := Some(NoAnswerEvaluation),
               finalAnswer := Some(""))
      else
        match ScoreOf(evaluation)
        case Success(x) =>
          var passed := x >= threshold;
          Empty.(judgeScore := Some(x), judgeEvaluation := Some(evaluation.value), qualityPassed := Some(passed),
                 finalAnswer := Some(if passed then answer else ""))
        case Failure(e) =>
          Empty.(judgeScore := Some(0.5), judgeEvaluation := Some(Evaluation(0.5, "Evaluation error: " + e, map[])),
                 qualityPassed := Some(true), finalAnswer := Some(answer),
                 errors := Some(AppendError(s, JudgeErrorPrefix + e)))
  }

  /** `judge_node` with `GroqLLM.judge_answer` on the generated answer and the retrieved docs. */
  function JudgeNode(s: State, client: GroqLlm.Client, parse: GroqLlm.JsonParser, threshold: real): (u: State)
    ensures !CacheHit(s) && s.generatedAnswer.GetOr("") != "" ==>
      var ev := GroqLlm.JudgeAnswer(client, parse, Query(s), s.generatedAnswer.value, Docs(s));
      u.errors.None? && u.judgeEvaluation == Some(ev)
      && (u.qualityPassed == Some(true) <==> ("score" in ev.fields ==> ev.fields["score"].n >= threshold)
                                              && ("score" !in ev.fields ==> 0.0 >= threshold))
  {
    if CacheHit(s) || s.generatedAnswer.GetOr("") == "" then JudgeUpdate(s, Success(JNull), threshold)
    else JudgeUpdate(s, Success(GroqLlm.JudgeAnswer(client, parse, Query(s), s.generatedAnswer.value, Docs(s))), threshold)
  }

  /** The gate: a judged answer reaches the final answer exactly when its score reaches the threshold. */
  lemma JudgeGate(s: State, score: real, ev: Json, threshold: real)
    requires !CacheHit(s) && s.generatedAnswer.Some? && s.generatedAnswer.value != ""
    requires ev.JObj? && "score" in ev.fields && ev.fields["score"] == JNum(score)
    ensures var u := JudgeUpdate(s, Success(ev), threshold);
      (u.qualityPassed == Some(true) <==> score >= threshold)
      && (u.finalAnswer == Some(s.generatedAnswer.value) <==> score >= threshold)
      && u.judgeScore == Some(score) && u.errors.None?
  {
  }

  // ---------------------------------------------------------------------------
  // fallback_node

  /** `fallback_node`: marks the fallback and answers with the fallback message; nothing else changes. */
  function FallbackUpdate(s: State): (u: State)
    ensures u.usedFallback == Some(true) && u.finalAnswer == Some(FallbackMessage)
    ensures u.(usedFallback := None, finalAnswer := None) == Empty
    ensures forall t: State :: Merge(t, u) == t.(usedFallback := Some(true), finalAnswer := Some(FallbackMessage))
  {
    Empty.(usedFallback := Some(true), finalAnswer := Some(FallbackMessage))
  }

  // ---------------------------------------------------------------------------
  // memory_node

  /** Whether `memory_node` stores the answer in the cache (and tries long-term memory). */
  predicate StoresAnswer(s: State) {
    s.qualityPassed == Some(true) && s.usedFallback != Some(true)
  }

  function UserMessageMetadata(s: State, now: nat): map<string, Json> {
    map["session_id" := JStr(SessionId(s)), "timestamp" := JNum(now as real)]
  }

  function AssistantMessageMetadata(s: State, now: nat): map<string, Json> {
    map["session_id" := JStr(SessionId(s)), "timestamp" := JNum(now as real),
        "judge_score" := JNum(s.judgeScore.GetOr(0.0)), "quality_passed" := JBool(s.qualityPassed == Some(true))]
  }

  function CacheMetadata(s: State, now: nat): map<string, Json> {
    map["judge_score" := JNum(s.judgeScore.GetOr(0.0)), "timestamp" := JNum(now as real)]
  }

  /** The global buffer after the question and then the answer were added. */
  function AfterExchange(msgs: seq<Message>, user: Message, assistant: Message, max: nat): seq<Message> {
    ShortTerm.BoundedAppend(ShortTerm.BoundedAppend(msgs, user, max), assistant, max)
  }

  /** The session buffers after the question and then the answer were added to session `sid`. */
  function SessionsAfterExchange(sessions: map<string, seq<Message>>, sid: string, query: string, answer: string,
                                 now: nat, max: nat): (r: map<string, seq<Message>>)
    ensures r.Keys == sessions.Keys + {sid}
    ensures forall other :: other in sessions && other != sid ==> r[other] == sessions[other]
  {
    sessions[sid := AfterExchange(if sid in sessions then sessions[sid] else [],
                                  Message("user", query, now, map[]), Message("assistant", answer, now, map[]), max)]
  }

  /** The question and the answer, added to the global buffer. */
  method RememberGlobally(stm: ShortTerm.ShortTermMemory, user: Message, assistant: Message)
    requires stm.Valid()
    modifies stm`messages
    ensures stm.Valid()
    ensures stm.messages == AfterExchange(old(stm.messages), user, assistant, stm.maxMessages)
  {
    stm.AddMessage(user.role, user.content, user.metadata, user.timestamp);
    stm.AddMessage(assistant.role, assistant.content, assistant.metadata, assistant.timestamp);
  }

  /** Writing a key twice leaves the second value. */
  lemma OverwriteTwice(m: map<string, seq<Message>>, k: string, a: seq<Message>, b: seq<Message>)
    ensures m[k := a][k := b] == m[k := b]
  {
  }

  /** The question and the answer, added to the buffer of session `sid`. */
  method RememberInSession(stm: ShortTerm.ShortTermMemory, sid: string, query: string, answer: string, now: nat)
    requires stm.Valid()
    modifies stm`sessions
    ensures stm.Valid()
    ensures stm.sessions == SessionsAfterExchange(old(stm.sessions), sid, query, answer, now, stm.maxMessages)
  {
    ghost var before := stm.sessions;
    ghost var buf := if sid in before then before[sid] else [];
    ghost var first := ShortTerm.BoundedAppend(buf, Message("user", query, now, map[]), stm.maxMessages);
    stm.AddMessageForSession(sid, "user", query, map[], now);
    assert stm.sessions == before[sid := first];
    ghost var second := ShortTerm.BoundedAppend(first, Message("assistant", answer, now, map[]), stm.maxMessages);
    stm.AddMessageForSession(sid, "assistant", answer, map[], now);
    assert stm.sessions == before[sid := first][sid := second];
    OverwriteTwice(before, sid, first, second);
  }

  function UserMessage(s: State, now: nat): Message {
    Message("user", Query(s), now, UserMessageMetadata(s, now))
  }

  function AssistantMessage(s: State, now: nat): Message {
    Message("assistant", s.finalAnswer.GetOr(""), now, AssistantMessageMetadata(s, now))
  }

  /** Whether `memory_node` writes anything: only when there is a final answer. */
  predicate Remembers(s: State) {
    s.finalAnswer.GetOr("") != ""
  }

  /** The global buffer after `memory_node`. */
  function MessagesAfterMemory(s: State, msgs: seq<Message>, now: nat, max: nat): seq<Message> {
    if Remembers(s) then AfterExchange(msgs, UserMessage(s, now), AssistantMessage(s, now), max) else msgs
  }

  /** The session buffers after `memory_node`: only a non-empty session id gets the exchange. */
  function SessionsAfterMemory(s: State, sessions: map<string, seq<Message>>, now: nat, max: nat): map<string, seq<Message>> {
    if Remembers(s) && SessionId(s) != "" then SessionsAfterExchange(sessions, SessionId(s), Query(s), s.finalAnswer.value, now, max)
    else sessions
  }

  /** The cache files after `memory_node`: a passed, non-fallback answer is written, whatever the write's fault. */
  function FilesAfterMemory(s: State, md5: string -> string, files: map<string, FsCache.CacheFile>, now: nat,
                            fault: FsCache.WriteFault): map<string, FsCache.CacheFile> {
    var key := FsCache.Key(md5, Query(s), SessionId(s), UserId(s));
    if Remembers(s) && StoresAnswer(s) then
      FsCache.Written(files, key, FsCache.NewRecord(key, Query(s), s.finalAnswer.value, SessionId(s), UserId(s), CacheMetadata(s, now)), fault)
    else files
  }

  /** The update `memory_node` returns: the session's buffer (or the global one) as conversation_history. */
  function MemoryUpdate(s: State, msgs: seq<Message>, sessions: map<string, seq<Message>>, now: nat, max: nat): (u: State)
  {
    if !Remembers(s) then Empty
    else if SessionId(s) != "" then Empty.(conversationHistory := Some(SessionsAfterMemory(s, sessions, now, max)[SessionId(s)]))
    else Empty.(conversationHistory := Some(MessagesAfterMemory(s, msgs, now, max)))
  }

  /** `memory_node` returns {} exactly without a final answer, and otherwise writes only conversation_history. */
  lemma MemoryUpdateKeys(s: State, msgs: seq<Message>, sessions: map<string, seq<Message>>, now: nat, max: nat)
    ensures var u := MemoryUpdate(s, msgs, sessions, now, max);
      (u == Empty <==> !Remembers(s)) && u.(conversationHistory := None) == Empty
  {
  }

  /** Without a final answer `memory_node` changes nothing and returns `{}`. */
  lemma MemoryWithoutAnswer(s: State, msgs: seq<Message>, sessions: map<string, seq<Message>>, md5: string -> string,
                            files: map<string, FsCache.CacheFile>, now: nat, max: nat, fault: FsCache.WriteFault)
    requires !Remembers(s)
    ensures MessagesAfterMemory(s, msgs, now, max) == msgs && SessionsAfterMemory(s, sessions, now, max) == sessions
    ensures FilesAfterMemory(s, md5, files, now, fault) == files && MemoryUpdate(s, msgs, sessions, now, max) == Empty
  {
  }

  /**
   * With a final answer, the global buffer ends with the question and then
   * the answer.
   */
  lemma MemoryKeepsExchange(s: State, msgs: seq<Message>, now: nat, max: nat)
    requires Remembers(s) && max >= 2 && |msgs| <= max
    ensures var after := MessagesAfterMemory(s, msgs, now, max);
      |after| >= 2 && after[|after| - 2] == UserMessage(s, now) && after[|after| - 1] == AssistantMessage(s, now)
  {
    var after := MessagesAfterMemory(s, msgs, now, max);
    assert after == AfterExchange(msgs, UserMessage(s, now), AssistantMessage(s, now), max);
    ShortTerm.BoundedAppendTwice(msgs, UserMessage(s, now), AssistantMessage(s, now), max);
  }

  /** `buf` ends with a message saying `query` and then one saying `answer`. */
  predicate EndsWithExchange(buf: seq<Message>, query: string, answer: string) {
    |buf| >= 2 && buf[|buf| - 2].content == query && buf[|buf| - 1].content == answer
  }

  /** The session's buffer, after the exchange, ends with the question and then the answer. */
  lemma ExchangeEndsSession(sessions: map<string, seq<Message>>, sid: string, query: string, answer: string,
                            now: nat, max: nat)
    requires max >= 2 && (sid in sessions ==> |sessions[sid]| <= max)
    ensures EndsWithExchange(SessionsAfterExchange(sessions, sid, query, answer, now, max)[sid], query, answer)
  {
    var before := if sid in sessions then sessions[sid] else [];
    var q, a := Message("user", query, now, map[]), Message("assistant", answer, now, map[]);
    var buf := AfterExchange(before, q, a, max);
    ExchangeEnds(before, q, a, max);
    assert SessionsAfterExchange(sessions, sid, query, answer, now, max)[sid] == buf;
  }

  /** A buffer that holds at least two ends, after the exchange, with the question and then the answer. */
  lemma ExchangeEnds(before: seq<Message>, user: Message, assistant: Message, max: nat)
    requires |before| <= max && max >= 2
    ensures var buf := AfterExchange(before, user, assistant, max);
      |buf| >= 2 && buf[|buf| - 2] == user && buf[|buf| - 1] == assistant
  {
    var buf := AfterExchange(before, user, assistant, max);
    assert buf == ShortTerm.BoundedAppend(ShortTerm.BoundedAppend(before, user, max), assistant, max);
    ShortTerm.BoundedAppendTwice(before, user, assistant, max);
  }

  /** With a final answer and a session, the session's buffer ends with the question and then the answer. */
  lemma SessionEndsWithExchange(s: State, sessions: map<string, seq<Message>>, now: nat, max: nat)
    requires Remembers(s) && SessionId(s) != "" && max >= 2
    requires SessionId(s) in sessions ==> |sessions[SessionId(s)]| <= max
    ensures EndsWithExchange(SessionsAfterMemory(s, sessions, now, max)[SessionId(s)], Query(s), s.finalAnswer.value)
  {
    MemoryAddsExchange(s, sessions, now, max);
    ExchangeEndsSession(sessions, SessionId(s), Query(s), s.finalAnswer.value, now, max);
  }

  /** With a final answer and a session, `memory_node` adds the question and the answer to that session. */
  lemma MemoryAddsExchange(s: State, sessions: map<string, seq<Message>>, now: nat, max: nat)
    requires Remembers(s) && SessionId(s) != ""
    ensures SessionsAfterMemory(s, sessions, now, max)
         == SessionsAfterExchange(sessions, SessionId(s), Query(s), s.finalAnswer.value, now, max)
  {
  }

  /**
   * With a final answer and a session, the session's buffer ends with the
   * question and then the answer, and it is the history returned.
   */
  lemma MemoryKeepsSessionExchange(s: State, msgs: seq<Message>, sessions: map<string, seq<Message>>, now: nat, max: nat)
    requires Remembers(s) && SessionId(s) != "" && max >= 2
    requires SessionId(s) in sessions ==> |sessions[SessionId(s)]| <= max
    ensures var buf := SessionsAfterMemory(s, sessions, now, max)[SessionId(s)];
      |buf| >= 2 && buf[|buf| - 2].content == Query(s) && buf[|buf| - 1].content == s.finalAnswer.value
      && MemoryUpdate(s, msgs, sessions, now, max).conversationHistory == Some(buf)
  {
    SessionEndsWithExchange(s, sessions, now, max);
  }

  /**
   * A passed answer that is not the fallback is read back from the cache
   * after a successful write; any other answer leaves the cache alone.
   */
  lemma MemoryCachesAnswer(s: State, md5: string -> string, files: map<string, FsCache.CacheFile>, now: nat,
                           fault: FsCache.WriteFault)
    ensures Remembers(s) && StoresAnswer(s) ==>
      FsCache.Find(FilesAfterMemory(s, md5, files, now, FsCache.NoWriteFault), FsCache.Key(md5, Query(s), SessionId(s), UserId(s)))
        == s.finalAnswer
    ensures !StoresAnswer(s) ==> FilesAfterMemory(s, md5, files, now, fault) == files
  {
    if Remembers(s) && StoresAnswer(s) {
      FsCache.SetThenGet(md5, files, Query(s), s.finalAnswer.value, SessionId(s), UserId(s), CacheMetadata(s, now));
    }
  }

  /**
   * `memory_node`. With no final answer nothing is written. Otherwise the
   * question and the answer go to the global buffer, and to the session's
   * buffer when there is a session; a passed, non-fallback answer is cached
   * (a failing cache write is ignored). The long-term write always fails
   * (`add_qa_pair` does not exist) and is ignored, so long-term memory is not
   * touched. The update is the session's history, or the global messages.
   */
  method MemoryNode(s: State, stm: ShortTerm.ShortTermMemory, cache: FsCache.FilesystemCache, now: nat,
                    cacheFault: FsCache.WriteFault) returns (u: State)
    requires stm.Valid()
    modifies stm`messages, stm`sessions, cache`files
    ensures stm.Valid()
    ensures stm.messages == MessagesAfterMemory(s, old(stm.messages), now, stm.maxMessages)
    ensures stm.sessions == SessionsAfterMemory(s, old(stm.sessions), now, stm.maxMessages)
    ensures cache.files == FilesAfterMemory(s, cache.md5, old(cache.files), now, cacheFault)
    ensures u == MemoryUpdate(s, old(stm.messages), old(stm.sessions), now, stm.maxMessages)
  {
    if !Remembers(s) {
      return Empty;
    }
    ghost var w := (old(stm.messages), old(stm.sessions), old(cache.files));
    var answer := s.finalAnswer.value;
    RememberGlobally(stm, UserMessage(s, now), AssistantMessage(s, now));
    assert stm.messages == MessagesAfterMemory(s, w.0, now, stm.maxMessages);
    if SessionId(s) != "" {
      RememberInSession(stm, SessionId(s), Query(s), answer, now);
    }
    assert stm.sessions == SessionsAfterMemory(s, w.1, now, stm.maxMessages);
    assert cache.files == w.2;
    if StoresAnswer(s) {
      var _ := cache.Set(Query(s), answer, SessionId(s), UserId(s), CacheMetadata(s, now), cacheFault);
      var key := CachedKey(cache, s);
      assert cache.files == FsCache.Written(w.2, key, FsCache.NewRecord(key, Query(s), answer, SessionId(s), UserId(s),
                                                                         CacheMetadata(s, now)), cacheFault);
    }
    assert cache.files == FilesAfterMemory(s, cache.md5, w.2, now, cacheFault);
    var history;
    if SessionId(s) != "" {
      history := stm.GetHistory(SessionId(s));
      assert history == SessionsAfterMemory(s, w.1, now, stm.maxMessages)[SessionId(s)];
    } else {
      history := stm.GetMessages(None);
      assert history == MessagesAfterMemory(s, w.0, now, stm.maxMessages);
    }
    u := Empty.(conversationHistory := Some(history));
  }

  /** The filesystem-cache key of the state's query, session and user. */
  function CachedKey(cache: FsCache.FilesystemCache, s: State): string
    reads cache
  {
    FsCache.Key(cache.md5, Query(s), SessionId(s), UserId(s))
  }
}
