# port-lens-lang query pipeline, modelled in Dafny

This project models the question-answering core of port-lens-lang, a
retrieval-augmented generation service:

- the LangGraph pipeline `cache_check → retrieval → llm_generation → judge →
  (fallback →) memory_update → END` (module `Graph`), its six nodes as partial
  updates of the `RAGState` record (`Nodes`, `RagState`), and `invoke`'s
  fall-back answer when the graph fails;
- the two answer caches: the MD5-keyed `FilesystemCache` that the pipeline
  uses (`FsCache`) and the two-tier `HierarchicalCache`, with an L1 map with
  expiry times and an L2 table with one row per key (`HierCache`);
- short-term memory, a bounded global buffer plus per-session buffers
  (`ShortTerm`), and long-term memory, four SQLite tables kept as sequences
  of rows (`LongTerm`);
- the Groq wrapper's prompt construction, retry and judge post-processing
  (`GroqLlm`, with the prompt texts in `Prompts`);
- the cost-aware router: the query classifier (`QueryClassifier`), model
  selection, the attempt chain and the attempt loop (`ModelRouter`), and the
  provider registry with its token and cost arithmetic (`MultiProvider`);
- the retrieval and generation metrics (`RagEvaluators`).

Shared pieces are `Common` (Option, Result, a JSON value) and `Text`
(Python's `lower`, `upper`, `strip`, `split`, `join`, `in` on strings and
slicing, over `seq<char>`).

Modelling conventions:

- Whatever the code cannot see is a parameter: the LLM completion, the
  retriever, `json.loads`, the SHA-256 and MD5 digests, and the Groq and
  Ollama calls. Each is a function-typed parameter or a constant field, so it
  is deterministic but uninterpreted.
- A failing SQLite statement, file access or Redis call is a fault
  parameter: a `bool`, or for the filesystem cache's write, the step that
  failed (opening the file, or dumping the JSON into the already truncated
  file). A raised exception is a `Result` failure that carries its text.
- The Groq chat completion is a function of the attempt number and the chat
  it is asked (`GroqLlm.Chat`: `generate`'s question, shown context and
  history, or `judge_answer`'s question, answer and documents). A function of
  the chat is at least as general as one of its two message texts, and
  `GroqLlm.Sending` builds such a client from one over the system and user
  messages, which are the prompts (`GroqLlm.GenerateSendsPrompts`).
- The clock is a `nat` parameter (`now`). ISO timestamps compare like the
  numbers they stand for.
- Objects whose fields the code updates are classes: `ShortTermMemory`,
  `FilesystemCache`, `HierarchicalCache`, `LongTermMemory`,
  `MultiProviderLLM`, `CostAwareRouter` and `RagGraphBuilder`. The loops of
  the code (`_init_providers`, `_build_attempt_chain`, `route_and_generate`,
  the context and history loops of `llm_node`, the metric loops and the graph
  run) are methods proved against specification functions.
- A node's partial update is a `State` whose absent keys are `None`. The
  engine's key-overwrite merge is `RagState.Merge`.

Where the code and its documentation differ, the model follows the code:

- The judge always divides the score by ten, once. On a cache hit the
  pipeline still visits retrieval, generation and the judge. Retrieval and
  generation return an empty update themselves; the judge passes the cached
  answer with score 1.0. The same cache hit is written back to the cache by
  `memory_update`, because `quality_passed` is true.
- The pipeline's long-term write calls a method `LongTermMemory` does not
  define. That call always fails and the failure is swallowed, so the
  pipeline never changes long-term memory.
- The filesystem cache key joins the session, the user and the query with
  ':' before hashing, so different triples can share a key
  (`FsCache.CompositeAmbiguous`).
- `HierarchicalCache.set` ignores a failing L1 write. A previous L1 entry
  then keeps answering `get` before the new L2 row
  (`HierCache.StaleL1WinsAfterFailedWrite`).
- The judge's fence stripping splits on the first "```json" and then on "```".
  A run of four backticks therefore leaves one backtick in the text
  (`GroqLlm.FenceRunKeepsBacktick`).

## Model

| member | source | states |
|---|---|---|
| RagState.Initial | app/graph/state.py:11-51 | the initial state carries exactly the query, session id and user id, every other key absent |
| RagState.MergeLaws | app/graph/state.py:11-51 | merging the empty update `{}` changes nothing; a repeated update is idempotent; merging is associative |
| RagState.MergeFinalAnswer | app/graph/state.py:11-51 | a key the update carries (final_answer, errors) overwrites the state's; an absent key keeps the old value |
| Common.FloatOf | app/routing/model_router.py:178 | `float()` of a number is that number, of a boolean 0 or 1; anything else raises |
| Common.GetField | app/routing/model_router.py:178 | `dict.get(key, default)`: the stored value when present, the default otherwise, and an error on a non-dict |
| Text.Lower | app/routing/query_classifier.py:24 | lowercasing keeps the length |
| Text.LowerIsLower | app/routing/query_classifier.py:24 | a lowercased string is all lower case, and lowercasing is idempotent |
| Text.LStrip | app/cache/fs_cache.py:43-46 | `lstrip()` removes exactly the leading whitespace |
| Text.RStrip | app/cache/fs_cache.py:43-46 | `rstrip()` removes exactly the trailing whitespace |
| Text.SplitWords | app/routing/query_classifier.py:27 | `split()` yields non-empty runs without whitespace |
| Text.SplitJoin | app/cache/hierarchical_cache.py:107 | splitting the single-space join of words gives back those words |
| Text.SplitOfStrip | app/cache/hierarchical_cache.py:107 | `split()` ignores the whitespace that `strip()` removes |
| Text.Take | app/graph/nodes.py:108 | `s[:n]` has length min(n, len(s)) and is a prefix of s |
| Text.Last | app/graph/nodes.py:124 | `s[-n:]` holds the last min(n, len(s)) elements |
| Text.Before | app/llm/groq_wrapper.py:157-160 | `s.split(sep)[0]` is the longest prefix without an occurrence of sep, and sep follows it when it is shorter than s |
| Text.NatToString | app/graph/nodes.py:112 | `str(n)` is a non-empty run of decimal digits |
| Nodes.AppendError | app/graph/nodes.py:45 | `state.get("errors", []) + [entry]` keeps the earlier errors and adds exactly the one entry |
| Nodes.CacheUpdate | app/graph/nodes.py:15-46 | a non-empty cached answer sets cache_hit=true and both cached_answer and final_answer to it; a miss sets only cache_hit=false; a lookup exception sets cache_hit=false and appends exactly one "Cache error: " entry; nothing else is touched |
| Nodes.CacheNode | app/graph/nodes.py:15-46 | the update is `CacheUpdate` of the filesystem lookup of the query, session and user, a missing or unreadable file being a miss; because that cache swallows its faults, the node never appends an error |
| Nodes.ToDoc | app/graph/nodes.py:65-69 | a dict result keeps its content and metadata, and a missing distance becomes 0.0; any other result becomes content str(doc), metadata {} and distance 0.0 |
| Nodes.ToDocs | app/graph/nodes.py:63-69 | the retrieved docs are the results converted one by one, in order |
| Nodes.RetrievalUpdate | app/graph/nodes.py:49-88 | the update `retrieval_node` returns, which `RetrievalNode` and `RetrievalUpdateKeys` state |
| Nodes.RetrievalUpdateKeys | app/graph/nodes.py:49-88 | empty iff a cache hit; it sets only retrieved_docs, retrieval_metadata and errors, and an error comes with retrieved_docs=[] and exactly one appended entry |
| Nodes.RetrievalNode | app/graph/nodes.py:49-88 | empty update on a cache hit; otherwise a request for k=2 whose docs and num_docs are returned; a failure gives retrieved_docs=[], the error metadata and one appended "Retrieval error: " entry |
| Nodes.DocBlock | app/graph/nodes.py:107-116 | a doc contributes a block exactly when its content is non-empty: header "Document i:" (with the source when present) and at most 300 characters of content |
| Nodes.ContextBlocks | app/graph/nodes.py:105-118 | there are no context blocks exactly when no doc has content |
| Nodes.BlocksComeFromDocs | app/graph/nodes.py:105-118 | every block is the block of one document with content, numbered by its 1-based position |
| Nodes.DocGivesBlock | app/graph/nodes.py:105-118 | every document with content contributes its block |
| Nodes.ContextBlocksFromDocs | app/graph/nodes.py:105-118 | the blocks are exactly the blocks of the docs with content, numbered by their 1-based position |
| Nodes.ContextText | app/graph/nodes.py:118 | the context is "No relevant documents found." exactly when there are no blocks (or their join happens to equal that text) |
| Nodes.HistoryLine | app/graph/nodes.py:125-128 | a message gives a history line exactly when both its role and its content are non-empty |
| Nodes.HistoryLines | app/graph/nodes.py:120-129 | there are never more history lines than messages |
| Nodes.HistoryIgnoresOlder | app/graph/nodes.py:124 | only the last four messages reach the prompt: anything older does not change the history text |
| Nodes.BuildContext | app/graph/nodes.py:105-118 | the for-loop over the docs builds exactly the specified context |
| Nodes.BuildHistory | app/graph/nodes.py:120-129 | the for-loop over the last four messages builds exactly the specified history |
| Nodes.GenerationUpdate | app/graph/nodes.py:91-159 | the update `llm_node` returns, which `LlmNode` and `GenerationUpdateKeys` state |
| Nodes.GenerationUpdateKeys | app/graph/nodes.py:91-159 | empty iff a cache hit; it sets only generated_answer, generation_metadata and errors, and an error comes with generated_answer "" and exactly one appended entry |
| Nodes.LlmNode | app/graph/nodes.py:91-159 | empty update on a cache hit; otherwise the generated answer with context_length, num_context_docs, answer_length and has_history; on failure generated_answer "", the error metadata and one appended "Generation error: " entry |
| Nodes.ScoreOf | app/graph/nodes.py:204 | `float(evaluation.get("score", 0.0))`: an absent score is 0.0, a numeric score is itself, a non-dict evaluation raises |
| Nodes.JudgeUpdate | app/graph/nodes.py:162-231 | a cache hit passes with score 1.0 and the cached answer; an empty answer fails with score 0.0 and final_answer ""; otherwise quality_passed iff score ≥ threshold, the evaluation is the judge's, and final_answer is the answer iff passed; an exception passes leniently with score 0.5, the evaluation {score 0.5, reasons "Evaluation error: " + the error, criteria {}} and one "Judge error: " entry; no other key is set |
| Nodes.JudgeNode | app/graph/nodes.py:162-231 | with an answer to judge, the evaluation is the judge's and the gate compares its score (0.0 when absent) with the threshold, never raising |
| Nodes.JudgeGate | app/graph/nodes.py:204-216 | for a judged score: passed iff score ≥ threshold, final_answer is the answer iff passed, no error |
| Nodes.FallbackUpdate | app/graph/nodes.py:383-393 | sets used_fallback=true and final_answer to the fallback message and changes no other key of any state |
| Nodes.SessionsAfterExchange | app/graph/nodes.py:280-290 | the session buffers gain the session id and every other session is unchanged |
| Nodes.RememberGlobally | app/graph/nodes.py:262-277 | the global buffer receives the user message and then the assistant message, each with bounded append |
| Nodes.RememberInSession | app/graph/nodes.py:280-290 | the session's buffer receives the user message and then the assistant message |
| Nodes.MemoryUpdate | app/graph/nodes.py:234-380 | the update `memory_node` returns, which `MemoryNode` and `MemoryUpdateKeys` state |
| Nodes.MemoryUpdateKeys | app/graph/nodes.py:234-380 | empty iff there is no final answer; otherwise it sets conversation_history and nothing else |
| Nodes.MemoryNode | app/graph/nodes.py:234-380 | the global buffer, the session buffers and the cache files become exactly `MessagesAfterMemory`, `SessionsAfterMemory` and `FilesAfterMemory` of the old ones, and the update is `MemoryUpdate`: the session's history for a non-empty session id, the global messages otherwise, {} without a final answer |
| Nodes.MemoryWithoutAnswer | app/graph/nodes.py:255-257 | without a final answer the buffers and the cache are unchanged and the update is {} |
| Nodes.MemoryKeepsExchange | app/graph/nodes.py:262-277 | with a final answer the global buffer ends with the user message and then the assistant message |
| Nodes.ExchangeEndsSession | app/graph/nodes.py:280-290 | after the exchange, the session's buffer ends with the question and then the answer |
| Nodes.MemoryAddsExchange | app/graph/nodes.py:279-290 | with a final answer and a session id, the session buffers are those after that session's exchange |
| Nodes.SessionEndsWithExchange | app/graph/nodes.py:279-290 | with a final answer and a session id, that session's buffer ends with the question and then the answer |
| Nodes.MemoryKeepsSessionExchange | app/graph/nodes.py:279-376 | with a final answer and a session id, the session's buffer ends with the question and then the answer, and it is the conversation_history returned |
| Nodes.MemoryCachesAnswer | app/graph/nodes.py:316-328 | a passed answer that is not the fallback is found in the cache after a successful write; any other answer leaves the cache files unchanged |
| Graph.Wrap | app/graph/graph_builder.py:51-81 | a node's dict result passes through; an exception or a non-dict result becomes {}, which changes no state |
| Graph.RouteAfterJudge | app/graph/graph_builder.py:114-121 | goes to fallback iff quality did not pass and fallback is enabled, otherwise to memory_update |
| Graph.Next | app/graph/graph_builder.py:123-192 | the edges of the compiled graph: unconditional edges cache_check→retrieval→llm_generation→judge and fallback→memory_update, the judge branch by the router, and END exactly after memory_update |
| Graph.NextDecreasesRank | app/graph/graph_builder.py:161-182 | every edge moves strictly towards END, so a run cannot cycle |
| Graph.CompleteWalk | app/graph/graph_builder.py:161-182 | a walk from the entry that reaches END is the main line, through fallback exactly when the judged state routes there |
| Graph.TraceVisits | app/graph/graph_builder.py:161-182 | a complete run visits memory_update exactly once, as its last node, and fallback at most once, exactly when routed there |
| Graph.RunExtend | app/graph/graph_builder.py:195-218 | running the node an edge leads to and merging its update extends a run |
| Graph.RunComplete | app/graph/graph_builder.py:195-218 | a finished run ends with the fallback message and used_fallback=true after a fallback, and otherwise keeps the judge's final_answer and quality_passed |
| Graph.FallbackState | app/graph/graph_builder.py:220-232 | a copy of the input with final_answer = the fallback message, used_fallback=true and exactly one "Graph error: " entry appended to errors (created if absent) |
| Graph.CacheHitFlow | app/graph/graph_builder.py:161-163 | a cache hit still passes retrieval, generation and the judge, which keep the cached answer with score 1.0 and route to memory_update, where the answer is stored again |
| Graph.RagGraphBuilder.Build | app/graph/graph_builder.py:123-192 | the compiled graph is the pipeline |
| Graph.RagGraphBuilder.StatelessNode | app/graph/graph_builder.py:98-112 | the judge and fallback nodes compute the node functions |
| Graph.RagGraphBuilder.RunNode | app/graph/graph_builder.py:83-112 | each registered node, called through its wrapper, returns `Step` of its node function on the state; only memory_update changes the buffers or the cache, to `AfterMemory` of the state it ran on |
| Graph.RagGraphBuilder.Step | app/graph/graph_builder.py:83-112 | each node name's update is its node function on the state, with the cache, retriever, client and buffers the builder holds; `StepFits` states what the run needs of it |
| Graph.RagGraphBuilder.Invocation | app/graph/graph_builder.py:195-232 | the functional run from the entry that `Invoke` and `Execute` return |
| Graph.RagGraphBuilder.Invoke | app/graph/graph_builder.py:195-232 | builds the graph when unset; the result is `Invocation` of the input, each ran node's update being its node function of the state before it; a run without engine failure completes along the pipeline and returns the last merged state, with the fallback message after a fallback and the judge's answer otherwise, and the stores become memory_update's writes from the state before it; an engine failure returns `FallbackState` of the input and leaves the stores as they were |
| Graph.RagGraphBuilder.Execute | app/graph/graph_builder.py:211-232 | the engine's loop from the entry to END returns `Invocation` of the input with the run, the path and the stores as `Invoke` states them |
| Graph.RagGraphBuilder.Advance | app/graph/graph_builder.py:211-218 | one node runs, its update is merged and the run moves strictly closer to END, still on course for `Invocation` |
| Graph.RagGraphBuilder.Finished | app/graph/graph_builder.py:211-218 | a run that reached END visited the main line (through fallback when routed there), returns its last state and leaves memory_update's writes |
| Graph.RagGraphBuilder.Interrupted | app/graph/graph_builder.py:220-232 | a run the engine's failure stops returns the fallback copy of the input and leaves the stores unchanged |
| Graph.RagGraphBuilder.ExecutesExtend | app/graph/graph_builder.py:211-218 | running the node the edge leads to with its node function's update extends the run |
| Graph.RagGraphBuilder.ContinueStep | app/graph/graph_builder.py:211-218 | without a failure at this point, what remains of the run is the node's merged update followed by the run from its edge |
| Graph.RagGraphBuilder.StepFits | app/graph/graph_builder.py:83-112 | memory_update sets no final_answer, used_fallback or quality_passed, and fallback sets the fallback message and used_fallback |
| GroqLlm.ShownContext | app/llm/groq_wrapper.py:75-82 | an empty context is shown as "No context available" |
| GroqLlm.GeneratePrompt | app/llm/groq_wrapper.py:75-82 | the RAG template over the context and question, prefixed by "Previous conversation:" and the history only when the history is non-empty |
| GroqLlm.FirstSuccess | app/llm/groq_wrapper.py:46-50 | the retry succeeds iff some attempt succeeds, with the first successful result; otherwise it fails with the last attempt's error |
| GroqLlm.Attempts | app/llm/groq_wrapper.py:46-50 | exactly three attempts of the same chat, attempt i being the client's reply to attempt number i |
| GroqLlm.Generate | app/llm/groq_wrapper.py:51-107 | the stripped completion of the first successful attempt of three, or the last attempt's error |
| GroqLlm.LabelContexts | app/llm/groq_wrapper.py:225-230 | context i is labelled "Context i:" with i 1-based |
| GroqLlm.GenerateWithContext | app/llm/groq_wrapper.py:202-236 | generates over the labelled contexts joined by blank lines, or over "No context available" when there are none |
| GroqLlm.JudgeContext | app/llm/groq_wrapper.py:128-131 | at most the first three docs, each cut to 500 characters and joined by blank lines, or "No context available" |
| GroqLlm.StripFences | app/llm/groq_wrapper.py:157-160 | text without a leading fence is unchanged; a leading "```" (not "```json") leaves the trimmed segment up to the next "```"; a leading "```json" leaves the trimmed segment up to the next "```" only when no "```json" starts inside that closing fence's three characters, the case `GroqLlm.FenceRunKeepsBacktick` shows failing |
| GroqLlm.ErrorEvaluation | app/llm/groq_wrapper.py:187-200 | any failure inside the judge returns a dict with score 0.5 |
| GroqLlm.Normalise | app/llm/groq_wrapper.py:180-185 | a present numeric score is divided by ten exactly once, an absent score stays absent, and a non-dict value becomes the error evaluation |
| GroqLlm.JudgeReply | app/llm/groq_wrapper.py:154-200 | the judge always returns a dict whose score, when present, is a number |
| GroqLlm.JudgeAnswer | app/llm/groq_wrapper.py:109-200 | `judge_answer` never raises and returns a dict with a numeric score when it has one |
| GroqLlm.GenerateSendsPrompts | app/llm/groq_wrapper.py:75-89 | through a client of the two message texts, each attempt of `generate` sends the RAG system prompt and the RAG prompt over the shown context, question and history |
| GroqLlm.JudgeSendsPrompts | app/llm/groq_wrapper.py:128-146 | through a client of the two message texts, `judge_answer` sends the judge system prompt and the judge prompt |
| GroqLlm.NormalisedDefault | app/llm/groq_wrapper.py:163-182 | the default evaluation's score 5 is normalised to 0.5 and its criteria are all 5.0 |
| GroqLlm.UnparseableReplyGivesDefault | app/llm/groq_wrapper.py:163-182 | an unparseable reply gives the default evaluation with score 5 divided by ten to 0.5, and every criterion at 5.0 |
| GroqLlm.ParsedScoreNormalisedOnce | app/llm/groq_wrapper.py:181-182 | a parsed dict's numeric score is divided by ten once and nothing else changes; without a score it is returned as parsed |
| GroqLlm.ClientFailureGivesErrorEvaluation | app/llm/groq_wrapper.py:187-200 | a failing completion yields score 0.5 and reasons "Evaluation error: " followed by the error |
| GroqLlm.FenceRunKeepsBacktick | app/llm/groq_wrapper.py:157-158 | after "```json", a run of four backticks leaves one backtick that the segment up to the next "```" does not |
| FsCache.Key | app/cache/fs_cache.py:29-49 | MD5 of "session:user:query" lowercased and stripped; `KeyIgnoresCase` and `CompositeAmbiguous` state its properties |
| FsCache.KeyIgnoresCase | app/cache/fs_cache.py:29-49 | the session, user and query are each case-insensitive in the key |
| FsCache.CompositeKeepsInnerWhitespace | app/cache/fs_cache.py:43-46 | only outer whitespace is stripped: the inner text is kept, lowercased |
| FsCache.CompositeAmbiguous | app/cache/fs_cache.py:43-44 | two different (session, user) pairs can give the same composite key |
| FsCache.SetThenGet | app/cache/fs_cache.py:51-123 | after `set`, `get` with the same query, session and user returns the stored answer |
| FsCache.FailedWriteLookups | app/cache/fs_cache.py:115-123 | a failing dump loses the answer stored before under the key and no other; a failing open changes no lookup |
| FsCache.FilesystemCache.Get | app/cache/fs_cache.py:51-79 | a readable file under the key returns its answer; a missing or unreadable (truncated) file returns None; a fault returns None and never raises |
| FsCache.FilesystemCache.Set | app/cache/fs_cache.py:81-123 | writes (or overwrites) the record under the key and returns true; a failing open changes nothing and a failing dump leaves the key's file truncated, both returning false |
| FsCache.FilesystemCache.Clear | app/cache/fs_cache.py:125-134 | removes every file and returns true; a fault leaves the files not yet deleted and returns false |
| FsCache.FilesystemCache.GetStats | app/cache/fs_cache.py:136-142 | total_cached_queries is the number of cache files, readable or not |
| HierCache.NormalizedWords | app/cache/hierarchical_cache.py:107 | normalising keeps exactly the lowercased words, in lower case |
| HierCache.NormalizeSameWords | app/cache/hierarchical_cache.py:107 | two queries normalise alike iff they have the same lowercased words |
| HierCache.NormalizeIdempotent | app/cache/hierarchical_cache.py:107 | normalising twice is normalising once |
| HierCache.CacheKey | app/cache/hierarchical_cache.py:86-116 | SHA-256 of the normalised query, user id, session id and doc-set version joined by vertical bars; `KeyIgnoresCaseAndSpacing` states what it ignores |
| HierCache.KeyIgnoresCaseAndSpacing | app/cache/hierarchical_cache.py:86-116 | queries differing only in case or spacing get the same key |
| HierCache.FindRow | app/cache/hierarchical_cache.py:159-163 | the first row with the key, or none when no row has it |
| HierCache.WithoutKey | app/cache/hierarchical_cache.py:250-253 | removes exactly the rows with the key |
| HierCache.WithoutKeyUnique | app/cache/hierarchical_cache.py:62 | removing a key keeps the keys unique |
| HierCache.ReplaceKeepsKeysUnique | app/cache/hierarchical_cache.py:250-253 | INSERT OR REPLACE keeps one row per key, and the new row is the one found |
| HierCache.Touch | app/cache/hierarchical_cache.py:165-172 | an L2 hit increments that row's access_count and sets accessed_at; other rows are unchanged |
| HierCache.TouchKeepsKeysUnique | app/cache/hierarchical_cache.py:165-172 | the access update keeps the keys unique |
| HierCache.Lookup | app/cache/hierarchical_cache.py:118-192 | an L1 hit iff Redis is available, L1 does not fail and holds a live entry, returning that entry's document; an L2 hit only when L2 does not fail, returning the first row with the key |
| HierCache.LookupNoneIffBothMiss | app/cache/hierarchical_cache.py:137-192 | `get` returns None iff L1 (when available and not failing) has no live entry and L2 fails or has no row for the key |
| HierCache.SetThenGet | app/cache/hierarchical_cache.py:194-272 | after a successful L2 write, `get` returns the stored answer unless a stale L1 entry survives |
| HierCache.StaleL1WinsAfterFailedWrite | app/cache/hierarchical_cache.py:233-243 | a failed L1 write leaves an older live L1 entry answering before the new L2 row |
| HierCache.HierarchicalCache.Get | app/cache/hierarchical_cache.py:118-192 | returns the lookup of the key; an L2 hit touches that row and does not copy it into L1 |
| HierCache.HierarchicalCache.Set | app/cache/hierarchical_cache.py:194-272 | writes L1 with the TTL when available and L2 with INSERT OR REPLACE (access_count 0); returns true iff the L2 write succeeded |
| HierCache.HierarchicalCache.Clear | app/cache/hierarchical_cache.py:274-293 | flushes L1 then deletes every L2 row and returns true; a failure returns false, and an L1 failure skips the L2 delete |
| HierCache.PositiveScores | app/cache/hierarchical_cache.py:315-316 | the scores `WHERE judge_score > 0` keeps: none iff no row has a positive score |
| HierCache.PositiveScoresBelow | app/cache/hierarchical_cache.py:315-316 | each averaged score is positive and at most any bound on the rows' scores |
| HierCache.TotalBounds | app/cache/hierarchical_cache.py:315-316 | a sum of n values in (0, hi] lies in (0, n × hi] |
| HierCache.AvgJudgeScoreBounds | app/cache/hierarchical_cache.py:315-316 | avg_judge_score is 0 iff no row has a positive score, and otherwise positive and at most the largest score |
| HierCache.HierarchicalCache.GetStats | app/cache/hierarchical_cache.py:295-328 | the row count, the mean positive judge score (0 without one) and redis_available; a database fault gives {} |
| ShortTerm.BoundedAppend | app/memory/short_term.py:26-52 | the buffer never exceeds max_messages and holds min(length + 1, max_messages) messages; the new message is last |
| ShortTerm.BoundedAppendKeepsNewest | app/memory/short_term.py:31-52 | what survives an append is the newest part of the buffer followed by the new message |
| ShortTerm.BoundedAppendCases | app/memory/short_term.py:26-52 | below capacity the message is appended; at capacity the oldest is dropped |
| ShortTerm.BoundedAppendTwice | app/memory/short_term.py:31-52 | two appends leave the two messages last, in order |
| ShortTerm.Limited | app/memory/short_term.py:82-95 | no limit or 0 returns everything; a positive limit the last `limit`; a negative one drops from the front |
| ShortTerm.ContextLines | app/memory/short_term.py:111-121 | one "ROLE: content" line per message, in order |
| ShortTerm.ShortTermMemory.constructor | app/memory/short_term.py:18-29 | an empty buffer and no sessions |
| ShortTerm.ShortTermMemory.AddMessage | app/memory/short_term.py:31-52 | only the global buffer changes, by bounded append |
| ShortTerm.ShortTermMemory.AddMessageForSession | app/memory/short_term.py:54-80 | creates the session on first use; only that session's buffer changes, by bounded append |
| ShortTerm.ShortTermMemory.GetMessages | app/memory/short_term.py:82-95 | the messages in insertion order; a positive limit returns only the last `limit` |
| ShortTerm.ShortTermMemory.GetHistory | app/memory/short_term.py:97-109 | the session's buffer, or [] for an unknown session (not created) |
| ShortTerm.ShortTermMemory.GetContextString | app/memory/short_term.py:111-121 | the "ROLE: content" lines of the global buffer joined by newlines |
| ShortTerm.ShortTermMemory.Clear | app/memory/short_term.py:123-127 | empties the buffer and removes every session |
| ShortTerm.ShortTermMemory.GetStats | app/memory/short_term.py:129-136 | total_messages, total_sessions, max_capacity and utilization = length/max; a zero capacity raises |
| LongTerm.Filter | app/memory/long_term.py:220-222 | a WHERE clause keeps exactly the matching rows |
| LongTerm.FilterNone | app/memory/long_term.py:220-222 | no matching row gives no result |
| LongTerm.FilterAppend | app/memory/long_term.py:220-222 | filtering a table with one more row adds that row when it matches |
| LongTerm.InsertMultiset | app/memory/long_term.py:223 | insertion keeps the rows |
| LongTerm.InsertLowerBound | app/memory/long_term.py:223 | insertion keeps a lower bound on the keys |
| LongTerm.InsertSorted | app/memory/long_term.py:223 | insertion into an ordered result keeps it ordered |
| LongTerm.SortByCorrect | app/memory/long_term.py:223 | ORDER BY yields an ordered permutation of the rows |
| LongTerm.ToMessages | app/memory/long_term.py:229-238 | one message dict per row, with role, content, timestamp and metadata |
| LongTerm.SessionMessagesCorrect | app/memory/long_term.py:206-241 | only the session's messages, in ascending timestamp order, each exactly once |
| LongTerm.UserInteractionsSound | app/memory/long_term.py:296-336 | every returned row is the user's, and they come newest first |
| LongTerm.UserInteractionsComplete | app/memory/long_term.py:296-336 | the result holds min(limit, user rows) of the user's rows, and no user row left out is newer than a returned one |
| LongTerm.UserInteractionsCorrect | app/memory/long_term.py:296-336 | only the user's rows, newest first, exactly min(limit, user rows) of them (all for a negative limit), and no user row left out is newer than a returned one |
| LongTerm.FactsOfKeys | app/memory/long_term.py:269-294 | a key is present iff the session has a fact with that key |
| LongTerm.StoreFactThenGetFacts | app/memory/long_term.py:243-294 | after `store_fact(s, k, v)`, `get_facts(s)` maps k to v and keeps the other keys |
| LongTerm.StoreFactOtherSession | app/memory/long_term.py:243-294 | a fact of one session does not change another session's facts |
| LongTerm.SetUpdatedAt | app/memory/long_term.py:155-157 | updated_at changes on the session's row only |
| LongTerm.EnsureSessionCorrect | app/memory/long_term.py:103-112 | INSERT OR IGNORE is idempotent and keeps one row per session id |
| LongTerm.SetUpdatedAtKeepsSessions | app/memory/long_term.py:155-157 | the update keeps the set of sessions and their uniqueness |
| LongTerm.AddMessageThenRead | app/memory/long_term.py:120-241 | one message added to a fresh session reads back as exactly that message |
| LongTerm.LongTermMemory.constructor | app/memory/long_term.py:20-87 | the tables as given, one row per session id |
| LongTerm.LongTermMemory.Open | app/memory/long_term.py:20-87 | a schema failure re-raises (no memory); otherwise four empty tables |
| LongTerm.LongTermMemory.CreateSession | app/memory/long_term.py:89-118 | inserts the session if absent; a fault changes nothing |
| LongTerm.LongTermMemory.AddMessage | app/memory/long_term.py:120-163 | ensures the session, appends exactly one message row and sets that session's updated_at; a fault leaves the messages unchanged |
| LongTerm.LongTermMemory.StoreInteraction | app/memory/long_term.py:165-204 | appends exactly one interaction row; a fault changes nothing |
| LongTerm.LongTermMemory.StoreFact | app/memory/long_term.py:243-267 | appends exactly one fact row; a fault changes nothing |
| LongTerm.LongTermMemory.GetSessionMessages | app/memory/long_term.py:206-241 | the session's messages by timestamp, or [] on a fault |
| LongTerm.LongTermMemory.GetFacts | app/memory/long_term.py:269-294 | the session's facts, or {} on a fault |
| LongTerm.LongTermMemory.GetUserInteractions | app/memory/long_term.py:296-336 | the user's newest interactions up to `limit`, or [] on a fault |
| QueryClassifier.CountOccurring | app/routing/query_classifier.py:32 | at most one count per keyword |
| QueryClassifier.CountOccurringPositive | app/routing/query_classifier.py:32 | the count is positive iff some keyword occurs |
| QueryClassifier.LengthScore | app/routing/query_classifier.py:27-28 | min(words/50, 0.3), which is 0.3 iff there are at least 15 words |
| QueryClassifier.ReasoningScore | app/routing/query_classifier.py:31-33 | 0.15 per reasoning keyword, capped at 0.3 |
| QueryClassifier.TechnicalScore | app/routing/query_classifier.py:36-37 | 0.1 iff a technical keyword occurs, else 0 |
| QueryClassifier.ComplexityScore | app/routing/query_classifier.py:40 | the uncapped sum, always within [0, 0.7] |
| QueryClassifier.Classify | app/routing/query_classifier.py:23-60 | the tiers by the simple (0.3) and medium (0.6) thresholds with their models; requires_reasoning iff a reasoning keyword occurs; the domain; estimated tokens max(100, 5 × words) |
| QueryClassifier.DefaultComplexNeedsTwoReasoningKeywords | app/routing/query_classifier.py:40-51 | with default thresholds, a complex query has at least two reasoning keywords |
| QueryClassifier.DefaultShortPlainQueryIsSimple | app/routing/query_classifier.py:27-51 | with default thresholds, fewer than 15 words and no keyword is simple, routed to phi3_mini |
| ModelRouter.SelectInitialModel | app/routing/model_router.py:115-119 | cost, speed and quality pick tier models, anything else the classifier's preferred model |
| ModelRouter.SelectInitialModelByGoal | app/routing/model_router.py:115-119 | for any thresholds: cost picks phi3_mini, quality gpt4o_mini, and speed phi3_mini iff complexity < 0.3 and llama3_8b otherwise |
| ModelRouter.InitialModelIsTierModel | app/routing/model_router.py:115-119 | the first model is always one of the three tier models |
| ModelRouter.SpeedAndBalancedAgreeOnCheapest | app/routing/model_router.py:117-119 | under default thresholds "speed" and the default goal pick phi3_mini exactly when complexity < 0.3 |
| ModelRouter.Prompt | app/routing/model_router.py:146-155 | the prompt starts with the instruction, holds the context cut to 3000 characters after "\n\nContext:\n", and ends with the question and "\n\nAnswer:" |
| ModelRouter.RouterPrompt | app/routing/model_router.py:129-162 | `Prompt` over the router's fixed four-rule instruction |
| ModelRouter.AttemptChain | app/routing/model_router.py:121-127 | the attempt chain, whose properties `AttemptChainCorrect` states |
| ModelRouter.AppendNewCorrect | app/routing/model_router.py:123-126 | appending new entries keeps the prefix, has no duplicates and holds exactly both lists' models |
| ModelRouter.FirstOccurrencesMembers | app/routing/model_router.py:123-126 | the new entries are exactly the models of the list not in the chain |
| ModelRouter.AppendNewOrder | app/routing/model_router.py:123-126 | appending keeps the chain and adds each new model once, in the order it first appears |
| ModelRouter.AttemptChainCorrect | app/routing/model_router.py:121-127 | the chain starts with the initial model and has no duplicates; for quality it is just that model; otherwise it holds exactly it and the fallback models, the rest being the fallback chain without the initial model and repeats, in order |
| ModelRouter.BuildAttemptChain | app/routing/model_router.py:121-127 | the loop builds the specified chain |
| ModelRouter.JudgeScore | app/routing/model_router.py:164-178 | `float(evaluation.get("score", 0.5))`: a non-dict raises, a missing score is 0.5, a present one converts or raises |
| ModelRouter.TryModel | app/routing/model_router.py:56-110 | an unregistered model fails the attempt; a refusal contains the refusal phrase and is not judged |
| ModelRouter.FirstAcceptedCorrect | app/routing/model_router.py:55-110 | the first accepted attempt, with all earlier ones rejected, or none at all |
| ModelRouter.TryAll | app/routing/model_router.py:55-110 | one attempt per model of the chain, in order |
| ModelRouter.RouteOutcome | app/routing/model_router.py:55-112 | a failure is "All models failed" with the quality bar; a success names the model at its 1-based attempt number in the chain |
| ModelRouter.RouteOutcomeCorrect | app/routing/model_router.py:55-112 | fails iff no attempt is accepted; otherwise the first accepted model with 1-based attempts, fallback_used iff attempts > 1, score 1.0 for a refusal or the judge score ≥ min_quality_score |
| ModelRouter.OutcomeAt | app/routing/model_router.py:63-104 | the first accepted attempt decides the result |
| ModelRouter.SkipRejected | app/routing/model_router.py:106-110 | a rejected or failed attempt moves on to the next model |
| ModelRouter.OutcomeExhausted | app/routing/model_router.py:112 | with every attempt rejected the call raises "All models failed" |
| ModelRouter.CostAwareRouter.constructor | app/routing/model_router.py:28-38 | min_quality_score defaults to 0.75 |
| ModelRouter.CostAwareRouter.TryOne | app/routing/model_router.py:56-110 | one attempt returns a result iff the attempt is accepted |
| ModelRouter.CostAwareRouter.RouteAndGenerate | app/routing/model_router.py:40-113 | classify, select, build the chain and return the outcome of the attempt loop |
| MultiProvider.ProviderFor | app/llm/multi_provider.py:73-79 | only "groq" and "ollama" entries give a provider, with the entry's model and rate |
| MultiProvider.InitProviders | app/llm/multi_provider.py:73-79 | the registry holds exactly the groq and ollama entries |
| MultiProvider.EstimateCost | app/llm/multi_provider.py:34-35 | Groq costs (in+out)/1000 × the rate, Ollama always 0.0 |
| MultiProvider.EstimateCostMonotone | app/llm/multi_provider.py:34-35 | more tokens never cost less at a non-negative rate |
| MultiProvider.OllamaGenerate | app/llm/multi_provider.py:44-62 | only a 200 response gives an answer; every failure raises the "Ollama Connection Failed" message |
| MultiProvider.GenerateResult | app/llm/multi_provider.py:82-100 | an unregistered model raises ValueError; otherwise tokens are len/4 each and the cost is computed from them |
| MultiProvider.OllamaGenerationFree | app/llm/multi_provider.py:64-65 | an Ollama answer is always free |
| MultiProvider.MultiProviderLLM.constructor | app/llm/multi_provider.py:67-79 | the registry of the configured models |
| MultiProvider.MultiProviderLLM.Generate | app/llm/multi_provider.py:82-100 | computes the specified generation result |
| RagEvaluators.Distances | app/monitoring/rag_evaluators.py:67-68 | one distance per doc, a missing one counting as 1.0 |
| RagEvaluators.Minimum | app/monitoring/rag_evaluators.py:78 | the minimum is one of the values and no larger than any |
| RagEvaluators.CountTrue | app/monitoring/rag_evaluators.py:117 | the relevant count is at most the number of docs |
| RagEvaluators.CountTruePositive | app/monitoring/rag_evaluators.py:117 | the count is positive iff some doc is relevant |
| RagEvaluators.FirstTrue | app/monitoring/rag_evaluators.py:128-131 | the first relevant rank, or none |
| RagEvaluators.ReciprocalRank | app/monitoring/rag_evaluators.py:126-131 | MRR lies in [0, 1], is 0 iff no doc is relevant and 1 when the first is |
| RagEvaluators.MrrOf | app/monitoring/rag_evaluators.py:126-131 | the loop with early break computes the reciprocal rank |
| RagEvaluators.DistanceMask | app/monitoring/rag_evaluators.py:196-201 | a doc counts iff its distance is below 0.5 |
| RagEvaluators.MrrFromDistance | app/monitoring/rag_evaluators.py:196-201 | 1/rank of the first doc with distance below 0.5, else 0 |
| RagEvaluators.Ratio | app/monitoring/rag_evaluators.py:120-124 | a ratio a/b times b is a, non-negative, at most 1 when a ≤ b |
| RagEvaluators.LabelMask | app/monitoring/rag_evaluators.py:116 | a doc is relevant iff its label exceeds 0.5 |
| RagEvaluators.MetricsFromLabels | app/monitoring/rag_evaluators.py:109-141 | precision = relevant/labels; recall over the ground-truth count, or 1 or 0 without it; MRR of the first relevant label |
| RagEvaluators.LabelPrecisionZeroIffNoReciprocalRank | app/monitoring/rag_evaluators.py:116-131 | precision is 0 iff MRR is 0 |
| RagEvaluators.MatchAny | app/monitoring/rag_evaluators.py:161-167 | the inner loop finds a match iff some ground-truth text and the content contain one another, ignoring case |
| RagEvaluators.MatchMask | app/monitoring/rag_evaluators.py:150-167 | one relevance flag per doc |
| RagEvaluators.MatchFlags | app/monitoring/rag_evaluators.py:159-167 | the loop builds the relevance flags |
| RagEvaluators.MetricsFromGroundTruth | app/monitoring/rag_evaluators.py:143-194 | precision = relevant/retrieved, recall = relevant/ground truth, MRR of the first match |
| RagEvaluators.EvaluateRetrieval | app/monitoring/rag_evaluators.py:27-107 | no docs give avg_distance 1.0 and 0.0 elsewhere; otherwise context_relevance = 1 − mean distance and hit_rate 1 iff the minimum distance < 0.5; the ranks are those of the labels when given, else precision, recall and MRR of the ground-truth matches when given, else the MRR of the distance ranking alone |
| RagEvaluators.HitRateIffSomeClose | app/monitoring/rag_evaluators.py:78-79 | the hit rate is 1 iff some doc has distance below 0.5 |
| RagEvaluators.SumBounds | app/monitoring/rag_evaluators.py:67-72 | a sum of values in [0, 1] lies in [0, n] |
| RagEvaluators.ShareBounds | app/monitoring/rag_evaluators.py:67-72 | a share of a positive whole lies in [0, 1] |
| RagEvaluators.ContextRelevanceBounds | app/monitoring/rag_evaluators.py:67-72 | with distances in [0, 1], context relevance lies in [0, 1] |
| RagEvaluators.GenerationFromJudge | app/monitoring/rag_evaluators.py:249-272 | an empty evaluation scores 0.5; for a non-empty dict whose criteria (if given) are a dict, the metrics exist iff the score (0.5 when absent) and every given criterion convert, each criterion being its value divided by ten and a missing one 0.5, and the explanation is the reasons ("" when absent); a non-dict criteria value raises; avg_generation_score equals the judge score |
| RagEvaluators.OverallScore | app/monitoring/rag_evaluators.py:367-369 | 0.3 × context_relevance + 0.7 × generation score lies between the two and in [0, 1] |
| RagEvaluators.OverallWithoutDocs | app/monitoring/rag_evaluators.py:51-62 | with no docs and an empty evaluation the overall score is 0.35 |

## Left out

- Logging, LangSmith tracing, the evaluation log block of `memory_node` and the cost-estimate logging are side channels with no effect on results. `RAGEvaluator`'s file append and `get_evaluation_summary` are file I/O.
- Time measurement: latency_ms, generation_time_ms, retrieval_time_ms and processing_time. These are clock readings.
- Rounding (`round(…, 4)`) and NDCG. These are floating-point presentation. The metrics are stated over exact reals.
- Lower and upper case are modelled for ASCII letters only, because Unicode case mapping is a library table.
- The exception texts Python produces (`str(e)`, `str(RetryError)`) are opaque strings. The model carries the last attempt's error for the retry.
- The tenacity backoff timing between attempts and asyncio scheduling. These are timing and concurrency.
- `redis_cache.py` is not part of this model. The pipeline is wired to the filesystem cache.
- `memory_node`'s long-term write always fails, so long-term memory is not a field of `RagGraphBuilder`. The outer `except` of `memory_node` is also left out, because no modelled call in it raises.
- FsCache.FilesystemCache.GetStats: cache_size_mb, the total size of the cache files in megabytes, is not modelled, because file sizes on disk are outside the model.
- HierCache.HierarchicalCache.GetStats: sqlite_location, a filesystem path, is not reported; the hit-rate query `get_stats` runs is discarded by the source and is not modelled.
- Failures of `build` itself inside `invoke` are not modelled. Only a failure while the engine runs is, at any node count.
- `llm_node`'s branch for non-dict docs is left out, because the state's docs are always dicts in the model.
- `float()` on a numeric string in the judge and evaluator conversions is treated as raising.
- SQLite's order for rows with equal sort keys is modelled as table order.
- The `routing_reasoning` text of the classification, and the prompt texts beyond their structure, are display text.
- Graph.RagGraphBuilder.Invoke: an engine failure is a parameter giving the number of nodes after which the run breaks, not an exception raised by a node.
- Graph.FallbackState: builds a fresh errors sequence, whereas `invoke`'s except branch copies the state with `dict(state)` and appends to the same list, so a caller's errors list would be extended too; no caller passes errors.
- Nodes.JudgeNode: a string or list score on a dict evaluation is not modelled, because `judge_answer` always returns a dict whose score is a number.
