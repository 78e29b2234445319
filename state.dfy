/**
 * The pipeline's state record (`RAGState`, a total=False TypedDict) and the
 * way the graph engine merges a node's partial update into it.
 *
 * Every key may be absent, so every field is an `Option`; a node's partial
 * update has the same shape, with `None` for the keys it does not return.
 * The engine keeps no reducers for this state, so merging an update
 * overwrites exactly the keys the update carries.
 */
module RagState {
  import opened Common

  /** A retrieved chunk as the retrieval node stores it: content, metadata, distance. */
  datatype Doc = Doc(content: string, metadata: map<string, string>, distance: Option<real>)

  /** A conversation message as short-term memory stores it. */
  datatype Message = Message(role: string, content: string, timestamp: nat, metadata: map<string, Json>)

  datatype State = State(
    // input fields
    query: Option<string>,
    sessionId: Option<string>,
    userId: Option<string>,
    // retrieval fields
    retrievedDocs: Option<seq<Doc>>,
    retrievalMetadata: Option<map<string, Json>>,
    // generation fields
    generatedAnswer: Option<string>,
    generationMetadata: Option<map<string, Json>>,
    // quality evaluation fields
    judgeScore: Option<real>,
    judgeEvaluation: Option<Json>,
    qualityPassed: Option<bool>,
    // caching fields
    cacheHit: Option<bool>,
    cachedAnswer: Option<string>,
    // memory fields
    conversationHistory: Option<seq<Message>>,
    facts: Option<map<string, Json>>,
    // flow control fields
    usedFallback: Option<bool>,
    finalAnswer: Option<string>,
    // metadata fields
    processingTime: Option<real>,
    timestamp: Option<string>,
    errors: Option<seq<string>>)

  /** The empty dict `{}`: an update that changes nothing. */
  const Empty := State(None, None, None, None, None, None, None, None, None, None,
                       None, None, None, None, None, None, None, None, None)

  /** A fresh request: only the three input keys are present. */
  function Initial(query: string, sessionId: string, userId: string): (s: State)
    ensures s.query == Some(query) && s.sessionId == Some(sessionId) && s.userId == Some(userId)
    ensures s.(query := None, sessionId := None, userId := None) == Empty
  {
    Empty.(query := Some(query), sessionId := Some(sessionId), userId := Some(userId))
  }

  function Pick<T>(current: Option<T>, update: Option<T>): Option<T> {
    if update.Some? then update else current
  }

  /** The engine's merge of a node's partial update: a key the update carries overwrites. */
  function Merge(s: State, u: State): State {
    State(
      Pick(s.query, u.query), Pick(s.sessionId, u.sessionId), Pick(s.userId, u.userId),
      Pick(s.retrievedDocs, u.retrievedDocs), Pick(s.retrievalMetadata, u.retrievalMetadata),
      Pick(s.generatedAnswer, u.generatedAnswer), Pick(s.generationMetadata, u.generationMetadata),
      Pick(s.judgeScore, u.judgeScore), Pick(s.judgeEvaluation, u.judgeEvaluation),
      Pick(s.qualityPassed, u.qualityPassed),
      Pick(s.cacheHit, u.cacheHit), Pick(s.cachedAnswer, u.cachedAnswer),
      Pick(s.conversationHistory, u.conversationHistory), Pick(s.facts, u.facts),
      Pick(s.usedFallback, u.usedFallback), Pick(s.finalAnswer, u.finalAnswer),
      Pick(s.processingTime, u.processingTime), Pick(s.timestamp, u.timestamp),
      Pick(s.errors, u.errors))
  }

  /** `state.get("errors", [])`. */
  function Errors(s: State): seq<string> {
    s.errors.GetOr([])
  }

  /** `state.get("cache_hit")` taken as a truth value. */
  predicate CacheHit(s: State) {
    s.cacheHit == Some(true)
  }

  /** Merging `{}` changes nothing, and merging is associative. */
  lemma MergeLaws(s: State, u: State, v: State)
    ensures Merge(s, Empty) == s
    ensures Merge(Empty, u) == u
    ensures Merge(Merge(s, u), u) == Merge(s, u)
    ensures Merge(Merge(s, u), v) == Merge(s, Merge(u, v))
  {
  }

  /** The keys an update carries win; all other keys keep their value. */
  lemma MergeFinalAnswer(s: State, u: State)
    ensures u.finalAnswer.Some? ==> Merge(s, u).finalAnswer == u.finalAnswer
    ensures u.finalAnswer.None? ==> Merge(s, u).finalAnswer == s.finalAnswer
    ensures u.errors.Some? ==> Merge(s, u).errors == u.errors
    ensures u.errors.None? ==> Merge(s, u).errors == s.errors
  {
  }
}

/** The settings the core reads, with the defaults of the application's configuration. */
module Config {
  datatype Settings = Settings(
    judgeQualityThreshold: real,
    judgeEnableFallback: bool,
    shortTermMemoryMaxMessages: nat)

  const Defaults := Settings(0.7, true, 20)
}
