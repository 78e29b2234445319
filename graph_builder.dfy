/**
 * `RAGGraphBuilder` (app/graph/graph_builder.py): the node wrapper, the
 * routing decision after the judge, the compiled graph's edges, and
 * `invoke`, which builds the graph on first use, runs it, and turns an
 * engine failure into a fallback copy of the input state.
 *
 * The graph engine itself is modelled by `Invoke`'s loop: it runs the node at
 * hand, merges its update into the state and follows the outgoing edge until
 * END. An engine failure is a parameter: the number of nodes that ran before
 * it struck, and its text.
 */
module Graph {
  import opened Common
  import opened RagState
  import opened Config
  import opened Prompts
  import GroqLlm
  import ShortTerm
  import FsCache
  import Nodes

  datatype NodeName = CacheCheck | Retrieval | LlmGeneration | Judge | MemoryUpdate | Fallback

  /** Where an edge leads: a node, or END. */
  datatype Target = To(node: NodeName) | End

  /** What calling a node produced: an update dict, some other value, or an exception. */
  datatype NodeOutcome = Returned(update: State) | NotADict | Raised(message: string)

  /** `_create_node_wrapper`: the node's dict, or `{}` for anything else and for an exception. */
  function Wrap(outcome: NodeOutcome): (u: State)
    ensures outcome.Returned? ==> u == outcome.update
    ensures !outcome.Returned? ==> u == Empty
    ensures forall s: State :: !outcome.Returned? ==> Merge(s, u) == s
  {
    MergeLaws(Empty, Empty, Empty);
    match outcome
    case Returned(u) => u
    case _ => Empty
  }

  /** `_route_after_judge`: on to memory when the answer passed, else to the fallback if it is enabled. */
  function RouteAfterJudge(s: State, settings: Settings): (n: NodeName)
    ensures n == MemoryUpdate || n == Fallback
    ensures n == Fallback <==> s.qualityPassed != Some(true) && settings.judgeEnableFallback
  {
    if s.qualityPassed == Some(true) then MemoryUpdate
    else if settings.judgeEnableFallback then Fallback
    else MemoryUpdate
  }

  /** The compiled graph: entry, unconditional edges, the node with the conditional edge, and the node leading to END. */
  datatype CompiledGraph = CompiledGraph(entry: NodeName, edges: map<NodeName, NodeName>, branch: NodeName, finish: NodeName)

  /** What `build` compiles. */
  const Pipeline := CompiledGraph(
    CacheCheck,
    map[CacheCheck := Retrieval, Retrieval := LlmGeneration, LlmGeneration := Judge, Fallback := MemoryUpdate],
    Judge,
    MemoryUpdate)

  /** The edge leaving `n` in the compiled graph, given the state after `n` ran. */
  function Next(n: NodeName, s: State, settings: Settings): (t: Target)
    ensures n == Pipeline.finish <==> t == End
    ensures t == End <==> n == MemoryUpdate
    ensures n == Pipeline.branch ==> t == To(RouteAfterJudge(s, settings))
    ensures n in Pipeline.edges ==> t == To(Pipeline.edges[n])
  {
    match n
    case CacheCheck => To(Retrieval)
    case Retrieval => To(LlmGeneration)
    case LlmGeneration => To(Judge)
    case Judge => To(RouteAfterJudge(s, settings))
    case Fallback => To(MemoryUpdate)
    case MemoryUpdate => End
  }

  /** A measure every edge decreases, so every run reaches END. */
  function Rank(t: Target): nat {
    match t
    case End => 0
    case To(MemoryUpdate) => 1
    case To(Fallback) => 2
    case To(Judge) => 3
    case To(LlmGeneration) => 4
    case To(Retrieval) => 5
    case To(CacheCheck) => 6
  }

  lemma NextDecreasesRank(n: NodeName, s: State, settings: Settings)
    ensures Rank(Next(n, s, settings)) < Rank(To(n))
  {
  }

  /** The nodes a complete run visits, in order. */
  function Trace(viaFallback: bool): seq<NodeName> {
    [CacheCheck, Retrieval, LlmGeneration, Judge] + (if viaFallback then [Fallback] else []) + [MemoryUpdate]
  }

  /** A walk from the entry along the edges, where `states[i]` is the state the edge out of `nodes[i]` reads. */
  ghost predicate FollowsEdges(nodes: seq<NodeName>, states: seq<State>, settings: Settings) {
    |nodes| == |states| && (|nodes| > 0 ==> nodes[0] == Pipeline.entry)
    && forall i :: 0 <= i < |nodes| - 1 ==> Next(nodes[i], states[i], settings) == To(nodes[i + 1])
  }

  /**
   * A walk that ends at END is the main line, optionally through the
   * fallback: memory_update is visited exactly once and the fallback at most
   * once, and the fallback is taken exactly when the judge's state routes there.
   */
  lemma CompleteWalk(nodes: seq<NodeName>, states: seq<State>, settings: Settings)
    requires FollowsEdges(nodes, states, settings) && |nodes| > 0
    requires Next(nodes[|nodes| - 1], states[|nodes| - 1], settings) == End
    ensures |nodes| >= 5
    ensures nodes == Trace(RouteAfterJudge(states[3], settings) == Fallback)
  {
    forall i | 0 <= i < |nodes| - 1
      ensures nodes[i] != MemoryUpdate
    {
      assert Next(nodes[i], states[i], settings) == To(nodes[i + 1]);
    }
    assert nodes[|nodes| - 1] == MemoryUpdate;
    assert nodes[0] == CacheCheck;
    assert |nodes| > 1 && nodes[1] == Retrieval;
    assert |nodes| > 2 && nodes[2] == LlmGeneration;
    assert |nodes| > 3 && nodes[3] == Judge;
    assert |nodes| > 4 && nodes[4] == RouteAfterJudge(states[3], settings);
    if nodes[4] == Fallback {
      assert |nodes| > 5 && nodes[5] == MemoryUpdate;
    }
  }

  /** Memory is updated exactly once per complete run, last; the fallback is visited at most once. */
  lemma TraceVisits(viaFallback: bool)
    ensures forall i :: 0 <= i < |Trace(viaFallback)| ==>
      (Trace(viaFallback)[i] == MemoryUpdate <==> i == |Trace(viaFallback)| - 1)
    ensures Fallback in Trace(viaFallback) <==> viaFallback
    ensures forall i, j :: 0 <= i < j < |Trace(viaFallback)| ==>
      !(Trace(viaFallback)[i] == Fallback && Trace(viaFallback)[j] == Fallback)
  {
  }

  /** What the model needs to know about a node's update to follow the final answer. */
  ghost predicate UpdateFits(n: NodeName, u: State) {
    (n == MemoryUpdate ==> u.finalAnswer.None? && u.usedFallback.None? && u.qualityPassed.None?)
    && (n == Fallback ==> u.usedFallback == Some(true) && u.finalAnswer == Some(FallbackMessage))
  }

  /** A run so far: a walk along the edges where each state is the previous one merged with the node's update. */
  ghost predicate Run(start: State, nodes: seq<NodeName>, states: seq<State>, updates: seq<State>, settings: Settings) {
    FollowsEdges(nodes, states, settings) && |updates| == |nodes|
    && (|nodes| > 0 ==> states[0] == Merge(start, updates[0]))
    && (forall i :: 0 < i < |nodes| ==> states[i] == Merge(states[i - 1], updates[i]))
    && (forall i :: 0 <= i < |nodes| ==> UpdateFits(nodes[i], updates[i]))
  }

  /** Running the node the current edge leads to extends the run. */
  lemma RunExtend(start: State, nodes: seq<NodeName>, states: seq<State>, updates: seq<State>, settings: Settings,
                  n: NodeName, u: State)
    requires Run(start, nodes, states, updates, settings)
    requires |nodes| == 0 ==> n == Pipeline.entry
    requires |nodes| > 0 ==> Next(nodes[|nodes| - 1], states[|nodes| - 1], settings) == To(n)
    requires UpdateFits(n, u)
    ensures var previous := if |nodes| == 0 then start else states[|nodes| - 1];
      Run(start, nodes + [n], states + [Merge(previous, u)], updates + [u], settings)
  {
  }

  /** A run that reached END answers with the fallback message on the fallback path and with the judge's answer otherwise. */
  lemma RunComplete(start: State, nodes: seq<NodeName>, states: seq<State>, updates: seq<State>, settings: Settings)
    requires Run(start, nodes, states, updates, settings) && |nodes| > 0
    requires Next(nodes[|nodes| - 1], states[|nodes| - 1], settings) == End
    ensures |nodes| >= 5 && nodes == Trace(RouteAfterJudge(states[3], settings) == Fallback)
    ensures nodes[4] == Fallback ==>
      states[|states| - 1].finalAnswer == Some(FallbackMessage) && states[|states| - 1].usedFallback == Some(true)
    ensures nodes[4] == MemoryUpdate ==>
      states[|states| - 1].finalAnswer == states[3].finalAnswer && states[|states| - 1].qualityPassed == states[3].qualityPassed
  {
    CompleteWalk(nodes, states, settings);
    if nodes[4] == Fallback {
      assert states[4] == Merge(states[3], updates[4]) && UpdateFits(nodes[4], updates[4]);
      assert states[5] == Merge(states[4], updates[5]) && UpdateFits(nodes[5], updates[5]);
    } else {
      assert states[4] == Merge(states[3], updates[4]) && UpdateFits(nodes[4], updates[4]);
    }
  }

  const GraphErrorPrefix := "Graph error: "

  /** What `invoke` returns when the engine fails: the input state, marked as a fallback, with one more error. */
  function FallbackState(s: State, message: string): (r: State)
    ensures r.finalAnswer == Some(FallbackMessage) && r.usedFallback == Some(true)
    ensures r.errors == Some(Errors(s) + [GraphErrorPrefix + message])
    ensures r.(finalAnswer := s.finalAnswer, usedFallback := s.usedFallback, errors := s.errors) == s
  {
    s.(finalAnswer := Some(FallbackMessage), usedFallback := Some(true),
       errors := Some(Errors(s) + [GraphErrorPrefix + message]))
  }

  /**
   * On a cache hit the retrieval and generation nodes return `{}`, the judge
   * passes with the cached answer, the run goes straight to memory, and
   * memory writes the answer to the cache again unless the input state was
   * already marked as a fallback.
   */
  lemma CacheHitFlow(s0: State, answer: string, client: GroqLlm.Client, parse: GroqLlm.JsonParser, settings: Settings)
    requires answer != ""
    ensures var s1 := Merge(s0, Nodes.CacheUpdate(s0, Success(Some(answer))));
      var s4 := Merge(Merge(Merge(s1, Empty), Empty), Nodes.JudgeNode(s1, client, parse, settings.judgeQualityThreshold));
      CacheHit(s1) && s4.finalAnswer == Some(answer) && s4.judgeScore == Some(1.0)
      && RouteAfterJudge(s4, settings) == MemoryUpdate
      && (s0.usedFallback != Some(true) ==> Nodes.StoresAnswer(s4))
  {
    var s1 := Merge(s0, Nodes.CacheUpdate(s0, Success(Some(answer))));
    MergeLaws(s1, Empty, Empty);
    assert s1.cachedAnswer == Some(answer);
  }

  /** Per-invocation inputs: the clock, cache faults and an optional engine failure. */
  datatype EngineFailure = EngineFailure(afterNodes: nat, message: string)
  datatype Env = Env(now: nat, cacheReadFault: bool, cacheWriteFault: FsCache.WriteFault, failure: Option<EngineFailure>)

  /** What the nodes read of the cache and of short-term memory before the run. */
  datatype Stores = Stores(files: map<string, FsCache.CacheFile>, messages: seq<Message>, sessions: map<string, seq<Message>>)

  /** The state a node at position `i` of a run reads: the input state first, then the state the previous node left. */
  function Before(start: State, states: seq<State>, i: nat): State
    requires i <= |states|
  {
    if i == 0 then start else states[i - 1]
  }

  class RagGraphBuilder {
    const retriever: Nodes.Retriever
    const client: GroqLlm.Client
    const parse: GroqLlm.JsonParser
    const cache: FsCache.FilesystemCache
    const shortTermMemory: ShortTerm.ShortTermMemory
    const settings: Settings
    var graph: Option<CompiledGraph>

    ghost predicate Valid()
      reads this, shortTermMemory
    {
      shortTermMemory.Valid() && (graph.None? || graph == Some(Pipeline))
    }

    constructor (retriever: Nodes.Retriever, client: GroqLlm.Client, parse: GroqLlm.JsonParser,
                 cache: FsCache.FilesystemCache, shortTermMemory: ShortTerm.ShortTermMemory, settings: Settings)
      requires shortTermMemory.Valid()
      ensures Valid()
      ensures this.retriever == retriever && this.client == client && this.parse == parse
      ensures this.cache == cache && this.shortTermMemory == shortTermMemory && this.settings == settings
      ensures graph.None?
    {
      this.retriever := retriever;
      this.client := client;
      this.parse := parse;
      this.cache := cache;
      this.shortTermMemory := shortTermMemory;
      this.settings := settings;
      graph := None;
    }

    /** The cache files and the short-term buffers, as values. */
    ghost function Snapshot(): Stores
      reads cache, shortTermMemory
    {
      Stores(cache.files, shortTermMemory.messages, shortTermMemory.sessions)
    }

    /**
     * The update node `n` returns on state `s`, reading the stores as `w`
     * holds them (every node but memory_update leaves them alone, and it runs last).
     */
    function Step(n: NodeName, s: State, env: Env, w: Stores): State {
      match n
      case CacheCheck =>
        Nodes.CacheUpdate(s, Success(if env.cacheReadFault then None
                                     else FsCache.Find(w.files, FsCache.Key(cache.md5, Nodes.Query(s), Nodes.SessionId(s), Nodes.UserId(s)))))
      case Retrieval => Nodes.RetrievalUpdate(s, retriever)
      case LlmGeneration => Nodes.GenerationUpdate(s, client)
      case Judge => Nodes.JudgeNode(s, client, parse, settings.judgeQualityThreshold)
      case Fallback => Nodes.FallbackUpdate(s)
      case MemoryUpdate => Nodes.MemoryUpdate(s, w.messages, w.sessions, env.now, shortTermMemory.maxMessages)
    }

    /** The stores after memory_update ran on state `s`. */
    function AfterMemory(s: State, env: Env, w: Stores): Stores {
      Stores(Nodes.FilesAfterMemory(s, cache.md5, w.files, env.now, env.cacheWriteFault),
             Nodes.MessagesAfterMemory(s, w.messages, env.now, shortTermMemory.maxMessages),
             Nodes.SessionsAfterMemory(s, w.sessions, env.now, shortTermMemory.maxMessages))
    }

    /** Every node function's update fits what the run needs to follow the final answer. */
    lemma StepFits(n: NodeName, s: State, env: Env, w: Stores)
      ensures UpdateFits(n, Step(n, s, env, w))
    {
    }

    /**
     * What `invoke` returns once `ran` nodes have run, the run is at `at` and
     * the state is `s`: END returns `s`; an engine failure at this point
     * returns the fallback copy of the input; otherwise the node runs, its
     * update is merged and the run follows the edge out of it.
     */
    function Continue(at: Target, s: State, ran: nat, input: State, env: Env, w: Stores): State
      decreases Rank(at)
    {
      match at
      case End => s
      case To(n) =>
        if env.failure.Some? && env.failure.value.afterNodes == ran then FallbackState(input, env.failure.value.message)
        else
          var next := Merge(s, Step(n, s, env, w));
          NextDecreasesRank(n, next, settings);
          Continue(Next(n, next, settings), next, ran + 1, input, env, w)
    }

    /** What `invoke` returns for `input`: the run from the entry. */
    function Invocation(input: State, env: Env, w: Stores): State {
      Continue(To(Pipeline.entry), input, 0, input, env, w)
    }

    /** A run in which every update is the one the node's function gives on the state before it. */
    ghost predicate Executes(start: State, nodes: seq<NodeName>, states: seq<State>, updates: seq<State>, env: Env, w: Stores) {
      Run(start, nodes, states, updates, settings)
      && forall i :: 0 <= i < |nodes| ==> updates[i] == Step(nodes[i], Before(start, states, i), env, w)
    }

    /** Running the node the current edge leads to, with the update its function gives, extends the run. */
    lemma ExecutesExtend(start: State, nodes: seq<NodeName>, states: seq<State>, updates: seq<State>, env: Env, w: Stores,
                         n: NodeName, s: State)
      requires Executes(start, nodes, states, updates, env, w)
      requires |nodes| == 0 ==> n == Pipeline.entry && s == start
      requires |nodes| > 0 ==> Next(nodes[|nodes| - 1], states[|nodes| - 1], settings) == To(n) && s == states[|nodes| - 1]
      ensures var u := Step(n, s, env, w);
        Executes(start, nodes + [n], states + [Merge(s, u)], updates + [u], env, w)
    {
      var u := Step(n, s, env, w);
      StepFits(n, s, env, w);
      RunExtend(start, nodes, states, updates, settings, n, u);
      var states' := states + [Merge(s, u)];
      forall i | 0 <= i < |nodes| + 1
        ensures (updates + [u])[i] == Step((nodes + [n])[i], Before(start, states', i), env, w)
      {
        if i < |nodes| {
          assert Before(start, states', i) == Before(start, states, i);
        }
      }
    }

    /** One step of `invoke`'s run: with no engine failure at this point, the node runs and the run goes on from its edge. */
    lemma ContinueStep(n: NodeName, s: State, ran: nat, input: State, env: Env, w: Stores)
      requires !(env.failure.Some? && env.failure.value.afterNodes == ran)
      ensures var next := Merge(s, Step(n, s, env, w));
        Continue(To(n), s, ran, input, env, w) == Continue(Next(n, next, settings), next, ran + 1, input, env, w)
    {
    }

    /** `build`: compiles the pipeline and keeps it. */
    method Build()
      modifies this`graph
      ensures graph == Some(Pipeline)
    {
      graph := Some(Pipeline);
    }

    /** A node that reads only the state and its collaborators' replies. */
    method StatelessNode(n: NodeName, s: State) returns (u: State)
      requires n != CacheCheck && n != MemoryUpdate
      ensures n == Retrieval ==> u == Nodes.RetrievalUpdate(s, retriever)
      ensures n == LlmGeneration ==> u == Nodes.GenerationUpdate(s, client)
      ensures n == Judge ==> u == Nodes.JudgeNode(s, client, parse, settings.judgeQualityThreshold)
      ensures n == Fallback ==> u == Nodes.FallbackUpdate(s)
    {
      if n == Retrieval {
        u := Nodes.RetrievalNode(s, retriever);
      } else if n == LlmGeneration {
        u := Nodes.LlmNode(s, client);
      } else if n == Judge {
        u := Nodes.JudgeNode(s, client, parse, settings.judgeQualityThreshold);
      } else {
        u := Nodes.FallbackUpdate(s);
      }
    }

    /** One node, called through its wrapper. */
    method RunNode(n: NodeName, s: State, env: Env) returns (u: State)
      requires Valid()
      modifies cache`files, shortTermMemory`messages, shortTermMemory`sessions
      ensures Valid()
      ensures u == Step(n, s, env, old(Snapshot()))
      ensures UpdateFits(n, u)
      ensures n != MemoryUpdate ==> Snapshot() == old(Snapshot())
      ensures n == MemoryUpdate ==> Snapshot() == AfterMemory(s, env, old(Snapshot()))
    {
      ghost var w := Snapshot();
      var update;
      if n == CacheCheck {
        update := Nodes.CacheNode(s, cache, env.cacheReadFault);
      } else if n == MemoryUpdate {
        update := Nodes.MemoryNode(s, shortTermMemory, cache, env.now, env.cacheWriteFault);
        assert Snapshot() == AfterMemory(s, env, w);
      } else {
        update := StatelessNode(n, s);
      }
      assert update == Step(n, s, env, w);
      u := Wrap(Returned(update));
      StepFits(n, s, env, w);
    }

    /**
     * Where a run of `invoke` on `input` stands: `nodes` ran with the updates
     * their functions give, `s` is the current state and `at` the edge to
     * follow, and what is left to run gives `Invocation` of the input. The
     * stores are untouched until memory_update ran on `pre`, the state before
     * the last node.
     */
    ghost predicate Progress(input: State, env: Env, w: Stores, at: Target, s: State, ran: nat,
                             nodes: seq<NodeName>, states: seq<State>, updates: seq<State>, pre: State)
      reads cache, shortTermMemory
    {
      Executes(input, nodes, states, updates, env, w) && ran == |nodes|
      && (|nodes| == 0 ==> at == To(Pipeline.entry) && s == input)
      && (|nodes| > 0 ==>
            at == Next(nodes[|nodes| - 1], states[|nodes| - 1], settings) && s == states[|nodes| - 1]
            && pre == Before(input, states, |nodes| - 1))
      && (env.failure.Some? ==> |nodes| <= env.failure.value.afterNodes)
      && Continue(at, s, ran, input, env, w) == Invocation(input, env, w)
      && (at.To? ==> Snapshot() == w)
      && (at.End? ==> Snapshot() == AfterMemory(pre, env, w))
    }

    /**
     * What `invoke` promises about a run on `input` that returned `r`, with
     * the stores `w` before it and `after` after it.
     */
    ghost predicate Outcome(input: State, env: Env, w: Stores, after: Stores, r: State, completed: bool,
                            nodes: seq<NodeName>, states: seq<State>, updates: seq<State>) {
      r == Invocation(input, env, w)
      && Executes(input, nodes, states, updates, env, w)
      && (env.failure.None? ==> completed)
      && (!completed ==>
            env.failure.Some? && |nodes| == env.failure.value.afterNodes
            && r == FallbackState(input, env.failure.value.message)
            && after == w)
      && (completed ==>
            (env.failure.None? || |nodes| <= env.failure.value.afterNodes)
            && |nodes| >= 5 && nodes == Trace(RouteAfterJudge(states[3], settings) == Fallback)
            && r == states[|states| - 1]
            && (nodes[4] == Fallback ==> r.finalAnswer == Some(FallbackMessage) && r.usedFallback == Some(true))
            && (nodes[4] == MemoryUpdate ==> r.finalAnswer == states[3].finalAnswer && r.qualityPassed == states[3].qualityPassed)
            && after == AfterMemory(states[|states| - 2], env, w))
    }

    /** A run that reached END: its result, its path, its answer, and memory_update's writes. */
    lemma Finished(input: State, env: Env, w: Stores, s: State, ran: nat,
                   nodes: seq<NodeName>, states: seq<State>, updates: seq<State>, pre: State)
      requires Progress(input, env, w, End, s, ran, nodes, states, updates, pre)
      ensures Outcome(input, env, w, Snapshot(), s, true, nodes, states, updates)
    {
      assert |nodes| > 0;
      RunComplete(input, nodes, states, updates, settings);
      assert pre == states[|states| - 2];
    }

    /** A run the engine's failure stops before the node at hand: the result is the fallback copy of the input. */
    lemma Interrupted(input: State, env: Env, w: Stores, at: Target, s: State, ran: nat,
                      nodes: seq<NodeName>, states: seq<State>, updates: seq<State>, pre: State)
      requires Progress(input, env, w, at, s, ran, nodes, states, updates, pre) && at.To?
      requires env.failure.Some? && env.failure.value.afterNodes == ran
      ensures Outcome(input, env, w, Snapshot(), FallbackState(input, env.failure.value.message), false, nodes, states, updates)
    {
    }

    /** One turn of the engine's loop: the node at hand runs through its wrapper and its update is merged. */
    method Advance(input: State, env: Env, ghost w: Stores, at: Target, s: State, ran: nat,
                   ghost nodes: seq<NodeName>, ghost states: seq<State>, ghost updates: seq<State>, ghost pre: State)
      returns (at': Target, s': State, ran': nat,
               ghost nodes': seq<NodeName>, ghost states': seq<State>, ghost updates': seq<State>, ghost pre': State)
      requires Valid() && at.To?
      requires Progress(input, env, w, at, s, ran, nodes, states, updates, pre)
      requires !(env.failure.Some? && env.failure.value.afterNodes == ran)
      modifies cache`files, shortTermMemory`messages, shortTermMemory`sessions
      ensures Valid()
      ensures Progress(input, env, w, at', s', ran', nodes', states', updates', pre')
      ensures Rank(at') < Rank(at)
    {
      var u := RunNode(at.node, s, env);
      ExecutesExtend(input, nodes, states, updates, env, w, at.node, s);
      ContinueStep(at.node, s, ran, input, env, w);
      pre' := s;
      s' := Merge(s, u);
      NextDecreasesRank(at.node, s', settings);
      nodes' := nodes + [at.node];
      states' := states + [s'];
      updates' := updates + [u];
      ran' := ran + 1;
      at' := Next(at.node, s', settings);
    }

    /**
     * `invoke`: builds the graph if it is not built yet, then runs it from the
     * entry until END. The result is `Invocation` of the input: each node's
     * update is its node function of the state before it, merged in, along
     * the edges. A complete run visits the main line and, when the judge
     * routes there, the fallback; its final answer is the fallback message on
     * that path and the judge's final answer otherwise, and memory_update's
     * writes, made from the state the judge or the fallback left, are the
     * only change to the stores. When the engine fails the result is
     * `FallbackState` of the input, whatever the nodes that ran before the
     * failure changed, and the stores are untouched.
     */
    method Invoke(state: State, env: Env)
      returns (r: State, ghost completed: bool, ghost nodes: seq<NodeName>, ghost states: seq<State>, ghost updates: seq<State>)
      requires Valid()
      modifies this`graph, cache`files, shortTermMemory`messages, shortTermMemory`sessions
      ensures Valid()
      ensures graph == Some(Pipeline)
      ensures Outcome(state, env, old(Snapshot()), Snapshot(), r, completed, nodes, states, updates)
    {
      if graph.None? {
        Build();
      }
      r, completed, nodes, states, updates := Execute(state, env);
    }

    /** The compiled graph's run: from the entry, node after node along the edges, until END or the engine's failure. */
    method Execute(state: State, env: Env)
      returns (r: State, ghost completed: bool, ghost nodes: seq<NodeName>, ghost states: seq<State>, ghost updates: seq<State>)
      requires Valid() && graph == Some(Pipeline)
      modifies cache`files, shortTermMemory`messages, shortTermMemory`sessions
      ensures Valid()
      ensures Outcome(state, env, old(Snapshot()), Snapshot(), r, completed, nodes, states, updates)
    {
      ghost var w := Snapshot();
      var g := graph.value;
      var s := state;
      var at := To(g.entry);
      nodes := [];
      states := [];
      updates := [];
      var ran := 0;
      ghost var pre := state;
      while at.To?
        invariant Valid()
        invariant Progress(state, env, w, at, s, ran, nodes, states, updates, pre)
        decreases Rank(at)
      {
        if env.failure.Some? && env.failure.value.afterNodes == ran {
          Interrupted(state, env, w, at, s, ran, nodes, states, updates, pre);
          return FallbackState(state, env.failure.value.message), false, nodes, states, updates;
        }
        at, s, ran, nodes, states, updates, pre := Advance(state, env, w, at, s, ran, nodes, states, updates, pre);
      }
      r := s;
      completed := true;
      Finished(state, env, w, s, ran, nodes, states, updates, pre);
    }
  }
}
