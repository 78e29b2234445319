/**
 * `CostAwareRouter` (app/routing/model_router.py): picks a first model from
 * the query's classification and the optimisation goal, builds the chain of
 * models to try, and tries them in order until one answer is a valid refusal
 * or is judged good enough. Timing is not modelled.
 */
module ModelRouter {
  import opened Common
  import opened Text
  import opened RagState
  import opened QueryClassifier
  import opened MultiProvider
  import GroqLlm

  const RefusalPhrase := "I cannot find this information in Adarsh's portfolio documents"

  const SystemInstruction :=
    "You are a specialized assistant for Adarsh Kesharwani's portfolio.\n"
    + "STRICT RULES:\n"
    + "1. Use ONLY the provided Context below to answer the question.\n"
    + "2. If the answer is NOT in the Context, you MUST say: \"I cannot find this information in Adarsh's portfolio documents.\"\n"
    + "3. Do NOT use outside knowledge. Do NOT answer general questions (like \"what is the capital of France\").\n"
    + "4. Keep the answer professional and relevant to the provided documents.\n"

  /**
   * The layout of `_generate_with_model`'s prompt: the instruction, at most
   * 3000 characters of context, then the question.
   */
  function Prompt(instruction: string, query: string, context: string): (p: string)
    ensures |p| == |instruction| + 11 + (if |context| < 3000 then |context| else 3000) + 12 + |query| + 9
    ensures p[..|instruction|] == instruction
    ensures p[|p| - 9 - |query|..] == query + "\n\nAnswer:"
    ensures |context| <= 3000 ==> p[|instruction| + 11..|instruction| + 11 + |context|] == context
  {
    instruction + "\n\nContext:\n" + Take(context, 3000) + "\n\nQuestion: " + query + "\n\nAnswer:"
  }

  /** `_generate_with_model`'s prompt, with the router's fixed instruction. */
  function RouterPrompt(query: string, context: string): string {
    Prompt(SystemInstruction, query, context)
  }

  // ---------------------------------------------------------------------------
  // model selection

  /** `_select_initial_model`. */
  function SelectInitialModel(c: Classification, optimizeFor: string): (m: string)
    ensures optimizeFor !in {"cost", "speed", "quality"} ==> m == c.preferredModel
    ensures optimizeFor in {"cost", "speed", "quality"} ==> m in {Phi3Mini, Llama3, Gpt4oMini}
  {
    if optimizeFor == "cost" then Phi3Mini
    else if optimizeFor == "speed" then (if c.complexityScore < 0.3 then Phi3Mini else Llama3)
    else if optimizeFor == "quality" then Gpt4oMini
    else c.preferredModel
  }

  /**
   * The model each goal picks, for any thresholds: "cost" the simple tier's
   * phi3_mini, "quality" the complex tier's gpt4o_mini, and "speed" phi3_mini
   * exactly when the complexity is below 0.3 and llama3_8b otherwise.
   */
  lemma SelectInitialModelByGoal(c: Classification, optimizeFor: string)
    ensures optimizeFor == "cost" ==> SelectInitialModel(c, optimizeFor) == Phi3Mini
    ensures optimizeFor == "quality" ==> SelectInitialModel(c, optimizeFor) == Gpt4oMini
    ensures optimizeFor == "speed" ==>
      (SelectInitialModel(c, optimizeFor) == Phi3Mini <==> c.complexityScore < 0.3)
      && (SelectInitialModel(c, optimizeFor) == Llama3 <==> c.complexityScore >= 0.3)
    ensures optimizeFor in {"cost", "speed"} ==> SelectInitialModel(c, optimizeFor) != Gpt4oMini
  {
    assert Phi3Mini != Llama3 && Phi3Mini != Gpt4oMini && Llama3 != Gpt4oMini by {
      assert Phi3Mini[0] == 'p' && Llama3[0] == 'l' && Gpt4oMini[0] == 'g';
    }
  }

  /** Whatever the goal, the first model is one of the three tier models. */
  lemma InitialModelIsTierModel(query: string, thresholds: map<string, real>, optimizeFor: string)
    ensures SelectInitialModel(Classify(query, thresholds), optimizeFor) in {Phi3Mini, Llama3, Gpt4oMini}
  {
    var c := Classify(query, thresholds);
    assert c.preferredModel in {Phi3Mini, Llama3, Gpt4oMini} by {
      match c.difficulty
      case Simple =>
      case Medium =>
      case Complex =>
    }
  }

  /**
   * With the default thresholds the "speed" goal and the balanced default
   * agree on the cheapest model: both pick phi3_mini exactly when the
   * complexity is below 0.3.
   */
  lemma SpeedAndBalancedAgreeOnCheapest(query: string, optimizeFor: string)
    requires optimizeFor !in {"cost", "speed", "quality"}
    ensures SelectInitialModel(Classify(query, map[]), "speed") == Phi3Mini <==> ComplexityScore(query) < 0.3
    ensures SelectInitialModel(Classify(query, map[]), optimizeFor) == Phi3Mini <==> ComplexityScore(query) < 0.3
  {
    var c := Classify(query, map[]);
    assert Phi3Mini != Llama3 && Phi3Mini != Gpt4oMini by {
      assert Phi3Mini[0] == 'p' && Llama3[0] == 'l' && Gpt4oMini[0] == 'g';
    }
  }

  // ---------------------------------------------------------------------------
  // the attempt chain

  /** Appends the entries of `xs` in order, skipping those already present. */
  function AppendNew(chain: seq<string>, xs: seq<string>): seq<string> {
    if |xs| == 0 then chain
    else
      var c := AppendNew(chain, xs[..|xs| - 1]);
      if xs[|xs| - 1] in c then c else c + [xs[|xs| - 1]]
  }

  /** `_build_attempt_chain`'s result. */
  function AttemptChain(initial: string, optimizeFor: string, fallbackChain: seq<string>): seq<string> {
    if optimizeFor == "quality" then [initial] else AppendNew([initial], fallbackChain)
  }

  ghost predicate NoDuplicates(s: seq<string>) {
    forall i, j :: 0 <= i < j < |s| ==> s[i] != s[j]
  }

  lemma {:induction false} AppendNewCorrect(chain: seq<string>, xs: seq<string>)
    requires NoDuplicates(chain)
    ensures var r := AppendNew(chain, xs);
      NoDuplicates(r) && |r| >= |chain| && r[..|chain|] == chain
      && (forall x :: x in r <==> x in chain || x in xs)
  {
    if |xs| > 0 {
      var init := xs[..|xs| - 1];
      AppendNewCorrect(chain, init);
      var c := AppendNew(chain, init);
      assert forall x :: x in xs <==> x in init || x == xs[|xs| - 1];
      if xs[|xs| - 1] !in c {
        assert (c + [xs[|xs| - 1]])[..|chain|] == c[..|chain|];
      }
    }
  }

  /** The entries of `xs` that are not in `seen`, each at its first occurrence, in the order of `xs`. */
  function FirstOccurrences(seen: seq<string>, xs: seq<string>): seq<string> {
    if |xs| == 0 then []
    else
      var init := xs[..|xs| - 1];
      var x := xs[|xs| - 1];
      FirstOccurrences(seen, init) + (if x in seen || x in init then [] else [x])
  }

  /** The new entries are exactly the entries of `xs` not in `seen`. */
  lemma {:induction false} FirstOccurrencesMembers(seen: seq<string>, xs: seq<string>)
    ensures forall y :: y in FirstOccurrences(seen, xs) <==> y in xs && y !in seen
  {
    if |xs| > 0 {
      var init := xs[..|xs| - 1];
      FirstOccurrencesMembers(seen, init);
      assert xs == init + [xs[|xs| - 1]];
    }
  }

  /** Appending the new entries keeps the chain and adds each new model once, in the order it first appears. */
  lemma {:induction false} AppendNewOrder(chain: seq<string>, xs: seq<string>)
    ensures AppendNew(chain, xs) == chain + FirstOccurrences(chain, xs)
  {
    if |xs| > 0 {
      var init := xs[..|xs| - 1];
      AppendNewOrder(chain, init);
      FirstOccurrencesMembers(chain, init);
    }
  }

  /** The chain starts with the initial model, has no repeats, and holds exactly it and the fallback models (only it for "quality"). */
  lemma AttemptChainCorrect(initial: string, optimizeFor: string, fallbackChain: seq<string>)
    ensures var chain := AttemptChain(initial, optimizeFor, fallbackChain);
      |chain| >= 1 && chain[0] == initial && NoDuplicates(chain)
      && (optimizeFor == "quality" ==> chain == [initial])
      && (optimizeFor != "quality" ==> forall m :: m in chain <==> m == initial || m in fallbackChain)
      && (optimizeFor != "quality" ==> chain[1..] == FirstOccurrences([initial], fallbackChain))
  {
    if optimizeFor != "quality" {
      AppendNewCorrect([initial], fallbackChain);
      AppendNewOrder([initial], fallbackChain);
    }
  }

  /** `_build_attempt_chain`: a loop that appends each fallback model not yet in the chain. */
  method BuildAttemptChain(initial: string, optimizeFor: string, fallbackChain: seq<string>) returns (chain: seq<string>)
    ensures chain == AttemptChain(initial, optimizeFor, fallbackChain)
  {
    if optimizeFor == "quality" {
      return [initial];
    }
    chain := [initial];
    var i := 0;
    while i < |fallbackChain|
      invariant 0 <= i <= |fallbackChain|
      invariant chain == AppendNew([initial], fallbackChain[..i])
    {
      assert fallbackChain[..i + 1][..i] == fallbackChain[..i];
      if fallbackChain[i] !in chain {
        chain := chain + [fallbackChain[i]];
      }
      i := i + 1;
    }
    assert fallbackChain[..i] == fallbackChain;
  }

  // ---------------------------------------------------------------------------
  // one attempt

  /** What trying one model yields: an exception, a refusal, or a judged answer. */
  datatype Attempt = Failed | Refusal(gen: Generation) | Judged(gen: Generation, score: real)

  /** `float(evaluation.get("score", 0.5))`; None when that raises. */
  function JudgeScore(evaluation: Json): (r: Option<real>)
    ensures !evaluation.JObj? ==> r.None?
    ensures evaluation.JObj? && "score" !in evaluation.fields ==> r == Some(0.5)
    ensures evaluation.JObj? && "score" in evaluation.fields ==> r == FloatOf(evaluation.fields["score"])
  {
    match GetField(evaluation, "score", JNum(0.5))
    case None => None
    case Some(v) => FloatOf(v)
  }

  /** One iteration of the attempt loop, up to the acceptance test. */
  function TryModel(providers: map<string, Provider>, groq: GroqCall, ollama: OllamaCall,
                    judgeClient: GroqLlm.Client, parse: GroqLlm.JsonParser,
                    model: string, query: string, context: string): (a: Attempt)
    ensures model !in providers ==> a == Failed
    ensures a.Refusal? ==> Contains(a.gen.answer, RefusalPhrase)
    ensures a.Judged? ==> !Contains(a.gen.answer, RefusalPhrase)
  {
    match GenerateResult(providers, model, RouterPrompt(query, context), groq, ollama)
    case Failure(_) => Failed
    case Success(g) =>
      if Contains(g.answer, RefusalPhrase) then Refusal(g)
      else
        var evaluation := GroqLlm.JudgeAnswer(judgeClient, parse, query, g.answer, [Doc(context, map[], None)]);
        match JudgeScore(evaluation)
        case None => Failed
        case Some(s) => Judged(g, s)
  }

  predicate Accepts(a: Attempt, minQualityScore: real) {
    a.Refusal? || (a.Judged? && a.score >= minQualityScore)
  }

  /** The index of the first accepted attempt at or after `from`. */
  function FirstAccepted(attempts: seq<Attempt>, minQualityScore: real, from: nat): (r: Option<nat>)
    decreases |attempts| - from
  {
    if from >= |attempts| then None
    else if Accepts(attempts[from], minQualityScore) then Some(from)
    else FirstAccepted(attempts, minQualityScore, from + 1)
  }

  lemma {:induction false} FirstAcceptedCorrect(attempts: seq<Attempt>, minQualityScore: real, from: nat)
    ensures var r := FirstAccepted(attempts, minQualityScore, from);
      (r.None? <==> forall i :: from <= i < |attempts| ==> !Accepts(attempts[i], minQualityScore))
      && (r.Some? ==>
            (from <= r.value < |attempts| && Accepts(attempts[r.value], minQualityScore)
             && (forall i :: from <= i < r.value ==> !Accepts(attempts[i], minQualityScore))))
    decreases |attempts| - from
  {
    if from < |attempts| && !Accepts(attempts[from], minQualityScore) {
      FirstAcceptedCorrect(attempts, minQualityScore, from + 1);
    }
  }

  // ---------------------------------------------------------------------------
  // the result

  datatype RoutingMetadata =
    | ValidRefusalMetadata(optimizeFor: string)
    | AcceptedMetadata(optimizeFor: string, inputTokens: nat, outputTokens: nat)

  /** `RoutingResult` without its latency. */
  datatype RoutingResult = RoutingResult(
    answer: string, modelUsed: string, judgeScore: real, classification: Classification,
    costUsd: real, attempts: nat, fallbackUsed: bool, metadata: RoutingMetadata)

  /** "All models failed or scored below {min_quality_score}". */
  datatype RouteError = AllModelsFailed(minQualityScore: real)

  /** The result returned for an accepted attempt at 1-based position `attempt`. */
  function Accepted(a: Attempt, model: string, attempt: nat, c: Classification, optimizeFor: string): RoutingResult
    requires a.Refusal? || a.Judged?
  {
    match a
    case Refusal(g) =>
      RoutingResult(g.answer, model, 1.0, c, g.costUsd, attempt, attempt > 1, ValidRefusalMetadata(optimizeFor))
    case Judged(g, s) =>
      RoutingResult(g.answer, model, s, c, g.costUsd, attempt, attempt > 1,
                    AcceptedMetadata(optimizeFor, g.inputTokens, g.outputTokens))
  }

  /** The attempts the chain produces, in order. */
  function TryAll(providers: map<string, Provider>, groq: GroqCall, ollama: OllamaCall,
                  judgeClient: GroqLlm.Client, parse: GroqLlm.JsonParser,
                  chain: seq<string>, query: string, context: string): (outs: seq<Attempt>)
    ensures |outs| == |chain|
    ensures forall i :: 0 <= i < |chain| ==>
      (outs[i] == TryModel(providers, groq, ollama, judgeClient, parse, chain[i], query, context))
  {
    seq(|chain|, i requires 0 <= i < |chain| =>
      TryModel(providers, groq, ollama, judgeClient, parse, chain[i], query, context))
  }

  /** `route_and_generate`'s outcome once each model's attempt is known. */
  function RouteOutcome(outs: seq<Attempt>, chain: seq<string>, minQualityScore: real,
                        c: Classification, optimizeFor: string): (r: Result<RoutingResult, RouteError>)
    requires |outs| == |chain|
    ensures r.Failure? ==> r.error == AllModelsFailed(minQualityScore)
    ensures r.Success? ==> 1 <= r.value.attempts <= |chain| && r.value.modelUsed == chain[r.value.attempts - 1]
  {
    FirstAcceptedCorrect(outs, minQualityScore, 0);
    match FirstAccepted(outs, minQualityScore, 0)
    case None => Failure(AllModelsFailed(minQualityScore))
    case Some(i) => Success(Accepted(outs[i], chain[i], i + 1, c, optimizeFor))
  }

  /**
   * The first accepted model wins: `attempts` is its 1-based position,
   * fallback_used says whether it was not the first, a refusal reports score
   * 1.0 and every other accepted answer met the quality bar; earlier models
   * all failed or fell short. With no accepted model the call raises.
   */
  lemma RouteOutcomeCorrect(outs: seq<Attempt>, chain: seq<string>, minQualityScore: real,
                            c: Classification, optimizeFor: string)
    requires |outs| == |chain|
    ensures var r := RouteOutcome(outs, chain, minQualityScore, c, optimizeFor);
      (r.Failure? <==> forall i :: 0 <= i < |chain| ==> !Accepts(outs[i], minQualityScore))
      && (r.Failure? ==> r.error == AllModelsFailed(minQualityScore))
      && (r.Success? ==>
            1 <= r.value.attempts <= |chain|
            && r.value.modelUsed == chain[r.value.attempts - 1]
            && r.value.fallbackUsed == (r.value.attempts > 1)
            && Accepts(outs[r.value.attempts - 1], minQualityScore)
            && (forall i :: 0 <= i < r.value.attempts - 1 ==> !Accepts(outs[i], minQualityScore))
            && (outs[r.value.attempts - 1].Refusal? <==> r.value.metadata.ValidRefusalMetadata?)
            && (r.value.metadata.ValidRefusalMetadata? ==> r.value.judgeScore == 1.0)
            && (r.value.metadata.AcceptedMetadata? ==> r.value.judgeScore >= minQualityScore))
  {
    FirstAcceptedCorrect(outs, minQualityScore, 0);
  }

  /** The loop's early return: the first accepted attempt decides the outcome. */
  lemma OutcomeAt(outs: seq<Attempt>, chain: seq<string>, minQualityScore: real, c: Classification, optimizeFor: string, i: nat)
    requires |outs| == |chain| && i < |chain|
    requires FirstAccepted(outs, minQualityScore, 0) == FirstAccepted(outs, minQualityScore, i)
    requires Accepts(outs[i], minQualityScore)
    ensures RouteOutcome(outs, chain, minQualityScore, c, optimizeFor) == Success(Accepted(outs[i], chain[i], i + 1, c, optimizeFor))
  {
  }

  /** The loop moving on: a rejected attempt does not change which attempt is first accepted. */
  lemma SkipRejected(outs: seq<Attempt>, minQualityScore: real, i: nat)
    requires i < |outs| && !Accepts(outs[i], minQualityScore)
    ensures FirstAccepted(outs, minQualityScore, i) == FirstAccepted(outs, minQualityScore, i + 1)
  {
  }

  /** The final raise: no attempt was accepted. */
  lemma OutcomeExhausted(outs: seq<Attempt>, chain: seq<string>, minQualityScore: real, c: Classification, optimizeFor: string)
    requires |outs| == |chain|
    requires FirstAccepted(outs, minQualityScore, 0) == FirstAccepted(outs, minQualityScore, |outs|)
    ensures RouteOutcome(outs, chain, minQualityScore, c, optimizeFor) == Failure(AllModelsFailed(minQualityScore))
  {
  }

  // ---------------------------------------------------------------------------
  // the router

  class CostAwareRouter {
    const thresholds: map<string, real>
    const minQualityScore: real
    const fallbackChain: seq<string>
    const multiLlm: MultiProviderLLM
    const judgeClient: GroqLlm.Client
    const parse: GroqLlm.JsonParser

    /** `min_quality_score` defaults to 0.75 when the routing section does not set it. */
    constructor (thresholds: map<string, real>, minQualityScore: Option<real>, fallbackChain: seq<string>,
                 multiLlm: MultiProviderLLM, judgeClient: GroqLlm.Client, parse: GroqLlm.JsonParser)
      ensures this.minQualityScore == minQualityScore.GetOr(0.75)
      ensures this.thresholds == thresholds && this.fallbackChain == fallbackChain && this.multiLlm == multiLlm
      ensures this.judgeClient == judgeClient && this.parse == parse
    {
      this.thresholds := thresholds;
      this.minQualityScore := minQualityScore.GetOr(0.75);
      this.fallbackChain := fallbackChain;
      this.multiLlm := multiLlm;
      this.judgeClient := judgeClient;
      this.parse := parse;
    }

    /** One pass of the attempt loop: the result to return if this model's answer is accepted. */
    method TryOne(model: string, position: nat, query: string, context: string, optimizeFor: string,
                  classification: Classification, groq: GroqCall, ollama: OllamaCall)
      returns (accepted: Option<RoutingResult>)
      ensures var a := TryModel(multiLlm.providers, groq, ollama, judgeClient, parse, model, query, context);
        (accepted.Some? <==> Accepts(a, minQualityScore))
        && (accepted.Some? ==> accepted.value == Accepted(a, model, position, classification, optimizeFor))
    {
      var gen := multiLlm.Generate(model, RouterPrompt(query, context), groq, ollama);
      if gen.Failure? {
        return None;
      }
      var g := gen.value;
      if Contains(g.answer, RefusalPhrase) {
        return Some(RoutingResult(g.answer, model, 1.0, classification, g.costUsd, position, position > 1,
                                  ValidRefusalMetadata(optimizeFor)));
      }
      var evaluation := GroqLlm.JudgeAnswer(judgeClient, parse, query, g.answer, [Doc(context, map[], None)]);
      var score := JudgeScore(evaluation);
      if score.None? || score.value < minQualityScore {
        return None;
      }
      return Some(RoutingResult(g.answer, model, score.value, classification, g.costUsd, position, position > 1,
                                AcceptedMetadata(optimizeFor, g.inputTokens, g.outputTokens)));
    }

    /** `route_and_generate`: classify, select, build the chain, then try each model in turn. */
    method RouteAndGenerate(query: string, context: string, optimizeFor: string, groq: GroqCall, ollama: OllamaCall)
      returns (r: Result<RoutingResult, RouteError>)
      ensures var c := Classify(query, thresholds);
        var chain := AttemptChain(SelectInitialModel(c, optimizeFor), optimizeFor, fallbackChain);
        r == RouteOutcome(TryAll(multiLlm.providers, groq, ollama, judgeClient, parse, chain, query, context),
                          chain, minQualityScore, c, optimizeFor)
    {
      var classification := Classify(query, thresholds);
      var initial := SelectInitialModel(classification, optimizeFor);
      var chain := BuildAttemptChain(initial, optimizeFor, fallbackChain);
      ghost var outs := TryAll(multiLlm.providers, groq, ollama, judgeClient, parse, chain, query, context);
      var i := 0;
      while i < |chain|
        invariant 0 <= i <= |chain|
        invariant FirstAccepted(outs, minQualityScore, 0) == FirstAccepted(outs, minQualityScore, i)
      {
        var accepted := TryOne(chain[i], i + 1, query, context, optimizeFor, classification, groq, ollama);
        if accepted.Some? {
          OutcomeAt(outs, chain, minQualityScore, classification, optimizeFor, i);
          return Success(accepted.value);
        }
        SkipRejected(outs, minQualityScore, i);
        i := i + 1;
      }
      OutcomeExhausted(outs, chain, minQualityScore, classification, optimizeFor);
      return Failure(AllModelsFailed(minQualityScore));
    }
  }
}
