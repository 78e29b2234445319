/**
 * `MultiProviderLLM` (app/llm/multi_provider.py): a registry of Groq and
 * Ollama providers built from the model configuration, and `generate`, which
 * calls the named provider and prices the call from its token estimates.
 * The Groq completion and the Ollama HTTP request are function parameters;
 * latency measurement is not modelled.
 */
module MultiProvider {
  import opened Common
  import opened Text

  /** The fields of a `ModelConfig` that the registry reads. */
  datatype ModelConfig = ModelConfig(provider: string, modelName: string, costPer1kTokens: real, endpoint: string, apiKey: string)

  datatype Provider =
    | GroqProvider(apiKey: string, modelName: string, costPer1k: real)
    | OllamaProvider(endpoint: string, modelName: string, costPer1k: real)

  /** `chat.completions.create(...)`'s message content, or the exception it raises. */
  type GroqCall = (string, string, string) -> Result<string, string>

  /** The HTTP response of Ollama's /api/generate: status, decoded body (None if not JSON) and raw text. */
  datatype HttpReply = HttpReply(status: nat, body: Option<Json>, text: string)

  /** `requests.post(endpoint + "/api/generate", ...)`: a response, or a connection error. */
  type OllamaCall = (string, string, string) -> Result<HttpReply, string>

  /** The provider `_init_providers` registers for a configuration entry, if any. */
  function ProviderFor(cfg: ModelConfig): (p: Option<Provider>)
    ensures p.Some? <==> cfg.provider == "groq" || cfg.provider == "ollama"
    ensures p.Some? ==> p.value.modelName == cfg.modelName && p.value.costPer1k == cfg.costPer1kTokens
    ensures p.Some? ==> (p.value.GroqProvider? <==> cfg.provider == "groq")
  {
    if cfg.provider == "groq" then Some(GroqProvider(cfg.apiKey, cfg.modelName, cfg.costPer1kTokens))
    else if cfg.provider == "ollama" then Some(OllamaProvider(cfg.endpoint, cfg.modelName, cfg.costPer1kTokens))
    else None
  }

  /** The registry: every groq or ollama entry under its configuration name, and nothing else. */
  function Registry(models: map<string, ModelConfig>): map<string, Provider> {
    map name | name in models && ProviderFor(models[name]).Some? :: ProviderFor(models[name]).value
  }

  /** `_init_providers`: one pass over the configured models. */
  method InitProviders(models: map<string, ModelConfig>) returns (providers: map<string, Provider>)
    ensures providers == Registry(models)
    ensures forall name :: name in providers <==> name in models && models[name].provider in {"groq", "ollama"}
  {
    providers := map[];
    var pending := models.Keys;
    while pending != {}
      invariant pending <= models.Keys
      invariant forall name :: name in providers <==> name in models && name !in pending && ProviderFor(models[name]).Some?
      invariant forall name :: name in providers ==> providers[name] == ProviderFor(models[name]).value
      decreases pending
    {
      var name :| name in pending;
      var cfg := models[name];
      if cfg.provider == "groq" {
        providers := providers[name := GroqProvider(cfg.apiKey, cfg.modelName, cfg.costPer1kTokens)];
      } else if cfg.provider == "ollama" {
        providers := providers[name := OllamaProvider(cfg.endpoint, cfg.modelName, cfg.costPer1kTokens)];
      }
      pending := pending - {name};
    }
  }

  /** `estimate_cost`: Groq prices per thousand tokens; Ollama is free. */
  function EstimateCost(p: Provider, inputTokens: nat, outputTokens: nat): (c: real)
    ensures p.OllamaProvider? ==> c == 0.0
    ensures p.GroqProvider? ==> c * 1000.0 == (inputTokens + outputTokens) as real * p.costPer1k
  {
    match p
    case GroqProvider(_, _, rate) => ((inputTokens + outputTokens) as real / 1000.0) * rate
    case OllamaProvider(_, _, _) => 0.0
  }

  /** More tokens never cost less when the rate is not negative. */
  lemma EstimateCostMonotone(p: Provider, in1: nat, out1: nat, in2: nat, out2: nat)
    requires p.costPer1k >= 0.0
    requires in1 <= in2 && out1 <= out2
    ensures 0.0 <= EstimateCost(p, in1, out1) <= EstimateCost(p, in2, out2)
  {
    if p.GroqProvider? {
      var a := (in1 + out1) as real / 1000.0;
      var b := (in2 + out2) as real / 1000.0;
      assert 0.0 <= a <= b;
      assert a * p.costPer1k <= b * p.costPer1k;
    }
  }

  const OllamaFailurePrefix := "Ollama Connection Failed: "
  const OllamaFailureSuffix := ". Is 'ollama serve' running?"
  /** Stand-in for the text of the exception a malformed response body raises. */
  const BadBodyDetail := "malformed response body"

  /** Ollama's `generate_async`: the stripped "response" of a 200 reply; every failure is wrapped in one message. */
  function OllamaGenerate(reply: Result<HttpReply, string>): (r: Result<string, string>)
    ensures r.Success? ==> reply.Success? && reply.value.status == 200
    ensures r.Failure? ==> StartsWith(r.error, OllamaFailurePrefix) && EndsWith(r.error, OllamaFailureSuffix)
    ensures reply.Success? && reply.value.status != 200 ==> r.Failure?
  {
    var detail :=
      match reply
      case Failure(e) => Failure(e)
      case Success(resp) =>
        if resp.status != 200 then Failure("Ollama API Error " + NatToString(resp.status) + ": " + resp.text)
        else match resp.body
          case Some(JObj(f)) =>
            if "response" !in f then Success("")
            else if f["response"].JStr? then Success(Strip(f["response"].s))
            else Failure(BadBodyDetail)
          case _ => Failure(BadBodyDetail);
    match detail
    case Success(answer) => Success(answer)
    case Failure(e) =>
      var msg := OllamaFailurePrefix + e + OllamaFailureSuffix;
      assert msg[..|OllamaFailurePrefix|] == OllamaFailurePrefix;
      assert msg[|msg| - |OllamaFailureSuffix|..] == OllamaFailureSuffix;
      Failure(msg)
  }

  /** The provider's `generate_async` outcome. */
  function ProviderGenerate(p: Provider, prompt: string, groq: GroqCall, ollama: OllamaCall): Result<string, string> {
    match p
    case GroqProvider(key, model, _) =>
      (match groq(key, model, prompt)
       case Success(content) => Success(Strip(content))
       case Failure(e) => Failure(e))
    case OllamaProvider(endpoint, model, _) => OllamaGenerate(ollama(endpoint, model, prompt))
  }

  /** The dict `generate` returns, without `latency_ms`. */
  datatype Generation = Generation(answer: string, costUsd: real, inputTokens: nat, outputTokens: nat)

  datatype GenerateError = NotInitialized(modelName: string) | ProviderFailed(message: string)

  /** `generate`: ValueError for an unregistered model; else the answer priced from len/4 token estimates. */
  function GenerateResult(providers: map<string, Provider>, modelName: string, prompt: string,
                          groq: GroqCall, ollama: OllamaCall): (r: Result<Generation, GenerateError>)
    ensures modelName !in providers <==> r == Failure(NotInitialized(modelName))
    ensures r.Success? ==>
      r.value.inputTokens == |prompt| / 4 && r.value.outputTokens == |r.value.answer| / 4
      && r.value.costUsd == EstimateCost(providers[modelName], r.value.inputTokens, r.value.outputTokens)
      && ProviderGenerate(providers[modelName], prompt, groq, ollama) == Success(r.value.answer)
    ensures modelName in providers && r.Failure? ==>
      r.error.ProviderFailed? && ProviderGenerate(providers[modelName], prompt, groq, ollama) == Failure(r.error.message)
  {
    if modelName !in providers then Failure(NotInitialized(modelName))
    else
      var p := providers[modelName];
      match ProviderGenerate(p, prompt, groq, ollama)
      case Failure(e) => Failure(ProviderFailed(e))
      case Success(answer) =>
        var inputTokens := |prompt| / 4;
        var outputTokens := |answer| / 4;
        Success(Generation(answer, EstimateCost(p, inputTokens, outputTokens), inputTokens, outputTokens))
  }

  /** An Ollama model's answer is always free. */
  lemma OllamaGenerationFree(providers: map<string, Provider>, modelName: string, prompt: string,
                             groq: GroqCall, ollama: OllamaCall)
    requires modelName in providers && providers[modelName].OllamaProvider?
    requires GenerateResult(providers, modelName, prompt, groq, ollama).Success?
    ensures GenerateResult(providers, modelName, prompt, groq, ollama).value.costUsd == 0.0
  {
  }

  class MultiProviderLLM {
    var providers: map<string, Provider>

    constructor (models: map<string, ModelConfig>)
      ensures providers == Registry(models)
    {
      var registry := InitProviders(models);
      providers := registry;
    }

    /** `generate`, on the current registry. */
    method Generate(modelName: string, prompt: string, groq: GroqCall, ollama: OllamaCall)
      returns (r: Result<Generation, GenerateError>)
      ensures r == GenerateResult(providers, modelName, prompt, groq, ollama)
    {
      if modelName !in providers {
        return Failure(NotInitialized(modelName));
      }
      var outcome := ProviderGenerate(providers[modelName], prompt, groq, ollama);
      if outcome.Failure? {
        return Failure(ProviderFailed(outcome.error));
      }
      var inputTokens := |prompt| / 4;
      var outputTokens := |outcome.value| / 4;
      var cost := EstimateCost(providers[modelName], inputTokens, outputTokens);
      r := Success(Generation(outcome.value, cost, inputTokens, outputTokens));
    }
  }
}
