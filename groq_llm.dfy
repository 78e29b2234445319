/**
 * `GroqLLM` (app/llm/groq_wrapper.py): prompt construction for answering,
 * the retrying `generate`, and `judge_answer`'s context, fence stripping,
 * default evaluation and score normalisation.
 *
 * The chat-completion client is a parameter: given the attempt number and
 * the chat it is asked, it returns the reply text or the text of the
 * exception it raised (a missing reply body counts as raised). A chat is kept
 * as the values its system and user messages are built from; `Sending` turns
 * a client that sees only the two message texts, as the API does, into one.
 * `json.loads` is a parameter too (`None` for a `JSONDecodeError`).
 */
module GroqLlm {
  import opened Common
  import opened Text
  import opened Prompts
  import opened RagState

  /** What one chat completion is asked: `generate`'s request (with the context it shows) or `judge_answer`'s. */
  datatype Chat = RagChat(query: string, context: string, history: string)
                | JudgeChat(query: string, answer: string, docs: seq<Doc>)

  type Client = (nat, Chat) -> Result<string, string>
  type TextClient = (nat, string, string) -> Result<string, string>
  type JsonParser = string -> Option<Json>

  /** The number of attempts of the `stop_after_attempt(3)` retry policy. */
  const MaxAttempts := 3
  const NoContext := "No context available"
  const HistoryHeader := "Previous conversation:\n"

  // ---------------------------------------------------------------------------
  // generate

  /** The context `generate` puts in the template. */
  function ShownContext(context: string): (c: string)
    ensures c != ""
    ensures c == context || (context == "" && c == NoContext)
  {
    if context == "" then NoContext else context
  }

  /** The user prompt `generate` sends: the filled template, after the history when there is one. */
  function GeneratePrompt(query: string, context: string, history: string): (p: string)
    ensures history == "" ==> p == RagTemplate(ShownContext(context), query)
    ensures history != "" ==> (StartsWith(p, HistoryHeader + history + "\n\n")
      && EndsWith(p, RagTemplate(ShownContext(context), query)))
  {
    var body := RagTemplate(ShownContext(context), query);
    if history != "" then
      var p := HistoryHeader + history + "\n\n" + body;
      assert p[..|HistoryHeader + history + "\n\n"|] == HistoryHeader + history + "\n\n";
      assert p[|p| - |body|..] == body;
      p
    else body
  }

  /** Tenacity gives up after the last attempt and raises its `RetryError`. */
  datatype GenerateError = RetryError(lastError: string)

  /** The first successful attempt, or the last failure when every attempt failed. */
  function FirstSuccess(outcomes: seq<Result<string, string>>): (r: Result<string, GenerateError>)
    requires |outcomes| > 0
    ensures r.Success? <==> exists i :: 0 <= i < |outcomes| && outcomes[i].Success?
    ensures r.Success? ==> exists i :: (0 <= i < |outcomes| && outcomes[i] == Success(r.value)
      && forall j :: 0 <= j < i ==> outcomes[j].Failure?)
    ensures r.Failure? ==> r.error == RetryError(outcomes[|outcomes| - 1].error)
  {
    if outcomes[0].Success? then Success(outcomes[0].value)
    else if |outcomes| == 1 then Failure(RetryError(outcomes[0].error))
    else
      var r := FirstSuccess(outcomes[1..]);
      assert forall i :: 1 <= i < |outcomes| ==> outcomes[i] == outcomes[1..][i - 1];
      r
  }

  function Attempts(client: Client, chat: Chat): (outs: seq<Result<string, string>>)
    ensures |outs| == MaxAttempts
    ensures forall i :: 0 <= i < MaxAttempts ==> outs[i] == client(i, chat)
  {
    [client(0, chat), client(1, chat), client(2, chat)]
  }

  /** `generate`: the stripped reply of the first attempt that succeeds; raises after three failures. */
  function Generate(client: Client, query: string, context: string, history: string): (r: Result<string, GenerateError>)
    ensures var outs := Attempts(client, RagChat(query, ShownContext(context), history));
      (r.Success? <==> exists i :: 0 <= i < MaxAttempts && outs[i].Success?)
      && (r.Success? ==> exists i :: (0 <= i < MaxAttempts && outs[i].Success?
            && r.value == Strip(outs[i].value) && forall j :: 0 <= j < i ==> outs[j].Failure?))
      && (r.Failure? ==> r.error == RetryError(outs[MaxAttempts - 1].error))
  {
    var outs := Attempts(client, RagChat(query, ShownContext(context), history));
    match FirstSuccess(outs)
    case Success(text) => Success(Strip(text))
    case Failure(e) => Failure(e)
  }

  /** The "Context i:" blocks `generate_with_context` builds, numbered from 1. */
  function LabelContexts(contexts: seq<string>): (blocks: seq<string>)
    ensures |blocks| == |contexts|
    ensures forall i :: 0 <= i < |contexts| ==>
      blocks[i] == "Context " + NatToString(i + 1) + ":\n" + contexts[i]
  {
    seq(|contexts|, i requires 0 <= i < |contexts| => "Context " + NatToString(i + 1) + ":\n" + contexts[i])
  }

  /** `generate_with_context`: the labelled contexts, joined by blank lines, as the context of `generate`. */
  function GenerateWithContext(client: Client, prompt: string, contexts: seq<string>): (r: Result<string, GenerateError>)
    ensures contexts == [] ==> r == Generate(client, prompt, NoContext, "")
    ensures r == Generate(client, prompt, Join("\n\n", LabelContexts(contexts)), "")
  {
    Generate(client, prompt, Join("\n\n", LabelContexts(contexts)), "")
  }

  // ---------------------------------------------------------------------------
  // judge_answer

  /** The context text the judge sees: the first three contents, each cut to 500 characters. */
  function JudgeContext(docs: seq<Doc>): (c: string)
    ensures docs == [] ==> c == NoContext
    ensures docs != [] ==> exists parts: seq<string> ::
      |parts| == (if |docs| < 3 then |docs| else 3) && c == Join("\n\n", parts)
      && (forall i :: 0 <= i < |parts| ==> parts[i] == Take(docs[i].content, 500))
  {
    if docs == [] then NoContext
    else
      var n := if |docs| < 3 then |docs| else 3;
      var parts := seq(n, i requires 0 <= i < n => Take(docs[i].content, 500));
      Join("\n\n", parts)
  }

  const Fence := "```"
  const JsonFence := "```json"

  /** The fence stripping applied to the judge's reply. */
  function StripFences(t: string): (r: string)
    ensures !StartsWith(t, Fence) ==> r == t
    ensures StartsWith(t, Fence) && !StartsWith(t, JsonFence) ==> r == Strip(Before(t[3..], Fence))
    ensures StartsWith(t, JsonFence) ==>
      ((forall i: nat :: |Before(t[7..], Fence)| < i < |Before(t[7..], Fence)| + 3 ==> !OccursAt(t[7..], JsonFence, i))
       ==> r == Strip(Before(t[7..], Fence)))
  {
    if StartsWith(t, JsonFence) then
      var rest := t[7..];
      assert JsonFence[..3] == Fence;
      BeforeOfBefore(rest, JsonFence, Fence);
      Strip(Before(SplitSecond(t, JsonFence), Fence))
    else if StartsWith(t, Fence) then
      var rest := t[3..];
      BeforeIdempotent(rest, Fence);
      Strip(Before(SplitSecond(t, Fence), Fence))
    else t
  }

  function Criteria(v: real): map<string, Json> {
    map["correctness" := JNum(v), "relevance" := JNum(v), "completeness" := JNum(v),
        "clarity" := JNum(v), "citations" := JNum(v)]
  }

  /** The evaluation used when the reply is not JSON, before normalisation. */
  const DefaultEvaluation := JObj(map[
    "score" := JNum(5.0),
    "reasons" := JStr("Failed to parse evaluation response"),
    "criteria" := JObj(Criteria(5.0))])

  /** The evaluation returned when anything in `judge_answer` raises. */
  function ErrorEvaluation(detail: string): (r: Json)
    ensures r.JObj? && "score" in r.fields && r.fields["score"] == JNum(0.5)
  {
    JObj(map[
      "score" := JNum(0.5),
      "reasons" := JStr("Evaluation error: " + detail),
      "criteria" := JObj(Criteria(5.0))])
  }

  /** Stand-in text for the errors Python raises on a parsed value of the wrong shape. */
  const TypeErrorDetail := "unsupported operand type for the judge reply"

  /**
   * `if "score" in evaluation: evaluation["score"] /= 10.0` followed by the
   * `evaluation.get(...)` of the log line: only an object survives; a number
   * or a boolean score is divided by ten, any other score raises.
   */
  function Normalise(e: Json): (r: Json)
    ensures r.JObj?
    ensures "score" in r.fields ==> r.fields["score"].JNum?
    ensures e.JObj? && "score" !in e.fields ==> r == e
    ensures e.JObj? && "score" in e.fields && e.fields["score"].JNum? ==>
      r == JObj(e.fields["score" := JNum(e.fields["score"].n / 10.0)])
    ensures !e.JObj? ==> r == ErrorEvaluation(TypeErrorDetail)
  {
    match e
    case JObj(f) =>
      if "score" !in f then e
      else (
        match f["score"]
        case JNum(n) => JObj(f["score" := JNum(n / 10.0)])
        case JBool(b) => JObj(f["score" := JNum(if b then 0.1 else 0.0)])
        case _ => ErrorEvaluation(TypeErrorDetail))
    case _ => ErrorEvaluation(TypeErrorDetail)
  }

  /** The user prompt the judge receives. */
  function JudgePrompt(query: string, answer: string, docs: seq<Doc>): string {
    JudgeTemplate(query, JudgeContext(docs), answer)
  }

  /** What `judge_answer` makes of the completion's outcome. */
  function JudgeReply(reply: Result<string, string>, parse: JsonParser): (r: Json)
    ensures r.JObj?
    ensures "score" in r.fields ==> r.fields["score"].JNum?
  {
    match reply
    case Failure(err) => ErrorEvaluation(err)
    case Success(text) =>
      match parse(StripFences(Strip(text)))
      case None => Normalise(DefaultEvaluation)
      case Some(e) => Normalise(e)
  }

  /** `judge_answer`: one completion (it never raises, so the retry never fires), cleaned, parsed and normalised. */
  function JudgeAnswer(client: Client, parse: JsonParser, query: string, answer: string, docs: seq<Doc>): (r: Json)
    ensures r.JObj?
    ensures "score" in r.fields ==> r.fields["score"].JNum?
  {
    JudgeReply(client(0, JudgeChat(query, answer, docs)), parse)
  }

  // ---------------------------------------------------------------------------
  // the messages a chat sends

  /** The system message of a chat. */
  function SystemMessage(chat: Chat): string {
    match chat
    case RagChat(_, _, _) => SystemPromptRag
    case JudgeChat(_, _, _) => SystemPromptJudge
  }

  /** The user message of a chat. */
  function UserMessage(chat: Chat): string {
    match chat
    case RagChat(query, context, history) => GeneratePrompt(query, context, history)
    case JudgeChat(query, answer, docs) => JudgePrompt(query, answer, docs)
  }

  /** The client that sends a chat's two messages through `send`. */
  function Sending(send: TextClient): Client {
    (i: nat, chat: Chat) => send(i, SystemMessage(chat), UserMessage(chat))
  }

  /** Through a text client, every attempt of `generate` sends the RAG system prompt and its user prompt. */
  lemma GenerateSendsPrompts(send: TextClient, query: string, context: string, history: string)
    ensures forall i :: 0 <= i < MaxAttempts ==>
      Attempts(Sending(send), RagChat(query, ShownContext(context), history))[i]
        == send(i, SystemPromptRag, GeneratePrompt(query, context, history))
  {
    var chat := RagChat(query, ShownContext(context), history);
    assert ShownContext(ShownContext(context)) == ShownContext(context);
    forall i | 0 <= i < MaxAttempts
      ensures Attempts(Sending(send), chat)[i] == send(i, SystemPromptRag, GeneratePrompt(query, context, history))
    {
      assert Sending(send)(i, chat) == send(i, SystemMessage(chat), UserMessage(chat));
    }
  }

  /** Through a text client, the one attempt of `judge_answer` sends the judge's system prompt and the judge prompt. */
  lemma JudgeSendsPrompts(send: TextClient, query: string, answer: string, docs: seq<Doc>)
    ensures Sending(send)(0, JudgeChat(query, answer, docs)) == send(0, SystemPromptJudge, JudgePrompt(query, answer, docs))
  {
    var chat := JudgeChat(query, answer, docs);
    assert Sending(send)(0, chat) == send(0, SystemMessage(chat), UserMessage(chat));
  }

  /** An unparseable reply yields the default evaluation: score 0.5 and every criterion at 5.0. */
  lemma UnparseableReplyGivesDefault(text: string, parse: JsonParser)
    requires parse(StripFences(Strip(text))).None?
    ensures var r := JudgeReply(Success(text), parse);
      "score" in r.fields && r.fields["score"] == JNum(0.5)
      && "criteria" in r.fields && r.fields["criteria"] == JObj(Criteria(5.0))
  {
    NormalisedDefault();
    assert JudgeReply(Success(text), parse) == Normalise(DefaultEvaluation);
  }

  /** The default evaluation, normalised: its score 5.0 becomes 0.5 and its criteria stay. */
  lemma NormalisedDefault()
    ensures Normalise(DefaultEvaluation) == JObj(DefaultEvaluation.fields["score" := JNum(0.5)])
    ensures "criteria" in DefaultEvaluation.fields && DefaultEvaluation.fields["criteria"] == JObj(Criteria(5.0))
  {
    assert DefaultEvaluation.fields["score"] == JNum(5.0);
  }

  /** A parsed object's numeric score is divided by ten exactly once; an absent score stays absent. */
  lemma ParsedScoreNormalisedOnce(text: string, parse: JsonParser)
    requires parse(StripFences(Strip(text))).Some?
    requires parse(StripFences(Strip(text))).value.JObj?
    ensures var f := parse(StripFences(Strip(text))).value.fields;
      var r := JudgeReply(Success(text), parse);
      ("score" in f && f["score"].JNum? ==> r.fields == f["score" := JNum(f["score"].n / 10.0)])
      && ("score" !in f ==> r.fields == f)
  {
    var e := parse(StripFences(Strip(text))).value;
    assert JudgeReply(Success(text), parse) == Normalise(e);
  }

  /** A failing completion yields score 0.5 and reasons "Evaluation error: " followed by the error. */
  lemma ClientFailureGivesErrorEvaluation(err: string, parse: JsonParser)
    ensures var r := JudgeReply(Failure(err), parse);
      r.fields["score"] == JNum(0.5) && r.fields["reasons"] == JStr("Evaluation error: " + err)
  {
  }

  /**
   * The fence condition of `StripFences` is needed: with a run of four
   * backticks after the opening "```json", the code keeps one backtick that
   * the segment up to the next "```" does not.
   */
  lemma FenceRunKeepsBacktick()
    ensures StripFences("```json" + "a````json") == "a`"
    ensures Strip(Before("a````json", Fence)) == "a"
  {
    var t := "```json" + "a````json";
    assert t[..7] == JsonFence;
    assert t[7..] == "a````json";
    CutAtFence();
    CutAtJsonFence();
    assert SplitSecond(t, JsonFence) == "a`";
    CutShort();
    assert StripFences(t) == Strip("a`");
    StripShort();
  }

  lemma CutAtFence()
    ensures Before("a````json", Fence) == "a"
  {
    var rest := "a````json";
    assert rest[..3][0] == 'a' && Fence[0] == '`';
    assert rest[1..] == "````json";
    assert rest[1..][..3] == Fence;
    assert Before(rest[1..], Fence) == "";
  }

  lemma CutAtJsonFence()
    ensures Before("a````json", JsonFence) == "a`"
  {
    var rest := "a````json";
    assert rest[..7][0] == 'a';
    assert rest[1..] == "````json";
    assert rest[1..][..7][3] == '`' && JsonFence[3] == 'j';
    assert rest[2..] == "```json";
    assert rest[2..][..7] == JsonFence;
    assert Before(rest[2..], JsonFence) == "";
    assert Before(rest[1..], JsonFence) == "`";
  }

  lemma CutShort()
    ensures Before("a`", Fence) == "a`"
  {
    assert |"a`"| < |Fence|;
  }

  lemma StripShort()
    ensures Strip("a`") == "a`" && Strip("a") == "a"
  {
    assert !IsSpace('a') && !IsSpace('`');
    assert LStrip("a`") == "a`";
    assert LStrip("a") == "a";
  }
}
