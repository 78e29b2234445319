/**
 * `QueryClassifier.classify` (app/routing/query_classifier.py): a complexity
 * score made of a length part, a reasoning-keyword part and a
 * technical-keyword part, and the model tier it selects.
 */
module QueryClassifier {
  import opened Common
  import opened Text

  datatype Difficulty = Simple | Medium | Complex

  /** `QueryClassification` without its `routing_reasoning` text. */
  datatype Classification = Classification(
    complexityScore: real, difficulty: Difficulty, requiresReasoning: bool,
    estimatedTokensOut: nat, domain: string, preferredModel: string)

  const ReasoningKeywords := ["why", "how", "explain", "reason", "analyze", "compare"]
  const TechnicalKeywords := ["code", "debug", "function", "api", "error"]

  const Phi3Mini := "phi3_mini"
  const Llama3 := "llama3_8b"
  const Gpt4oMini := "gpt4o_mini"

  function Min(a: real, b: real): real {
    if a <= b then a else b
  }

  /** How many of the keywords occur in `text` (each counted once). */
  function CountOccurring(text: string, keywords: seq<string>): (n: nat)
    ensures n <= |keywords|
  {
    if |keywords| == 0 then 0
    else (if Contains(text, keywords[0]) then 1 else 0) + CountOccurring(text, keywords[1..])
  }

  lemma {:induction false} CountOccurringPositive(text: string, keywords: seq<string>)
    ensures CountOccurring(text, keywords) > 0 <==> exists k :: k in keywords && Contains(text, k)
  {
    if |keywords| > 0 {
      CountOccurringPositive(text, keywords[1..]);
      assert forall k :: k in keywords <==> k == keywords[0] || k in keywords[1..];
    }
  }

  /** `min(len(query.split()) / 50, 0.3)`. */
  function LengthScore(query: string): (s: real)
    ensures 0.0 <= s <= 0.3
    ensures s == 0.3 <==> |SplitWords(query)| >= 15
  {
    Min(|SplitWords(query)| as real / 50.0, 0.3)
  }

  /** 0.15 per reasoning keyword present in the lowercased query, at most 0.3. */
  function ReasoningScore(query: string): (s: real)
    ensures s == 0.0 || s == 0.15 || s == 0.3
  {
    Min(0.15 * CountOccurring(Lower(query), ReasoningKeywords) as real, 0.3)
  }

  /** 0.1 when a technical keyword is present in the lowercased query. */
  function TechnicalScore(query: string): (s: real)
    ensures s == 0.0 || s == 0.1
    ensures s == 0.1 <==> exists k :: k in TechnicalKeywords && Contains(Lower(query), k)
  {
    if exists k :: k in TechnicalKeywords && Contains(Lower(query), k) then 0.1 else 0.0
  }

  /** `min(length + reasoning + technical, 1.0)`, which never exceeds 0.7. */
  function ComplexityScore(query: string): (c: real)
    ensures 0.0 <= c <= 0.7
    ensures c == LengthScore(query) + ReasoningScore(query) + TechnicalScore(query)
  {
    Min(LengthScore(query) + ReasoningScore(query) + TechnicalScore(query), 1.0)
  }

  /** `complexity_thresholds.get(name, default)`. */
  function Threshold(thresholds: map<string, real>, name: string, default: real): real {
    if name in thresholds then thresholds[name] else default
  }

  function Classify(query: string, thresholds: map<string, real>): (r: Classification)
    ensures r.complexityScore == ComplexityScore(query)
    ensures r.difficulty == Simple <==> r.complexityScore < Threshold(thresholds, "simple", 0.3)
    ensures r.difficulty == Medium <==>
      Threshold(thresholds, "simple", 0.3) <= r.complexityScore < Threshold(thresholds, "medium", 0.6)
    ensures r.preferredModel == match r.difficulty case Simple => Phi3Mini case Medium => Llama3 case Complex => Gpt4oMini
    ensures r.requiresReasoning <==> exists k :: k in ReasoningKeywords && Contains(Lower(query), k)
    ensures r.domain == (if exists k :: k in TechnicalKeywords && Contains(Lower(query), k) then "technical" else "general")
    ensures r.estimatedTokensOut >= 100 && r.estimatedTokensOut >= 5 * |SplitWords(query)|
    ensures r.estimatedTokensOut == 100 || r.estimatedTokensOut == 5 * |SplitWords(query)|
  {
    var c := ComplexityScore(query);
    var wordCount := |SplitWords(query)|;
    CountOccurringPositive(Lower(query), ReasoningKeywords);
    var difficulty :=
      if c < Threshold(thresholds, "simple", 0.3) then Simple
      else if c < Threshold(thresholds, "medium", 0.6) then Medium
      else Complex;
    var preferred := match difficulty case Simple => Phi3Mini case Medium => Llama3 case Complex => Gpt4oMini;
    Classification(
      c, difficulty, ReasoningScore(query) > 0.0,
      if 100 >= 5 * wordCount then 100 else 5 * wordCount,
      if TechnicalScore(query) > 0.0 then "technical" else "general",
      preferred)
  }

  /**
   * With the default thresholds a query reaches the complex tier only when at
   * least two reasoning keywords occur: length and technical parts together
   * stay below 0.6.
   */
  lemma DefaultComplexNeedsTwoReasoningKeywords(query: string)
    requires Classify(query, map[]).difficulty == Complex
    ensures CountOccurring(Lower(query), ReasoningKeywords) >= 2
  {
    var n := CountOccurring(Lower(query), ReasoningKeywords);
    assert ReasoningScore(query) == Min(0.15 * n as real, 0.3);
    assert ComplexityScore(query) >= 0.6;
    assert ReasoningScore(query) >= 0.2;
  }

  /** With the default thresholds, a query of fewer than 15 words without any keyword is simple. */
  lemma DefaultShortPlainQueryIsSimple(query: string)
    requires |SplitWords(query)| < 15
    requires forall k :: k in ReasoningKeywords + TechnicalKeywords ==> !Contains(Lower(query), k)
    ensures Classify(query, map[]).difficulty == Simple
    ensures Classify(query, map[]).preferredModel == Phi3Mini
  {
    CountOccurringPositive(Lower(query), ReasoningKeywords);
    assert forall k :: k in ReasoningKeywords ==> k in ReasoningKeywords + TechnicalKeywords;
    assert forall k :: k in TechnicalKeywords ==> k in ReasoningKeywords + TechnicalKeywords;
  }
}
