/**
 * The retrieval and generation metrics of app/monitoring/rag_evaluators.py,
 * over exact reals: NDCG, `round(..., 4)`, timestamps and the evaluation log
 * file are not modelled. A retrieved doc is the `{content, distance}` the
 * retriever returns, where either key may be missing.
 */
module RagEvaluators {
  import opened Common
  import opened Text

  /** A retrieved doc as the evaluator reads it: `doc.get("content", "")`, `doc.get("distance", 1.0)`. */
  datatype RetrievedDoc = RetrievedDoc(content: Option<string>, distance: Option<real>)

  function DistanceOf(d: RetrievedDoc): real {
    d.distance.GetOr(1.0)
  }

  function Distances(docs: seq<RetrievedDoc>): (ds: seq<real>)
    ensures |ds| == |docs|
    ensures forall i :: 0 <= i < |docs| ==> ds[i] == DistanceOf(docs[i])
  {
    seq(|docs|, i requires 0 <= i < |docs| => DistanceOf(docs[i]))
  }

  function Sum(xs: seq<real>): real {
    if |xs| == 0 then 0.0 else Sum(xs[..|xs| - 1]) + xs[|xs| - 1]
  }

  function Mean(xs: seq<real>): real
    requires |xs| > 0
  {
    Sum(xs) / |xs| as real
  }

  /** The smallest value (`min(distances)`). */
  function Minimum(xs: seq<real>): (m: real)
    requires |xs| > 0
    ensures m in xs
    ensures forall i :: 0 <= i < |xs| ==> m <= xs[i]
  {
    if |xs| == 1 then xs[0]
    else
      var m := Minimum(xs[..|xs| - 1]);
      assert forall i :: 0 <= i < |xs| - 1 ==> xs[..|xs| - 1][i] == xs[i];
      if xs[|xs| - 1] < m then xs[|xs| - 1] else m
  }

  // ---------------------------------------------------------------------------
  // relevance and reciprocal rank

  /** How many flags are set (`sum(mask)`). */
  function CountTrue(mask: seq<bool>): (n: nat)
    ensures n <= |mask|
  {
    if |mask| == 0 then 0 else CountTrue(mask[..|mask| - 1]) + (if mask[|mask| - 1] then 1 else 0)
  }

  lemma {:induction false} CountTruePositive(mask: seq<bool>)
    ensures CountTrue(mask) > 0 <==> exists i :: 0 <= i < |mask| && mask[i]
  {
    if |mask| > 0 {
      var init := mask[..|mask| - 1];
      CountTruePositive(init);
      assert forall i :: 0 <= i < |init| ==> init[i] == mask[i];
      if exists i :: 0 <= i < |init| && init[i] {
        var i :| 0 <= i < |init| && init[i];
        assert mask[i];
      }
    }
  }

  /** The 0-based index of the first set flag. */
  function FirstTrue(mask: seq<bool>): (r: Option<nat>)
    ensures r.Some? ==> r.value < |mask| && mask[r.value] && forall i :: 0 <= i < r.value ==> !mask[i]
    ensures r.None? ==> forall i :: 0 <= i < |mask| ==> !mask[i]
  {
    if |mask| == 0 then None
    else if mask[0] then Some(0)
    else match FirstTrue(mask[1..])
      case None => None
      case Some(i) => Some(i + 1)
  }

  /** Reciprocal rank: 1 / the 1-based rank of the first relevant doc, 0 if none. */
  function ReciprocalRank(mask: seq<bool>): (rr: real)
    ensures 0.0 <= rr <= 1.0
    ensures rr == 0.0 <==> forall i :: 0 <= i < |mask| ==> !mask[i]
    ensures |mask| > 0 && mask[0] ==> rr == 1.0
  {
    match FirstTrue(mask)
    case None => 0.0
    case Some(i) => 1.0 / (i + 1) as real
  }

  /** The MRR loop: the first relevant rank sets the score and breaks. */
  method MrrOf(mask: seq<bool>) returns (mrr: real)
    ensures mrr == ReciprocalRank(mask)
  {
    mrr := 0.0;
    var rank := 1;
    while rank <= |mask|
      invariant 1 <= rank <= |mask| + 1
      invariant forall i :: 0 <= i < rank - 1 ==> !mask[i]
    {
      if mask[rank - 1] {
        mrr := 1.0 / rank as real;
        assert FirstTrue(mask) == Some(rank - 1);
        return;
      }
      rank := rank + 1;
    }
    assert FirstTrue(mask).None?;
  }

  /** A doc counts as relevant by distance when it is closer than 0.5. */
  function DistanceMask(distances: seq<real>): (mask: seq<bool>)
    ensures |mask| == |distances|
    ensures forall i :: 0 <= i < |distances| ==> mask[i] == (distances[i] < 0.5)
  {
    seq(|distances|, i requires 0 <= i < |distances| => distances[i] < 0.5)
  }

  /** `_compute_mrr_from_distance`: returns at the first doc closer than 0.5. */
  method MrrFromDistance(distances: seq<real>) returns (mrr: real)
    ensures mrr == ReciprocalRank(DistanceMask(distances))
  {
    ghost var mask := DistanceMask(distances);
    var rank := 1;
    while rank <= |distances|
      invariant 1 <= rank <= |distances| + 1
      invariant forall i :: 0 <= i < rank - 1 ==> !mask[i]
    {
      if distances[rank - 1] < 0.5 {
        assert mask[rank - 1];
        assert FirstTrue(mask) == Some(rank - 1);
        return 1.0 / rank as real;
      }
      rank := rank + 1;
    }
    assert FirstTrue(mask).None?;
    return 0.0;
  }

  // ---------------------------------------------------------------------------
  // precision, recall and MRR from labels or ground truth

  /** `a / b` on counts, characterised by multiplication. */
  function Ratio(a: nat, b: nat): (r: real)
    requires b > 0
    ensures r * b as real == a as real
    ensures 0.0 <= r
    ensures a <= b ==> r <= 1.0
    ensures a == b ==> r == 1.0
  {
    a as real / b as real
  }

  /** Precision, recall and MRR; `None` where the source reports None. */
  datatype RankMetrics = RankMetrics(precision: Option<real>, recall: Option<real>, mrr: real)

  function LabelMask(labels: seq<real>): (mask: seq<bool>)
    ensures |mask| == |labels|
    ensures forall i :: 0 <= i < |labels| ==> mask[i] == (labels[i] > 0.5)
  {
    seq(|labels|, i requires 0 <= i < |labels| => labels[i] > 0.5)
  }

  /**
   * `_compute_metrics_from_labels`: a doc is relevant when its label exceeds
   * 0.5; recall divides by the number of ground-truth docs when there are any,
   * else by the relevant count itself.
   */
  function MetricsFromLabels(labels: seq<real>, groundTruthCount: nat): (m: RankMetrics)
    requires |labels| > 0
    ensures m.precision.Some? && m.recall.Some?
    ensures m.precision.value == Ratio(CountTrue(LabelMask(labels)), |labels|)
    ensures groundTruthCount > 0 ==> m.recall.value == Ratio(CountTrue(LabelMask(labels)), groundTruthCount)
    ensures groundTruthCount == 0 ==> m.recall.value == (if CountTrue(LabelMask(labels)) > 0 then 1.0 else 0.0)
    ensures m.mrr == ReciprocalRank(LabelMask(labels))
  {
    var mask := LabelMask(labels);
    var rel := CountTrue(mask);
    var precision := Ratio(rel, |labels|);
    var recall := if groundTruthCount > 0 then Ratio(rel, groundTruthCount) else if rel > 0 then Ratio(rel, rel) else 0.0;
    RankMetrics(Some(precision), Some(recall), ReciprocalRank(mask))
  }

  /**
   * Precision is zero exactly when MRR is zero: both say that no label
   * exceeds 0.5.
   */
  lemma LabelPrecisionZeroIffNoReciprocalRank(labels: seq<real>, groundTruthCount: nat)
    requires |labels| > 0
    ensures MetricsFromLabels(labels, groundTruthCount).precision.value == 0.0
            <==> MetricsFromLabels(labels, groundTruthCount).mrr == 0.0
  {
    var mask := LabelMask(labels);
    CountTruePositive(mask);
    var p := Ratio(CountTrue(mask), |labels|);
    if CountTrue(mask) > 0 {
      assert p * |labels| as real > 0.0;
    }
  }

  /** Whether a retrieved content matches a ground-truth doc: either contains the other, ignoring ASCII case. */
  predicate Matches(content: string, truth: string) {
    Contains(Lower(content), Lower(truth)) || Contains(Lower(truth), Lower(content))
  }

  predicate MatchesAny(content: string, truths: seq<string>) {
    exists t :: t in truths && Matches(content, t)
  }

  /** The inner `for gt ... break ... else` loop: does any ground-truth doc match? */
  method MatchAny(content: string, truths: seq<string>) returns (matched: bool)
    ensures matched == MatchesAny(content, truths)
  {
    var j := 0;
    while j < |truths|
      invariant 0 <= j <= |truths|
      invariant forall k :: 0 <= k < j ==> !Matches(content, truths[k])
    {
      if Matches(content, truths[j]) {
        return true;
      }
      j := j + 1;
    }
    return false;
  }

  function MatchMask(docs: seq<RetrievedDoc>, truths: seq<string>): (mask: seq<bool>)
    ensures |mask| == |docs|
    ensures forall i :: 0 <= i < |docs| ==> mask[i] == MatchesAny(docs[i].content.GetOr(""), truths)
  {
    seq(|docs|, i requires 0 <= i < |docs| => MatchesAny(docs[i].content.GetOr(""), truths))
  }

  /** The outer loop of `_compute_metrics_from_ground_truth`: one match flag per retrieved doc. */
  method MatchFlags(docs: seq<RetrievedDoc>, truths: seq<string>) returns (matches: seq<bool>)
    ensures matches == MatchMask(docs, truths)
  {
    matches := [];
    var i := 0;
    while i < |docs|
      invariant 0 <= i <= |docs|
      invariant matches == MatchMask(docs, truths)[..i]
    {
      var matched := MatchAny(docs[i].content.GetOr(""), truths);
      matches := matches + [matched];
      i := i + 1;
    }
  }

  /** `_compute_metrics_from_ground_truth` (only reached with docs and ground truth present). */
  method MetricsFromGroundTruth(docs: seq<RetrievedDoc>, truths: seq<string>) returns (m: RankMetrics)
    requires |docs| > 0 && |truths| > 0
    ensures m.precision.Some? && m.recall.Some?
    ensures m.precision.value == Ratio(CountTrue(MatchMask(docs, truths)), |docs|)
    ensures m.recall.value == Ratio(CountTrue(MatchMask(docs, truths)), |truths|)
    ensures m.mrr == ReciprocalRank(MatchMask(docs, truths))
  {
    var matches := MatchFlags(docs, truths);
    var rel := CountTrue(matches);
    var mrr := MrrOf(matches);
    m := RankMetrics(Some(Ratio(rel, |docs|)), Some(Ratio(rel, |truths|)), mrr);
  }

  // ---------------------------------------------------------------------------
  // evaluate_retrieval

  datatype RetrievalMetrics = RetrievalMetrics(
    numRetrieved: nat, avgDistance: real, contextRelevance: real, hitRate: real, ranks: RankMetrics)

  /** `evaluate_retrieval` without NDCG, rounding and timestamp. */
  method EvaluateRetrieval(docs: seq<RetrievedDoc>, groundTruth: Option<seq<string>>, labels: Option<seq<real>>)
    returns (m: RetrievalMetrics)
    ensures m.numRetrieved == |docs|
    ensures docs == [] ==>
      m == RetrievalMetrics(0, 1.0, 0.0, 0.0, RankMetrics(Some(0.0), Some(0.0), 0.0))
    ensures docs != [] ==>
      m.avgDistance == Mean(Distances(docs)) && m.contextRelevance == 1.0 - m.avgDistance
      && m.hitRate == (if Minimum(Distances(docs)) < 0.5 then 1.0 else 0.0)
    ensures docs != [] && labels.Some? && |labels.value| > 0 ==>
      m.ranks == MetricsFromLabels(labels.value, if groundTruth.Some? then |groundTruth.value| else 0)
    ensures docs != [] && (labels.None? || labels.value == []) && groundTruth.Some? && groundTruth.value != [] ==>
      var relevant := CountTrue(MatchMask(docs, groundTruth.value));
      m.ranks == RankMetrics(Some(Ratio(relevant, |docs|)), Some(Ratio(relevant, |groundTruth.value|)),
                             ReciprocalRank(MatchMask(docs, groundTruth.value)))
    ensures docs != [] && (labels.None? || labels.value == []) && (groundTruth.None? || groundTruth.value == []) ==>
      m.ranks.precision.None? && m.ranks.recall.None?
      && m.ranks.mrr == ReciprocalRank(DistanceMask(Distances(docs)))
  {
    if docs == [] {
      return RetrievalMetrics(0, 1.0, 0.0, 0.0, RankMetrics(Some(0.0), Some(0.0), 0.0));
    }
    var distances := Distances(docs);
    var avg := Mean(distances);
    var hit := if Minimum(distances) < 0.5 then 1.0 else 0.0;
    var ranks;
    if labels.Some? && |labels.value| > 0 {
      ranks := MetricsFromLabels(labels.value, if groundTruth.Some? then |groundTruth.value| else 0);
    } else if groundTruth.Some? && |groundTruth.value| > 0 {
      ranks := MetricsFromGroundTruth(docs, groundTruth.value);
    } else {
      var mrr := MrrFromDistance(distances);
      ranks := RankMetrics(None, None, mrr);
    }
    m := RetrievalMetrics(|docs|, avg, 1.0 - avg, hit, ranks);
  }

  /** Hit rate is 1.0 exactly when some doc (a missing distance counting as 1.0) is closer than 0.5. */
  lemma HitRateIffSomeClose(docs: seq<RetrievedDoc>)
    requires |docs| > 0
    ensures Minimum(Distances(docs)) < 0.5 <==> exists i :: 0 <= i < |docs| && DistanceOf(docs[i]) < 0.5
  {
    var ds := Distances(docs);
    if exists i :: 0 <= i < |docs| && DistanceOf(docs[i]) < 0.5 {
      var i :| 0 <= i < |docs| && DistanceOf(docs[i]) < 0.5;
      assert ds[i] < 0.5;
    }
  }

  /** Distances in [0, 1] give a context relevance in [0, 1]. */
  lemma {:induction false} SumBounds(xs: seq<real>)
    requires forall i :: 0 <= i < |xs| ==> 0.0 <= xs[i] <= 1.0
    ensures 0.0 <= Sum(xs) <= |xs| as real
  {
    if |xs| > 0 {
      SumBounds(xs[..|xs| - 1]);
    }
  }

  /** A share of a positive whole lies in [0, 1]. */
  lemma ShareBounds(part: real, whole: real)
    requires 0.0 < whole && 0.0 <= part <= whole
    ensures 0.0 <= part / whole <= 1.0
  {
  }

  lemma ContextRelevanceBounds(docs: seq<RetrievedDoc>)
    requires |docs| > 0
    requires forall i :: 0 <= i < |docs| ==> 0.0 <= DistanceOf(docs[i]) <= 1.0
    ensures 0.0 <= 1.0 - Mean(Distances(docs)) <= 1.0
  {
    SumBounds(Distances(docs));
    ShareBounds(Sum(Distances(docs)), |docs| as real);
  }

  // ---------------------------------------------------------------------------
  // generation metrics and the overall score

  datatype GenerationMetrics = GenerationMetrics(
    judgeScore: real, relevance: real, groundedness: real, completeness: real, clarity: real,
    citations: real, avgGenerationScore: real, explanation: Json)

  /** A Python dict is falsy when it is empty. */
  predicate Empty(j: Json) {
    j.JObj? && |j.fields| == 0
  }

  /** `float(criteria.get(name, 5)) / 10.0`; None when that raises. */
  function CriterionScore(criteria: Json, name: string): Option<real> {
    match GetField(criteria, name, JNum(5.0))
    case None => None
    case Some(v) =>
      match FloatOf(v)
      case None => None
      case Some(x) => Some(x / 10.0)
  }

  /** Whether `float()` accepts the criterion `name` when the judge gave it. */
  predicate Convertible(criteria: map<string, Json>, name: string) {
    name in criteria ==> FloatOf(criteria[name]).Some?
  }

  predicate AllConvertible(criteria: map<string, Json>) {
    Convertible(criteria, "relevance") && Convertible(criteria, "correctness") && Convertible(criteria, "completeness")
    && Convertible(criteria, "clarity") && Convertible(criteria, "citations")
  }

  /** A criterion on the 0-10 scale brought to [0, 1]; a missing one counts as 5. */
  function Scaled(criteria: map<string, Json>, name: string): real
    requires Convertible(criteria, name)
  {
    (if name in criteria then FloatOf(criteria[name]).value else 5.0) / 10.0
  }

  /** `evaluate_generation_from_judge`; None when a conversion raises. */
  function GenerationFromJudge(evaluation: Json): (r: Option<GenerationMetrics>)
    ensures Empty(evaluation) ==> r.Some? && r.value.judgeScore == 0.5 && r.value.relevance == 0.5
    ensures r.Some? ==> r.value.avgGenerationScore == r.value.judgeScore
    ensures evaluation.JObj? && !Empty(evaluation)
            && ("criteria" in evaluation.fields ==> evaluation.fields["criteria"].JObj?) ==>
      var s := if "score" in evaluation.fields then evaluation.fields["score"] else JNum(0.5);
      var c := if "criteria" in evaluation.fields then evaluation.fields["criteria"].fields else map[];
      (r.Some? <==> FloatOf(s).Some? && AllConvertible(c))
      && (r.Some? ==>
            r.value.judgeScore == FloatOf(s).value
            && r.value.relevance == Scaled(c, "relevance") && r.value.groundedness == Scaled(c, "correctness")
            && r.value.completeness == Scaled(c, "completeness") && r.value.clarity == Scaled(c, "clarity")
            && r.value.citations == Scaled(c, "citations")
            && r.value.explanation == GetField(evaluation, "reasons", JStr("")).value)
    ensures evaluation.JObj? && !Empty(evaluation) && "score" !in evaluation.fields ==>
      r.Some? ==> r.value.judgeScore == 0.5
    ensures evaluation.JObj? && "criteria" in evaluation.fields && !evaluation.fields["criteria"].JObj? ==> r.None?
    ensures evaluation.JObj? && "score" in evaluation.fields && evaluation.fields["score"].JNum?
            && "criteria" !in evaluation.fields ==>
      r == Some(GenerationMetrics(evaluation.fields["score"].n, 0.5, 0.5, 0.5, 0.5, 0.5,
                                  evaluation.fields["score"].n, GetField(evaluation, "reasons", JStr("")).value))
  {
    var e := if Empty(evaluation) then JObj(map["score" := JNum(0.5), "reasons" := JStr(""), "criteria" := JObj(map[])])
             else evaluation;
    match GetField(e, "score", JNum(0.5))
    case None => None
    case Some(sv) =>
      match FloatOf(sv)
      case None => None
      case Some(score) =>
        var criteria := GetField(e, "criteria", JObj(map[])).value;
        var rel := CriterionScore(criteria, "relevance");
        var gro := CriterionScore(criteria, "correctness");
        var com := CriterionScore(criteria, "completeness");
        var cla := CriterionScore(criteria, "clarity");
        var cit := CriterionScore(criteria, "citations");
        if rel.None? || gro.None? || com.None? || cla.None? || cit.None? then None
        else Some(GenerationMetrics(score, rel.value, gro.value, com.value, cla.value, cit.value, score,
                                    GetField(e, "reasons", JStr("")).value))
  }

  /** `overall_score`: 30% retrieval (context relevance), 70% generation. */
  function OverallScore(contextRelevance: real, generationScore: real): (s: real)
    ensures 0.0 <= contextRelevance <= 1.0 && 0.0 <= generationScore <= 1.0 ==> 0.0 <= s <= 1.0
    ensures contextRelevance <= generationScore ==> contextRelevance <= s <= generationScore
    ensures generationScore <= contextRelevance ==> generationScore <= s <= contextRelevance
  {
    contextRelevance * 0.3 + generationScore * 0.7
  }

  /**
   * With no docs the overall score is 70% of the judge score (context
   * relevance 0.0); an empty judge evaluation counts as 0.5.
   */
  lemma OverallWithoutDocs(evaluation: Json)
    requires Empty(evaluation)
    ensures OverallScore(0.0, GenerationFromJudge(evaluation).value.avgGenerationScore) == 0.35
  {
  }
}
