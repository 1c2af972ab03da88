/**
 * The reward system (`EnhancedRewardSystem`): scalar rewards for a search result list, for a
 * filter decision on one paper, and for PRISMA checklist compliance, with a bounded history of
 * human feedback used to shape the search reward.
 *
 * The sentence-embedding model and the cosine similarity of two embeddings are supplied to the
 * reward system as uninterpreted functions (`embed`, `cosine`); every other number is a `real`.
 */
module Rewards {
  import opened Common

  type Embedding = seq<real>

  /** A human feedback dict; the keys read are "relevance" and "quality". */
  type Feedback = map<string, real>

  /** A search result; only its summary is read by the core. */
  datatype Paper = Paper(summary: string)

  /** The `paper_data` dict given to the filter reward: both keys may be absent. */
  datatype PaperData = PaperData(abstractText: Option<string>, citationCount: Option<int>)

  /** Declared by the source but never read by any scoring rule. */
  const RelevanceThreshold: real := 0.7
  const DiversityBonus: real := 0.1
  const HumanFeedbackWeight: real := 0.3
  const HistoryCapacity: nat := 1000
  const FeedbackWindow: nat := 10

  const MethodologyWords: seq<string> := ["method", "approach", "algorithm", "framework"]
  const ResultWords: seq<string> := ["result", "performance", "evaluation", "experiment"]

  const ChecklistItems: seq<string> := [
    "search_strategy_documented",
    "inclusion_criteria_clear",
    "exclusion_criteria_clear",
    "study_selection_process",
    "data_extraction_systematic",
    "quality_assessment_performed",
    "results_synthesized",
    "limitations_discussed"
  ]

  // ---------------------------------------------------------------------------------------------
  // Filter reward

  function LowerChar(c: char): char
  {
    if 'A' <= c <= 'Z' then (c as int + 32) as char else c
  }

  /** `str.lower()`, for ASCII letters. */
  function Lower(s: string): string
  {
    seq(|s|, i requires 0 <= i < |s| => LowerChar(s[i]))
  }

  predicate OccursAt(text: string, word: string, i: int)
  {
    0 <= i && i + |word| <= |text| && text[i..i + |word|] == word
  }

  /** Python's substring test `word in text`. */
  predicate Contains(text: string, word: string)
  {
    exists i :: 0 <= i <= |text| - |word| && OccursAt(text, word, i)
  }

  /** `any(word in text.lower() for word in words)`. */
  predicate MentionsAny(text: string, words: seq<string>)
  {
    exists k :: 0 <= k < |words| && Contains(Lower(text), words[k])
  }

  predicate HasMethodology(text: string) { MentionsAny(text, MethodologyWords) }

  predicate HasResults(text: string) { MentionsAny(text, ResultWords) }

  function AbstractOf(p: PaperData): string { p.abstractText.GetOr("") }

  function CitationsOf(p: PaperData): int { p.citationCount.GetOr(0) }

  /** The reward for a decision before any ground-truth adjustment. */
  function BaseFilterReward(p: PaperData, decision: int): (b: real)
    ensures 0.0 <= b <= 1.0
  {
    var methodology := HasMethodology(AbstractOf(p));
    var results := HasResults(AbstractOf(p));
    if decision == 1 then
      0.5 + (if methodology && results then 0.3 else 0.0) + (if CitationsOf(p) > 10 then 0.2 else 0.0)
    else if decision == 0 then
      0.1 + (if !methodology || !results then 0.2 else 0.0)
    else
      0.0
  }

  /** `compute_filter_reward(paper_data, decision, ground_truth)`. */
  function FilterReward(p: PaperData, decision: int, groundTruth: Option<int>): (r: real)
    ensures -1.0 <= r <= 1.0
    ensures groundTruth == None ==> r == BaseFilterReward(p, decision)
  {
    var base := BaseFilterReward(p, decision);
    var adjusted :=
      if groundTruth == None then base
      else if decision == groundTruth.value then base + 0.5
      else base - 0.3;
    Clip(adjusted, -1.0, 1.0)
  }

  /** A cited paper with both keyword groups: 1.0 when the inclusion is right, 0.7 when wrong. */
  lemma StrongPaperInclusion(p: PaperData)
    requires HasMethodology(AbstractOf(p)) && HasResults(AbstractOf(p)) && CitationsOf(p) > 10
    ensures FilterReward(p, 1, Some(1)) == 1.0
    ensures FilterReward(p, 1, Some(0)) == 0.7
  {
  }

  /** Correctly excluding a paper that lacks a keyword group scores 0.8. */
  lemma WeakPaperExclusion(p: PaperData)
    requires !HasMethodology(AbstractOf(p)) || !HasResults(AbstractOf(p))
    ensures FilterReward(p, 0, Some(0)) == 0.8
  {
  }

  /** A decision other than 0 or 1 earns nothing of its own: only the ground-truth term remains. */
  lemma UnknownDecisionReward(p: PaperData, decision: int, groundTruth: Option<int>)
    requires decision != 0 && decision != 1
    ensures FilterReward(p, decision, groundTruth) ==
      if groundTruth == None then 0.0
      else if groundTruth.value == decision then 0.5
      else -0.3
  {
  }

  /**
   * For the same paper and decision, a matching ground truth never scores below no ground truth,
   * which scores strictly above a mismatching one.
   */
  lemma CorrectDecisionRewardedMore(p: PaperData, decision: int, wrong: int)
    requires wrong != decision
    ensures FilterReward(p, decision, Some(decision)) >= FilterReward(p, decision, None)
    ensures FilterReward(p, decision, None) > FilterReward(p, decision, Some(wrong))
  {
  }

  /** Keyword detection ignores letter case. */
  lemma KeywordsIgnoreCase(s: string, t: string, citations: Option<int>, decision: int, groundTruth: Option<int>)
    requires Lower(s) == Lower(t)
    ensures FilterReward(PaperData(Some(s), citations), decision, groundTruth) ==
            FilterReward(PaperData(Some(t), citations), decision, groundTruth)
  {
  }

  /** "Methodology" contains the keyword "method". */
  lemma CapitalisedKeywordDetected()
    ensures HasMethodology("Methodology")
  {
    var low := Lower("Methodology");
    assert low[..6] == "method";
    assert OccursAt(low, MethodologyWords[0], 0);
    assert Contains(low, MethodologyWords[0]);
  }

  /** A missing abstract reads as "" and a missing citation count as 0. */
  lemma MissingFieldsDefault(decision: int, groundTruth: Option<int>)
    ensures FilterReward(PaperData(None, None), decision, groundTruth) ==
            FilterReward(PaperData(Some(""), Some(0)), decision, groundTruth)
  {
  }

  // ---------------------------------------------------------------------------------------------
  // PRISMA checklist reward

  /** `review_data.get(item, 0)`. */
  function ItemScore(review: map<string, real>, item: string): real
  {
    if item in review then review[item] else 0.0
  }

  function ChecklistScores(review: map<string, real>): (s: seq<real>)
    ensures |s| == |ChecklistItems|
  {
    seq(|ChecklistItems|, i requires 0 <= i < |ChecklistItems| => ItemScore(review, ChecklistItems[i]))
  }

  function ComplianceMean(review: map<string, real>): real
  {
    Mean(ChecklistScores(review))
  }

  /** `compute_prisma_reward(review_data)`. */
  function PrismaReward(review: map<string, real>): (r: real)
    ensures 0.0 <= r <= 1.0
  {
    var m := ComplianceMean(review);
    Clip(if m > 0.8 then m + 0.2 else m, 0.0, 1.0)
  }

  /** Above a mean of 0.8 the bonus saturates the score; from 0 to 0.8 the score is the mean. */
  lemma PrismaRewardShape(review: map<string, real>)
    ensures ComplianceMean(review) > 0.8 ==> PrismaReward(review) == 1.0
    ensures 0.0 <= ComplianceMean(review) <= 0.8 ==> PrismaReward(review) == ComplianceMean(review)
    ensures ComplianceMean(review) < 0.0 ==> PrismaReward(review) == 0.0
  {
  }

  /** Raising any checklist item never lowers the reward. */
  lemma PrismaMonotone(a: map<string, real>, b: map<string, real>)
    requires forall i :: 0 <= i < |ChecklistItems| ==> ItemScore(a, ChecklistItems[i]) <= ItemScore(b, ChecklistItems[i])
    ensures PrismaReward(a) <= PrismaReward(b)
  {
    SumMonotone(ChecklistScores(a), ChecklistScores(b));
  }

  /** Every item at 1.0 scores exactly 1.0. */
  lemma PrismaAllOnes(review: map<string, real>)
    requires forall i :: 0 <= i < |ChecklistItems| ==> ItemScore(review, ChecklistItems[i]) == 1.0
    ensures PrismaReward(review) == 1.0
  {
    MeanConstant(ChecklistScores(review), 1.0);
  }

  /**
   * A checklist with one item at 0 and the other seven at 1.0 also scores exactly 1.0:
   * its mean 0.875 exceeds 0.8, so the bonus lifts it to the clip bound.
   */
  lemma PrismaOneItemMissing(review: map<string, real>, k: nat)
    requires k < |ChecklistItems|
    requires ItemScore(review, ChecklistItems[k]) == 0.0
    requires forall i :: 0 <= i < |ChecklistItems| && i != k ==> ItemScore(review, ChecklistItems[i]) == 1.0
    ensures ComplianceMean(review) == 0.875
    ensures PrismaReward(review) == 1.0
  {
    var s := ChecklistScores(review);
    var rest := s[..k] + s[k + 1..];
    SumRemove(s, k);
    assert forall i :: 0 <= i < |rest| ==> rest[i] == 1.0 by {
      forall i | 0 <= i < |rest|
        ensures rest[i] == 1.0
      {
        if i < k { assert rest[i] == s[i]; } else { assert rest[i] == s[i + 1]; }
      }
    }
    SumBounds(rest, 1.0, 1.0);
  }

  /** The dashboard's checklist (six items at 1, then 0.9 and 0.6) has mean 0.9375 and scores 1.0. */
  lemma PrismaDashboardExample(review: map<string, real>)
    requires forall i :: 0 <= i < 6 ==> ItemScore(review, ChecklistItems[i]) == 1.0
    requires ItemScore(review, ChecklistItems[6]) == 0.9
    requires ItemScore(review, ChecklistItems[7]) == 0.6
    ensures ComplianceMean(review) == 0.9375
    ensures PrismaReward(review) == 1.0
  {
    var s := ChecklistScores(review);
    assert s[..6] + [s[6]] + [s[7]] == s;
    SumBounds(s[..6], 1.0, 1.0);
    SumConcat(s[..6] + [s[6]], [s[7]]);
    SumConcat(s[..6], [s[6]]);
    assert Sum([s[6]]) == 0.9 by { assert [s[6]][..0] == []; }
    assert Sum([s[7]]) == 0.6 by { assert [s[7]][..0] == []; }
  }

  // ---------------------------------------------------------------------------------------------
  // Human feedback shaping

  /** `f.get(key, 0.5)`. */
  function FeedbackValue(f: Feedback, key: string): real
  {
    if key in f then f[key] else 0.5
  }

  function RelevanceOf(window: seq<Feedback>): seq<real>
  {
    seq(|window|, i requires 0 <= i < |window| => FeedbackValue(window[i], "relevance"))
  }

  function QualityOf(window: seq<Feedback>): seq<real>
  {
    seq(|window|, i requires 0 <= i < |window| => FeedbackValue(window[i], "quality"))
  }

  /** The score of a window of recent feedback, rescaled from [0, 1] to [-1, 1]; 0.0 for no feedback. */
  function RecentScore(window: seq<Feedback>): real
  {
    if |window| == 0 then 0.0
    else (0.6 * Mean(RelevanceOf(window)) + 0.4 * Mean(QualityOf(window)) - 0.5) * 2.0
  }

  predicate InUnitRange(f: Feedback)
  {
    && ("relevance" in f ==> 0.0 <= f["relevance"] <= 1.0)
    && ("quality" in f ==> 0.0 <= f["quality"] <= 1.0)
  }

  /** Feedback values within [0, 1] give a score within [-1, 1]. */
  lemma RecentScoreRange(window: seq<Feedback>)
    requires forall i :: 0 <= i < |window| ==> InUnitRange(window[i])
    ensures -1.0 <= RecentScore(window) <= 1.0
  {
    if |window| > 0 {
      MeanBounds(RelevanceOf(window), 0.0, 1.0);
      MeanBounds(QualityOf(window), 0.0, 1.0);
    }
  }

  /** Feedback that names neither relevance nor quality counts as 0.5 for both: a neutral 0.0. */
  lemma NeutralFeedbackScoresZero(window: seq<Feedback>)
    requires forall i :: 0 <= i < |window| ==> "relevance" !in window[i] && "quality" !in window[i]
    ensures RecentScore(window) == 0.0
  {
    if |window| > 0 {
      MeanConstant(RelevanceOf(window), 0.5);
      MeanConstant(QualityOf(window), 0.5);
    }
  }

  /**
   * After appending to a history of at most 1000 entries, the last-10 window holds the newest
   * min(10, n + 1) entries, ends with the new feedback, and is unaffected by the eviction.
   */
  lemma FeedbackWindowAfterAppend(history: seq<Feedback>, f: Feedback)
    requires |history| <= HistoryCapacity
    ensures var w := Last(BoundedAppend(history, f, HistoryCapacity), FeedbackWindow);
            && w == Last(history + [f], FeedbackWindow)
            && |w| == Min(FeedbackWindow, |history| + 1)
            && w[|w| - 1] == f
  {
    var t := history + [f];
    var h := BoundedAppend(history, f, HistoryCapacity);
    var w := Last(h, FeedbackWindow);
    var v := Last(t, FeedbackWindow);
    assert |w| == |v|;
    forall i | 0 <= i < |w|
      ensures w[i] == v[i]
    {
      assert w[i] == h[|h| - |w| + i];
      assert h[|h| - |w| + i] == t[|t| - |w| + i];
    }
  }

  // ---------------------------------------------------------------------------------------------
  // Search reward and diversity

  function Embeddings(papers: seq<Paper>, embed: string -> Embedding): (es: seq<Embedding>)
    ensures |es| == |papers|
  {
    seq(|papers|, i requires 0 <= i < |papers| => embed(papers[i].summary))
  }

  /** Similarities of embedding `i` with every later embedding, in order. */
  function PairRow(es: seq<Embedding>, i: nat, cosine: (Embedding, Embedding) -> real): (row: seq<real>)
    requires i < |es|
    ensures |row| == |es| - i - 1
  {
    seq(|es| - i - 1, k requires 0 <= k < |es| - i - 1 => cosine(es[i], es[i + 1 + k]))
  }

  /** The pairwise similarities produced by the first `rows` iterations of the outer loop. */
  function PairSims(es: seq<Embedding>, cosine: (Embedding, Embedding) -> real, rows: nat): seq<real>
    requires rows <= |es|
    decreases rows
  {
    if rows == 0 then [] else PairSims(es, cosine, rows - 1) + PairRow(es, rows - 1, cosine)
  }

  /** The nested loop yields n·(n−1)/2 similarities in all. */
  lemma {:induction false} PairCount(es: seq<Embedding>, cosine: (Embedding, Embedding) -> real, rows: nat)
    requires rows <= |es|
    ensures 2 * |PairSims(es, cosine, rows)| == rows * (2 * |es| - rows - 1)
    decreases rows
  {
    if rows > 0 {
      PairCount(es, cosine, rows - 1);
      var n, r := |es|, rows;
      assert (r - 1) * (2 * n - (r - 1) - 1) + 2 * (n - r) == r * (2 * n - r - 1);
    }
  }

  /** Every entry of the similarity list is the similarity of some pair i < j. */
  lemma {:induction false} PairSimsFromPairs(es: seq<Embedding>, cosine: (Embedding, Embedding) -> real, rows: nat, x: nat)
    requires rows <= |es|
    requires x < |PairSims(es, cosine, rows)|
    ensures exists i, j :: 0 <= i < j < |es| && PairSims(es, cosine, rows)[x] == cosine(es[i], es[j])
    decreases rows
  {
    var prev := PairSims(es, cosine, rows - 1);
    var row := PairRow(es, rows - 1, cosine);
    if x < |prev| {
      PairSimsFromPairs(es, cosine, rows - 1, x);
    } else {
      var k := x - |prev|;
      assert PairSims(es, cosine, rows)[x] == row[k] == cosine(es[rows - 1], es[rows + k]);
    }
  }

  /** `calculate_diversity`: one minus the mean pairwise similarity, floored at 0; 0 below two papers. */
  function Diversity(es: seq<Embedding>, cosine: (Embedding, Embedding) -> real): (d: real)
    ensures d >= 0.0
    ensures |es| < 2 ==> d == 0.0
  {
    if |es| < 2 then 0.0
    else
      PairCount(es, cosine, |es|);
      Max(0.0, 1.0 - Mean(PairSims(es, cosine, |es|)))
  }

  /** Similarities within [-1, 1] give a diversity within [0, 2]. */
  lemma DiversityBounded(es: seq<Embedding>, cosine: (Embedding, Embedding) -> real)
    requires forall i, j :: 0 <= i < j < |es| ==> -1.0 <= cosine(es[i], es[j]) <= 1.0
    ensures 0.0 <= Diversity(es, cosine) <= 2.0
  {
    if |es| >= 2 {
      var sims := PairSims(es, cosine, |es|);
      PairCount(es, cosine, |es|);
      forall x | 0 <= x < |sims|
        ensures -1.0 <= sims[x] <= 1.0
      {
        PairSimsFromPairs(es, cosine, |es|, x);
      }
      MeanBounds(sims, -1.0, 1.0);
    }
  }

  /** Cosine similarity of the query with each paper's embedded summary. */
  function RelevanceScores(papers: seq<Paper>, query: Embedding, embed: string -> Embedding,
                           cosine: (Embedding, Embedding) -> real): (s: seq<real>)
    ensures |s| == |papers|
  {
    seq(|papers|, i requires 0 <= i < |papers| => cosine(query, embed(papers[i].summary)))
  }

  /** Python truthiness of `human_feedback`: present and a non-empty dict. */
  predicate Truthy(feedback: Option<Feedback>)
  {
    feedback.Some? && |feedback.value| > 0
  }

  function CombineSearchReward(avgRelevance: real, diversity: real, feedbackScore: real): (r: real)
    ensures -1.0 <= r <= 1.0
  {
    Clip(avgRelevance + DiversityBonus * diversity + HumanFeedbackWeight * feedbackScore, -1.0, 1.0)
  }

  /**
   * The reward `compute_search_reward` returns and the feedback history it leaves, given the
   * history before the call.
   */
  function SearchOutcome(papers: seq<Paper>, query: Embedding, feedback: Option<Feedback>,
                         history: seq<Feedback>, embed: string -> Embedding,
                         cosine: (Embedding, Embedding) -> real): (out: (real, seq<Feedback>))
    requires |history| <= HistoryCapacity
    ensures -1.0 <= out.0 <= 1.0
    ensures |out.1| <= HistoryCapacity
    ensures |papers| == 0 ==> out == (-1.0, history)
    ensures !Truthy(feedback) ==> out.1 == history
    ensures |papers| > 0 && Truthy(feedback) ==> out.1 == BoundedAppend(history, feedback.value, HistoryCapacity)
  {
    if |papers| == 0 then (-1.0, history)
    else
      var avgRelevance := Mean(RelevanceScores(papers, query, embed, cosine));
      var diversity := Diversity(Embeddings(papers, embed), cosine);
      if Truthy(feedback) then
        var h := BoundedAppend(history, feedback.value, HistoryCapacity);
        (CombineSearchReward(avgRelevance, diversity, RecentScore(Last(h, FeedbackWindow))), h)
      else
        (CombineSearchReward(avgRelevance, diversity, 0.0), history)
  }

  /** An empty feedback dict behaves exactly like no feedback. */
  lemma EmptyFeedbackIgnored(papers: seq<Paper>, query: Embedding, history: seq<Feedback>,
                             embed: string -> Embedding, cosine: (Embedding, Embedding) -> real)
    requires |history| <= HistoryCapacity
    ensures SearchOutcome(papers, query, Some(map[]), history, embed, cosine) ==
            SearchOutcome(papers, query, None, history, embed, cosine)
  {
  }

  /** The reward system: the embedding model plus the rolling human-feedback history. */
  class RewardSystem {
    const embed: string -> Embedding
    const cosine: (Embedding, Embedding) -> real
    var feedbackHistory: seq<Feedback>

    ghost predicate Valid()
      reads this
    {
      |feedbackHistory| <= HistoryCapacity
    }

    constructor (embed: string -> Embedding, cosine: (Embedding, Embedding) -> real)
      ensures Valid()
      ensures this.embed == embed && this.cosine == cosine
      ensures feedbackHistory == []
    {
      this.embed := embed;
      this.cosine := cosine;
      feedbackHistory := [];
    }

    /** `compute_search_reward(papers, query_embedding, human_feedback)`. */
    method ComputeSearchReward(papers: seq<Paper>, queryEmbedding: Embedding, humanFeedback: Option<Feedback>)
      returns (reward: real)
      requires Valid()
      modifies this
      ensures Valid()
      ensures (reward, feedbackHistory) ==
              SearchOutcome(papers, queryEmbedding, humanFeedback, old(feedbackHistory), embed, cosine)
    {
      if |papers| == 0 {
        return -1.0;
      }
      var relevanceScores: seq<real> := [];
      for i := 0 to |papers|
        invariant relevanceScores == RelevanceScores(papers, queryEmbedding, embed, cosine)[..i]
      {
        var paperEmbedding := embed(papers[i].summary);
        relevanceScores := relevanceScores + [cosine(queryEmbedding, paperEmbedding)];
      }
      assert relevanceScores == RelevanceScores(papers, queryEmbedding, embed, cosine);
      var avgRelevance := Mean(relevanceScores);
      var diversityScore := CalculateDiversity(papers);
      var feedbackScore := 0.0;
      if Truthy(humanFeedback) {
        feedbackScore := IntegrateHumanFeedback(humanFeedback.value);
      }
      reward := CombineSearchReward(avgRelevance, diversityScore, feedbackScore);
    }

    /** `calculate_diversity(papers)`, with its nested loop over pairs. */
    method CalculateDiversity(papers: seq<Paper>) returns (diversity: real)
      ensures diversity == Diversity(Embeddings(papers, embed), cosine)
      ensures diversity >= 0.0
      ensures |papers| < 2 ==> diversity == 0.0
    {
      if |papers| < 2 {
        return 0.0;
      }
      var embeddings := Embeddings(papers, embed);
      var similarities: seq<real> := [];
      var i := 0;
      while i < |embeddings|
        invariant 0 <= i <= |embeddings|
        invariant similarities == PairSims(embeddings, cosine, i)
      {
        var j := i + 1;
        while j < |embeddings|
          invariant i + 1 <= j <= |embeddings|
          invariant similarities == PairSims(embeddings, cosine, i) + PairRow(embeddings, i, cosine)[..j - i - 1]
        {
          similarities := similarities + [cosine(embeddings[i], embeddings[j])];
          j := j + 1;
        }
        assert PairRow(embeddings, i, cosine)[..j - i - 1] == PairRow(embeddings, i, cosine);
        i := i + 1;
      }
      PairCount(embeddings, cosine, |embeddings|);
      var avgSimilarity := Mean(similarities);
      diversity := Max(0.0, 1.0 - avgSimilarity);
    }

    /** `integrate_human_feedback(feedback)`: append to the bounded history, score the last 10. */
    method IntegrateHumanFeedback(feedback: Feedback) returns (score: real)
      requires Valid()
      modifies this
      ensures Valid()
      ensures feedbackHistory == BoundedAppend(old(feedbackHistory), feedback, HistoryCapacity)
      ensures score == RecentScore(Last(feedbackHistory, FeedbackWindow))
    {
      feedbackHistory := BoundedAppend(feedbackHistory, feedback, HistoryCapacity);
      var recentFeedback := Last(feedbackHistory, FeedbackWindow);
      score := RecentScore(recentFeedback);
    }
  }
}
