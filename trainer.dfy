/**
 * The training orchestration (`PRISMAAgentTrainer.train`): for every epoch and every labelled
 * sample it feeds one transition to the search agent and one per screened paper (at most five)
 * to the abstract agent and to the full-text agent, then calls each agent's training step once.
 *
 * The three agents are modelled as append-only logs of what the trainer does to them: each
 * `remember(...)` call and each `train()` call is one event. The full-text decisions, which the
 * source draws with `np.random.choice([0, 1])` as a placeholder, come from a parameter
 * `coin(epoch, sample, paper)`.
 */
module Trainer {
  import opened Common
  import opened Rewards

  /**
   * One labelled training sample; every key except "query" may be absent and then takes the
   * source's default (no papers, search action 0, no decisions, no labels, no feedback).
   */
  datatype Sample = Sample(
    query: string,
    papers: Option<seq<Paper>>,
    searchAction: Option<int>,
    filterDecisions: Option<seq<int>>,
    groundTruthLabels: Option<map<int, int>>,
    humanFeedback: Option<Feedback>)

  /** Papers screened per sample: `papers[:5]`. */
  const PapersPerSample: nat := 5

  function PapersOf(s: Sample): seq<Paper> { s.papers.GetOr([]) }

  function Screened(s: Sample): (ps: seq<Paper>)
    ensures |ps| == Min(PapersPerSample, |PapersOf(s)|)
  {
    PapersOf(s)[..Min(PapersPerSample, |PapersOf(s)|)]
  }

  /** `filter_decisions[i] if i < len(filter_decisions) else 1`. */
  function AbstractDecision(s: Sample, i: nat): int
  {
    var decisions := s.filterDecisions.GetOr([]);
    if i < |decisions| then decisions[i] else 1
  }

  /** `ground_truth_labels.get(i)`. */
  function GroundTruth(s: Sample, i: nat): Option<int>
  {
    var labels := s.groundTruthLabels.GetOr(map[]);
    if i in labels then Some(labels[i]) else None
  }

  /** The filter-reward input the trainer builds: the summary, and a citation count of 0. */
  function ScreeningInput(p: Paper): PaperData
  {
    PaperData(Some(p.summary), Some(0))
  }

  /** What the abstract agent is given for paper `i` of a sample. */
  function AbstractTransition(s: Sample, i: nat, embed: string -> Embedding): Transition
    requires i < |Screened(s)|
  {
    var paper := Screened(s)[i];
    var state := embed(paper.summary);
    var decision := AbstractDecision(s, i);
    Transition(state, decision, FilterReward(ScreeningInput(paper), decision, GroundTruth(s, i)), state, true)
  }

  function AbstractTransitions(s: Sample, embed: string -> Embedding): (ts: seq<Transition>)
    ensures |ts| == |Screened(s)|
  {
    seq(|Screened(s)|, i requires 0 <= i < |Screened(s)| => AbstractTransition(s, i, embed))
  }

  /** What the full-text agent is given for paper `i` of sample `k` in epoch `epoch`. */
  function FullTextTransition(s: Sample, i: nat, embed: string -> Embedding,
                              coin: (nat, nat, nat) -> bool, epoch: nat, k: nat): Transition
    requires i < |Screened(s)|
  {
    var paper := Screened(s)[i];
    var state := embed(paper.summary);
    var decision := if coin(epoch, k, i) then 1 else 0;
    Transition(state, decision, FilterReward(ScreeningInput(paper), decision, None), state, true)
  }

  function FullTextTransitions(s: Sample, embed: string -> Embedding,
                               coin: (nat, nat, nat) -> bool, epoch: nat, k: nat): (ts: seq<Transition>)
    ensures |ts| == |Screened(s)|
  {
    seq(|Screened(s)|, i requires 0 <= i < |Screened(s)| => FullTextTransition(s, i, embed, coin, epoch, k))
  }

  /** The abstract agent's transitions for the first `n` samples of an epoch, in order. */
  function AbstractPrefix(data: seq<Sample>, n: nat, embed: string -> Embedding): seq<Transition>
    requires n <= |data|
  {
    if n == 0 then [] else AbstractPrefix(data, n - 1, embed) + AbstractTransitions(data[n - 1], embed)
  }

  /** The full-text agent's transitions for the first `n` samples of epoch `epoch`, in order. */
  function FullTextPrefix(data: seq<Sample>, n: nat, embed: string -> Embedding,
                          coin: (nat, nat, nat) -> bool, epoch: nat): seq<Transition>
    requires n <= |data|
  {
    if n == 0 then []
    else FullTextPrefix(data, n - 1, embed, coin, epoch) + FullTextTransitions(data[n - 1], embed, coin, epoch, n - 1)
  }

  /** Σ min(5, |papers|) over the first `n` samples. */
  function ScreenedCount(data: seq<Sample>, n: nat): nat
    requires n <= |data|
  {
    if n == 0 then 0 else ScreenedCount(data, n - 1) + |Screened(data[n - 1])|
  }

  function EpochAbstract(data: seq<Sample>, embed: string -> Embedding): seq<Transition>
  {
    AbstractPrefix(data, |data|, embed)
  }

  function EpochFullText(data: seq<Sample>, embed: string -> Embedding,
                         coin: (nat, nat, nat) -> bool, epoch: nat): seq<Transition>
  {
    FullTextPrefix(data, |data|, embed, coin, epoch)
  }

  function ScreenedTotal(data: seq<Sample>): nat
  {
    ScreenedCount(data, |data|)
  }

  /** Both screening agents receive Σ min(5, |papers|) transitions for the first `n` samples. */
  lemma {:induction false} ScreeningCounts(data: seq<Sample>, n: nat, embed: string -> Embedding,
                                           coin: (nat, nat, nat) -> bool, epoch: nat)
    requires n <= |data|
    ensures |AbstractPrefix(data, n, embed)| == ScreenedCount(data, n)
    ensures |FullTextPrefix(data, n, embed, coin, epoch)| == ScreenedCount(data, n)
  {
    if n > 0 {
      ScreeningCounts(data, n - 1, embed, coin, epoch);
    }
  }

  /**
   * Every screening transition is terminal with next_state equal to state. The citation bonus
   * never applies (the trainer passes a count of 0), and full-text rewards carry no
   * ground-truth term, so they are exactly the base reward of a decision in {0, 1}.
   */
  lemma ScreeningTransitionFacts(s: Sample, i: nat, embed: string -> Embedding,
                                 coin: (nat, nat, nat) -> bool, epoch: nat, k: nat)
    requires i < |Screened(s)|
    ensures var t := AbstractTransition(s, i, embed);
            && t.done && t.nextState == t.state
            && t.action == AbstractDecision(s, i)
            && BaseFilterReward(ScreeningInput(Screened(s)[i]), t.action) <= 0.8
    ensures var t := FullTextTransition(s, i, embed, coin, epoch, k);
            && t.done && t.nextState == t.state
            && (t.action == 0 || t.action == 1)
            && t.reward == BaseFilterReward(ScreeningInput(Screened(s)[i]), t.action)
            && t.reward <= 0.8
  {
  }

  /** The search transition the trainer builds for a sample whose search reward is `reward`. */
  function SearchTransition(s: Sample, embed: string -> Embedding, reward: real): (t: Transition)
    ensures t.state == embed(s.query) && t.action == s.searchAction.GetOr(0) && t.done
    ensures |t.nextState| == |t.state| + 2 && t.nextState[..|t.state|] == t.state
    ensures t.nextState[|t.state|] == |PapersOf(s)| as real && t.nextState[|t.state| + 1] == reward
  {
    var state := embed(s.query);
    Transition(state, s.searchAction.GetOr(0), reward, state + [|PapersOf(s)| as real, reward], true)
  }

  /** What the reward system guarantees of every search reward: [-1, 1], and −1 without papers. */
  predicate PlausibleSearchReward(s: Sample, reward: real)
  {
    && -1.0 <= reward <= 1.0
    && (|PapersOf(s)| == 0 ==> reward == -1.0)
  }

  function RewardsOf(ts: seq<Transition>): (rs: seq<real>)
    ensures |rs| == |ts|
  {
    seq(|ts|, i requires 0 <= i < |ts| => ts[i].reward)
  }

  /**
   * The search transitions of the first samples of an epoch, given their search rewards (one
   * reward per sample, in order).
   */
  function SearchTransitions(data: seq<Sample>, embed: string -> Embedding, rewards: seq<real>): (ts: seq<Transition>)
    ensures |ts| == Min(|data|, |rewards|)
    ensures |rewards| <= |data| ==> RewardsOf(ts) == rewards
  {
    var n := Min(|data|, |rewards|);
    var ts := seq(n, k requires 0 <= k < n => SearchTransition(data[k], embed, rewards[k]));
    assert |rewards| <= |data| ==> RewardsOf(ts) == rewards;
    ts
  }

  /** Search rewards for the first samples of an epoch, each plausible for its sample. */
  predicate PlausibleRewards(data: seq<Sample>, rewards: seq<real>)
  {
    && |rewards| <= |data|
    && forall k :: 0 <= k < |rewards| ==> PlausibleSearchReward(data[k], rewards[k])
  }

  /** One whole epoch's search rewards. */
  predicate PlausibleEpoch(data: seq<Sample>, rewards: seq<real>)
  {
    |rewards| == |data| && PlausibleRewards(data, rewards)
  }

  predicate SearchLog(data: seq<Sample>, log: seq<seq<real>>)
  {
    forall e :: 0 <= e < |log| ==> PlausibleEpoch(data, log[e])
  }

  // ---------------------------------------------------------------------------------------------
  // Agents as logs

  datatype AgentEvent = Remembered(transition: Transition) | Trained

  function Stored(ts: seq<Transition>): (es: seq<AgentEvent>)
    ensures |es| == |ts|
  {
    seq(|ts|, i requires 0 <= i < |ts| => Remembered(ts[i]))
  }

  /** How many training calls a log records. */
  function TrainCalls(events: seq<AgentEvent>): nat
  {
    multiset(events)[Trained]
  }

  /** One epoch of an agent: its transitions, then one training call. */
  function EpochEvents(ts: seq<Transition>): (es: seq<AgentEvent>)
    ensures |es| == |ts| + 1
    ensures forall i :: 0 <= i < |ts| ==> es[i] == Remembered(ts[i])
    ensures es[|ts|] == Trained
    ensures TrainCalls(es) == 1
  {
    var es := Stored(ts) + [Trained];
    assert Trained !in Stored(ts);
    es
  }

  /** The events of consecutive epochs, one block per epoch, in order. */
  function Concat(blocks: seq<seq<AgentEvent>>): seq<AgentEvent>
    decreases |blocks|
  {
    if |blocks| == 0 then [] else Concat(blocks[..|blocks| - 1]) + blocks[|blocks| - 1]
  }

  lemma ConcatSnoc(blocks: seq<seq<AgentEvent>>, block: seq<AgentEvent>)
    ensures Concat(blocks + [block]) == Concat(blocks) + block
  {
    assert (blocks + [block])[..|blocks|] == blocks;
  }

  /** Blocks of `c` events with one training call each add up to one call and `c` events per block. */
  lemma {:induction false} ConcatCounts(blocks: seq<seq<AgentEvent>>, c: nat)
    requires forall e :: 0 <= e < |blocks| ==> TrainCalls(blocks[e]) == 1 && |blocks[e]| == c
    ensures TrainCalls(Concat(blocks)) == |blocks|
    ensures |Concat(blocks)| == |blocks| * c
    decreases |blocks|
  {
    if |blocks| > 0 {
      var n := |blocks|;
      var front := blocks[..n - 1];
      assert forall e :: 0 <= e < |front| ==> front[e] == blocks[e];
      ConcatCounts(front, c);
      CountStep(Concat(front), blocks[n - 1], n, c);
    }
  }

  /** The same epoch `n` times over. */
  function Repeat(block: seq<AgentEvent>, n: nat): seq<AgentEvent>
  {
    Concat(seq(n, e => block))
  }

  function FullTextEpochs(data: seq<Sample>, embed: string -> Embedding, coin: (nat, nat, nat) -> bool, n: nat)
    : (blocks: seq<seq<AgentEvent>>)
    ensures |blocks| == n
  {
    seq(n, e requires 0 <= e < n => EpochEvents(EpochFullText(data, embed, coin, e)))
  }

  /** The full-text agent's events over `n` epochs. */
  function FullTextRun(data: seq<Sample>, embed: string -> Embedding, coin: (nat, nat, nat) -> bool, n: nat): seq<AgentEvent>
  {
    Concat(FullTextEpochs(data, embed, coin, n))
  }

  function SearchEpochs(data: seq<Sample>, embed: string -> Embedding, log: seq<seq<real>>): (blocks: seq<seq<AgentEvent>>)
    ensures |blocks| == |log|
  {
    seq(|log|, e requires 0 <= e < |log| => EpochEvents(SearchTransitions(data, embed, log[e])))
  }

  /** The search agent's events over the epochs whose search rewards `log` lists, in order. */
  function SearchRun(data: seq<Sample>, embed: string -> Embedding, log: seq<seq<real>>): seq<AgentEvent>
  {
    Concat(SearchEpochs(data, embed, log))
  }

  /** Over `n` epochs the abstract agent is trained exactly `n` times, once after each epoch's transitions. */
  lemma ScreeningRunCounts(ts: seq<Transition>, n: nat)
    ensures TrainCalls(Repeat(EpochEvents(ts), n)) == n
    ensures |Repeat(EpochEvents(ts), n)| == n * (|ts| + 1)
  {
    ConcatCounts(seq(n, e => EpochEvents(ts)), |ts| + 1);
  }

  lemma EpochFullTextLength(data: seq<Sample>, embed: string -> Embedding, coin: (nat, nat, nat) -> bool, epoch: nat)
    ensures |EpochFullText(data, embed, coin, epoch)| == ScreenedTotal(data)
  {
    ScreeningCounts(data, |data|, embed, coin, epoch);
  }

  /** Over `n` epochs the full-text agent is trained exactly `n` times and stores n·Σ min(5, |papers|) transitions. */
  lemma FullTextRunCounts(data: seq<Sample>, embed: string -> Embedding, coin: (nat, nat, nat) -> bool, n: nat)
    ensures TrainCalls(FullTextRun(data, embed, coin, n)) == n
    ensures |FullTextRun(data, embed, coin, n)| == n * (ScreenedTotal(data) + 1)
  {
    var blocks := FullTextEpochs(data, embed, coin, n);
    forall e | 0 <= e < n
      ensures TrainCalls(blocks[e]) == 1 && |blocks[e]| == ScreenedTotal(data) + 1
    {
      EpochFullTextLength(data, embed, coin, e);
    }
    ConcatCounts(blocks, ScreenedTotal(data) + 1);
  }

  /** Over the logged epochs the search agent is trained once per epoch and stores one transition per sample per epoch. */
  lemma SearchRunCounts(data: seq<Sample>, embed: string -> Embedding, log: seq<seq<real>>)
    requires SearchLog(data, log)
    ensures TrainCalls(SearchRun(data, embed, log)) == |log|
    ensures |SearchRun(data, embed, log)| == |log| * (|data| + 1)
  {
    var blocks := SearchEpochs(data, embed, log);
    forall e | 0 <= e < |log|
      ensures TrainCalls(blocks[e]) == 1 && |blocks[e]| == |data| + 1
    {
      assert PlausibleEpoch(data, log[e]);
    }
    ConcatCounts(blocks, |data| + 1);
  }

  lemma MulSucc(n: nat, c: nat)
    requires n > 0
    ensures (n - 1) * c + c == n * c
  {
  }

  /** A log of `n - 1` epochs of `c` events each, followed by one more epoch. */
  lemma CountStep(run: seq<AgentEvent>, es: seq<AgentEvent>, n: nat, c: nat)
    requires n > 0
    requires TrainCalls(run) == n - 1 && |run| == (n - 1) * c
    requires TrainCalls(es) == 1 && |es| == c
    ensures TrainCalls(run + es) == n && |run + es| == n * c
  {
    assert multiset(run + es) == multiset(run) + multiset(es);
    MulSucc(n, c);
  }

  lemma StoredConcat(a: seq<Transition>, b: seq<Transition>)
    ensures Stored(a + b) == Stored(a) + Stored(b)
  {
  }

  lemma RewardsConcat(a: seq<Transition>, b: seq<Transition>)
    ensures RewardsOf(a + b) == RewardsOf(a) + RewardsOf(b)
  {
  }

  /**
   * After the first `k` samples of an epoch, each log has grown from its value at the start of
   * the epoch by exactly those samples' transitions, and the reward lists hold their rewards.
   */
  ghost predicate EpochSoFar(data: seq<Sample>, k: nat, embed: string -> Embedding, coin: (nat, nat, nat) -> bool, epoch: nat,
                             s0: seq<AgentEvent>, s: seq<AgentEvent>, searchRewards: seq<real>,
                             a0: seq<AgentEvent>, a: seq<AgentEvent>, abstractRewards: seq<real>,
                             f0: seq<AgentEvent>, f: seq<AgentEvent>, fulltextRewards: seq<real>)
    requires k <= |data|
  {
    && |searchRewards| == k
    && PlausibleRewards(data, searchRewards)
    && s == s0 + Stored(SearchTransitions(data, embed, searchRewards))
    && a == a0 + Stored(AbstractPrefix(data, k, embed))
    && abstractRewards == RewardsOf(AbstractPrefix(data, k, embed))
    && f == f0 + Stored(FullTextPrefix(data, k, embed, coin, epoch))
    && fulltextRewards == RewardsOf(FullTextPrefix(data, k, embed, coin, epoch))
  }

  lemma EpochStep(data: seq<Sample>, k: nat, embed: string -> Embedding, coin: (nat, nat, nat) -> bool, epoch: nat,
                  s0: seq<AgentEvent>, s: seq<AgentEvent>, searchRewards: seq<real>, r: real,
                  a0: seq<AgentEvent>, a: seq<AgentEvent>, abstractRewards: seq<real>,
                  f0: seq<AgentEvent>, f: seq<AgentEvent>, fulltextRewards: seq<real>)
    requires k < |data|
    requires EpochSoFar(data, k, embed, coin, epoch, s0, s, searchRewards, a0, a, abstractRewards, f0, f, fulltextRewards)
    requires PlausibleSearchReward(data[k], r)
    ensures EpochSoFar(data, k + 1, embed, coin, epoch,
                       s0, s + [Remembered(SearchTransition(data[k], embed, r))], searchRewards + [r],
                       a0, a + Stored(AbstractTransitions(data[k], embed)),
                       abstractRewards + RewardsOf(AbstractTransitions(data[k], embed)),
                       f0, f + Stored(FullTextTransitions(data[k], embed, coin, epoch, k)),
                       fulltextRewards + RewardsOf(FullTextTransitions(data[k], embed, coin, epoch, k)))
  {
    SearchStep(data, embed, s0, s, searchRewards, r);
    AbstractStep(data, k, embed, a0, a, abstractRewards);
    FullTextStep(data, k, embed, coin, epoch, f0, f, fulltextRewards);
  }

  lemma AbstractStep(data: seq<Sample>, k: nat, embed: string -> Embedding,
                     a0: seq<AgentEvent>, a: seq<AgentEvent>, rewards: seq<real>)
    requires k < |data|
    requires a == a0 + Stored(AbstractPrefix(data, k, embed))
    requires rewards == RewardsOf(AbstractPrefix(data, k, embed))
    ensures a + Stored(AbstractTransitions(data[k], embed)) == a0 + Stored(AbstractPrefix(data, k + 1, embed))
    ensures rewards + RewardsOf(AbstractTransitions(data[k], embed)) == RewardsOf(AbstractPrefix(data, k + 1, embed))
  {
    var before, more := AbstractPrefix(data, k, embed), AbstractTransitions(data[k], embed);
    StoredConcat(before, more);
    RewardsConcat(before, more);
    AppendStep(a0, a, Stored(before), Stored(more));
  }

  lemma FullTextStep(data: seq<Sample>, k: nat, embed: string -> Embedding, coin: (nat, nat, nat) -> bool, epoch: nat,
                     f0: seq<AgentEvent>, f: seq<AgentEvent>, rewards: seq<real>)
    requires k < |data|
    requires f == f0 + Stored(FullTextPrefix(data, k, embed, coin, epoch))
    requires rewards == RewardsOf(FullTextPrefix(data, k, embed, coin, epoch))
    ensures f + Stored(FullTextTransitions(data[k], embed, coin, epoch, k))
            == f0 + Stored(FullTextPrefix(data, k + 1, embed, coin, epoch))
    ensures rewards + RewardsOf(FullTextTransitions(data[k], embed, coin, epoch, k))
            == RewardsOf(FullTextPrefix(data, k + 1, embed, coin, epoch))
  {
    var before, more := FullTextPrefix(data, k, embed, coin, epoch), FullTextTransitions(data[k], embed, coin, epoch, k);
    StoredConcat(before, more);
    RewardsConcat(before, more);
    AppendStep(f0, f, Stored(before), Stored(more));
  }

  /** A log that was `l0 + grown` and then receives `more` is `l0 + (grown + more)`. */
  lemma AppendStep<T>(l0: seq<T>, l: seq<T>, grown: seq<T>, more: seq<T>)
    requires l == l0 + grown
    ensures l + more == l0 + (grown + more)
  {
  }

  lemma SearchStep(data: seq<Sample>, embed: string -> Embedding,
                   s0: seq<AgentEvent>, s: seq<AgentEvent>, searchRewards: seq<real>, r: real)
    requires |searchRewards| < |data|
    requires PlausibleRewards(data, searchRewards)
    requires s == s0 + Stored(SearchTransitions(data, embed, searchRewards))
    requires PlausibleSearchReward(data[|searchRewards|], r)
    ensures PlausibleRewards(data, searchRewards + [r])
    ensures s + [Remembered(SearchTransition(data[|searchRewards|], embed, r))]
            == s0 + Stored(SearchTransitions(data, embed, searchRewards + [r]))
  {
    var k := |searchRewards|;
    var rs := searchRewards + [r];
    var before := SearchTransitions(data, embed, searchRewards);
    var t := SearchTransition(data[k], embed, r);
    assert forall j :: 0 <= j < k ==> rs[j] == searchRewards[j];
    assert SearchTransitions(data, embed, rs) == before + [t];
    StoredConcat(before, [t]);
    AppendStep(s0, s, Stored(before), [Remembered(t)]);
  }

  /** After `n` epochs each log has grown by exactly `n` epochs of events. */
  ghost predicate TrainedSoFar(data: seq<Sample>, n: nat, embed: string -> Embedding, coin: (nat, nat, nat) -> bool,
                               s0: seq<AgentEvent>, s: seq<AgentEvent>, log: seq<seq<real>>,
                               a0: seq<AgentEvent>, a: seq<AgentEvent>, f0: seq<AgentEvent>, f: seq<AgentEvent>)
  {
    && |log| == n
    && SearchLog(data, log)
    && s == s0 + SearchRun(data, embed, log)
    && a == a0 + Repeat(EpochEvents(EpochAbstract(data, embed)), n)
    && f == f0 + FullTextRun(data, embed, coin, n)
  }

  lemma TrainedStep(data: seq<Sample>, n: nat, embed: string -> Embedding, coin: (nat, nat, nat) -> bool,
                    s0: seq<AgentEvent>, s: seq<AgentEvent>, log: seq<seq<real>>, rewards: seq<real>,
                    a0: seq<AgentEvent>, a: seq<AgentEvent>, f0: seq<AgentEvent>, f: seq<AgentEvent>)
    requires TrainedSoFar(data, n, embed, coin, s0, s, log, a0, a, f0, f)
    requires PlausibleEpoch(data, rewards)
    ensures TrainedSoFar(data, n + 1, embed, coin, s0, s + EpochEvents(SearchTransitions(data, embed, rewards)), log + [rewards],
                         a0, a + EpochEvents(EpochAbstract(data, embed)),
                         f0, f + EpochEvents(EpochFullText(data, embed, coin, n)))
  {
    SearchRunStep(data, embed, log, rewards);
    AppendStep(s0, s, SearchRun(data, embed, log), EpochEvents(SearchTransitions(data, embed, rewards)));
    RepeatStep(EpochEvents(EpochAbstract(data, embed)), n);
    AppendStep(a0, a, Repeat(EpochEvents(EpochAbstract(data, embed)), n), EpochEvents(EpochAbstract(data, embed)));
    FullTextRunStep(data, embed, coin, n);
    AppendStep(f0, f, FullTextRun(data, embed, coin, n), EpochEvents(EpochFullText(data, embed, coin, n)));
  }

  lemma SearchRunStep(data: seq<Sample>, embed: string -> Embedding, log: seq<seq<real>>, rewards: seq<real>)
    requires SearchLog(data, log)
    requires PlausibleEpoch(data, rewards)
    ensures SearchLog(data, log + [rewards])
    ensures SearchRun(data, embed, log + [rewards]) == SearchRun(data, embed, log) + EpochEvents(SearchTransitions(data, embed, rewards))
  {
    var log' := log + [rewards];
    assert forall e :: 0 <= e < |log'| ==> log'[e] == if e < |log| then log[e] else rewards;
    var block := EpochEvents(SearchTransitions(data, embed, rewards));
    assert SearchEpochs(data, embed, log') == SearchEpochs(data, embed, log) + [block];
    ConcatSnoc(SearchEpochs(data, embed, log), block);
  }

  lemma RepeatStep(block: seq<AgentEvent>, n: nat)
    ensures Repeat(block, n + 1) == Repeat(block, n) + block
  {
    assert seq(n + 1, e => block) == seq(n, e => block) + [block];
    ConcatSnoc(seq(n, e => block), block);
  }

  lemma FullTextRunStep(data: seq<Sample>, embed: string -> Embedding, coin: (nat, nat, nat) -> bool, n: nat)
    ensures FullTextRun(data, embed, coin, n + 1) == FullTextRun(data, embed, coin, n) + EpochEvents(EpochFullText(data, embed, coin, n))
  {
    var block := EpochEvents(EpochFullText(data, embed, coin, n));
    assert FullTextEpochs(data, embed, coin, n + 1) == FullTextEpochs(data, embed, coin, n) + [block];
    ConcatSnoc(FullTextEpochs(data, embed, coin, n), block);
  }

  /** An agent seen only through the calls made on it. */
  class AgentLog {
    var events: seq<AgentEvent>

    constructor ()
      ensures events == []
    {
      events := [];
    }

    method Remember(state: seq<real>, action: int, reward: real, nextState: seq<real>, done: bool)
      modifies this
      ensures events == old(events) + [Remembered(Transition(state, action, reward, nextState, done))]
    {
      events := events + [Remembered(Transition(state, action, reward, nextState, done))];
    }

    /** `train()`; for the full-text agent this stands for `learn()` (see README). */
    method Train()
      modifies this
      ensures events == old(events) + [Trained]
    {
      events := events + [Trained];
    }
  }

  class PrismaAgentTrainer {
    const searchAgent: AgentLog
    const abstractAgent: AgentLog
    const fulltextAgent: AgentLog
    const rewardSystem: RewardSystem

    ghost predicate Valid()
      reads this, rewardSystem
    {
      && searchAgent != abstractAgent
      && searchAgent != fulltextAgent
      && abstractAgent != fulltextAgent
      && rewardSystem.Valid()
    }

    constructor (embed: string -> Embedding, cosine: (Embedding, Embedding) -> real)
      ensures Valid()
      ensures fresh(searchAgent) && fresh(abstractAgent) && fresh(fulltextAgent) && fresh(rewardSystem)
      ensures searchAgent.events == [] && abstractAgent.events == [] && fulltextAgent.events == []
      ensures rewardSystem.embed == embed && rewardSystem.cosine == cosine && rewardSystem.feedbackHistory == []
    {
      searchAgent := new AgentLog();
      abstractAgent := new AgentLog();
      fulltextAgent := new AgentLog();
      rewardSystem := new RewardSystem(embed, cosine);
    }

    /** The "Search Agent" block for one sample. */
    method FeedSearchAgent(sample: Sample) returns (searchReward: real)
      requires Valid()
      modifies searchAgent, rewardSystem
      ensures Valid()
      ensures searchAgent.events == old(searchAgent.events) + [Remembered(SearchTransition(sample, rewardSystem.embed, searchReward))]
      ensures PlausibleSearchReward(sample, searchReward)
      ensures (searchReward, rewardSystem.feedbackHistory) ==
              SearchOutcome(PapersOf(sample), rewardSystem.embed(sample.query), sample.humanFeedback,
                            old(rewardSystem.feedbackHistory), rewardSystem.embed, rewardSystem.cosine)
    {
      var papers := PapersOf(sample);
      var queryEmbed := rewardSystem.embed(sample.query);
      var searchAction := sample.searchAction.GetOr(0);
      searchReward := rewardSystem.ComputeSearchReward(papers, queryEmbed, sample.humanFeedback);
      var nextState := queryEmbed + [|papers| as real, searchReward];
      searchAgent.Remember(queryEmbed, searchAction, searchReward, nextState, true);
    }

    /** The "Abstract Filter Agent" block for one sample. */
    method FeedAbstractAgent(sample: Sample) returns (rewards: seq<real>)
      modifies abstractAgent
      ensures abstractAgent.events == old(abstractAgent.events) + Stored(AbstractTransitions(sample, rewardSystem.embed))
      ensures rewards == RewardsOf(AbstractTransitions(sample, rewardSystem.embed))
    {
      var embed := rewardSystem.embed;
      var screened := Screened(sample);
      var filterDecisions := sample.filterDecisions.GetOr([]);
      ghost var expected := AbstractTransitions(sample, embed);
      rewards := [];
      for i := 0 to |screened|
        invariant abstractAgent.events == old(abstractAgent.events) + Stored(expected[..i])
        invariant rewards == RewardsOf(expected[..i])
      {
        var paperEmbed := embed(screened[i].summary);
        var decision := if i < |filterDecisions| then filterDecisions[i] else 1;
        var groundTruth := GroundTruth(sample, i);
        var reward := FilterReward(ScreeningInput(screened[i]), decision, groundTruth);
        abstractAgent.Remember(paperEmbed, decision, reward, paperEmbed, true);
        rewards := rewards + [reward];
        assert expected[..i + 1] == expected[..i] + [expected[i]];
        assert Stored(expected[..i + 1]) == Stored(expected[..i]) + [Remembered(expected[i])];
      }
      assert expected[..|screened|] == expected;
    }

    /** The "Full-Text Agent" block for sample `k` of epoch `epoch`. */
    method FeedFullTextAgent(sample: Sample, coin: (nat, nat, nat) -> bool, epoch: nat, k: nat) returns (rewards: seq<real>)
      modifies fulltextAgent
      ensures fulltextAgent.events ==
              old(fulltextAgent.events) + Stored(FullTextTransitions(sample, rewardSystem.embed, coin, epoch, k))
      ensures rewards == RewardsOf(FullTextTransitions(sample, rewardSystem.embed, coin, epoch, k))
    {
      var embed := rewardSystem.embed;
      var screened := Screened(sample);
      ghost var expected := FullTextTransitions(sample, embed, coin, epoch, k);
      rewards := [];
      for i := 0 to |screened|
        invariant fulltextAgent.events == old(fulltextAgent.events) + Stored(expected[..i])
        invariant rewards == RewardsOf(expected[..i])
      {
        var paperEmbed := embed(screened[i].summary);
        var decision := if coin(epoch, k, i) then 1 else 0;
        var reward := FilterReward(ScreeningInput(screened[i]), decision, None);
        fulltextAgent.Remember(paperEmbed, decision, reward, paperEmbed, true);
        rewards := rewards + [reward];
        assert expected[..i + 1] == expected[..i] + [expected[i]];
        assert Stored(expected[..i + 1]) == Stored(expected[..i]) + [Remembered(expected[i])];
      }
      assert expected[..|screened|] == expected;
    }

    /** The body of the sample loop: the search, abstract and full-text blocks for sample `k`. */
    method FeedSample(sample: Sample, coin: (nat, nat, nat) -> bool, epoch: nat, k: nat)
      returns (searchReward: real, abstractRewards: seq<real>, fulltextRewards: seq<real>)
      requires Valid()
      modifies searchAgent, abstractAgent, fulltextAgent, rewardSystem
      ensures Valid()
      ensures PlausibleSearchReward(sample, searchReward)
      ensures (searchReward, rewardSystem.feedbackHistory) ==
              SearchOutcome(PapersOf(sample), rewardSystem.embed(sample.query), sample.humanFeedback,
                            old(rewardSystem.feedbackHistory), rewardSystem.embed, rewardSystem.cosine)
      ensures searchAgent.events == old(searchAgent.events) + [Remembered(SearchTransition(sample, rewardSystem.embed, searchReward))]
      ensures abstractAgent.events == old(abstractAgent.events) + Stored(AbstractTransitions(sample, rewardSystem.embed))
      ensures abstractRewards == RewardsOf(AbstractTransitions(sample, rewardSystem.embed))
      ensures fulltextAgent.events ==
              old(fulltextAgent.events) + Stored(FullTextTransitions(sample, rewardSystem.embed, coin, epoch, k))
      ensures fulltextRewards == RewardsOf(FullTextTransitions(sample, rewardSystem.embed, coin, epoch, k))
    {
      searchReward := FeedSearchAgent(sample);
      abstractRewards := FeedAbstractAgent(sample);
      fulltextRewards := FeedFullTextAgent(sample, coin, epoch, k);
    }

    /** One epoch: every sample in order, then one training call per agent. */
    method RunEpoch(data: seq<Sample>, coin: (nat, nat, nat) -> bool, epoch: nat)
      returns (searchRewards: seq<real>, abstractRewards: seq<real>, fulltextRewards: seq<real>)
      requires Valid()
      modifies searchAgent, abstractAgent, fulltextAgent, rewardSystem
      ensures Valid()
      ensures PlausibleEpoch(data, searchRewards)
      ensures searchAgent.events == old(searchAgent.events) + EpochEvents(SearchTransitions(data, rewardSystem.embed, searchRewards))
      ensures abstractAgent.events == old(abstractAgent.events) + EpochEvents(EpochAbstract(data, rewardSystem.embed))
      ensures abstractRewards == RewardsOf(EpochAbstract(data, rewardSystem.embed))
      ensures fulltextAgent.events ==
              old(fulltextAgent.events) + EpochEvents(EpochFullText(data, rewardSystem.embed, coin, epoch))
      ensures fulltextRewards == RewardsOf(EpochFullText(data, rewardSystem.embed, coin, epoch))
      ensures |abstractRewards| == |fulltextRewards| == ScreenedTotal(data)
    {
      var embed := rewardSystem.embed;
      searchRewards, abstractRewards, fulltextRewards := [], [], [];
      for k := 0 to |data|
        invariant Valid()
        invariant EpochSoFar(data, k, embed, coin, epoch,
                             old(searchAgent.events), searchAgent.events, searchRewards,
                             old(abstractAgent.events), abstractAgent.events, abstractRewards,
                             old(fulltextAgent.events), fulltextAgent.events, fulltextRewards)
      {
        ghost var s, a, f := searchAgent.events, abstractAgent.events, fulltextAgent.events;
        ghost var sr, ar, fr := searchRewards, abstractRewards, fulltextRewards;
        var searchReward, rewards, moreRewards := FeedSample(data[k], coin, epoch, k);
        searchRewards := searchRewards + [searchReward];
        abstractRewards := abstractRewards + rewards;
        fulltextRewards := fulltextRewards + moreRewards;
        EpochStep(data, k, embed, coin, epoch, old(searchAgent.events), s, sr, searchReward,
                  old(abstractAgent.events), a, ar, old(fulltextAgent.events), f, fr);
      }
      ScreeningCounts(data, |data|, embed, coin, epoch);
      AppendStep(old(searchAgent.events), searchAgent.events, Stored(SearchTransitions(data, embed, searchRewards)), [Trained]);
      AppendStep(old(abstractAgent.events), abstractAgent.events, Stored(EpochAbstract(data, embed)), [Trained]);
      AppendStep(old(fulltextAgent.events), fulltextAgent.events, Stored(EpochFullText(data, embed, coin, epoch)), [Trained]);
      searchAgent.Train();
      abstractAgent.Train();
      fulltextAgent.Train();
    }

    /**
     * `train(training_data, epochs)`. The ghost result lists each epoch's search rewards, which
     * fix every search transition.
     */
    method Train(data: seq<Sample>, epochs: nat, coin: (nat, nat, nat) -> bool)
      returns (ghost searchRewardLog: seq<seq<real>>)
      requires Valid()
      modifies searchAgent, abstractAgent, fulltextAgent, rewardSystem
      ensures Valid()
      ensures |searchRewardLog| == epochs && SearchLog(data, searchRewardLog)
      ensures searchAgent.events == old(searchAgent.events) + SearchRun(data, rewardSystem.embed, searchRewardLog)
      ensures abstractAgent.events == old(abstractAgent.events) + Repeat(EpochEvents(EpochAbstract(data, rewardSystem.embed)), epochs)
      ensures fulltextAgent.events == old(fulltextAgent.events) + FullTextRun(data, rewardSystem.embed, coin, epochs)
    {
      var embed := rewardSystem.embed;
      searchRewardLog := [];
      for epoch := 0 to epochs
        invariant Valid()
        invariant TrainedSoFar(data, epoch, embed, coin, old(searchAgent.events), searchAgent.events, searchRewardLog,
                               old(abstractAgent.events), abstractAgent.events, old(fulltextAgent.events), fulltextAgent.events)
      {
        ghost var s, a, f := searchAgent.events, abstractAgent.events, fulltextAgent.events;
        var searchRewards, abstractRewards, fulltextRewards := RunEpoch(data, coin, epoch);
        TrainedStep(data, epoch, embed, coin, old(searchAgent.events), s, searchRewardLog, searchRewards,
                    old(abstractAgent.events), a, old(fulltextAgent.events), f);
        searchRewardLog := searchRewardLog + [searchRewards];
      }
    }
  }
}
