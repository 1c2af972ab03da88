# PRISMA multi-agent review: reward system, full-text agent, checker and trainer in Dafny

This project models the decision core of the PRISMA multi-agent literature-review system and
proves properties of it. Systematic-review screening is split between a search agent, a
title/abstract filter agent and a full-text agent. They are trained by reinforcement learning
against hand-written rewards.

- `common.dfy` (`Common`): shared helpers. These are an optional value, the replay transition
  record, sums and means of reals, `np.clip`, and the bounded FIFO queue that `deque(maxlen=…)`
  provides.
- `rewards.dfy` (`Rewards`): the `EnhancedRewardSystem`.
  - The filter reward is a keyword and decision rule, with an optional ground-truth adjustment,
    clipped to [-1, 1].
  - The PRISMA reward is the mean of eight checklist items, plus a bonus above 0.8, clipped to
    [0, 1].
  - Human feedback is kept in a history of at most 1000 entries and scored over its last 10.
  - The search reward combines mean relevance, pairwise diversity and the feedback score.
  - The class `RewardSystem` holds the feedback history. Its methods keep the source's loops and
    are proved against the specification functions.
- `full_text_agent.dfy` (`FullText`): the `FullTextAgent` DQN bookkeeping.
  - A replay memory of at most 10,000 transitions.
  - ε-greedy action choice over two actions.
  - A learning step guarded by a batch of 64, using the bootstrapped target
    `r + γ·max Q_target(s′)·(1 − done)`.
  - ε decay from 1.0 by ×0.995, with a floor of 0.1.
- `prisma_checker.dfy` (`PrismaChecker`): `compute_global_reward`, the mean of the per-agent
  rewards, or 0.0 when there are none.
- `trainer.dfy` (`Trainer`): `PRISMAAgentTrainer.train`.
  - It runs epochs × samples × papers.
  - Each agent is modelled as an append-only log of the `remember` and `train` calls made on it.
  - The contracts state exactly which transitions each agent receives, in which order, and that
    each agent is trained once per epoch, after all samples.

The sentence-embedding model and the cosine similarity are uninterpreted functions (`embed`,
`cosine`). So are the network's forward pass (`forward`) and one optimiser step (`step`). Random
draws are method parameters:
- `u` and `coin` for `act`
- `picks` for `random.sample`
- `coin(epoch, sample, paper)` for the trainer's placeholder full-text decision

Two behaviours of the code are worth knowing:
- A checklist with one item at 0 and the other seven at 1 scores exactly 1.0, the same as a
  perfect checklist. Its mean 0.875 exceeds 0.8, and the bonus lifts it to the clip bound
  (`Rewards.PrismaOneItemMissing`).
- The trainer calls `train()` on the full-text agent, but `FullTextAgent` defines only `learn()`.
  The trainer's full-text log records that call as a training call.

## Model

| member | source | states |
|---|---|---|
| Common.BoundedAppend | rewards/enhanced_reward_system.py:17 | appending to a deque with maxlen: the new element goes to the back; the oldest is evicted only when the deque is full; the length never exceeds the capacity |
| Common.AppendAllKeepsNewest | agents/full_text_agent.py:20 | feeding any sequence through a bounded deque keeps exactly the newest `cap` elements of everything inserted, in arrival order |
| Rewards.BaseFilterReward | rewards/enhanced_reward_system.py:48-65 | the pre-adjustment reward for decisions 1, 0 and others lies in [0, 1] |
| Rewards.FilterReward | rewards/enhanced_reward_system.py:46-73 | the filter reward always lies in [-1, 1]; with no ground truth it is the base reward |
| Rewards.StrongPaperInclusion | rewards/enhanced_reward_system.py:56-71 | methodology and results keywords plus more than 10 citations: including scores 1.0 (1.5 clipped) when right and 0.7 when wrong |
| Rewards.WeakPaperExclusion | rewards/enhanced_reward_system.py:62-71 | correctly excluding a paper missing a keyword group scores 0.8 |
| Rewards.UnknownDecisionReward | rewards/enhanced_reward_system.py:48-71 | a decision outside {0, 1} scores 0, +0.5 or −0.3 according to the ground truth |
| Rewards.CorrectDecisionRewardedMore | rewards/enhanced_reward_system.py:67-73 | for the same paper and decision, a matching ground truth scores at least as much as none, and none scores strictly more than a mismatching one |
| Rewards.KeywordsIgnoreCase | rewards/enhanced_reward_system.py:50-53 | abstracts equal after lower-casing get the same filter reward |
| Rewards.CapitalisedKeywordDetected | rewards/enhanced_reward_system.py:50-51 | "Methodology" counts as containing the keyword "method" |
| Rewards.MissingFieldsDefault | rewards/enhanced_reward_system.py:50-54 | a missing abstract acts as "" and a missing citation count as 0 |
| Rewards.PrismaReward | rewards/enhanced_reward_system.py:75-91 | the PRISMA reward lies in [0, 1] |
| Rewards.PrismaRewardShape | rewards/enhanced_reward_system.py:86-91 | a mean above 0.8 gives 1.0; a mean in [0, 0.8] is returned unchanged; a negative mean gives 0 |
| Rewards.PrismaMonotone | rewards/enhanced_reward_system.py:86-91 | raising any checklist item never lowers the reward |
| Rewards.PrismaAllOnes | rewards/enhanced_reward_system.py:86-91 | all eight items at 1 score 1.0 |
| Rewards.PrismaOneItemMissing | rewards/enhanced_reward_system.py:86-91 | one item at 0 (or missing) and seven at 1: mean 0.875, reward 1.0 |
| Rewards.PrismaDashboardExample | app.py:63-72 | the reward system's PRISMA reward function, applied to the dashboard's checklist (six 1s, 0.9, 0.6), gives mean 0.9375 and reward 1.0; the dashboard itself calls `compute_prisma_reward` on a `PRISMAChecker`, which has no such method |
| Rewards.RecentScoreRange | rewards/enhanced_reward_system.py:118-122 | feedback values in [0, 1] (missing ones read as 0.5) give a score in [-1, 1] |
| Rewards.NeutralFeedbackScoresZero | rewards/enhanced_reward_system.py:118-122 | feedback naming neither relevance nor quality scores exactly 0 |
| Rewards.FeedbackWindowAfterAppend | rewards/enhanced_reward_system.py:112-113 | after an append the last-10 window holds the newest min(10, n+1) entries, ends with the new feedback, and is unaffected by eviction |
| Rewards.PairCount | rewards/enhanced_reward_system.py:100-105 | the nested loop produces n·(n−1)/2 similarities |
| Rewards.PairSimsFromPairs | rewards/enhanced_reward_system.py:100-105 | every collected similarity is that of a pair i < j |
| Rewards.Diversity | rewards/enhanced_reward_system.py:93-109 | diversity is never negative and is 0 for fewer than two papers |
| Rewards.DiversityBounded | rewards/enhanced_reward_system.py:93-109 | similarities within [-1, 1] give a diversity within [0, 2] |
| Rewards.CombineSearchReward | rewards/enhanced_reward_system.py:40-44 | the combined search reward lies in [-1, 1] |
| Rewards.SearchOutcome | rewards/enhanced_reward_system.py:20-44 | the search reward lies in [-1, 1]; no papers gives exactly −1.0 with the history untouched; falsy feedback leaves the history unchanged; otherwise the feedback is appended with eviction |
| Rewards.EmptyFeedbackIgnored | rewards/enhanced_reward_system.py:36-38 | an empty feedback dict behaves exactly like no feedback |
| Rewards.RewardSystem.constructor | rewards/enhanced_reward_system.py:13-18 | the reward system starts with an empty feedback history |
| Rewards.RewardSystem.ComputeSearchReward | rewards/enhanced_reward_system.py:20-44 | the reward and the new history are those of `SearchOutcome` on the old history; the history stays within 1000 |
| Rewards.RewardSystem.CalculateDiversity | rewards/enhanced_reward_system.py:93-109 | the nested pair loop computes `Diversity` of the embedded summaries: never negative, 0 below two papers |
| Rewards.RewardSystem.IntegrateHumanFeedback | rewards/enhanced_reward_system.py:111-122 | the history becomes the bounded append of the feedback, and the score is that of its last 10 entries |
| FullText.Argmax | agents/full_text_agent.py:33 | the chosen index holds the largest value (the maximum of the sequence), and no earlier index holds that value |
| FullText.TdTarget | agents/full_text_agent.py:53-54 | a terminal transition's target is its reward; otherwise it is the reward plus γ times the largest next action value, at least reward + γ·Q(a) for each action |
| FullText.Targets | agents/full_text_agent.py:51-54 | one target per sampled transition: the reward for terminal ones, otherwise the reward plus γ times the largest action value of the target network at next_state |
| FullText.SampleIsSubMultiset | agents/full_text_agent.py:42 | distinct sampled positions draw a sub-multiset of the memory: no transition is drawn twice |
| FullText.DecayEpsilon | agents/full_text_agent.py:62 | decayed ε is at least 0.1 and never above an ε that was already at least 0.1 |
| FullText.EpsilonClosedForm | agents/full_text_agent.py:38-62 | after n learning steps that pass the guard, ε = max(0.995ⁿ, 0.1) |
| FullText.EpsilonBounds | agents/full_text_agent.py:62 | ε stays within [0.1, 1.0] and never increases |
| FullText.MemoryOverflow | agents/full_text_agent.py:20 | 10,001 insertions into an empty memory leave exactly the newest 10,000; the first is gone |
| FullText.FullTextAgent.constructor | agents/full_text_agent.py:12-25 | empty memory, ε = 1.0, target network equal to the policy network |
| FullText.FullTextAgent.Act | agents/full_text_agent.py:27-33 | the action is 0 or 1: the random coin when the draw is below ε, else the greedy argmax of the policy network |
| FullText.FullTextAgent.Remember | agents/full_text_agent.py:35-36 | memory becomes the bounded append of the transition; nothing else changes |
| FullText.FullTextAgent.Learn | agents/full_text_agent.py:38-62 | below 64 stored transitions nothing changes; otherwise one optimiser step on the sampled batch and its targets, and ε decays; memory and target network are never written |
| PrismaChecker.GlobalReward | agents/prisma_checker.py:4-9 | no rewards give 0.0; otherwise the result times the count is the sum of the rewards |
| PrismaChecker.GlobalRewardBetweenExtremes | agents/prisma_checker.py:9 | the result lies between the smallest and the largest reward |
| PrismaChecker.GlobalRewardConstant | agents/prisma_checker.py:9 | when every reward is c the result is c |
| PrismaChecker.GlobalRewardOrderIndependent | agents/prisma_checker.py:9 | names and order do not matter: equal multisets of rewards give equal results |
| Trainer.Screened | trainer/train_agents.py:41 | each sample screens min(5, len(papers)) papers |
| Trainer.AbstractTransitions | trainer/train_agents.py:40-51 | one abstract-agent transition per screened paper |
| Trainer.FullTextTransitions | trainer/train_agents.py:54-62 | one full-text transition per screened paper |
| Trainer.ScreeningCounts | trainer/train_agents.py:41-62 | over the first n samples of an epoch each screening agent gets Σ min(5, len(papers)) transitions |
| Trainer.EpochFullTextLength | trainer/train_agents.py:25-62 | per epoch the full-text agent gets Σ min(5, len(papers)) transitions |
| Trainer.ScreeningTransitionFacts | trainer/train_agents.py:43-61 | screening transitions are terminal with next_state = state; the abstract decision is filter_decisions[i] or 1; the citation bonus never applies; full-text actions are 0 or 1 and carry no ground-truth adjustment |
| Trainer.SearchTransition | trainer/train_agents.py:28-36 | the search transition's state is the query embedding, its action search_action or 0, it is terminal, and next_state is the state followed by len(papers) and the reward |
| Trainer.SearchTransitions | trainer/train_agents.py:25-37 | one search transition per sample, whose rewards are exactly the given search rewards, in order |
| Trainer.EpochEvents | trainer/train_agents.py:25-67 | an agent's epoch is its transitions, in order, followed by exactly one training call after all of them |
| Trainer.ScreeningRunCounts | trainer/train_agents.py:22-66 | over n epochs the abstract agent is trained exactly n times and logs n·(transitions + 1) events |
| Trainer.FullTextRunCounts | trainer/train_agents.py:22-67 | over n epochs the full-text agent is trained exactly n times and logs n·(Σ min(5, len(papers)) + 1) events |
| Trainer.SearchRunCounts | trainer/train_agents.py:22-65 | over n epochs the search agent is trained exactly n times and logs n·(len(data) + 1) events |
| Trainer.AgentLog.Remember | trainer/train_agents.py:36 | a `remember` call appends exactly that transition to the agent's log |
| Trainer.AgentLog.Train | trainer/train_agents.py:65-67 | a `train` call appends one training event to the agent's log |
| Trainer.PrismaAgentTrainer.constructor | trainer/train_agents.py:15-19 | three distinct fresh agents with empty logs, and a fresh reward system with empty history |
| Trainer.PrismaAgentTrainer.FeedSearchAgent | trainer/train_agents.py:26-37 | exactly the sample's search transition is appended; its reward lies in [-1, 1] and is −1 without papers; reward and new history are those of `SearchOutcome` |
| Trainer.PrismaAgentTrainer.FeedAbstractAgent | trainer/train_agents.py:40-51 | the abstract agent receives exactly the sample's abstract transitions, and the returned rewards are theirs |
| Trainer.PrismaAgentTrainer.FeedFullTextAgent | trainer/train_agents.py:54-62 | the full-text agent receives exactly the sample's full-text transitions, and the returned rewards are theirs |
| Trainer.PrismaAgentTrainer.FeedSample | trainer/train_agents.py:26-62 | one sample appends its search transition and its screening transitions to the three agents; the search reward and the new feedback history are those of `SearchOutcome`, and the screening rewards are those of the screening transitions |
| Trainer.PrismaAgentTrainer.RunEpoch | trainer/train_agents.py:22-67 | one epoch appends every sample's transitions in order and then exactly one training call per agent; the returned search rewards are one plausible reward per sample and fix the search transitions; the screening reward lists are the screening transitions' rewards, Σ min(5, len(papers)) each |
| Trainer.PrismaAgentTrainer.Train | trainer/train_agents.py:21-67 | after `epochs` epochs each agent's log is exactly its epoch schedule repeated in order; the ghost result holds each epoch's search rewards |

## Left out

- Sentence embeddings (`embed_text`, `SentenceTransformer`) and the cosine similarity are uninterpreted functions; their numerics (dot products, norms, square roots) are not modelled.
- Floating point is modelled as exact reals: rounding, and NaN from `np.mean` of an empty list or from a zero-norm embedding, are not modelled.
- The PyTorch networks, the Adam optimiser and the MSE loss are not modelled. The network is an opaque `forward` function, and one optimiser step is an opaque `step` function of the parameters, batch and targets.
- Random draws (`np.random.rand`, `random.randint`, `random.sample`, `np.random.choice`) are parameters; no distribution is modelled.
- Logging, the per-epoch `np.mean` of the reward lists, and `save_model` calls are left out. They produce no state the model reads.
- `FullTextAgent` defines no `train()` and no `save_model()`. The source as written would fail at the first `self.fulltext_agent.train()`. That failure is not modelled: the call is recorded as a training event.
- Trainer.PrismaAgentTrainer.Train: the search rewards are stated through the returned ghost log, by their range and their −1.0 sentinel, not as a function of the inputs. The reward depends on the reward system's feedback history, which the earlier samples change. The exact value per sample is stated by `FeedSearchAgent`.
- Trainer.PrismaAgentTrainer.RunEpoch: the returned search rewards are stated in the same way, by range and sentinel; they then fix each search transition exactly.
- The trainer's agents are logs of calls. The search and title/abstract agents (`agents/search_agent.py`, `agents/title_abstract_filter.py`) wrap a DQN agent that is not part of this model.
- `app.py` and `main.py` (Streamlit UI, arXiv fetching, CSV export, command-line input) are not part of this model.
- `relevance_threshold` is declared by the reward system but never read; it appears only as a constant.
- `FullTextAgent.__init__` is modelled at its defaults only (`action_dim=2`, `gamma=0.99`; `input_dim` and `lr` matter only to the opaque network and optimiser). With a larger `action_dim` the greedy branch of `act` could return an index of 2 or more; every caller uses the defaults.
- A training sample without a `'query'` key makes the source raise `KeyError`; the model's `Sample` always has a query, so that failure is not modelled.
- Rewards.Lower: lower-cases ASCII letters only, while Python's `str.lower` also folds other Unicode letters.
- Dict inputs are assumed to hold numbers where the source does arithmetic on them. Wrongly typed values, such as `papers` set to `None`, are not modelled.
