/**
 * The PRISMA checker's cooperative score (`PRISMAChecker.compute_global_reward`): the arithmetic
 * mean of the per-agent rewards, or 0.0 when there are none.
 *
 * A Python dict is modelled as its entries in insertion order. A `map` would not do: its `Values`
 * is a set, which would merge two agents that earned the same reward.
 */
module PrismaChecker {
  import opened Common

  type AgentRewards = seq<(string, real)>

  function Values(rewards: AgentRewards): (vs: seq<real>)
    ensures |vs| == |rewards|
  {
    seq(|rewards|, i requires 0 <= i < |rewards| => rewards[i].1)
  }

  /** `sum(rewards.values()) / len(rewards) if rewards else 0.0`. */
  function GlobalReward(rewards: AgentRewards): (r: real)
    ensures |rewards| == 0 ==> r == 0.0
    ensures |rewards| > 0 ==> r * (|rewards| as real) == Sum(Values(rewards))
  {
    if |rewards| == 0 then 0.0 else Mean(Values(rewards))
  }

  /** The score lies between the smallest and the largest reward. */
  lemma GlobalRewardBetweenExtremes(rewards: AgentRewards)
    requires |rewards| > 0
    ensures SeqMin(Values(rewards)) <= GlobalReward(rewards) <= SeqMax(Values(rewards))
  {
    var vs := Values(rewards);
    MeanBounds(vs, SeqMin(vs), SeqMax(vs));
  }

  /** When every agent earned `c`, the score is `c`. */
  lemma GlobalRewardConstant(rewards: AgentRewards, c: real)
    requires |rewards| > 0
    requires forall i :: 0 <= i < |rewards| ==> rewards[i].1 == c
    ensures GlobalReward(rewards) == c
  {
    MeanConstant(Values(rewards), c);
  }

  /** Neither the agent names nor the order of the entries matter, only the rewards themselves. */
  lemma GlobalRewardOrderIndependent(a: AgentRewards, b: AgentRewards)
    requires multiset(Values(a)) == multiset(Values(b))
    ensures GlobalReward(a) == GlobalReward(b)
  {
    assert |a| == |multiset(Values(a))| == |multiset(Values(b))| == |b|;
    SumPermutation(Values(a), Values(b));
  }
}
