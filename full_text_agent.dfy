/**
 * The full-text screening agent (`FullTextAgent`): a two-action DQN learner with a bounded replay
 * memory, ε-greedy action choice and a geometrically decaying exploration rate.
 *
 * The networks are opaque: their parameters are a value of type `Params`, the forward pass is a
 * function `forward` given at construction, and one optimiser step is a function `step` given to
 * `Learn`. The random draws the source makes (`np.random.rand()`, `random.randint(0, 1)`,
 * `random.sample`) are parameters of the methods that make them.
 */
module FullText {
  import opened Common

  type State = seq<real>

  /** Network weights; never inspected by the model. */
  type Params = seq<real>

  const ActionCount: nat := 2

  /** The output of a network: one action value per action. */
  type ActionValues = q: seq<real> | |q| == ActionCount witness [0.0, 0.0]

  const MemoryCapacity: nat := 10000
  const BatchSize: nat := 64
  const Gamma: real := 0.99
  const EpsilonStart: real := 1.0
  const EpsilonDecay: real := 0.995
  const EpsilonMin: real := 0.1

  /** `torch.argmax`: the first index holding the largest value. */
  function Argmax(q: seq<real>): (k: nat)
    requires |q| > 0
    ensures k < |q|
    ensures forall j :: 0 <= j < |q| ==> q[j] <= q[k]
    ensures forall j :: 0 <= j < k ==> q[j] < q[k]
    ensures q[k] == SeqMax(q)
  {
    if |q| == 1 then 0
    else
      var k := Argmax(q[..|q| - 1]);
      assert forall j :: 0 <= j < |q| - 1 ==> q[..|q| - 1][j] == q[j];
      if q[|q| - 1] > q[k] then |q| - 1 else k
  }

  /** The bootstrapped target `reward + γ · max Q_target(next_state) · (1 − done)`. */
  function TdTarget(t: Transition, nextValues: ActionValues): (y: real)
    ensures t.done ==> y == t.reward
    ensures !t.done ==> y == t.reward + Gamma * SeqMax(nextValues)
    ensures !t.done ==> forall a :: 0 <= a < ActionCount ==> y >= t.reward + Gamma * nextValues[a]
  {
    var doneFlag := if t.done then 1.0 else 0.0;
    t.reward + Gamma * nextValues[Argmax(nextValues)] * (1.0 - doneFlag)
  }

  /** The targets for a sampled batch, evaluated with the target network's parameters. */
  function Targets(batch: seq<Transition>, forward: (Params, State) -> ActionValues, target: Params): (ys: seq<real>)
    ensures |ys| == |batch|
    ensures forall k :: 0 <= k < |batch| && batch[k].done ==> ys[k] == batch[k].reward
    ensures forall k :: 0 <= k < |batch| && !batch[k].done ==>
              ys[k] == batch[k].reward + Gamma * SeqMax(forward(target, batch[k].nextState))
  {
    var ys := seq(|batch|, k requires 0 <= k < |batch| => TdTarget(batch[k], forward(target, batch[k].nextState)));
    assert forall k :: 0 <= k < |batch| ==> ys[k] == TdTarget(batch[k], forward(target, batch[k].nextState));
    ys
  }

  /** `k` distinct positions of a memory of length `n`, as `random.sample` draws them. */
  predicate IsSample(picks: seq<nat>, n: nat, k: nat)
  {
    && |picks| == k
    && (forall i :: 0 <= i < |picks| ==> picks[i] < n)
    && (forall i, j :: 0 <= i < j < |picks| ==> picks[i] != picks[j])
  }

  function Select<T>(memory: seq<T>, picks: seq<nat>): (batch: seq<T>)
    requires forall i :: 0 <= i < |picks| ==> picks[i] < |memory|
    ensures |batch| == |picks|
  {
    seq(|picks|, i requires 0 <= i < |picks| => memory[picks[i]])
  }

  /** Sampling distinct positions yields a sub-multiset of the memory: nothing is drawn twice. */
  lemma {:induction false} SampleIsSubMultiset<T>(memory: seq<T>, picks: seq<nat>)
    requires IsSample(picks, |memory|, |picks|)
    ensures multiset(Select(memory, picks)) <= multiset(memory)
    decreases |memory|
  {
    if |picks| == 0 {
      assert Select(memory, picks) == [];
    } else {
      assert picks[0] < |memory|;
      var last := |memory| - 1;
      var front := memory[..last];
      assert memory == front + [memory[last]];
      if p :| 0 <= p < |picks| && picks[p] == last {
        RemovePick(picks, p, last);
        SampleIsSubMultiset(front, picks[..p] + picks[p + 1..]);
        SelectWithout(memory, picks, p);
      } else {
        assert IsSample(picks, |front|, |picks|);
        SampleIsSubMultiset(front, picks);
        assert Select(memory, picks) == Select(front, picks);
      }
    }
  }

  /** Dropping the pick of the last position leaves distinct picks of the shorter memory. */
  lemma RemovePick(picks: seq<nat>, p: nat, n: nat)
    requires IsSample(picks, n + 1, |picks|)
    requires p < |picks| && picks[p] == n
    ensures IsSample(picks[..p] + picks[p + 1..], n, |picks| - 1)
  {
    var rest := picks[..p] + picks[p + 1..];
    assert forall i :: 0 <= i < |rest| ==> rest[i] == if i < p then picks[i] else picks[i + 1];
  }

  /** Drawing the last position contributes exactly the last transition to the batch. */
  lemma SelectWithout<T>(memory: seq<T>, picks: seq<nat>, p: nat)
    requires IsSample(picks, |memory|, |picks|)
    requires p < |picks| && picks[p] == |memory| - 1
    ensures multiset(Select(memory, picks)) ==
            multiset(Select(memory[..|memory| - 1], picks[..p] + picks[p + 1..])) + multiset{memory[|memory| - 1]}
  {
    var front := memory[..|memory| - 1];
    assert Select(memory, picks) == Select(front, picks[..p]) + [memory[|memory| - 1]] + Select(front, picks[p + 1..]);
    assert Select(front, picks[..p] + picks[p + 1..]) == Select(front, picks[..p]) + Select(front, picks[p + 1..]);
  }

  /** `max(ε · 0.995, 0.1)`. */
  function DecayEpsilon(epsilon: real): (e: real)
    ensures e >= EpsilonMin
    ensures epsilon >= EpsilonMin ==> e <= epsilon
  {
    Max(epsilon * EpsilonDecay, EpsilonMin)
  }

  /** The exploration rate after `n` learning steps that passed the batch-size guard. */
  function EpsilonAfter(n: nat): real
  {
    if n == 0 then EpsilonStart else DecayEpsilon(EpsilonAfter(n - 1))
  }

  function Pow(x: real, n: nat): real
  {
    if n == 0 then 1.0 else x * Pow(x, n - 1)
  }

  lemma {:induction false} PowDecayPositive(n: nat)
    ensures 0.0 < Pow(EpsilonDecay, n) <= 1.0
  {
    if n > 0 {
      PowDecayPositive(n - 1);
    }
  }

  /** Closed form: after `n` learning steps ε = max(0.995ⁿ, 0.1). */
  lemma {:induction false} EpsilonClosedForm(n: nat)
    ensures EpsilonAfter(n) == Max(Pow(EpsilonDecay, n), EpsilonMin)
  {
    if n > 0 {
      EpsilonClosedForm(n - 1);
      PowDecayPositive(n - 1);
    }
  }

  /** ε stays within [0.1, 1.0] and never increases. */
  lemma {:induction false} EpsilonBounds(n: nat)
    ensures EpsilonMin <= EpsilonAfter(n) <= EpsilonStart
    ensures EpsilonAfter(n + 1) <= EpsilonAfter(n)
  {
    if n > 0 {
      EpsilonBounds(n - 1);
    }
  }

  class FullTextAgent {
    const forward: (Params, State) -> ActionValues
    var policy: Params
    var target: Params
    var memory: seq<Transition>
    var epsilon: real
    /** How many calls of `Learn` passed the batch-size guard. */
    ghost var learnSteps: nat

    ghost predicate Valid()
      reads this
    {
      && |memory| <= MemoryCapacity
      && epsilon == EpsilonAfter(learnSteps)
    }

    /** The target network starts as a copy of the policy network. */
    constructor (forward: (Params, State) -> ActionValues, initial: Params)
      ensures Valid()
      ensures this.forward == forward && policy == initial && target == initial
      ensures memory == [] && epsilon == EpsilonStart && learnSteps == 0
    {
      this.forward := forward;
      policy := initial;
      target := initial;
      memory := [];
      epsilon := EpsilonStart;
      learnSteps := 0;
    }

    /**
     * `act(state)`: explore with probability ε (the draw `u` is `np.random.rand()`, `coin` is
     * `random.randint(0, 1)`), otherwise the greedy action of the policy network.
     */
    method Act(state: State, u: real, coin: bool) returns (action: int)
      requires 0.0 <= u < 1.0
      ensures action == 0 || action == 1
      ensures u < epsilon ==> action == (if coin then 1 else 0)
      ensures epsilon <= u ==> action == Argmax(forward(policy, state))
    {
      if u < epsilon {
        return if coin then 1 else 0;
      }
      var qValues := forward(policy, state);
      action := Argmax(qValues);
    }

    /** `remember(...)`: append at the back, evicting the oldest entry when full. */
    method Remember(state: State, action: int, reward: real, nextState: State, done: bool)
      requires Valid()
      modifies this
      ensures Valid()
      ensures memory == BoundedAppend(old(memory), Transition(state, action, reward, nextState, done), MemoryCapacity)
      ensures policy == old(policy) && target == old(target)
      ensures epsilon == old(epsilon) && learnSteps == old(learnSteps)
    {
      memory := BoundedAppend(memory, Transition(state, action, reward, nextState, done), MemoryCapacity);
    }

    /**
     * `learn()`: below a full batch nothing happens. Otherwise the sampled batch (`picks`, the
     * positions `random.sample` draws) and its targets go to one optimiser step on the policy
     * network, and ε decays. Memory and the target network are never written.
     */
    method Learn(picks: seq<nat>, step: (Params, seq<Transition>, seq<real>) -> Params)
      requires Valid()
      requires |memory| >= BatchSize ==> IsSample(picks, |memory|, BatchSize)
      modifies this
      ensures Valid()
      ensures memory == old(memory) && target == old(target)
      ensures old(|memory|) < BatchSize ==>
                policy == old(policy) && epsilon == old(epsilon) && learnSteps == old(learnSteps)
      ensures old(|memory|) >= BatchSize ==>
                && learnSteps == old(learnSteps) + 1
                && epsilon == DecayEpsilon(old(epsilon))
                && policy == step(old(policy), Select(memory, picks), Targets(Select(memory, picks), forward, target))
    {
      if |memory| < BatchSize {
        return;
      }
      var batch := Select(memory, picks);
      var targetValues := Targets(batch, forward, target);
      policy := step(policy, batch, targetValues);
      epsilon := DecayEpsilon(epsilon);
      learnSteps := learnSteps + 1;
    }
  }

  /**
   * Inserting 10,001 transitions into an empty memory leaves exactly the newest 10,000; the
   * first one is gone when it does not recur later.
   */
  lemma MemoryOverflow(xs: seq<Transition>)
    requires |xs| == MemoryCapacity + 1
    ensures AppendAll([], xs, MemoryCapacity) == xs[1..]
    ensures xs[0] !in xs[1..] ==> xs[0] !in AppendAll([], xs, MemoryCapacity)
  {
    AppendAllKeepsNewest([], xs, MemoryCapacity);
    assert [] + xs == xs;
  }
}
