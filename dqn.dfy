/** The deep-Q-network agent of src/dqn.rs: a bounded FIFO replay buffer,
    epsilon-greedy action choice, epsilon decay, target-network sync and the
    batched training step. Random draws are supplied by the caller; the
    gradient step is the injected function `backward`. */
module Dqn {
  import opened NeuralNetwork

  datatype Option<T> = None | Some(value: T)

  /** An f32 as far as the agent's filters care: a finite value, or NaN / an infinity. */
  datatype Float = Finite(value: real) | NonFinite

  /** One environment transition, stored unchanged in the replay buffer. */
  datatype Experience = Experience(state: seq<real>, action: nat, reward: real, nextState: seq<real>, done: bool)

  /** The fields of `GuiParameters` that the agent reads. */
  datatype Params = Params(
    replayBufferSize: nat,
    batchSize: nat,
    gamma: real,
    epsilonStart: real,
    epsilonEnd: real,
    epsilonDecay: real)

  /** The outputs of a real-valued forward pass, all of them finite. */
  function AsFloats(v: seq<real>): (q: seq<Float>)
    ensures |q| == |v| && forall i :: 0 <= i < |q| ==> q[i] == Finite(v[i])
  {
    seq(|v|, i requires 0 <= i < |v| => Finite(v[i]))
  }

  // ---------------------------------------------------------------------------
  // Maximum over the finite values

  /** `filter(finite).max_by(partial_cmp)`, folded from the left: a later finite value
      that is at least the running maximum replaces it. The result is the index of
      the largest finite value, the LAST one among equals; None when no value is finite. */
  function MaxIndex(q: seq<Float>): (r: Option<nat>)
    ensures r.None? <==> forall i :: 0 <= i < |q| ==> q[i].NonFinite?
    ensures r.Some? ==>
      && r.value < |q|
      && q[r.value].Finite?
      && (forall i :: 0 <= i < |q| && q[i].Finite? ==> q[i].value <= q[r.value].value)
      && (forall i :: r.value < i < |q| && q[i].Finite? ==> q[i].value < q[r.value].value)
    decreases |q|
  {
    if q == [] then None
    else
      var prev := MaxIndex(q[..|q| - 1]);
      var last := |q| - 1;
      if q[last].Finite? && (prev.None? || q[prev.value].value <= q[last].value) then Some(last)
      else prev
  }

  /** The greedy branch of `choose_action`: the index of the maximum finite q-value
      (the last of equal maxima), or action 0 when there is none. */
  function GreedyAction(q: seq<Float>): (a: nat)
    ensures (forall i :: 0 <= i < |q| ==> q[i].NonFinite?) ==> a == 0
    ensures (exists i :: 0 <= i < |q| && q[i].Finite?) ==>
      && a < |q|
      && q[a].Finite?
      && (forall i :: 0 <= i < |q| && q[i].Finite? ==> q[i].value <= q[a].value)
      && (forall i :: a < i < |q| && q[i].Finite? ==> q[i].value < q[a].value)
  {
    match MaxIndex(q)
    case None => 0
    case Some(i) => i
  }

  /** `max_next_q_value` of `train`: the largest finite value, 0.0 when there is none. */
  function MaxFiniteOr0(q: seq<Float>): (m: real)
    ensures (forall i :: 0 <= i < |q| ==> q[i].NonFinite?) ==> m == 0.0
    ensures (exists i :: 0 <= i < |q| && q[i].Finite?) ==>
      && (exists i :: 0 <= i < |q| && q[i] == Finite(m))
      && (forall i :: 0 <= i < |q| && q[i].Finite? ==> q[i].value <= m)
  {
    match MaxIndex(q)
    case None => 0.0
    case Some(i) => q[i].value
  }

  // ---------------------------------------------------------------------------
  // Replay buffer

  /** The buffer after `store_experience`: the oldest entry goes when the buffer is
      at (or above) capacity, then `e` is appended. */
  function Stored(buffer: seq<Experience>, e: Experience, capacity: nat): (r: seq<Experience>)
    requires |buffer| > 0 || capacity > 0
    ensures |r| == (if |buffer| < capacity then |buffer| + 1 else |buffer|)
  {
    if |buffer| >= capacity then buffer[1..] + [e] else buffer + [e]
  }

  /** The buffer after storing each of `es` in turn. */
  function StoredAll(buffer: seq<Experience>, es: seq<Experience>, capacity: nat): seq<Experience>
    requires capacity > 0
    decreases |es|
  {
    if es == [] then buffer else StoredAll(Stored(buffer, es[0], capacity), es[1..], capacity)
  }

  /** The last min(n, |s|) elements of `s`. */
  function LastN<T>(s: seq<T>, n: nat): seq<T> {
    if |s| <= n then s else s[|s| - n..]
  }

  /** FIFO eviction: starting from a buffer within capacity, storing a run of
      experiences leaves exactly the most recent `capacity` of everything stored,
      in insertion order. */
  lemma {:induction false} StoredAllKeepsNewest(buffer: seq<Experience>, es: seq<Experience>, capacity: nat)
    requires capacity > 0 && |buffer| <= capacity
    ensures StoredAll(buffer, es, capacity) == LastN(buffer + es, capacity)
    decreases |es|
  {
    if es == [] {
      assert buffer + es == buffer;
    } else {
      var next := Stored(buffer, es[0], capacity);
      StoredAllKeepsNewest(next, es[1..], capacity);
      if |buffer| < capacity {
        assert next == buffer + [es[0]];
        assert next + es[1..] == buffer + es;
      } else {
        assert next == buffer[1..] + [es[0]];
        assert next + es[1..] == (buffer + es)[1..];
        LastNOfTail(buffer + es, capacity);
      }
    }
  }

  /** Dropping the first element of a sequence longer than n keeps its last n. */
  lemma LastNOfTail<T>(s: seq<T>, n: nat)
    requires |s| > n
    ensures LastN(s[1..], n) == LastN(s, n)
  {
    if |s| - 1 > n {
      assert s[1..][|s| - 1 - n..] == s[|s| - n..];
    } else {
      assert s[|s| - n..] == s[1..];
    }
  }

  /** One store keeps the newest max(len, capacity) entries of the old buffer
      followed by `e`: `e` is last, the survivors keep their order, and the buffer
      never grows past max(len, capacity). */
  lemma StoredKeepsNewest(buffer: seq<Experience>, e: Experience, capacity: nat)
    requires |buffer| > 0 || capacity > 0
    ensures var bound := if |buffer| < capacity then capacity else |buffer|;
      && |Stored(buffer, e, capacity)| <= bound
      && Stored(buffer, e, capacity) == LastN(buffer + [e], bound)
  {
    if |buffer| >= capacity {
      assert buffer[1..] + [e] == (buffer + [e])[1..];
    }
  }

  // ---------------------------------------------------------------------------
  // Epsilon

  function Pow(x: real, n: nat): real {
    if n == 0 then 1.0 else x * Pow(x, n - 1)
  }

  lemma {:induction false} PowInUnit(x: real, n: nat)
    requires 0.0 <= x <= 1.0
    ensures 0.0 <= Pow(x, n) <= 1.0
  {
    if n > 0 {
      PowInUnit(x, n - 1);
      MulInUnit(x, Pow(x, n - 1));
    }
  }

  /** One more factor in [0, 1] cannot increase the power. */
  lemma PowStep(x: real, n: nat)
    requires 0.0 <= x <= 1.0 && n > 0
    ensures 0.0 <= Pow(x, n) <= Pow(x, n - 1)
  {
    var p := Pow(x, n - 1);
    PowInUnit(x, n - 1);
    MulInUnit(x, p);
    assert Pow(x, n) == x * p;
  }

  lemma MulInUnit(a: real, b: real)
    requires 0.0 <= a <= 1.0 && 0.0 <= b <= 1.0
    ensures 0.0 <= a * b <= b
  {
  }

  lemma {:induction false} PowNonIncreasing(x: real, m: nat, n: nat)
    requires 0.0 <= x <= 1.0 && m <= n
    ensures Pow(x, n) <= Pow(x, m)
    decreases n - m
  {
    if m < n {
      PowNonIncreasing(x, m, n - 1);
      PowStep(x, n);
    }
  }

  /** The point a fraction `f` of the way from `lo` up to `hi`. */
  function Lerp(lo: real, hi: real, f: real): real {
    lo + (hi - lo) * f
  }

  /** For lo <= hi and fractions in [0, 1], interpolation stays in [lo, hi] and is
      monotone in the fraction. */
  lemma LerpBetween(lo: real, hi: real, a: real, b: real)
    requires lo <= hi && 0.0 <= a <= b <= 1.0
    ensures lo <= Lerp(lo, hi, a) <= Lerp(lo, hi, b) <= hi
  {
    var d := hi - lo;
    MulNonNegative(d, a);
    MulNonNegative(d, b - a);
    MulNonNegative(d, 1.0 - b);
    assert d * b - d * a == d * (b - a);
    assert d - d * b == d * (1.0 - b);
  }

  lemma MulNonNegative(x: real, y: real)
    requires 0.0 <= x && 0.0 <= y
    ensures 0.0 <= x * y
  {
  }

  /** `update_epsilon`: end + (start - end) * decay^len, `len` the buffer length. */
  function Epsilon(p: Params, len: nat): real {
    Lerp(p.epsilonEnd, p.epsilonStart, Pow(p.epsilonDecay, len))
  }

  /** With a decay in [0, 1] and end <= start, epsilon stays in [end, start], equals
      start for an empty buffer and never rises as the buffer fills. */
  lemma EpsilonBounds(p: Params, m: nat, n: nat)
    requires 0.0 <= p.epsilonDecay <= 1.0 && p.epsilonEnd <= p.epsilonStart && m <= n
    ensures p.epsilonEnd <= Epsilon(p, n) <= p.epsilonStart
    ensures Epsilon(p, 0) == p.epsilonStart
    ensures Epsilon(p, n) <= Epsilon(p, m)
  {
    PowInUnit(p.epsilonDecay, m);
    PowInUnit(p.epsilonDecay, n);
    PowNonIncreasing(p.epsilonDecay, m, n);
    LerpBetween(p.epsilonEnd, p.epsilonStart, Pow(p.epsilonDecay, n), Pow(p.epsilonDecay, m));
  }

  // ---------------------------------------------------------------------------
  // Training targets and the gradient steps

  /** The states of the samples, in order. */
  function StatesOf(samples: seq<Experience>): seq<seq<real>> {
    seq(|samples|, k requires 0 <= k < |samples| => samples[k].state)
  }

  /** The entries of the replay buffer that the drawn indices pick, with repetition. */
  function Samples(buffer: seq<Experience>, picks: seq<nat>): (samples: seq<Experience>)
    requires forall k :: 0 <= k < |picks| ==> picks[k] < |buffer|
    ensures |samples| == |picks|
    ensures forall k :: 0 <= k < |samples| ==> samples[k] in buffer
  {
    seq(|picks|, k requires 0 <= k < |picks| => buffer[picks[k]])
  }

  /** The bootstrapped target: the reward alone at the end of an episode, otherwise
      the reward plus `gamma` times the best finite next-state value. */
  function TargetValue(e: Experience, nextQ: seq<real>, gamma: real): real {
    if e.done then e.reward else e.reward + gamma * MaxFiniteOr0(AsFloats(nextQ))
  }

  /** The target vector of one sample: the q-network's outputs for `e.state`, with
      index `e.action` replaced by the target value (the index must exist: the
      program's indexing panics otherwise). */
  function TargetFor(q: Network, target: Network, e: Experience, gamma: real, act: real -> real): seq<real>
    requires e.action < |Forward(q.layers, e.state, act)|
  {
    Forward(q.layers, e.state, act)[e.action := TargetValue(e, Forward(target.layers, e.nextState, act), gamma)]
  }

  /** The target vector differs from the q-network's current outputs at the taken
      action only, where it holds the reward, plus the discounted best finite
      next-state value unless the episode ended there. */
  lemma TargetForSpec(q: Network, target: Network, e: Experience, gamma: real, act: real -> real)
    requires e.action < |Forward(q.layers, e.state, act)|
    ensures var current := Forward(q.layers, e.state, act);
      var t := TargetFor(q, target, e, gamma, act);
      && |t| == |current|
      && t[e.action] == TargetValue(e, Forward(target.layers, e.nextState, act), gamma)
      && forall j :: 0 <= j < |t| && j != e.action ==> t[j] == current[j]
  {
  }

  /** Every sampled action indexes the q-network's output for its state. */
  predicate ActionsFit(q: Network, samples: seq<Experience>, act: real -> real) {
    forall k :: 0 <= k < |samples| ==> samples[k].action < |Forward(q.layers, samples[k].state, act)|
  }

  function Targets(q: Network, target: Network, samples: seq<Experience>, gamma: real, act: real -> real): seq<seq<real>>
    requires ActionsFit(q, samples, act)
  {
    seq(|samples|, k requires 0 <= k < |samples| => TargetFor(q, target, samples[k], gamma, act))
  }

  /** `d_loss`: current output minus target, over the pairs `zip` forms. */
  function DLoss(current: seq<real>, target: seq<real>): (d: seq<real>)
    ensures |d| == Min(|current|, |target|)
    ensures forall i :: 0 <= i < |d| ==> d[i] == current[i] - target[i]
    decreases |current|
  {
    if current == [] || target == [] then []
    else [current[0] - target[0]] + DLoss(current[1..], target[1..])
  }

  /** The q-network after the second loop of `train`: one gradient step per
      (state, target) pair, in order, each with `d_loss` taken from the network as
      updated by the steps before it. */
  function Descend(
    net: Network, states: seq<seq<real>>, targets: seq<seq<real>>, lr: real,
    act: real -> real, backward: (Network, seq<real>, seq<real>, real) -> Network): Network
    requires |states| == |targets|
    decreases |states|
  {
    if states == [] then net
    else
      var n := |states| - 1;
      var prev := Descend(net, states[..n], targets[..n], lr, act, backward);
      backward(prev, states[n], DLoss(Forward(prev.layers, states[n], act), targets[n]), lr)
  }

  /** The drawn indices are usable: `batch_size` of them, each within the buffer,
      each picking an experience whose action indexes the q-network's output. */
  predicate BatchFits(q: Network, buffer: seq<Experience>, picks: seq<nat>, batchSize: nat, act: real -> real) {
    && |picks| == batchSize
    && (forall k :: 0 <= k < |picks| ==> picks[k] < |buffer|)
    && ActionsFit(q, Samples(buffer, picks), act)
  }

  /** Extending the sample prefix by one appends that sample's state and target. */
  lemma PrefixStep(q: Network, target: Network, samples: seq<Experience>, j: nat, gamma: real, act: real -> real)
    requires j < |samples| && ActionsFit(q, samples, act)
    ensures StatesOf(samples[..j + 1]) == StatesOf(samples[..j]) + [samples[j].state]
    ensures Targets(q, target, samples[..j + 1], gamma, act)
      == Targets(q, target, samples[..j], gamma, act) + [TargetFor(q, target, samples[j], gamma, act)]
  {
    assert samples[..j + 1] == samples[..j] + [samples[j]];
  }

  /** The first loop of `train`: for every sample, in order, its state and its
      target vector, all computed from the networks as given. */
  method BuildTargets(q: Network, target: Network, samples: seq<Experience>, gamma: real, act: real -> real)
    returns (states: seq<seq<real>>, targets: seq<seq<real>>)
    requires ActionsFit(q, samples, act)
    ensures states == StatesOf(samples)
    ensures targets == Targets(q, target, samples, gamma, act)
  {
    states, targets := [], [];
    for j := 0 to |samples|
      invariant states == StatesOf(samples[..j])
      invariant targets == Targets(q, target, samples[..j], gamma, act)
    {
      var e := samples[j];
      var current := ForwardPass(q, e.state, act);
      var next := ForwardPass(target, e.nextState, act);
      var t := current[e.action := TargetValue(e, next, gamma)];
      PrefixStep(q, target, samples, j, gamma, act);
      states := states + [e.state];
      targets := targets + [t];
    }
    assert samples[..|samples|] == samples;
  }

  /** The second loop of `train`: for each (state, target) pair in order, run the
      current network forward, take `d_loss` against the target and apply one
      `backward` step to the network. */
  method ApplySteps(
    net: Network, states: seq<seq<real>>, targets: seq<seq<real>>, lr: real,
    act: real -> real, backward: (Network, seq<real>, seq<real>, real) -> Network)
    returns (result: Network)
    requires |states| == |targets|
    ensures result == Descend(net, states, targets, lr, act, backward)
  {
    result := net;
    for j := 0 to |states|
      invariant result == Descend(net, states[..j], targets[..j], lr, act, backward)
    {
      assert states[..j + 1][..j] == states[..j] && targets[..j + 1][..j] == targets[..j];
      var current := ForwardPass(result, states[j], act);
      var dLoss := DLoss(current, targets[j]);
      result := backward(result, states[j], dLoss, lr);
    }
    assert states[..|states|] == states && targets[..|targets|] == targets;
  }

  // ---------------------------------------------------------------------------
  // The agent

  class DeepQN {
    var qNetwork: Network
    var targetNetwork: Network
    var replayBuffer: seq<Experience>
    var epsilon: real
    var trainingCounter: nat

    /** `DeepQN::new`: empty buffer, epsilon at its start value, no training steps. */
    constructor (qNetwork: Network, targetNetwork: Network, params: Params)
      ensures this.qNetwork == qNetwork && this.targetNetwork == targetNetwork
      ensures replayBuffer == [] && epsilon == params.epsilonStart && trainingCounter == 0
    {
      this.qNetwork := qNetwork;
      this.targetNetwork := targetNetwork;
      replayBuffer := [];
      epsilon := params.epsilonStart;
      trainingCounter := 0;
    }

    /** The target network becomes a copy of the q-network; nothing else changes. */
    method UpdateTargetNetwork()
      modifies this
      ensures targetNetwork == qNetwork == old(qNetwork)
      ensures replayBuffer == old(replayBuffer) && epsilon == old(epsilon)
      ensures trainingCounter == old(trainingCounter)
    {
      targetNetwork := qNetwork;
    }

    /** Epsilon-greedy choice. `coin` is the uniform draw in [0, 1) compared with
        epsilon and `randomAction` the uniform draw from 0..4 used when exploring. */
    method ChooseAction(state: seq<real>, act: real -> real, coin: real, randomAction: nat) returns (a: nat)
      requires 0.0 <= coin < 1.0 && randomAction < 4
      ensures coin < epsilon ==> a == randomAction && a < 4
      ensures coin >= epsilon ==> a == GreedyAction(AsFloats(Forward(qNetwork.layers, state, act)))
    {
      if coin < epsilon {
        a := randomAction;
      } else {
        var q := ForwardPass(qNetwork, state, act);
        a := GreedyAction(AsFloats(q));
      }
    }

    /** `store_experience`. `Vec::remove(0)` on an empty buffer panics, which
        happens exactly when the capacity is 0 and the buffer is empty. */
    method StoreExperience(state: seq<real>, action: nat, reward: real, nextState: seq<real>, done: bool, params: Params)
      requires |replayBuffer| > 0 || params.replayBufferSize > 0
      modifies this
      ensures replayBuffer == Stored(old(replayBuffer), Experience(state, action, reward, nextState, done), params.replayBufferSize)
      ensures qNetwork == old(qNetwork) && targetNetwork == old(targetNetwork)
      ensures epsilon == old(epsilon) && trainingCounter == old(trainingCounter)
    {
      if |replayBuffer| >= params.replayBufferSize {
        replayBuffer := replayBuffer[1..];
      }
      replayBuffer := replayBuffer + [Experience(state, action, reward, nextState, done)];
    }

    /** `update_epsilon`: epsilon decays with the number of stored experiences. */
    method UpdateEpsilon(params: Params)
      modifies this
      ensures epsilon == Epsilon(params, |replayBuffer|)
      ensures replayBuffer == old(replayBuffer) && qNetwork == old(qNetwork)
      ensures targetNetwork == old(targetNetwork) && trainingCounter == old(trainingCounter)
    {
      epsilon := params.epsilonEnd + (params.epsilonStart - params.epsilonEnd) * Pow(params.epsilonDecay, |replayBuffer|);
    }

    /** `train`. With fewer than `batch_size` experiences nothing happens. Otherwise
        `picks` are the `batch_size` indices drawn uniformly from [0, len), all
        targets are computed from the networks as they were on entry, then the
        q-network takes one gradient step per sample and the counter goes up by one.
        `Uniform::new(0, 0)` panics, so an empty buffer needs a positive batch size. */
    method Train(
      learningRate: real, params: Params, act: real -> real,
      backward: (Network, seq<real>, seq<real>, real) -> Network, picks: seq<nat>)
      requires |replayBuffer| > 0 || params.batchSize > 0
      requires |replayBuffer| >= params.batchSize ==>
        BatchFits(qNetwork, replayBuffer, picks, params.batchSize, act)
      modifies this
      ensures replayBuffer == old(replayBuffer) && epsilon == old(epsilon)
      ensures targetNetwork == old(targetNetwork)
      ensures |replayBuffer| < params.batchSize ==>
        qNetwork == old(qNetwork) && trainingCounter == old(trainingCounter)
      ensures |replayBuffer| >= params.batchSize ==>
        var samples := Samples(replayBuffer, picks);
        && trainingCounter == old(trainingCounter) + 1
        && qNetwork == Descend(old(qNetwork), StatesOf(samples),
                               Targets(old(qNetwork), targetNetwork, samples, params.gamma, act),
                               learningRate, act, backward)
    {
      if |replayBuffer| < params.batchSize {
        return;
      }
      var samples := Samples(replayBuffer, picks);
      var net, targetNet := qNetwork, targetNetwork;
      var states, targets := BuildTargets(net, targetNet, samples, params.gamma, act);
      qNetwork := ApplySteps(net, states, targets, learningRate, act, backward);
      trainingCounter := trainingCounter + 1;
    }
  }
}
