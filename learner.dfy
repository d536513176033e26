/** The contextual bandit the pricing services and evaluators hold (a
    `mabwiser` MAB). Its learning policy (LinTS, LinUCB, epsilon-greedy,
    random) is not part of this model: what the model keeps is the arm list,
    the ordered record of every `fit`/`partial_fit` observation, and the
    policy's choice as a function of that record, the context and a random
    draw. */
module Learner {

  /** One (decision, reward, context) triple given to `fit` or `partial_fit`. */
  datatype Observation = Observation(arm: real, reward: real, context: seq<real>)

  /** The policy's arm choice from the observations so far, the context and
      a random draw. */
  type Policy = (seq<Observation>, seq<real>, nat) -> real

  /** The assumption made of every policy: it only ever picks a declared arm. */
  ghost predicate Chooses(select: Policy, arms: seq<real>)
  {
    forall h, x, d :: select(h, x, d) in arms
  }

  /** The triples of a batch `fit`, in the order given. */
  function Observations(decisions: seq<real>, rewards: seq<real>, contexts: seq<seq<real>>): (h: seq<Observation>)
    requires |decisions| == |rewards| == |contexts|
    ensures |h| == |decisions|
    ensures forall i :: 0 <= i < |h| ==> h[i] == Observation(decisions[i], rewards[i], contexts[i])
  {
    seq(|decisions|, i requires 0 <= i < |decisions| => Observation(decisions[i], rewards[i], contexts[i]))
  }

  class Bandit {
    const arms: seq<real>
    const select: Policy
    var history: seq<Observation>

    ghost predicate Valid()
    {
      Chooses(select, arms)
    }

    /** `MAB(arms, policy).fit(decisions, rewards, contexts)`: one update per
        triple, in order. */
    constructor Fit(arms: seq<real>, select: Policy,
                    decisions: seq<real>, rewards: seq<real>, contexts: seq<seq<real>>)
      requires |decisions| == |rewards| == |contexts|
      ensures this.arms == arms && this.select == select
      ensures history == Observations(decisions, rewards, contexts)
    {
      this.arms := arms;
      this.select := select;
      history := Observations(decisions, rewards, contexts);
    }

    /** `predict(context)`: the policy's choice, always a declared arm. */
    method Predict(context: seq<real>, draw: nat) returns (arm: real)
      requires Valid()
      ensures arm in arms
      ensures arm == select(history, context, draw)
    {
      arm := select(history, context, draw);
    }

    /** `partial_fit([arm], [reward], context)`: exactly one more observation. */
    method PartialFit(arm: real, reward: real, context: seq<real>)
      modifies this
      ensures history == old(history) + [Observation(arm, reward, context)]
    {
      history := history + [Observation(arm, reward, context)];
    }
  }

  /** The arms a replay chooses when at each step the policy sees the
      observations so far and the step's context and draw, and the step's
      payoff for the chosen arm is fed back with `partial_fit`. */
  function Trajectory(select: Policy, h: seq<Observation>, contexts: seq<seq<real>>,
                      draws: seq<nat>, payoff: seq<real -> real>): (chosen: seq<real>)
    requires |draws| == |contexts| && |payoff| == |contexts|
    ensures |chosen| == |contexts|
    decreases |contexts|
  {
    if contexts == [] then []
    else
      var arm := select(h, contexts[0], draws[0]);
      [arm] + Trajectory(select, h + [Observation(arm, payoff[0](arm), contexts[0])],
                         contexts[1..], draws[1..], payoff[1..])
  }

  /** Every arm a replay chooses is a declared arm. */
  lemma {:induction false} TrajectoryInArms(select: Policy, arms: seq<real>, h: seq<Observation>,
                                             contexts: seq<seq<real>>, draws: seq<nat>, payoff: seq<real -> real>)
    requires Chooses(select, arms)
    requires |draws| == |contexts| && |payoff| == |contexts|
    ensures forall i :: 0 <= i < |contexts| ==> Trajectory(select, h, contexts, draws, payoff)[i] in arms
    decreases |contexts|
  {
    if contexts != [] {
      var arm := select(h, contexts[0], draws[0]);
      TrajectoryInArms(select, arms, h + [Observation(arm, payoff[0](arm), contexts[0])],
                       contexts[1..], draws[1..], payoff[1..]);
    }
  }

  /** One replay step: if the replay from step i on with history h is
      `chosen[i..]`, then `chosen[i]` is the policy's choice at step i, and the
      replay from step i+1 on, after feeding that arm's payoff back, is the
      rest of `chosen`. */
  lemma TrajectoryStep(select: Policy, h: seq<Observation>, contexts: seq<seq<real>>,
                       draws: seq<nat>, payoff: seq<real -> real>, chosen: seq<real>, i: nat)
    requires |draws| == |contexts| && |payoff| == |contexts| && i < |contexts| && |chosen| == |contexts|
    requires Trajectory(select, h, contexts[i..], draws[i..], payoff[i..]) == chosen[i..]
    ensures chosen[i] == select(h, contexts[i], draws[i])
    ensures Trajectory(select, h + [Observation(chosen[i], payoff[i](chosen[i]), contexts[i])],
                       contexts[i + 1..], draws[i + 1..], payoff[i + 1..]) == chosen[i + 1..]
  {
    assert contexts[i..][1..] == contexts[i + 1..];
    assert draws[i..][1..] == draws[i + 1..];
    assert payoff[i..][1..] == payoff[i + 1..];
    assert chosen[i..][1..] == chosen[i + 1..];
    assert chosen[i..][0] == chosen[i];
  }
}
