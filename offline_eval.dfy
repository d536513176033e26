/** The offline replay script offline_eval.py: fit a bandit on a bootstrap
    prefix of the data set, then replay the shuffled rows one at a time,
    crediting the full row reward for a standard or premium tier and half of
    it for the discount tier, and keep the running total of credited reward. */
module OfflineEval {
  import opened Common
  import opened Learner
  import opened OneHotEncoding

  const CategoricalFeatures: seq<string> := ["inventory_level"]

  const NumericalFeatures: seq<string> := ["Storage", "RAM", "Screen Size", "Camera", "Battery", "market_shock"]

  /** The columns every row of the processed data set carries. */
  predicate Processed(row: Record)
  {
    "inventory_level" in row.strs && "adjusted_price" in row.nums && "Price" in row.nums &&
    forall i :: 0 <= i < |NumericalFeatures| ==> NumericalFeatures[i] in row.nums
  }

  predicate AllProcessed(rows: seq<Record>)
  {
    forall i :: 0 <= i < |rows| ==> Processed(rows[i])
  }

  /** The `reward` column: adjusted price minus listed price. */
  function RowReward(row: Record): real
    requires Processed(row)
  {
    row.nums["adjusted_price"] - row.nums["Price"]
  }

  /** `min(100, len(df))`: the bootstrap takes at most the first 100 rows. */
  function BootstrapSize(n: nat): (k: nat)
    ensures k <= n && k <= 100
    ensures k == n || k == 100
  {
    if n < 100 then n else 100
  }

  /** The credited reward: in full when the decision exceeds 0.95, else half. */
  function Realised(decision: real, reward: real): real
  {
    if decision > 0.95 then reward else reward * 0.5
  }

  /** Of the three tiers, standard and premium earn the row reward and the
      discount tier earns half of it. */
  lemma RealisedByTier(reward: real)
    ensures Realised(0.9, reward) == reward * 0.5
    ensures Realised(1.0, reward) == reward && Realised(1.1, reward) == reward
  {
  }

  /** The context of one processed row. */
  function Context(enc: Categories, row: Record): (x: seq<real>)
    requires |enc| == 1 && Processed(row)
    ensures |x| == Width(enc) + |NumericalFeatures|
    ensures Some(x) == PrepareContext(enc, row, CategoricalFeatures, NumericalFeatures)
  {
    PrepareContext(enc, row, CategoricalFeatures, NumericalFeatures).value
  }

  function Contexts(enc: Categories, rows: seq<Record>): (xs: seq<seq<real>>)
    requires |enc| == 1 && AllProcessed(rows)
    ensures |xs| == |rows|
    ensures forall i :: 0 <= i < |rows| ==> xs[i] == Context(enc, rows[i])
  {
    seq(|rows|, i requires 0 <= i < |rows| && Processed(rows[i]) => Context(enc, rows[i]))
  }

  function Rewards(rows: seq<Record>): (rs: seq<real>)
    requires AllProcessed(rows)
    ensures |rs| == |rows|
    ensures forall i :: 0 <= i < |rows| ==> rs[i] == RowReward(rows[i])
  {
    seq(|rows|, i requires 0 <= i < |rows| && Processed(rows[i]) => RowReward(rows[i]))
  }

  /** Row i's credited reward as a function of the decision. */
  function Payoffs(rows: seq<Record>): (ps: seq<real -> real>)
    requires AllProcessed(rows)
    ensures |ps| == |rows|
    ensures forall i, a :: 0 <= i < |rows| ==> ps[i](a) == Realised(a, RowReward(rows[i]))
  {
    seq(|rows|, i requires 0 <= i < |rows| && Processed(rows[i]) =>
      var reward := RowReward(rows[i]); (a: real) => Realised(a, reward))
  }

  /** The rewards credited along a sequence of decisions. */
  function Credited(pay: seq<real -> real>, chosen: seq<real>): (cs: seq<real>)
    requires |pay| == |chosen|
    ensures |cs| == |chosen|
    ensures forall i :: 0 <= i < |chosen| ==> cs[i] == pay[i](chosen[i])
  {
    seq(|chosen|, i requires 0 <= i < |chosen| => pay[i](chosen[i]))
  }

  /** The whole script. `df` is the data set, `shuffled` its rows in the
      order `df.sample(frac=1, random_state=42)` gives, `bootstrapTiers` the
      drawn bootstrap decisions and `draws` the bandit's random draws during
      the replay. The running totals are those of the rewards credited along
      the decisions the bandit takes, each of which is a declared tier. */
  method Evaluate(enc: Categories, df: seq<Record>, shuffled: seq<Record>, select: Policy,
                  bootstrapTiers: seq<real>, draws: seq<nat>)
    returns (cumulativeRewards: seq<real>, ghost chosen: seq<real>)
    requires |enc| == 1 && AllProcessed(df) && AllProcessed(shuffled)
    requires |bootstrapTiers| == BootstrapSize(|df|) && |draws| == |shuffled|
    requires Chooses(select, Arms)
    ensures var initial := BootstrapSize(|df|);
      chosen == Trajectory(select,
                           Observations(bootstrapTiers, Rewards(df[..initial]), Contexts(enc, df[..initial])),
                           Contexts(enc, shuffled), draws, Payoffs(shuffled))
    ensures forall i :: 0 <= i < |chosen| ==> chosen[i] in Arms
    ensures cumulativeRewards == PrefixSums(Credited(Payoffs(shuffled), chosen))
  {
    var initialSize := BootstrapSize(|df|);
    var bootstrap := df[..initialSize];
    var evalBandit := new Bandit.Fit(Arms, select, bootstrapTiers, Rewards(bootstrap), Contexts(enc, bootstrap));
    var xs, pay := Contexts(enc, shuffled), Payoffs(shuffled);
    chosen := Trajectory(select, evalBandit.history, xs, draws, pay);
    TrajectoryInArms(select, Arms, evalBandit.history, xs, draws, pay);
    cumulativeRewards := Replay(evalBandit, xs, draws, pay, chosen);
  }

  /** The replay loop: predict, credit, `partial_fit`, and append the new
      running total (the first total is the first reward itself). */
  method Replay(evalBandit: Bandit, xs: seq<seq<real>>, draws: seq<nat>, pay: seq<real -> real>,
                ghost chosen: seq<real>)
    returns (cumulativeRewards: seq<real>)
    requires evalBandit.Valid() && |draws| == |xs| && |pay| == |xs|
    requires chosen == Trajectory(evalBandit.select, evalBandit.history, xs, draws, pay)
    modifies evalBandit
    ensures cumulativeRewards == PrefixSums(Credited(pay, chosen))
  {
    ghost var credited := Credited(pay, chosen);
    cumulativeRewards := [];
    var i := 0;
    while i < |xs|
      invariant 0 <= i <= |xs|
      invariant evalBandit.Valid()
      invariant Trajectory(evalBandit.select, evalBandit.history, xs[i..], draws[i..], pay[i..]) == chosen[i..]
      invariant cumulativeRewards == PrefixSums(credited)[..i]
    {
      var decision := evalBandit.Predict(xs[i], draws[i]);
      TrajectoryStep(evalBandit.select, evalBandit.history, xs, draws, pay, chosen, i);
      var currentReward := pay[i](decision);
      assert currentReward == credited[i];
      evalBandit.PartialFit(decision, currentReward, xs[i]);
      AppendTotalStep(credited, i);
      cumulativeRewards := AppendTotal(cumulativeRewards, currentReward);
      i := i + 1;
    }
    assert PrefixSums(credited)[..i] == PrefixSums(credited);
  }

  /** The running totals of the replay: one per replayed row, the first is
      the first credited reward, each later one adds the current reward to
      the previous total, and the last is the total credited reward. */
  lemma CumulativeShape(credited: seq<real>)
    ensures |PrefixSums(credited)| == |credited|
    ensures |credited| > 0 ==> PrefixSums(credited)[0] == credited[0]
    ensures forall i :: 0 < i < |credited| ==>
              PrefixSums(credited)[i] == PrefixSums(credited)[i - 1] + credited[i]
    ensures |credited| > 0 ==> PrefixSums(credited)[|credited| - 1] == Sum(credited)
  {
    PrefixSumsShape(credited);
  }
}
