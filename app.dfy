/** The bandit pricing service of app.py: a LinTS bandit pre-trained on the
    processed data set, a `recommend` endpoint that stores each decision
    under a fresh id, and a `report` endpoint that consumes the decision and
    feeds the observed reward back to the bandit. */
module App {
  import opened Common
  import opened Learner
  import opened OneHotEncoding

  const CategoricalFeatures: seq<string> := ["inventory_level"]

  const NumericalFeatures: seq<string> := [
    "Storage", "RAM", "Screen Size", "Camera", "Battery", "market_shock",
    "Backglass_Damage", "Screen_Damage"]

  /** `feature_names`: the encoded category names, then the numeric names. */
  function FeatureNames(enc: Categories): (names: seq<string>)
    requires |enc| == 1
    ensures |names| == Width(enc) + |NumericalFeatures|
    ensures names[Width(enc)..] == NumericalFeatures
  {
    EncodedNames(CategoricalFeatures, enc) + NumericalFeatures
  }

  /** With one categorical column the block is as wide as its category list,
      so skipping that many feature names leaves exactly the numeric columns,
      in their declared order. */
  lemma ServingColumns(enc: Categories)
    requires |enc| == 1
    ensures Width(enc) == |enc[0]|
    ensures FeatureNames(enc)[|enc[0]|..] == NumericalFeatures
  {
    assert enc[..0] == [];
  }

  /** The request row after the damage defaults: a missing damage column
      becomes 0, a present one is kept, and nothing else changes. */
  function WithDamageDefaults(data: Record): (r: Record)
    ensures r.strs == data.strs
    ensures "Backglass_Damage" in r.nums && "Screen_Damage" in r.nums
    ensures "Backglass_Damage" in data.nums ==> r.nums["Backglass_Damage"] == data.nums["Backglass_Damage"]
    ensures "Backglass_Damage" !in data.nums ==> r.nums["Backglass_Damage"] == 0.0
    ensures "Screen_Damage" in data.nums ==> r.nums["Screen_Damage"] == data.nums["Screen_Damage"]
    ensures "Screen_Damage" !in data.nums ==> r.nums["Screen_Damage"] == 0.0
    ensures forall k :: k != "Backglass_Damage" && k != "Screen_Damage" ==>
              (k in r.nums <==> k in data.nums) && (k in data.nums ==> r.nums[k] == data.nums[k])
  {
    var nums := data.nums["Backglass_Damage" := NumOr(data, "Backglass_Damage", 0.0)];
    Record(nums["Screen_Damage" := NumOr(data, "Screen_Damage", 0.0)], data.strs)
  }

  /** Filling the defaults twice is filling them once. */
  lemma DamageDefaultsIdempotent(data: Record)
    ensures WithDamageDefaults(WithDamageDefaults(data)) == WithDamageDefaults(data)
  {
    var once := WithDamageDefaults(data);
    assert WithDamageDefaults(once).nums == once.nums;
  }

  /** The context `recommend` builds from a request body: `None` where the
      source raises (no body, or a column missing from the request). */
  function ServingContext(enc: Categories, data: Option<Record>): (ctx: Option<seq<real>>)
    requires |enc| == 1
    ensures ctx.Some? ==> |ctx.value| == Width(enc) + |NumericalFeatures|
    ensures (data.Some? && "inventory_level" in data.value.strs &&
             forall i :: 0 <= i < 6 ==> NumericalFeatures[i] in data.value.nums) <==> ctx.Some?
  {
    if data.None? then None
    else PrepareContext(enc, WithDamageDefaults(data.value), CategoricalFeatures, NumericalFeatures)
  }

  /** The columns every row of the processed data set carries. */
  predicate Processed(row: Record)
  {
    "inventory_level" in row.strs && "adjusted_price" in row.nums && "Price" in row.nums &&
    forall i :: 0 <= i < |NumericalFeatures| ==> NumericalFeatures[i] in row.nums
  }

  /** Bootstrap reward of a row: the adjusted price minus the listed price. */
  function RowReward(row: Record): real
    requires Processed(row)
  {
    row.nums["adjusted_price"] - row.nums["Price"]
  }

  function TrainingRewards(rows: seq<Record>): (rs: seq<real>)
    requires forall i :: 0 <= i < |rows| ==> Processed(rows[i])
    ensures |rs| == |rows|
    ensures forall i :: 0 <= i < |rows| ==> rs[i] == RowReward(rows[i])
  {
    seq(|rows|, i requires 0 <= i < |rows| && Processed(rows[i]) => RowReward(rows[i]))
  }

  /** The training contexts: every processed row has all its columns. */
  function TrainingContexts(enc: Categories, rows: seq<Record>): (xs: seq<seq<real>>)
    requires |enc| == 1
    requires forall i :: 0 <= i < |rows| ==> Processed(rows[i])
    ensures |xs| == |rows|
    ensures forall i :: 0 <= i < |rows| ==>
              Some(xs[i]) == PrepareContext(enc, rows[i], CategoricalFeatures, NumericalFeatures)
  {
    seq(|rows|, i requires 0 <= i < |rows| && Processed(rows[i]) =>
      PrepareContext(enc, rows[i], CategoricalFeatures, NumericalFeatures).value)
  }

  /** A stored decision: the context the bandit saw and the tier it chose. */
  datatype Decision = Decision(context: seq<real>, arm: real)

  class PricingService {
    const enc: Categories
    const featureNames: seq<string>
    const bandit: Bandit
    var activeDecisions: map<string, Decision>

    /** The bandit only picks declared tiers, the feature names are those of
        the fitted encoder, and every stored decision holds a declared tier
        and a context of full width. */
    ghost predicate Valid()
      reads this
    {
      bandit.Valid() && bandit.arms == Arms && |enc| == 1 && featureNames == FeatureNames(enc) &&
      forall id :: id in activeDecisions ==>
        activeDecisions[id].arm in Arms &&
        |activeDecisions[id].context| == Width(enc) + |NumericalFeatures|
    }

    /** `initialize_bandit`: encode the processed rows, score each with its
        bootstrap reward, and fit the bandit with one drawn tier per row.
        `enc` is the encoder fitted on the rows; `tiers` are the drawn tiers. */
    constructor Initialize(enc: Categories, rows: seq<Record>, tiers: seq<real>, select: Policy)
      requires |enc| == 1 && |tiers| == |rows| && Chooses(select, Arms)
      requires forall i :: 0 <= i < |rows| ==> Processed(rows[i])
      ensures Valid() && activeDecisions == map[] && this.enc == enc
      ensures fresh(bandit)
      ensures bandit.history == Observations(tiers, TrainingRewards(rows), TrainingContexts(enc, rows))
    {
      var contexts := TrainingContexts(enc, rows);
      var rewards := TrainingRewards(rows);
      this.enc := enc;
      featureNames := FeatureNames(enc);
      bandit := new Bandit.Fit(Arms, select, tiers, rewards, contexts);
      activeDecisions := map[];
    }

    /** `recommend`: build the context, ask the bandit for a tier, and store
        the decision under the fresh id `freshId`. Where the source raises
        (500), nothing is stored. */
    method Recommend(data: Option<Record>, freshId: string, draw: nat) returns (r: Reply<(string, real)>)
      requires Valid() && freshId !in activeDecisions
      modifies this
      ensures Valid()
      ensures var ctx := ServingContext(enc, data);
        if ctx.None? then r == Fail(500) && activeDecisions == old(activeDecisions)
        else
          var arm := bandit.select(bandit.history, ctx.value, draw);
          arm in Arms && r == Ok((freshId, arm)) &&
          activeDecisions == old(activeDecisions)[freshId := Decision(ctx.value, arm)]
    {
      if data.None? {
        return Fail(500);
      }
      var input := WithDamageDefaults(data.value);
      ServingColumns(enc);
      var context := PrepareContext(enc, input, CategoricalFeatures, featureNames[|enc[0]|..]);
      if context.None? {
        return Fail(500);
      }
      var recommendation := bandit.Predict(context.value, draw);
      activeDecisions := activeDecisions[freshId := Decision(context.value, recommendation)];
      r := Ok((freshId, recommendation));
    }

    /** `report`: pop the decision; an unknown or already consumed id is a
        404 with no update. A found decision is removed and the bandit gets
        exactly one update with the stored tier and context; without a
        reward the update raises (500) after the decision is removed. */
    method Report(data: Option<Record>) returns (r: Reply<string>)
      requires Valid()
      modifies this, bandit
      ensures Valid()
      ensures data.None? ==>
                r == Fail(500) && activeDecisions == old(activeDecisions) &&
                bandit.history == old(bandit.history)
      ensures data.Some? ==>
        var body := data.value;
        if "decision_id" !in body.strs || body.strs["decision_id"] !in old(activeDecisions) then
          r == Fail(404) && activeDecisions == old(activeDecisions) && bandit.history == old(bandit.history)
        else
          var id := body.strs["decision_id"];
          var d := old(activeDecisions)[id];
          activeDecisions == old(activeDecisions) - {id} &&
          if "reward" in data.value.nums then
            r == Ok("success") &&
            bandit.history == old(bandit.history) + [Observation(d.arm, data.value.nums["reward"], d.context)]
          else
            r == Fail(500) && bandit.history == old(bandit.history)
    {
      if data.None? {
        return Fail(500);
      }
      var body := data.value;
      if "decision_id" !in body.strs || body.strs["decision_id"] !in activeDecisions {
        return Fail(404);
      }
      var id := body.strs["decision_id"];
      var decision := activeDecisions[id];
      activeDecisions := activeDecisions - {id};
      if "reward" !in body.nums {
        return Fail(500);
      }
      bandit.PartialFit(decision.arm, body.nums["reward"], decision.context);
      r := Ok("success");
    }
  }
}
