/** The multi-model pricing service of enhanced_app.py: four bandits fitted
    on the same bootstrap data, a `recommend_price` endpoint that asks the
    requested model for a tier and stores the decision under a fresh id, a
    `report_outcome` endpoint that feeds the reward back to exactly that
    model, and the `ModelEvaluator` metrics kept along the way. */
module EnhancedApp {
  import opened Common
  import opened Features
  import opened Reward
  import opened Learner
  import opened OneHotEncoding
  import ComprehensiveEvaluation

  // ---------------------------------------------------------------------
  // The service's own copies of the feature engineering and the reward
  // ---------------------------------------------------------------------

  /** A product of two values, kept as one term in the formulas below. */
  function Times(x: real, y: real): real
  {
    x * y
  }

  /** The nested `get_market_segment` of `enhanced_feature_engineering`. */
  function EnhancedSegment(storage: real): (s: Segment)
    ensures s == MarketSegment(storage)
  {
    if storage >= 512.0 then Premium
    else if storage >= 256.0 then HighEnd
    else if storage >= 128.0 then MidRange
    else Budget
  }

  /** `enhanced_feature_engineering` on one row; `decay` is the exponential
      of the age column. */
  function EnhancedEngineer(row: DeviceRow, decay: real -> real): (e: Engineered)
    ensures e.row == row && e.marketSegment == MarketSegment(row.storage)
    ensures e.damageTotal == row.backglassDamage + row.screenDamage
  {
    var conditionScore := row.battery * 0.4 + (1.0 - row.backglassDamage) * 30.0 + (1.0 - row.screenDamage) * 30.0;
    Engineered(
      row,
      Times(row.storage, row.ram),
      Times(row.battery, 100.0 - row.monthsSinceRelease),
      row.backglassDamage + row.screenDamage,
      Times(row.storage, row.storage),
      Times(row.battery, row.battery),
      EnhancedSegment(row.storage),
      conditionScore,
      decay(row.monthsSinceRelease))
  }

  /** The service derives exactly the evaluator's columns, segment
      cut-offs and condition score included. */
  lemma EngineeringAgrees(row: DeviceRow, decay: real -> real)
    ensures EnhancedEngineer(row, decay) == EngineerFeatures(row, decay)
  {
    var e, f := EnhancedEngineer(row, decay), EngineerFeatures(row, decay);
    assert e.conditionScore == ConditionScore(row.battery, row.backglassDamage, row.screenDamage);
    assert e.storageRamInteraction == f.storageRamInteraction && e.batteryAgeInteraction == f.batteryAgeInteraction;
    assert e.storageSquared == f.storageSquared && e.batterySquared == f.batterySquared;
  }

  /** The `Market_Segment` fallback of `recommend`: the same cut-offs on the
      request's storage, 128 when it is missing. */
  function FallbackSegment(data: Record): (s: Segment)
    ensures s == MarketSegment(NumOr(data, "Storage", 128.0))
    ensures "Storage" !in data.nums ==> s == MidRange
  {
    var storage := NumOr(data, "Storage", 128.0);
    if storage >= 512.0 then Premium
    else if storage >= 256.0 then HighEnd
    else if storage >= 128.0 then MidRange
    else Budget
  }

  /** The sale probability inside the service's `calculate_business_reward`,
      step by step as written. */
  function EnhancedSaleProbability(tier: real, context: Record): real
  {
    var batteryHealth := NumOr(context, "Battery", 95.0);
    var damagePenalty := NumOr(context, "Backglass_Damage", 0.0) + NumOr(context, "Screen_Damage", 0.0);
    var inventory := StrOr(context, "inventory_level", "decent");
    var tierProbability := if tier == 0.9 then 0.9 else if tier == 1.1 then 0.5 else 0.7;
    var conditioned := Times(tierProbability, Times(batteryHealth / 100.0, 1.0 - damagePenalty * 0.2));
    if inventory == "high" then conditioned * 1.1
    else if inventory == "low" then conditioned * 0.9
    else conditioned
  }

  /** The service's `calculate_business_reward`: expected profit at the
      tier's margin (0.25 for an unlisted tier) less the holding cost. */
  function EnhancedBusinessReward(tier: real, basePrice: real, context: Record): real
  {
    var margin := if tier == 0.9 then 0.15 else if tier == 1.0 then 0.25 else if tier == 1.1 then 0.35 else 0.25;
    var saleProb := EnhancedSaleProbability(tier, context);
    var expectedProfit := Times(Times(Times(saleProb, basePrice), tier), margin);
    var holdingCost := Times(basePrice * 0.01, 1.0 - saleProb);
    expectedProfit - holdingCost
  }

  /** Both copies of the sale probability agree: same defaults, same base
      probabilities, same condition and inventory adjustments. */
  lemma SaleProbabilitiesAgree(tier: real, context: Record)
    ensures EnhancedSaleProbability(tier, context) == SaleProbability(tier, context)
  {
    var base, health, cond := BaseSaleProbability(tier), Battery(context) / 100.0, 1.0 - DamagePenalty(context) * 0.2;
    var conditioned := Times(base, Times(health, cond));
    assert conditioned == base * health * cond by {
      Associate(base, health, cond);
    }
    var factor := InventoryFactor(Inventory(context));
    assert SaleProbability(tier, context) == Times(conditioned, factor);
    assert EnhancedSaleProbability(tier, context) == Times(conditioned, factor);
  }

  /** Both copies of the business reward agree on every tier, price and
      context. */
  lemma RewardsAgree(tier: real, basePrice: real, context: Record)
    ensures EnhancedBusinessReward(tier, basePrice, context) == BusinessReward(tier, basePrice, context)
  {
    SaleProbabilitiesAgree(tier, context);
    var p := SaleProbability(tier, context);
    var margin := ProfitMargin(tier);
    assert EnhancedBusinessReward(tier, basePrice, context)
           == Times(Times(Times(p, basePrice), tier), margin) - Times(basePrice * 0.01, 1.0 - p);
  }

  lemma Associate(x: real, y: real, z: real)
    ensures x * (y * z) == x * y * z
  {
  }

  /** The record `initialize_models` scores: the fifteen numeric columns
      and the inventory level of an engineered row. */
  function InitContext(e: Engineered): Record
  {
    Record(map["Storage" := e.row.storage, "RAM" := e.row.ram, "Screen Size" := e.row.screenSize,
               "Camera" := e.row.camera, "Battery" := e.row.battery, "market_shock" := e.row.marketShock,
               "Backglass_Damage" := e.row.backglassDamage, "Screen_Damage" := e.row.screenDamage,
               "Storage_RAM_interaction" := e.storageRamInteraction,
               "Battery_Age_interaction" := e.batteryAgeInteraction, "Damage_Total" := e.damageTotal,
               "Storage_squared" := e.storageSquared, "Battery_squared" := e.batterySquared,
               "Condition_Score" := e.conditionScore, "Age_Depreciation" := e.ageDepreciation],
           map["inventory_level" := e.row.inventoryLevel])
  }

  /** The bootstrap reward of a row is the one the offline evaluator gives
      the same row at the same tier: the extra columns are not read. */
  lemma InitRewardMatchesEvaluator(tier: real, e: Engineered)
    ensures EnhancedBusinessReward(tier, e.row.price, InitContext(e))
            == BusinessReward(tier, e.row.price, ComprehensiveEvaluation.ContextDict(e.row))
  {
    var ctx := InitContext(e);
    assert Battery(ctx) == e.row.battery;
    assert DamagePenalty(ctx) == e.row.backglassDamage + e.row.screenDamage;
    assert Inventory(ctx) == e.row.inventoryLevel;
  }

  /** The bootstrap rewards: one per row at its drawn tier. */
  function InitRewards(rows: seq<DeviceRow>, tiers: seq<real>, decay: real -> real): (rs: seq<real>)
    requires |tiers| == |rows|
    ensures |rs| == |rows|
    ensures forall i :: 0 <= i < |rows| ==>
              rs[i] == EnhancedBusinessReward(tiers[i], rows[i].price, InitContext(EnhancedEngineer(rows[i], decay)))
  {
    seq(|rows|, i requires 0 <= i < |rows| =>
      EnhancedBusinessReward(tiers[i], rows[i].price, InitContext(EnhancedEngineer(rows[i], decay))))
  }

  /** The reward loop of `initialize_models`: each row's drawn tier and its
      business reward, in row order. */
  method InitialRewards(rows: seq<DeviceRow>, tiers: seq<real>, decay: real -> real)
    returns (rewards: seq<real>, decisions: seq<real>)
    requires |tiers| == |rows|
    ensures decisions == tiers
    ensures rewards == InitRewards(rows, tiers, decay)
  {
    rewards, decisions := [], [];
    var i := 0;
    while i < |rows|
      invariant 0 <= i <= |rows|
      invariant decisions == tiers[..i]
      invariant rewards == InitRewards(rows, tiers, decay)[..i]
    {
      var e := EnhancedEngineer(rows[i], decay);
      var optimalTier := tiers[i];
      var reward := EnhancedBusinessReward(optimalTier, rows[i].price, InitContext(e));
      assert tiers[..i + 1] == tiers[..i] + [optimalTier];
      assert InitRewards(rows, tiers, decay)[..i + 1] == InitRewards(rows, tiers, decay)[..i] + [reward];
      rewards := rewards + [reward];
      decisions := decisions + [optimalTier];
      i := i + 1;
    }
    assert decisions == tiers[..i];
    assert InitRewards(rows, tiers, decay)[..i] == InitRewards(rows, tiers, decay);
  }

  // ---------------------------------------------------------------------
  // Confidence scores
  // ---------------------------------------------------------------------

  function ExpectationTotal(expectations: map<real, real>): real
    requires expectations.Keys == {0.9, 1.0, 1.1}
  {
    expectations[0.9] + expectations[1.0] + expectations[1.1]
  }

  /** Each arm's expectation over the total of the three. `None` where the
      total is zero and the division has no value. */
  function ConfidenceScores(expectations: map<real, real>): (scores: Option<map<real, real>>)
    requires expectations.Keys == {0.9, 1.0, 1.1}
    ensures scores.Some? <==> ExpectationTotal(expectations) != 0.0
    ensures scores.Some? ==> scores.value.Keys == expectations.Keys
    ensures scores.Some? ==> forall a :: a in expectations ==>
              scores.value[a] == expectations[a] / ExpectationTotal(expectations)
  {
    var total := ExpectationTotal(expectations);
    if total == 0.0 then None
    else Some(map a | a in expectations :: expectations[a] / total)
  }

  /** Whenever the scores exist they add up to one. */
  lemma ConfidenceSumsToOne(expectations: map<real, real>)
    requires expectations.Keys == {0.9, 1.0, 1.1}
    requires ExpectationTotal(expectations) != 0.0
    ensures var s := ConfidenceScores(expectations).value;
            s[0.9] + s[1.0] + s[1.1] == 1.0
  {
    var s := ConfidenceScores(expectations).value;
    var t := ExpectationTotal(expectations);
    var x, y, z := expectations[0.9], expectations[1.0], expectations[1.1];
    assert s[0.9] + s[1.0] + s[1.1] == x / t + y / t + z / t;
    AddQuotients(x, y, z, t);
  }

  lemma AddQuotients(x: real, y: real, z: real, t: real)
    requires t != 0.0 && t == x + y + z
    ensures x / t + y / t + z / t == 1.0
  {
    assert x / t + y / t + z / t == (x + y + z) / t;
  }

  // ---------------------------------------------------------------------
  // Evaluation metrics
  // ---------------------------------------------------------------------

  /** The number of rewards filed under each context hash. */
  function Lengths(m: map<int, seq<real>>): (lens: map<int, nat>)
    ensures lens.Keys == m.Keys
    ensures forall h :: h in m ==> lens[h] == |m[h]|
  {
    map h | h in m :: |m[h]|
  }

  /** `ModelEvaluator`: the regret list, the reward history, the count of
      each arm and the rewards filed under each context hash. */
  class ModelEvaluator {
    var cumulativeRegret: seq<real>
    var rewardHistory: seq<real>
    var armSelections: map<real, nat>
    var contextRewardMap: map<int, seq<real>>

    /** Every recorded reward is counted once under its arm and filed once
        under its context hash. */
    ghost predicate Valid()
      reads this
    {
      MapSum(armSelections) == |rewardHistory| && MapSum(Lengths(contextRewardMap)) == |rewardHistory|
    }

    constructor ()
      ensures Valid()
      ensures cumulativeRegret == [] && rewardHistory == [] && armSelections == map[] && contextRewardMap == map[]
    {
      cumulativeRegret, rewardHistory := [], [];
      armSelections, contextRewardMap := map[], map[];
      assert Lengths(map[]) == map[];
    }

    /** `calculate_regret`: optimal minus actual, appended to the regret
        list; nothing else changes. */
    method CalculateRegret(optimalReward: real, actualReward: real) returns (regret: real)
      modifies this
      ensures regret == optimalReward - actualReward
      ensures cumulativeRegret == old(cumulativeRegret) + [regret]
      ensures rewardHistory == old(rewardHistory) && armSelections == old(armSelections)
      ensures contextRewardMap == old(contextRewardMap)
    {
      regret := optimalReward - actualReward;
      cumulativeRegret := cumulativeRegret + [regret];
    }

    /** `update_metrics`: append the reward, count the arm once more and
        file the reward under the context hash; nothing else changes. */
    method UpdateMetrics(arm: real, reward: real, contextHash: int)
      requires Valid()
      modifies this
      ensures Valid()
      ensures rewardHistory == old(rewardHistory) + [reward]
      ensures armSelections == Counted(old(armSelections), arm)
      ensures contextRewardMap == Filed(old(contextRewardMap), contextHash, reward)
      ensures cumulativeRegret == old(cumulativeRegret)
    {
      ghost var before := |rewardHistory|;
      rewardHistory := rewardHistory + [reward];
      var counts := armSelections;
      if arm !in counts {
        counts := counts[arm := 0];
        UpdateTwice(armSelections, arm, 0, 1);
      }
      counts := counts[arm := counts[arm] + 1];
      assert counts == Counted(armSelections, arm);
      armSelections := counts;
      var lists := contextRewardMap;
      if contextHash !in lists {
        lists := lists[contextHash := []];
        UpdateTwice(contextRewardMap, contextHash, [], [reward]);
      }
      lists := lists[contextHash := lists[contextHash] + [reward]];
      assert lists == Filed(contextRewardMap, contextHash, reward);
      contextRewardMap := lists;
      MetricsStep(old(armSelections), old(contextRewardMap), arm, contextHash, reward, before);
    }
  }

  /** Counting one more selection and filing one more reward keep both
      totals equal to the number of recorded rewards. */
  lemma MetricsStep(counts: map<real, nat>, lists: map<int, seq<real>>, arm: real, h: int, reward: real, n: nat)
    requires MapSum(counts) == n && MapSum(Lengths(lists)) == n
    ensures MapSum(Counted(counts, arm)) == n + 1 && MapSum(Lengths(Filed(lists, h, reward))) == n + 1
  {
    CountedSum(counts, arm);
    FiledSum(lists, h, reward);
  }

  /** The arm counts after one more selection of `arm`: its count goes up
      by one, from zero when it is new, and no other count changes. */
  function Counted(counts: map<real, nat>, arm: real): (m: map<real, nat>)
    ensures m.Keys == counts.Keys + {arm}
    ensures m[arm] == (if arm in counts then counts[arm] else 0) + 1
    ensures forall a :: a in counts && a != arm ==> m[a] == counts[a]
  {
    counts[arm := (if arm in counts then counts[arm] else 0) + 1]
  }

  /** The filed rewards after one more reward under `h`: appended to that
      hash's list, a new list when the hash is new, and no other list
      changes. */
  function Filed(lists: map<int, seq<real>>, h: int, reward: real): (m: map<int, seq<real>>)
    ensures m.Keys == lists.Keys + {h}
    ensures m[h] == (if h in lists then lists[h] else []) + [reward]
    ensures forall k :: k in lists && k != h ==> m[k] == lists[k]
  {
    lists[h := (if h in lists then lists[h] else []) + [reward]]
  }

  /** One more selection adds exactly one to the total count. */
  lemma CountedSum(counts: map<real, nat>, arm: real)
    ensures MapSum(Counted(counts, arm)) == MapSum(counts) + 1
  {
    MapSumUpdate(counts, arm, (if arm in counts then counts[arm] else 0) + 1);
  }

  /** One more filed reward adds exactly one to the total filed. */
  lemma FiledSum(lists: map<int, seq<real>>, h: int, reward: real)
    ensures MapSum(Lengths(Filed(lists, h, reward))) == MapSum(Lengths(lists)) + 1
  {
    LengthsUpdate(lists, h, (if h in lists then lists[h] else []) + [reward]);
  }

  lemma UpdateTwice<K, V>(m: map<K, V>, k: K, a: V, b: V)
    ensures m[k := a][k := b] == m[k := b]
  {
  }

  /** Filing a list under a hash changes the total count by the change in
      that hash's list length. */
  lemma LengthsUpdate(m: map<int, seq<real>>, h: int, l: seq<real>)
    ensures MapSum(Lengths(m[h := l])) == MapSum(Lengths(m)) - (if h in m then |m[h]| else 0) + |l|
  {
    assert Lengths(m[h := l]) == Lengths(m)[h := |l|];
    MapSumUpdate(Lengths(m), h, |l|);
  }

  /** No arm has been chosen more often than there are recorded rewards. */
  lemma ArmCountBounded(armSelections: map<real, nat>, arm: real)
    requires arm in armSelections
    ensures armSelections[arm] <= MapSum(armSelections)
  {
    MapSumRemove(armSelections, arm);
  }

  // ---------------------------------------------------------------------
  // The service
  // ---------------------------------------------------------------------

  const ModelNames: seq<string> := ["LinTS", "UCB", "EpsilonGreedy", "ThompsonSampling"]

  /** The request fields the feature engineering and the context read;
      pandas raises when one is missing. */
  predicate HasColumns(data: Record)
  {
    "Storage" in data.nums && "RAM" in data.nums && "Screen Size" in data.nums && "Camera" in data.nums &&
    "Battery" in data.nums && "market_shock" in data.nums && "Backglass_Damage" in data.nums &&
    "Screen_Damage" in data.nums && "Months_since_release" in data.nums && "inventory_level" in data.strs
  }

  /** The request body as a device row; `None` where a column is missing.
      The listed price is not read by `recommend`; it is kept when given. */
  function RequestRow(data: Record): (row: Option<DeviceRow>)
    ensures row.Some? <==> HasColumns(data)
    ensures row.Some? ==> row.value.storage == data.nums["Storage"] && row.value.battery == data.nums["Battery"]
    ensures row.Some? ==> row.value.inventoryLevel == data.strs["inventory_level"]
  {
    if HasColumns(data)
    then Some(DeviceRow(data.nums["Storage"], data.nums["RAM"], data.nums["Screen Size"], data.nums["Camera"],
                        data.nums["Battery"], data.nums["market_shock"], data.nums["Backglass_Damage"],
                        data.nums["Screen_Damage"], data.nums["Months_since_release"],
                        data.strs["inventory_level"], NumOr(data, "Price", 0.0)))
    else None
  }

  /** Once the feature engineering has run, the frame always carries a
      `Market_Segment` column, and the fallback would agree with it anyway:
      both read the request's storage through the same cut-offs. */
  lemma FallbackAgrees(data: Record, decay: real -> real)
    requires RequestRow(data).Some?
    ensures FallbackSegment(data) == EnhancedEngineer(RequestRow(data).value, decay).marketSegment
  {
  }

  /** `data.get('model', 'LinTS')`. */
  function ModelName(data: Record): string
  {
    StrOr(data, "model", "LinTS")
  }

  /** A stored decision; the timestamp is left out. */
  datatype EnhancedDecision = EnhancedDecision(context: seq<real>, contextHash: int, arm: real, model: string,
                                               input: Record)

  /** One entry of `evaluation_history`; the timestamp is left out. */
  datatype EvaluationEntry = EvaluationEntry(decisionId: string, model: string, arm: real, reward: real,
                                             contextHash: int)

  /** The body of a successful `recommend_price`. */
  datatype EnhancedRecommendation = EnhancedRecommendation(
    decisionId: string, tier: real, modelUsed: string, confidence: Option<map<real, real>>,
    marketSegment: string, conditionScore: real)

  function HistoryRewards(history: seq<EvaluationEntry>): (rs: seq<real>)
    ensures |rs| == |history|
    ensures forall i :: 0 <= i < |history| ==> rs[i] == history[i].reward
  {
    seq(|history|, i requires 0 <= i < |history| => history[i].reward)
  }

  lemma HistoryRewardsAppend(history: seq<EvaluationEntry>, entry: EvaluationEntry)
    ensures HistoryRewards(history + [entry]) == HistoryRewards(history) + [entry.reward]
  {
    assert forall i :: 0 <= i < |history| ==> (history + [entry])[i] == history[i];
  }

  /** The categorical values the encoder sees: inventory level and segment. */
  function CategoricalValues(e: Engineered): (v: seq<string>)
    ensures |v| == 2
  {
    [e.row.inventoryLevel, e.marketSegment.Name()]
  }

  /** The bootstrap contexts: the one-hot block of each engineered row,
      then its scaled numeric columns. */
  function InitContexts(enc: Categories, scale: seq<real> -> seq<real>, decay: real -> real,
                        rows: seq<DeviceRow>): (xs: seq<seq<real>>)
    requires |enc| == 2
    ensures |xs| == |rows|
  {
    seq(|rows|, i requires 0 <= i < |rows| =>
      Encode(enc, CategoricalValues(EnhancedEngineer(rows[i], decay)))
        + scale(NumericalFeatures(EnhancedEngineer(rows[i], decay))))
  }

  /** The four named bandits of `initialize_models`, each fitted on the
      same decisions, rewards and contexts; no two names share a bandit. */
  method FitModels(linTS: Policy, ucb: Policy, epsilonGreedy: Policy, thompson: Policy,
                   decisions: seq<real>, rewards: seq<real>, contexts: seq<seq<real>>)
    returns (models: map<string, Bandit>)
    requires |decisions| == |rewards| == |contexts|
    requires Chooses(linTS, Arms) && Chooses(ucb, Arms) && Chooses(epsilonGreedy, Arms) && Chooses(thompson, Arms)
    ensures models.Keys == {"LinTS", "UCB", "EpsilonGreedy", "ThompsonSampling"}
    ensures models["LinTS"].select == linTS && models["UCB"].select == ucb
    ensures models["EpsilonGreedy"].select == epsilonGreedy && models["ThompsonSampling"].select == thompson
    ensures forall n :: n in models ==>
              fresh(models[n]) && models[n].Valid() && models[n].arms == Arms &&
              models[n].history == Observations(decisions, rewards, contexts)
    ensures forall n, m :: n in models && m in models && n != m ==> models[n] != models[m]
  {
    var a := new Bandit.Fit(Arms, linTS, decisions, rewards, contexts);
    var b := new Bandit.Fit(Arms, ucb, decisions, rewards, contexts);
    var c := new Bandit.Fit(Arms, epsilonGreedy, decisions, rewards, contexts);
    var d := new Bandit.Fit(Arms, thompson, decisions, rewards, contexts);
    models := map["LinTS" := a, "UCB" := b, "EpsilonGreedy" := c, "ThompsonSampling" := d];
  }

  class EnhancedService {
    /** The fitted encoder over `inventory_level` and `Market_Segment`. */
    const enc: Categories
    /** The fitted `StandardScaler.transform`. */
    const scale: seq<real> -> seq<real>
    /** `np.exp(-months / 24)`. */
    const decay: real -> real
    /** `hash(str(context.tolist()))`. */
    const contextHash: seq<real> -> int
    const models: map<string, Bandit>
    const evaluator: ModelEvaluator
    var activeDecisions: map<string, EnhancedDecision>
    var evaluationHistory: seq<EvaluationEntry>

    /** The context of an engineered row: the one-hot block, then the
        scaled numeric columns. */
    function Context(e: Engineered): seq<real>
      requires |enc| == 2
    {
      Encode(enc, CategoricalValues(e)) + scale(NumericalFeatures(e))
    }

    /** Each model is its own bandit over the three tiers, every stored
        decision names one of them and holds a declared tier, the metrics
        record exactly the rewards of the history, and no endpoint ever
        calls `calculate_regret`. */
    ghost predicate Valid()
      reads this, evaluator
    {
      |enc| == 2 && evaluator.Valid() && evaluator.cumulativeRegret == [] &&
      evaluator.rewardHistory == HistoryRewards(evaluationHistory) &&
      (forall n :: n in models ==> models[n].Valid() && models[n].arms == Arms) &&
      (forall n, m :: n in models && m in models && n != m ==> models[n] != models[m]) &&
      (forall id :: id in activeDecisions ==> activeDecisions[id].model in models && activeDecisions[id].arm in Arms)
    }

    /** `initialize_models`: engineer the rows, score each at its drawn
        tier, and fit the four named bandits on the same data. */
    constructor Initialize(enc: Categories, scale: seq<real> -> seq<real>, decay: real -> real,
                           contextHash: seq<real> -> int, rows: seq<DeviceRow>, tiers: seq<real>,
                           linTS: Policy, ucb: Policy, epsilonGreedy: Policy, thompson: Policy)
      requires |enc| == 2 && |tiers| == |rows|
      requires Chooses(linTS, Arms) && Chooses(ucb, Arms) && Chooses(epsilonGreedy, Arms) && Chooses(thompson, Arms)
      ensures Valid() && activeDecisions == map[] && evaluationHistory == []
      ensures models.Keys == {"LinTS", "UCB", "EpsilonGreedy", "ThompsonSampling"}
      ensures models["LinTS"].select == linTS && models["UCB"].select == ucb
      ensures models["EpsilonGreedy"].select == epsilonGreedy && models["ThompsonSampling"].select == thompson
      ensures forall n :: n in models ==>
                models[n].history == Observations(tiers, InitRewards(rows, tiers, decay),
                                                  InitContexts(enc, scale, decay, rows))
    {
      var contexts := InitContexts(enc, scale, decay, rows);
      var rewards, decisions := InitialRewards(rows, tiers, decay);
      var fitted := FitModels(linTS, ucb, epsilonGreedy, thompson, decisions, rewards, contexts);
      this.enc, this.scale, this.decay, this.contextHash := enc, scale, decay, contextHash;
      models := fitted;
      evaluator := new ModelEvaluator();
      activeDecisions := map[];
      evaluationHistory := [];
    }

    /** `recommend_price`. No body is a 500 and a model name not in
        `models` a 400, both before anything is stored; a request missing a
        column is a 500 with nothing stored. Otherwise the named model picks
        a tier and exactly one decision is stored under the fresh id. */
    method Recommend(data: Option<Record>, freshId: string, draw: nat, expectations: map<real, real>)
      returns (r: Reply<EnhancedRecommendation>)
      requires Valid() && freshId !in activeDecisions && expectations.Keys == {0.9, 1.0, 1.1}
      modifies this
      ensures Valid() && evaluationHistory == old(evaluationHistory)
      ensures data.None? ==> r == Fail(500) && activeDecisions == old(activeDecisions)
      ensures data.Some? && ModelName(data.value) !in models ==>
                r == Fail(400) && activeDecisions == old(activeDecisions)
      ensures data.Some? && ModelName(data.value) in models && RequestRow(data.value).None? ==>
                r == Fail(500) && activeDecisions == old(activeDecisions)
      ensures data.Some? && ModelName(data.value) in models && RequestRow(data.value).Some? ==>
                var name := ModelName(data.value);
                var e := EnhancedEngineer(RequestRow(data.value).value, decay);
                var context := Context(e);
                var arm := models[name].select(models[name].history, context, draw);
                arm in Arms &&
                r == Ok(EnhancedRecommendation(freshId, arm, name, ConfidenceScores(expectations),
                                               e.marketSegment.Name(), e.conditionScore)) &&
                activeDecisions == old(activeDecisions)[freshId := EnhancedDecision(context, contextHash(context),
                                                                                    arm, name, data.value)]
    {
      if data.None? {
        return Fail(500);
      }
      var modelName := ModelName(data.value);
      if modelName !in models {
        return Fail(400);
      }
      var row := RequestRow(data.value);
      if row.None? {
        return Fail(500);
      }
      var input := EnhancedEngineer(row.value, decay);
      var context := Context(input);
      var recommendation := models[modelName].Predict(context, draw);
      var armProbs := ConfidenceScores(expectations);
      var hash := contextHash(context);
      activeDecisions := activeDecisions[freshId := EnhancedDecision(context, hash, recommendation, modelName, data.value)];
      r := Ok(EnhancedRecommendation(freshId, recommendation, modelName, armProbs,
                                     input.marketSegment.Name(), input.conditionScore));
    }

    /** `report_outcome`. No body is a 500 and an unknown or consumed id a
        404, with nothing changed. A known id is popped; with a reward the
        model that made the decision, and no other, gets one update, the
        metrics record it and the history gets one entry. Without a reward
        the update raises (500) after the pop. */
    method Report(data: Option<Record>) returns (r: Reply<string>)
      requires Valid()
      modifies this, evaluator, models.Values
      ensures Valid()
      ensures forall n :: n in models && (data.None? || old(!DecisionKnown(data.value))) ==>
                models[n].history == old(models[n].history)
      ensures data.None? ==>
                r == Fail(500) && activeDecisions == old(activeDecisions) &&
                evaluationHistory == old(evaluationHistory) && unchanged(evaluator)
      ensures data.Some? && !old(DecisionKnown(data.value)) ==>
                r == Fail(404) && activeDecisions == old(activeDecisions) &&
                evaluationHistory == old(evaluationHistory) && unchanged(evaluator)
      ensures data.Some? && old(DecisionKnown(data.value)) ==>
                var id := data.value.strs["decision_id"];
                var d := old(activeDecisions)[id];
                activeDecisions == old(activeDecisions) - {id} &&
                (forall n :: n in models && n != d.model ==> models[n].history == old(models[n].history)) &&
                if "reward" in data.value.nums then
                  var reward := data.value.nums["reward"];
                  r == Ok(d.model) &&
                  models[d.model].history == old(models[d.model].history) + [Observation(d.arm, reward, d.context)] &&
                  evaluationHistory == old(evaluationHistory) + [EvaluationEntry(id, d.model, d.arm, reward, d.contextHash)] &&
                  evaluator.rewardHistory == old(evaluator.rewardHistory) + [reward] &&
                  evaluator.armSelections == Counted(old(evaluator.armSelections), d.arm) &&
                  evaluator.contextRewardMap == Filed(old(evaluator.contextRewardMap), d.contextHash, reward)
                else
                  r == Fail(500) && models[d.model].history == old(models[d.model].history) &&
                  evaluationHistory == old(evaluationHistory) && unchanged(evaluator)
    {
      if data.None? {
        return Fail(500);
      }
      var body := data.value;
      if !DecisionKnown(body) {
        return Fail(404);
      }
      var decisionId := body.strs["decision_id"];
      var decision := activeDecisions[decisionId];
      activeDecisions := activeDecisions - {decisionId};
      var modelName := decision.model;
      if "reward" !in body.nums {
        return Fail(500);
      }
      ApplyOutcome(decisionId, decision, body.nums["reward"]);
      r := Ok(modelName);
    }

    /** The update half of `report_outcome` for a popped decision: one
        `partial_fit` on the model that made it, the metrics, and one
        history entry. */
    method ApplyOutcome(decisionId: string, decision: EnhancedDecision, reward: real)
      requires Valid() && decision.model in models && decision.arm in Arms
      modifies this, evaluator, models.Values
      ensures Valid() && activeDecisions == old(activeDecisions)
      ensures forall n :: n in models && n != decision.model ==> models[n].history == old(models[n].history)
      ensures models[decision.model].history
              == old(models[decision.model].history) + [Observation(decision.arm, reward, decision.context)]
      ensures evaluationHistory
              == old(evaluationHistory) + [EvaluationEntry(decisionId, decision.model, decision.arm, reward,
                                                           decision.contextHash)]
      ensures evaluator.rewardHistory == old(evaluator.rewardHistory) + [reward]
      ensures evaluator.armSelections == Counted(old(evaluator.armSelections), decision.arm)
      ensures evaluator.contextRewardMap == Filed(old(evaluator.contextRewardMap), decision.contextHash, reward)
    {
      var model := models[decision.model];
      model.PartialFit(decision.arm, reward, decision.context);
      evaluator.UpdateMetrics(decision.arm, reward, decision.contextHash);
      var entry := EvaluationEntry(decisionId, decision.model, decision.arm, reward, decision.contextHash);
      HistoryRewardsAppend(evaluationHistory, entry);
      evaluationHistory := evaluationHistory + [entry];
    }

    /** `decision_id in active_decisions`: a missing id reads as `None`,
        which is never stored. */
    predicate DecisionKnown(body: Record)
      reads this
    {
      "decision_id" in body.strs && body.strs["decision_id"] in activeDecisions
    }

    /** The `cumulative_regret` total of `model_comparison`: always zero,
        because nothing in the service records a regret. */
    function OverallRegret(): (total: real)
      requires Valid()
      reads this, evaluator
      ensures total == 0.0
    {
      Sum(evaluator.cumulativeRegret)
    }

    /** The `average_reward` of `model_comparison`: the mean of the metrics'
        reward history, which is the mean reward of the evaluation history,
        and 0 when nothing has been reported. */
    function OverallAverageReward(): (avg: real)
      requires Valid()
      reads this, evaluator
      ensures evaluationHistory == [] ==> avg == 0.0
      ensures evaluationHistory != [] ==>
                avg == Sum(HistoryRewards(evaluationHistory)) / |evaluationHistory| as real
    {
      if evaluator.rewardHistory != [] then Sum(evaluator.rewardHistory) / |evaluator.rewardHistory| as real else 0.0
    }
  }
}
