/** The rule-based price service (`SimplePriceEngine` and the endpoints in
    simple_price_api.py): a market-price estimate from a model table and
    multipliers, a rule-based tier, the per-tier price table, and the
    recommend / analysis / report endpoints. */
module SimplePrice {
  import opened Common
  import Features

  /** Exchange rate from Sri Lankan rupees to euros. */
  const LkrToEur: real := 0.0031

  /** Price before rounding to cents (rounding is not modelled). */
  function ConvertLkrToEur(lkr: real): real
  {
    lkr * LkrToEur
  }

  /** Strategy label of each tier in `tier_multipliers` (= `Arms`). */
  function TierName(tier: real): string
  {
    if tier == 0.9 then "Competitive" else if tier == 1.0 then "Market Rate" else "Premium"
  }

  /** Base value in rupees of each known model. */
  const ModelValues: map<string, real> := map[
    "iPhone 11" := 45000.0, "iPhone 11 Pro" := 65000.0, "iPhone 11 Pro Max" := 70000.0,
    "iPhone 12" := 55000.0, "iPhone 12 Mini" := 50000.0, "iPhone 12 Pro" := 75000.0,
    "iPhone 12 Pro Max" := 80000.0, "iPhone 13" := 65000.0, "iPhone 13 Mini" := 60000.0,
    "iPhone 13 Pro" := 85000.0, "iPhone 13 Pro Max" := 90000.0, "iPhone 14" := 75000.0,
    "iPhone 14 Plus" := 80000.0, "iPhone 14 Pro" := 95000.0, "iPhone 14 Pro Max" := 100000.0,
    "iPhone 15" := 85000.0, "iPhone 15 Plus" := 90000.0, "iPhone 15 Pro" := 110000.0,
    "iPhone 15 Pro Max" := 120000.0]

  /** `get_model_base_value`: the table value, or 50000 for an unlisted name. */
  function GetModelBaseValue(modelName: string): (v: real)
    ensures modelName in ModelValues ==> v == ModelValues[modelName]
    ensures modelName !in ModelValues ==> v == 50000.0
    ensures 45000.0 <= v <= 120000.0
  {
    if modelName in ModelValues then ModelValues[modelName] else 50000.0
  }

  /** Every listed value lies between the cheapest and the dearest model. */
  lemma ModelValuesRange()
    ensures forall m :: m in ModelValues ==> 45000.0 <= ModelValues[m] <= 120000.0
  {
  }

  /** Storage premium over 128 GB: 30% per doubling step for a "Pro" name,
      20% otherwise. */
  function StorageMultiplier(modelName: string, storage: real): real
  {
    var slope := if Contains(modelName, "Pro") then 0.3 else 0.2;
    1.0 + (storage / 128.0 - 1.0) * slope
  }

  function RamMultiplier(ram: real): real
  {
    1.0 + (ram - 4.0) * 0.05
  }

  function CameraMultiplier(camera: real): real
  {
    if camera == 48.0 then 1.15 else 1.0
  }

  /** Market pressure by inventory level; an unknown level counts as "decent". */
  function InventoryMultiplier(level: string): real
  {
    if level == "low" then 1.05
    else if level == "decent" then 1.0
    else if level == "high" then 0.95
    else 1.0
  }

  /** 15% off per damage flag. */
  function DamagePenalty(device: Record): real
  {
    (NumOr(device, "Screen_Damage", 0.0) + NumOr(device, "Backglass_Damage", 0.0)) * 0.15
  }

  /** The seven factors multiplied left to right. */
  function Product(base: real, storage: real, ram: real, camera: real, battery: real,
                   inventory: real, damage: real): real
  {
    base * storage * ram * camera * battery * inventory * (1.0 - damage)
  }

  /** The estimate before the floor. Defaults: model "iPhone 12", 128 GB,
      4 GB RAM, battery 95, 12 MP camera, no damage, "decent" inventory. */
  function RawEstimate(device: Record): real
  {
    var modelName := StrOr(device, "Model", "iPhone 12");
    Product(GetModelBaseValue(modelName),
            StorageMultiplier(modelName, NumOr(device, "Storage", 128.0)),
            RamMultiplier(NumOr(device, "RAM", 4.0)),
            CameraMultiplier(NumOr(device, "Camera", 12.0)),
            NumOr(device, "Battery", 95.0) / 100.0,
            InventoryMultiplier(StrOr(device, "inventory_level", "decent")),
            DamagePenalty(device))
  }

  /** `estimate_market_price`: the raw estimate, floored at 20000 rupees. */
  function EstimateMarketPrice(device: Record): (price: real)
    ensures price >= 20000.0
    ensures price >= RawEstimate(device)
    ensures price == 20000.0 || price == RawEstimate(device)
  {
    var raw := RawEstimate(device);
    if raw > 20000.0 then raw else 20000.0
  }

  /** The multipliers are neutral for a 128 GB, 4 GB RAM, 12 MP, full-battery,
      undamaged device at "decent" inventory, so its estimate is the model's
      base value. */
  lemma ReferenceDeviceEstimate(modelName: string)
    ensures var device := Record(
              map["Storage" := 128.0, "RAM" := 4.0, "Camera" := 12.0, "Battery" := 100.0,
                  "Screen_Damage" := 0.0, "Backglass_Damage" := 0.0],
              map["Model" := modelName, "inventory_level" := "decent"]);
            EstimateMarketPrice(device) == GetModelBaseValue(modelName)
  {
    var device := Record(
      map["Storage" := 128.0, "RAM" := 4.0, "Camera" := 12.0, "Battery" := 100.0,
          "Screen_Damage" := 0.0, "Backglass_Damage" := 0.0],
      map["Model" := modelName, "inventory_level" := "decent"]);
    assert StorageMultiplier(modelName, 128.0) == 1.0;
    assert DamagePenalty(device) == 0.0;
    assert RawEstimate(device) == Product(GetModelBaseValue(modelName), 1.0, 1.0, 1.0, 1.0, 1.0, 0.0);
  }

  /** Above 128 GB a name containing "Pro" earns at least the storage
      premium of a name without it. */
  lemma ProStoragePremium(proName: string, otherName: string, storage: real)
    requires Contains(proName, "Pro") && !Contains(otherName, "Pro")
    requires storage >= 128.0
    ensures StorageMultiplier(proName, storage) >= StorageMultiplier(otherName, storage)
  {
  }

  /** `get_simple_recommendation`: discount for any damage or a battery
      under 80, premium for a pristine 512 GB device at low inventory,
      standard otherwise. */
  function GetSimpleRecommendation(device: Record): (tier: real)
    ensures tier in Arms
  {
    var storage := NumOr(device, "Storage", 128.0);
    var battery := NumOr(device, "Battery", 95.0);
    var inventory := StrOr(device, "inventory_level", "decent");
    var damageTotal := NumOr(device, "Screen_Damage", 0.0) + NumOr(device, "Backglass_Damage", 0.0);
    if damageTotal > 0.0 || battery < 80.0 then 0.9
    else if storage >= 512.0 && battery >= 95.0 && inventory == "low" then 1.1
    else 1.0
  }

  /** Each tier is chosen exactly under its own condition. */
  lemma RecommendationRules(device: Record)
    ensures var damaged := NumOr(device, "Screen_Damage", 0.0) + NumOr(device, "Backglass_Damage", 0.0) > 0.0;
      var battery := NumOr(device, "Battery", 95.0);
      var tier := GetSimpleRecommendation(device);
      (tier == 0.9 <==> damaged || battery < 80.0) &&
      (tier == 1.1 <==> !damaged && battery >= 95.0 && NumOr(device, "Storage", 128.0) >= 512.0
                        && StrOr(device, "inventory_level", "decent") == "low") &&
      (tier == 1.0 <==> !damaged && battery >= 80.0
                        && !(battery >= 95.0 && NumOr(device, "Storage", 128.0) >= 512.0
                             && StrOr(device, "inventory_level", "decent") == "low"))
  {
  }

  /** One row of the price table. */
  datatype PriceOption = PriceOption(priceEur: real, priceLkr: real, strategy: string, recommended: bool)

  function OptionFor(baseLkr: real, recommendedTier: real, tier: real): PriceOption
  {
    PriceOption(ConvertLkrToEur(baseLkr) * tier, baseLkr * tier, TierName(tier), tier == recommendedTier)
  }

  /** The table after the first n tiers have been written. */
  function PricesUpTo(baseLkr: real, recommendedTier: real, n: nat): map<real, PriceOption>
    requires n <= |Arms|
  {
    if n == 0 then map[]
    else PricesUpTo(baseLkr, recommendedTier, n - 1)[Arms[n - 1] := OptionFor(baseLkr, recommendedTier, Arms[n - 1])]
  }

  /** What `calculate_all_prices` returns. */
  function AllPrices(baseLkr: real, recommendedTier: real): map<real, PriceOption>
  {
    PricesUpTo(baseLkr, recommendedTier, |Arms|)
  }

  /** The table has one row per tier, each with its own price and name. */
  lemma AllPricesTable(baseLkr: real, recommendedTier: real)
    ensures AllPrices(baseLkr, recommendedTier) == map[
              0.9 := OptionFor(baseLkr, recommendedTier, 0.9),
              1.0 := OptionFor(baseLkr, recommendedTier, 1.0),
              1.1 := OptionFor(baseLkr, recommendedTier, 1.1)]
  {
    assert PricesUpTo(baseLkr, recommendedTier, 0) == map[];
    assert PricesUpTo(baseLkr, recommendedTier, 1) == map[0.9 := OptionFor(baseLkr, recommendedTier, 0.9)];
    assert PricesUpTo(baseLkr, recommendedTier, 2)
        == PricesUpTo(baseLkr, recommendedTier, 1)[1.0 := OptionFor(baseLkr, recommendedTier, 1.0)];
  }

  /** Exactly the row of the recommended tier is flagged, and the recommended
      tier has a row whenever it is one of the three tiers. */
  lemma RecommendedFlag(baseLkr: real, recommendedTier: real)
    ensures var m := AllPrices(baseLkr, recommendedTier);
      m.Keys == {0.9, 1.0, 1.1} &&
      (forall t :: t in m ==> m[t] == OptionFor(baseLkr, recommendedTier, t)) &&
      (forall t :: t in m ==> (m[t].recommended <==> t == recommendedTier)) &&
      (recommendedTier in Arms ==> recommendedTier in m && m[recommendedTier].recommended)
  {
    AllPricesTable(baseLkr, recommendedTier);
  }

  /** At a non-negative base price dearer tiers have higher prices. */
  lemma PricesFollowTiers(baseLkr: real, recommendedTier: real)
    requires baseLkr >= 0.0
    ensures var m := AllPrices(baseLkr, recommendedTier);
      0.9 in m && 1.0 in m && 1.1 in m &&
      m[0.9].priceLkr <= m[1.0].priceLkr <= m[1.1].priceLkr &&
      m[0.9].priceEur <= m[1.0].priceEur <= m[1.1].priceEur
  {
    AllPricesTable(baseLkr, recommendedTier);
  }

  /** `calculate_all_prices`: one row per tier, written in tier order. */
  method CalculateAllPrices(baseLkr: real, recommendedTier: real) returns (prices: map<real, PriceOption>)
    ensures prices == AllPrices(baseLkr, recommendedTier)
  {
    var baseEur := ConvertLkrToEur(baseLkr);
    prices := map[];
    var i := 0;
    while i < |Arms|
      invariant 0 <= i <= |Arms|
      invariant prices == PricesUpTo(baseLkr, recommendedTier, i)
    {
      var tier := Arms[i];
      assert PricesUpTo(baseLkr, recommendedTier, i + 1)
          == PricesUpTo(baseLkr, recommendedTier, i)[tier := OptionFor(baseLkr, recommendedTier, tier)];
      var option := PriceOption(baseEur * tier, baseLkr * tier, TierName(tier), tier == recommendedTier);
      assert option == OptionFor(baseLkr, recommendedTier, tier);
      prices := prices[tier := option];
      i := i + 1;
    }
  }

  /** The answer of `recommend_price`. */
  datatype Recommendation = Recommendation(
    decisionId: string, tier: real, priceEur: real, priceLkr: real, strategy: string,
    marketSegment: string, conditionScore: real, marketEur: real, marketLkr: real,
    options: map<real, PriceOption>)

  /** `recommend_price`: 400 without a JSON body; otherwise the rule-based
      tier, its row of the price table, the storage segment and the
      condition score. `decisionId` is the fresh id the service draws. */
  method RecommendPrice(data: Option<Record>, decisionId: string) returns (r: Reply<Recommendation>)
    ensures r.Fail? <==> NoData(data)
    ensures r.Fail? ==> r.status == 400
    ensures r.Ok? ==>
      var d := data.value;
      var tier := GetSimpleRecommendation(d);
      var estimate := EstimateMarketPrice(d);
      var b := r.body;
      b.decisionId == decisionId && b.tier == tier &&
      b.options == AllPrices(estimate, tier) &&
      tier in b.options && b.options[tier].recommended &&
      b.priceLkr == b.options[tier].priceLkr && b.priceEur == b.options[tier].priceEur &&
      b.strategy == TierName(tier) &&
      b.marketSegment == Features.MarketSegment(NumOr(d, "Storage", 128.0)).Name() &&
      b.conditionScore == Features.ConditionScore(NumOr(d, "Battery", 95.0),
                                                  NumOr(d, "Backglass_Damage", 0.0),
                                                  NumOr(d, "Screen_Damage", 0.0)) &&
      b.marketEur == ConvertLkrToEur(estimate) && b.marketLkr == estimate
  {
    if NoData(data) {
      return Fail(400);
    }
    var d := data.value;
    var tier := GetSimpleRecommendation(d);
    var estimate := EstimateMarketPrice(d);
    var allPrices := CalculateAllPrices(estimate, tier);
    RecommendedFlag(estimate, tier);
    var option := allPrices[tier];
    var storage := NumOr(d, "Storage", 128.0);
    var segment :=
      if storage >= 512.0 then "premium"
      else if storage >= 256.0 then "high_end"
      else if storage >= 128.0 then "mid_range"
      else "budget";
    var battery := NumOr(d, "Battery", 95.0);
    var screenDamage := NumOr(d, "Screen_Damage", 0.0);
    var backglassDamage := NumOr(d, "Backglass_Damage", 0.0);
    var conditionScore := battery * 0.4 + (1.0 - screenDamage) * 30.0 + (1.0 - backglassDamage) * 30.0;
    r := Ok(Recommendation(decisionId, tier, option.priceEur, option.priceLkr, option.strategy,
                           segment, conditionScore, ConvertLkrToEur(estimate), estimate, allPrices));
  }

  /** The answer of `price_analysis`. */
  datatype PriceAnalysisReport = PriceAnalysisReport(marketEur: real, marketLkr: real, pricing: map<real, PriceOption>)

  /** `price_analysis`: the table is computed once per tier and each result
      is merged over the previous one, so the last call (tier 1.1) decides
      every row and only the premium row ends up flagged. */
  method PriceAnalysis(data: Option<Record>) returns (r: Reply<PriceAnalysisReport>)
    ensures r.Fail? <==> NoData(data)
    ensures r.Fail? ==> r.status == 400
    ensures r.Ok? ==>
      var estimate := EstimateMarketPrice(data.value);
      r.body.marketLkr == estimate && r.body.marketEur == ConvertLkrToEur(estimate) &&
      r.body.pricing == AllPrices(estimate, 1.1)
  {
    if NoData(data) {
      return Fail(400);
    }
    var estimate := EstimateMarketPrice(data.value);
    var allPrices: map<real, PriceOption> := map[];
    var i := 0;
    while i < |Arms|
      invariant 0 <= i <= |Arms|
      invariant allPrices.Keys <= {0.9, 1.0, 1.1}
      invariant i > 0 ==> allPrices == AllPrices(estimate, Arms[i - 1])
    {
      var prices := CalculateAllPrices(estimate, Arms[i]);
      UpdateOverwrites(allPrices, estimate, Arms[i]);
      allPrices := allPrices + prices;
      i := i + 1;
    }
    r := Ok(PriceAnalysisReport(ConvertLkrToEur(estimate), estimate, allPrices));
  }

  /** `dict.update` with a price table replaces every row of a dictionary
      keyed by tiers. */
  lemma UpdateOverwrites(earlier: map<real, PriceOption>, baseLkr: real, later: real)
    requires earlier.Keys <= {0.9, 1.0, 1.1}
    ensures earlier + AllPrices(baseLkr, later) == AllPrices(baseLkr, later)
    ensures AllPrices(baseLkr, later).Keys == {0.9, 1.0, 1.1}
  {
    RecommendedFlag(baseLkr, later);
  }

  /** In the analysis table only the premium row is flagged as recommended. */
  lemma AnalysisFlagsOnlyPremium(estimate: real)
    ensures var m := AllPrices(estimate, 1.1);
      m.Keys == {0.9, 1.0, 1.1} && !m[0.9].recommended && !m[1.0].recommended && m[1.1].recommended
  {
    RecommendedFlag(estimate, 1.1);
  }

  /** The answer of `report_outcome`: the echoed id and reward. */
  datatype Acknowledgement = Acknowledgement(decisionId: string, reward: Option<real>)

  /** `report_outcome`: 400 without a body or without a non-empty
      `decision_id`; any other id is acknowledged. Nothing is stored. */
  function ReportOutcome(data: Option<Record>): (r: Reply<Acknowledgement>)
    ensures r.Fail? <==> NoData(data) || StrOr(data.value, "decision_id", "") == ""
    ensures r.Fail? ==> r.status == 400
    ensures r.Ok? ==> "decision_id" in data.value.strs && r.body.decisionId == data.value.strs["decision_id"]
  {
    if NoData(data) then Fail(400)
    else
      var d := data.value;
      var decisionId := StrOr(d, "decision_id", "");
      if decisionId == "" then Fail(400)
      else Ok(Acknowledgement(decisionId, if "reward" in d.nums then Some(d.nums["reward"]) else None))
  }
}
