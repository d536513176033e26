/** The automated profit/loss predictor (`ProfitPredictor` in
    profit_prediction.py): a clamped sale probability, a cost breakdown over
    fixed cost factors, the expected profit of one price tier, a verdict
    text, and the comparison of the three tiers. */
module ProfitPrediction {
  import opened Common
  import Ranking

  /** The cost factors as fractions of the selling price, in declaration order. */
  const CostFactors: seq<(string, real)> := [
    ("acquisition_cost", 0.75), ("refurbishment_cost", 0.05),
    ("operational_cost", 0.08), ("platform_fee", 0.03), ("shipping_cost", 0.02)]

  /** Model names whose presence in the lower-cased model marks high demand. */
  const HighDemandModels: seq<string> := ["iphone 13", "iphone 14", "iphone 12"]

  /** Base sale probability of a tier; any other tier is treated as standard. */
  function BaseProbability(tier: real): real
  {
    if tier == 0.9 then 0.85
    else if tier == 1.0 then 0.70
    else if tier == 1.1 then 0.45
    else 0.70
  }

  /** Cheaper tiers start from a higher sale probability, and a tier outside
      the table starts where the standard tier does. */
  lemma BaseProbabilityOrder(tier: real)
    ensures BaseProbability(0.9) > BaseProbability(1.0) > BaseProbability(1.1)
    ensures tier !in Arms ==> BaseProbability(tier) == BaseProbability(1.0)
  {
  }

  /** Battery health as a fraction, scaled down by 0.3 per screen-damage unit
      and 0.2 per back-glass-damage unit. Defaults: battery 95, no damage. */
  function ConditionFactor(device: Record): real
  {
    NumOr(device, "Battery", 95.0) / 100.0
      * (1.0 - NumOr(device, "Screen_Damage", 0.0) * 0.3)
      * (1.0 - NumOr(device, "Backglass_Damage", 0.0) * 0.2)
  }

  /** Storage preference: linear in storage, capped at 1.2. */
  function StorageMultiplier(storage: real): (m: real)
    ensures m <= 1.2
    ensures m == 1.2 <==> storage >= 256.0
    ensures storage >= 0.0 ==> m >= 0.8
  {
    var linear := 0.8 + storage / 256.0 * 0.4;
    if linear < 1.2 then linear else 1.2
  }

  /** Sale pressure by inventory level; an unknown level counts as "decent". */
  function InventoryMultiplier(level: string): real
  {
    if level == "low" then 0.95
    else if level == "decent" then 1.0
    else if level == "high" then 1.1
    else 1.0
  }

  /** A market shock is any non-zero flag (Python truthiness). */
  function ShockMultiplier(shock: real): real
  {
    if shock != 0.0 then 0.85 else 1.0
  }

  /** The lower-cased model name contains one of the high-demand names. */
  predicate Popular(model: string)
  {
    exists j :: 0 <= j < |HighDemandModels| && Contains(Lower(model), HighDemandModels[j])
  }

  function PopularityMultiplier(model: string): real
  {
    if Popular(model) then 1.15 else 1.0
  }

  /** `min(0.95, max(0.05, x))`. */
  function Clamp(x: real): (c: real)
    ensures 0.05 <= c <= 0.95
    ensures 0.05 <= x <= 0.95 ==> c == x
    ensures x < 0.05 ==> c == 0.05
    ensures x > 0.95 ==> c == 0.95
  {
    var low := if x > 0.05 then x else 0.05;
    if low < 0.95 then low else 0.95
  }

  /** The six factors multiplied left to right. */
  function Product(base: real, condition: real, storage: real, popularity: real,
                   inventory: real, shock: real): real
  {
    base * condition * storage * popularity * inventory * shock
  }

  /** The product of all multipliers before clamping, in the source's order. */
  function RawSaleProbability(device: Record, tier: real): real
  {
    Product(BaseProbability(tier),
            ConditionFactor(device),
            StorageMultiplier(NumOr(device, "Storage", 128.0)),
            PopularityMultiplier(StrOr(device, "Model", "")),
            InventoryMultiplier(StrOr(device, "inventory_level", "decent")),
            ShockMultiplier(NumOr(device, "market_shock", 0.0)))
  }

  /** The sale probability the predictor reports: always within [0.05, 0.95]. */
  function SaleProbability(device: Record, tier: real): (p: real)
    ensures 0.05 <= p <= 0.95
  {
    Clamp(RawSaleProbability(device, tier))
  }

  /** `predict_sale_probability`: the popularity multiplier comes from a
      search over the high-demand names that stops at the first hit. */
  method PredictSaleProbability(device: Record, tier: real) returns (p: real)
    ensures p == SaleProbability(device, tier)
  {
    var baseProb := BaseProbability(tier);
    var condition := ConditionFactor(device);
    var storage := StorageMultiplier(NumOr(device, "Storage", 128.0));
    var model := Lower(StrOr(device, "Model", ""));
    var popularity := 1.0;
    var i := 0;
    while i < |HighDemandModels|
      invariant 0 <= i <= |HighDemandModels|
      invariant popularity == 1.0
      invariant forall j :: 0 <= j < i ==> !Contains(model, HighDemandModels[j])
    {
      if Contains(model, HighDemandModels[i]) {
        popularity := 1.15;
        break;
      }
      i := i + 1;
    }
    assert popularity == PopularityMultiplier(StrOr(device, "Model", ""));
    var inventory := InventoryMultiplier(StrOr(device, "inventory_level", "decent"));
    var shock := ShockMultiplier(NumOr(device, "market_shock", 0.0));
    p := Clamp(Product(baseProb, condition, storage, popularity, inventory, shock));
  }

  lemma MulMonotone(c: real, x: real, y: real)
    requires 0.0 <= c && x <= y
    ensures x * c <= y * c
  {
    assert y * c - x * c == (y - x) * c;
  }

  /** With non-negative multipliers, a larger base gives a larger product. */
  lemma ProductMonotone(lo: real, hi: real, cond: real, stor: real, pop: real, inv: real, shock: real)
    requires lo <= hi
    requires cond >= 0.0 && stor >= 0.0 && pop >= 0.0 && inv >= 0.0 && shock >= 0.0
    ensures Product(lo, cond, stor, pop, inv, shock) <= Product(hi, cond, stor, pop, inv, shock)
  {
    MulMonotone(cond, lo, hi);
    MulMonotone(stor, lo * cond, hi * cond);
    MulMonotone(pop, lo * cond * stor, hi * cond * stor);
    MulMonotone(inv, lo * cond * stor * pop, hi * cond * stor * pop);
    MulMonotone(shock, lo * cond * stor * pop * inv, hi * cond * stor * pop * inv);
  }

  /** With a non-negative condition factor and storage multiplier, a cheaper
      tier never has a lower sale probability. */
  lemma CheaperTierSellsLikelier(device: Record, cheaper: real, dearer: real)
    requires ConditionFactor(device) >= 0.0
    requires StorageMultiplier(NumOr(device, "Storage", 128.0)) >= 0.0
    requires BaseProbability(cheaper) >= BaseProbability(dearer)
    ensures SaleProbability(device, cheaper) >= SaleProbability(device, dearer)
  {
    var cond := ConditionFactor(device);
    var stor := StorageMultiplier(NumOr(device, "Storage", 128.0));
    var pop := PopularityMultiplier(StrOr(device, "Model", ""));
    var inv := InventoryMultiplier(StrOr(device, "inventory_level", "decent"));
    var shock := ShockMultiplier(NumOr(device, "market_shock", 0.0));
    ProductMonotone(BaseProbability(dearer), BaseProbability(cheaper), cond, stor, pop, inv, shock);
  }

  /** The business verdict attached to a tier analysis. */
  datatype Verdict = Excellent | Good | Moderate | HighRisk | LowMargin | Review
  {
    function Label(): string
    {
      match this
      case Excellent => "EXCELLENT"
      case Good => "GOOD"
      case Moderate => "MODERATE"
      case HighRisk => "HIGH RISK"
      case LowMargin => "LOW MARGIN"
      case Review => "REVIEW"
    }
  }

  /** `_generate_recommendation`: the first of six rules that matches. Because
      the first three rules overlap, each verdict is characterised below on
      its own, without reference to the order. */
  function GenerateRecommendation(saleProb: real, margin: real): (v: Verdict)
    ensures v == Excellent <==> saleProb > 0.8 && margin > 15.0
    ensures v == Good <==> saleProb > 0.7 && margin > 10.0 && !(saleProb > 0.8 && margin > 15.0)
    ensures v == Moderate <==>
              saleProb > 0.6 && margin > 5.0 && !(saleProb > 0.7 && margin > 10.0)
    ensures v == HighRisk <==> saleProb < 0.4
    ensures v == LowMargin <==> saleProb >= 0.4 && margin < 5.0
    ensures v == Review <==> saleProb >= 0.4 && margin >= 5.0 && (saleProb <= 0.6 || margin == 5.0)
  {
    if saleProb > 0.8 && margin > 15.0 then Excellent
    else if saleProb > 0.7 && margin > 10.0 then Good
    else if saleProb > 0.6 && margin > 5.0 then Moderate
    else if saleProb < 0.4 then HighRisk
    else if margin < 5.0 then LowMargin
    else Review
  }

  /** The per-unit figures of one pricing decision (before rounding). */
  datatype ProfitAnalysis = ProfitAnalysis(
    sellingPrice: real, totalCost: real, grossProfit: real, expectedProfit: real,
    saleProbability: real, profitMargin: real, costBreakdown: map<string, real>,
    expectedHoldingCost: real, recommendation: Verdict)

  /** Running total of the first n cost factors applied to a selling price. */
  function CostUpTo(sellingPrice: real, n: nat): real
    requires n <= |CostFactors|
  {
    if n == 0 then 0.0 else CostUpTo(sellingPrice, n - 1) + sellingPrice * CostFactors[n - 1].1
  }

  /** The breakdown dictionary after the first n cost factors. */
  function BreakdownUpTo(sellingPrice: real, n: nat): map<string, real>
    requires n <= |CostFactors|
  {
    if n == 0 then map[]
    else BreakdownUpTo(sellingPrice, n - 1)[CostFactors[n - 1].0 := sellingPrice * CostFactors[n - 1].1]
  }

  /** Expected holding cost: 0.1% of the selling price per day, over 30 days
      weighted by the chance of not selling. */
  function HoldingCost(sellingPrice: real, p: real): real
  {
    (1.0 - p) * 30.0 * (sellingPrice * 0.001)
  }

  /** Gross profit as a percentage of a positive selling price, else 0. */
  function MarginPercent(gross: real, sellingPrice: real): real
  {
    if sellingPrice > 0.0 then gross / sellingPrice * 100.0 else 0.0
  }

  /** Expected profit weighted by the sale probability, net of holding. */
  function NetExpectedProfit(p: real, gross: real, holdingCost: real): real
  {
    p * gross - holdingCost
  }

  /** What `calculate_expected_profit` reports for a device, tier and base price. */
  function Analysis(device: Record, tier: real, basePrice: real): ProfitAnalysis
  {
    AnalysisAt(basePrice * tier, SaleProbability(device, tier))
  }

  /** The analysis at a given selling price and sale probability. */
  function AnalysisAt(sellingPrice: real, p: real): ProfitAnalysis
  {
    var totalCost := CostUpTo(sellingPrice, |CostFactors|);
    var gross := sellingPrice - totalCost;
    var holdingCost := HoldingCost(sellingPrice, p);
    var margin := MarginPercent(gross, sellingPrice);
    ProfitAnalysis(sellingPrice, totalCost, gross, NetExpectedProfit(p, gross, holdingCost), p, margin,
                   BreakdownUpTo(sellingPrice, |CostFactors|), holdingCost,
                   GenerateRecommendation(p, margin))
  }

  /** `calculate_expected_profit`: the cost loop accumulates the total and
      fills the breakdown one factor at a time. */
  method CalculateExpectedProfit(device: Record, tier: real, basePrice: real)
    returns (a: ProfitAnalysis)
    ensures a == Analysis(device, tier, basePrice)
  {
    var sellingPrice := basePrice * tier;
    var p := PredictSaleProbability(device, tier);
    var totalCost := 0.0;
    var breakdown: map<string, real> := map[];
    var i := 0;
    while i < |CostFactors|
      invariant 0 <= i <= |CostFactors|
      invariant totalCost == CostUpTo(sellingPrice, i)
      invariant breakdown == BreakdownUpTo(sellingPrice, i)
    {
      var (factor, percentage) := CostFactors[i];
      var cost := sellingPrice * percentage;
      breakdown := breakdown[factor := cost];
      totalCost := totalCost + cost;
      i := i + 1;
    }
    var gross := sellingPrice - totalCost;
    var holdingCost := HoldingCost(sellingPrice, p);
    var margin := MarginPercent(gross, sellingPrice);
    a := ProfitAnalysis(sellingPrice, totalCost, gross, NetExpectedProfit(p, gross, holdingCost), p, margin,
                        breakdown, holdingCost, GenerateRecommendation(p, margin));
  }

  /** The five factors sum to 93% of the selling price, and the breakdown
      holds each factor's share under its own name. */
  lemma CostClosedForm(sellingPrice: real)
    ensures CostUpTo(sellingPrice, |CostFactors|) == 0.93 * sellingPrice
    ensures BreakdownUpTo(sellingPrice, |CostFactors|) == map[
              "acquisition_cost" := 0.75 * sellingPrice, "refurbishment_cost" := 0.05 * sellingPrice,
              "operational_cost" := 0.08 * sellingPrice, "platform_fee" := 0.03 * sellingPrice,
              "shipping_cost" := 0.02 * sellingPrice]
  {
    assert CostUpTo(sellingPrice, 1) == 0.75 * sellingPrice;
    assert CostUpTo(sellingPrice, 2) == 0.80 * sellingPrice;
    assert CostUpTo(sellingPrice, 3) == 0.88 * sellingPrice;
    assert CostUpTo(sellingPrice, 4) == 0.91 * sellingPrice;
    assert BreakdownUpTo(sellingPrice, 0) == map[];
    var b1 := BreakdownUpTo(sellingPrice, 1);
    assert b1 == map["acquisition_cost" := 0.75 * sellingPrice];
    var b2 := BreakdownUpTo(sellingPrice, 2);
    assert b2 == b1["refurbishment_cost" := 0.05 * sellingPrice];
    var b3 := BreakdownUpTo(sellingPrice, 3);
    assert b3 == b2["operational_cost" := 0.08 * sellingPrice];
    var b4 := BreakdownUpTo(sellingPrice, 4);
    assert b4 == b3["platform_fee" := 0.03 * sellingPrice];
    assert BreakdownUpTo(sellingPrice, 5) == b4["shipping_cost" := 0.02 * sellingPrice];
  }

  /** Seven percent of the selling price is left after costs, which is a
      margin of 7 at any positive price. */
  lemma MarginClosedForm(sellingPrice: real)
    ensures sellingPrice - CostUpTo(sellingPrice, |CostFactors|) == 0.07 * sellingPrice
    ensures MarginPercent(0.07 * sellingPrice, sellingPrice) == (if sellingPrice > 0.0 then 7.0 else 0.0)
  {
    CostClosedForm(sellingPrice);
    if sellingPrice > 0.0 {
      assert 0.07 * sellingPrice / sellingPrice == 0.07;
    }
  }

  /** Net expected profit with 7% gross profit: 0.1·p − 0.03 per unit of price. */
  lemma NetProfitClosedForm(sellingPrice: real, p: real)
    ensures HoldingCost(sellingPrice, p) == 0.03 * (1.0 - p) * sellingPrice
    ensures NetExpectedProfit(p, 0.07 * sellingPrice, HoldingCost(sellingPrice, p))
            == sellingPrice * (0.1 * p - 0.03)
  {
  }

  /** Whatever the device and tier, the gross profit is 7% of the selling
      price, the margin is 7 (or 0 at a non-positive price), and the expected
      profit is the selling price times 0.1·p − 0.03. */
  lemma AnalysisClosedForm(device: Record, tier: real, basePrice: real)
    ensures var a := Analysis(device, tier, basePrice);
      a.sellingPrice == basePrice * tier &&
      a.saleProbability == SaleProbability(device, tier) &&
      a.totalCost == 0.93 * a.sellingPrice &&
      a.grossProfit == 0.07 * a.sellingPrice &&
      a.profitMargin == (if a.sellingPrice > 0.0 then 7.0 else 0.0) &&
      a.expectedHoldingCost == 0.03 * (1.0 - a.saleProbability) * a.sellingPrice &&
      a.expectedProfit == a.sellingPrice * (0.1 * a.saleProbability - 0.03)
  {
    var sellingPrice, p := basePrice * tier, SaleProbability(device, tier);
    assert Analysis(device, tier, basePrice) == AnalysisAt(sellingPrice, p);
    AnalysisAtClosedForm(sellingPrice, p);
  }

  /** The closed form at a given selling price and sale probability. */
  lemma AnalysisAtClosedForm(sellingPrice: real, p: real)
    ensures var a := AnalysisAt(sellingPrice, p);
      a.sellingPrice == sellingPrice &&
      a.saleProbability == p &&
      a.totalCost == 0.93 * sellingPrice &&
      a.grossProfit == 0.07 * sellingPrice &&
      a.profitMargin == (if sellingPrice > 0.0 then 7.0 else 0.0) &&
      a.expectedHoldingCost == 0.03 * (1.0 - p) * sellingPrice &&
      a.expectedProfit == sellingPrice * (0.1 * p - 0.03)
  {
    CostClosedForm(sellingPrice);
    MarginClosedForm(sellingPrice);
    NetProfitClosedForm(sellingPrice, p);
  }

  /** At a positive selling price a tier is expected to make money exactly
      when its sale probability exceeds 30%. */
  lemma ProfitableIff(device: Record, tier: real, basePrice: real)
    requires basePrice * tier > 0.0
    ensures Analysis(device, tier, basePrice).expectedProfit > 0.0
            <==> SaleProbability(device, tier) > 0.3
  {
    var sellingPrice, p := basePrice * tier, SaleProbability(device, tier);
    assert Analysis(device, tier, basePrice) == AnalysisAt(sellingPrice, p);
    AnalysisAtClosedForm(sellingPrice, p);
    PositiveTimes(sellingPrice, 0.1 * p - 0.03);
  }

  /** A positive factor keeps the sign of the other one. */
  lemma PositiveTimes(x: real, y: real)
    requires x > 0.0
    ensures x * y > 0.0 <==> y > 0.0
  {
    if y <= 0.0 {
      MulMonotone(x, y, 0.0);
    }
  }

  /** With the margin pinned at 7%, neither EXCELLENT nor GOOD can ever be
      reported: a positive price gives MODERATE above 60%, HIGH RISK below
      40% and REVIEW in between; a non-positive price gives HIGH RISK or
      LOW MARGIN. */
  lemma ReachableVerdicts(device: Record, tier: real, basePrice: real)
    ensures var a := Analysis(device, tier, basePrice);
      var p := a.saleProbability;
      a.recommendation != Excellent && a.recommendation != Good &&
      (a.sellingPrice > 0.0 ==>
         (a.recommendation == Moderate <==> p > 0.6) &&
         (a.recommendation == HighRisk <==> p < 0.4) &&
         (a.recommendation == Review <==> 0.4 <= p <= 0.6)) &&
      (a.sellingPrice <= 0.0 ==>
         (a.recommendation == HighRisk <==> p < 0.4) &&
         (a.recommendation == LowMargin <==> p >= 0.4))
  {
    AnalysisClosedForm(device, tier, basePrice);
  }

  /** Tier names of the comparison table. */
  function TierName(tier: real): string
  {
    if tier == 0.9 then "Discount" else if tier == 1.0 then "Standard" else "Premium"
  }

  /** `f"tier_{tier}_{tier_name}"`, with the tier printed as Python prints it. */
  function TierKey(tier: real): string
  {
    "tier_" + (if tier == 0.9 then "0.9" else if tier == 1.0 then "1.0" else "1.1") + "_" + TierName(tier)
  }

  /** The three keys as Python formats them. */
  lemma TierKeyLiterals()
    ensures TierKey(0.9) == "tier_0.9_Discount"
    ensures TierKey(1.0) == "tier_1.0_Standard"
    ensures TierKey(1.1) == "tier_1.1_Premium"
  {
  }

  /** The three keys are pairwise different, so the comparison dictionary
      holds one entry per tier. */
  lemma TierKeysDistinct()
    ensures forall i, j :: 0 <= i < j < |Arms| ==> TierKey(Arms[i]) != TierKey(Arms[j])
  {
    TierKeyLiterals();
    var k0, k1, k2 := TierKey(0.9), TierKey(1.0), TierKey(1.1);
    assert k0[5] != k1[5] && k0[5] != k2[5] && k1[7] != k2[7];
    assert Arms == [0.9, 1.0, 1.1];
  }

  /** The comparison of the three tiers and the one with the best expected profit. */
  datatype TierComparison = TierComparison(
    entries: seq<(string, ProfitAnalysis)>, optimalTier: string, optimalExpectedProfit: real)

  function ExpectedProfits(entries: seq<(string, ProfitAnalysis)>): (ps: seq<real>)
    ensures |ps| == |entries|
    ensures forall i :: 0 <= i < |entries| ==> ps[i] == entries[i].1.expectedProfit
  {
    seq(|entries|, i requires 0 <= i < |entries| => entries[i].1.expectedProfit)
  }

  /** `compare_pricing_tiers`: one analysis per tier, in tier order, under
      distinct keys; the optimum has the largest expected profit and ties go
      to the earliest tier. */
  method ComparePricingTiers(device: Record, basePrice: real) returns (c: TierComparison)
    ensures |c.entries| == |Arms|
    ensures forall i :: 0 <= i < |Arms| ==>
              c.entries[i] == (TierKey(Arms[i]), Analysis(device, Arms[i], basePrice))
    ensures exists k :: 0 <= k < |c.entries| &&
              Ranking.FirstMax(ExpectedProfits(c.entries), k) &&
              c.optimalTier == c.entries[k].0 &&
              c.optimalExpectedProfit == c.entries[k].1.expectedProfit
  {
    var tiers := Arms;
    var entries: seq<(string, ProfitAnalysis)> := [];
    var i := 0;
    while i < |tiers|
      invariant 0 <= i <= |tiers|
      invariant |entries| == i
      invariant forall j :: 0 <= j < i ==>
                  entries[j] == (TierKey(tiers[j]), Analysis(device, tiers[j], basePrice))
    {
      var analysis := CalculateExpectedProfit(device, tiers[i], basePrice);
      entries := entries + [(TierKey(tiers[i]), analysis)];
      i := i + 1;
    }
    var k := Ranking.FirstArgMax(ExpectedProfits(entries));
    c := TierComparison(entries, entries[k].0, entries[k].1.expectedProfit);
  }
}
