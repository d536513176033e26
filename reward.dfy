/** The business reward of the offline evaluator
    (`_calculate_business_reward` in comprehensive_evaluation.py): the
    expected profit of selling at a tier, less a holding cost. */
module Reward {
  import opened Common

  /** Sale probability before the condition and inventory adjustments. */
  function BaseSaleProbability(tier: real): real
  {
    if tier == 0.9 then 0.9 else if tier == 1.1 then 0.5 else 0.7
  }

  /** Profit margin by tier; an unlisted tier gets 0.25. */
  function ProfitMargin(tier: real): real
  {
    if tier == 0.9 then 0.15 else if tier == 1.0 then 0.25 else if tier == 1.1 then 0.35 else 0.25
  }

  /** Inventory pressure: `high` raises the sale probability by 10 %, `low`
      lowers it by 10 %, anything else leaves it. */
  function InventoryFactor(inventory: string): real
  {
    if inventory == "high" then 1.1 else if inventory == "low" then 0.9 else 1.0
  }

  /** Battery health (default 95) and the total of the two damage flags
      (each default 0) read from a context record. */
  function Battery(ctx: Record): real { NumOr(ctx, "Battery", 95.0) }

  function DamagePenalty(ctx: Record): real
  {
    NumOr(ctx, "Backglass_Damage", 0.0) + NumOr(ctx, "Screen_Damage", 0.0)
  }

  function Inventory(ctx: Record): string { StrOr(ctx, "inventory_level", "decent") }

  function SaleProbability(tier: real, ctx: Record): real
  {
    BaseSaleProbability(tier) * (Battery(ctx) / 100.0) * (1.0 - DamagePenalty(ctx) * 0.2)
      * InventoryFactor(Inventory(ctx))
  }

  /** Expected profit minus holding cost. The contract gives the closed form:
      the reward is the base price times an affine function of the sale
      probability whose slope is tier × margin + 0.01. */
  function BusinessReward(tier: real, basePrice: real, ctx: Record): (r: real)
    ensures r == basePrice * (SaleProbability(tier, ctx) * (tier * ProfitMargin(tier) + 0.01) - 0.01)
  {
    var p := SaleProbability(tier, ctx);
    var expectedProfit := p * basePrice * tier * ProfitMargin(tier);
    var holdingCost := basePrice * 0.01 * (1.0 - p);
    expectedProfit - holdingCost
  }

  /** A missing battery reads as 95, missing damage as 0, a missing
      inventory level as `decent`. */
  lemma MissingFieldDefaults(tier: real)
    ensures SaleProbability(tier, Record(map[], map[])) == BaseSaleProbability(tier) * 0.95
  {
  }

  /** Worked example: the standard tier for a perfect device at `decent`
      inventory earns 0.172 of the base price. */
  lemma StandardTierExample(basePrice: real)
    ensures BusinessReward(1.0, basePrice, Record(map["Battery" := 100.0], map[])) == 0.172 * basePrice
  {
  }

  /** The reward scales with the base price. */
  lemma {:induction false} RewardScalesWithPrice(tier: real, basePrice: real, k: real, ctx: Record)
    ensures BusinessReward(tier, k * basePrice, ctx) == k * BusinessReward(tier, basePrice, ctx)
  {
    var a := SaleProbability(tier, ctx) * (tier * ProfitMargin(tier) + 0.01) - 0.01;
    assert BusinessReward(tier, k * basePrice, ctx) == (k * basePrice) * a;
    assert BusinessReward(tier, basePrice, ctx) == basePrice * a;
  }

  /** With a condition factor that is not negative, a healthier battery
      never lowers the sale probability. */
  lemma SaleProbabilityMonotone(tier: real, ctx: Record, better: real)
    requires 1.0 - DamagePenalty(ctx) * 0.2 >= 0.0
    requires Battery(ctx) <= better
    ensures SaleProbability(tier, ctx) <= SaleProbability(tier, ctx.(nums := ctx.nums["Battery" := better]))
  {
    var ctx' := ctx.(nums := ctx.nums["Battery" := better]);
    assert Battery(ctx') == better;
    assert DamagePenalty(ctx') == DamagePenalty(ctx) && Inventory(ctx') == Inventory(ctx);
    var base, cond, inv := BaseSaleProbability(tier), 1.0 - DamagePenalty(ctx) * 0.2, InventoryFactor(Inventory(ctx));
    assert base > 0.0 && inv > 0.0;
    MulMonotone(base, Battery(ctx) / 100.0, better / 100.0);
    MulMonotone(cond, base * (Battery(ctx) / 100.0), base * (better / 100.0));
    MulMonotone(inv, base * (Battery(ctx) / 100.0) * cond, base * (better / 100.0) * cond);
  }

  /** At a non-negative price and tier, with the damage penalty not beyond
      the point where the condition factor turns negative, a healthier
      battery never lowers the reward. */
  lemma BatteryNeverHurts(tier: real, basePrice: real, ctx: Record, better: real)
    requires 0.0 <= basePrice && 0.0 <= tier
    requires 1.0 - DamagePenalty(ctx) * 0.2 >= 0.0
    requires Battery(ctx) <= better
    ensures BusinessReward(tier, basePrice, ctx)
            <= BusinessReward(tier, basePrice, ctx.(nums := ctx.nums["Battery" := better]))
  {
    var ctx' := ctx.(nums := ctx.nums["Battery" := better]);
    SaleProbabilityMonotone(tier, ctx, better);
    var p, p' := SaleProbability(tier, ctx), SaleProbability(tier, ctx');
    var slope := tier * ProfitMargin(tier) + 0.01;
    assert slope >= 0.0;
    MulMonotone(slope, p, p');
    MulMonotone(basePrice, p * slope - 0.01, p' * slope - 0.01);
  }

  lemma MulMonotone(c: real, x: real, y: real)
    requires 0.0 <= c && x <= y
    ensures c * x <= c * y
    ensures x * c <= y * c
  {
    assert c * y - c * x == c * (y - x);
  }

  /** The reward of each declared arm for one record, in arm order. */
  function ArmRewards(basePrice: real, ctx: Record): (rs: seq<real>)
    ensures |rs| == |Arms|
  {
    seq(|Arms|, i requires 0 <= i < |Arms| => BusinessReward(Arms[i], basePrice, ctx))
  }

  /** The oracle reward: the best reward over the declared arms. */
  function OptimalReward(basePrice: real, ctx: Record): (r: real)
    ensures forall a :: a in Arms ==> BusinessReward(a, basePrice, ctx) <= r
    ensures exists a :: a in Arms && BusinessReward(a, basePrice, ctx) == r
  {
    var rs := ArmRewards(basePrice, ctx);
    assert forall a :: a in Arms ==> rs[if a == 0.9 then 0 else if a == 1.0 then 1 else 2] == BusinessReward(a, basePrice, ctx);
    Max(rs)
  }

  /** Regret of choosing a declared arm: never negative. */
  function Regret(arm: real, basePrice: real, ctx: Record): (r: real)
    requires arm in Arms
    ensures r >= 0.0
    ensures r == 0.0 <==> forall a :: a in Arms ==> BusinessReward(a, basePrice, ctx) <= BusinessReward(arm, basePrice, ctx)
  {
    OptimalReward(basePrice, ctx) - BusinessReward(arm, basePrice, ctx)
  }
}
