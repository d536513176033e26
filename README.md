# Dynamic pricing with contextual bandits — a Dafny model

This project models the decision logic of a used-iPhone pricing system.
The system picks one of three price tiers for a device: discount (0.9 × the
base price), standard (1.0) and premium (1.1). It uses contextual
multi-armed bandits, rule-based engines and business formulas. The learning
algorithms themselves come from a foreign library (`mabwiser`). The model
treats a bandit as an object whose `fit`/`partial_fit` calls append
observations to a history. Its `predict` call is a policy function of that
history, the context and a random draw, and the policy is assumed to pick
a declared tier.

Modelled parts, one Dafny module per source file plus shared modules:

- `Common` (common.dfy) holds the shared vocabulary:
  - dictionaries and JSON bodies as `Record` (numeric and string fields), with `.get(key, default)` as `NumOr`/`StrOr`;
  - HTTP answers as `Reply`;
  - the tier list `Arms`;
  - running totals (`PrefixSums`, `AppendTotal`) and sums over maps (`MapSum`).
- `Features` (features.dfy) and `Reward` (reward.dfy) model the offline evaluator's feature engineering (market segment, condition score, derived columns) and its business reward.
- `OneHotEncoding` (encoding.dfy) models `OHE` and `prepare_context`. The one-hot block is a function of the category lists recorded at fit time, and unseen values encode as zeros.
- `Learner` (learner.dfy) is the bandit abstraction:
  - class `Bandit` with `Fit`, `Predict` and `PartialFit`;
  - `Trajectory`, the arms a replay chooses.
- `App` (app.dfy) is the single-bandit service. It holds the `active_decisions` ledger: an insert on recommend and a pop on report.
- `OfflineEval` (offline_eval.py's script, in offline_eval.dfy) does the bootstrap fit, the replay with half reward for the discount tier, and the running total.
- `ComprehensiveEvaluation` (evaluation.dfy) and `Ranking` (ranking.dfy) cover four things:
  - the `evaluate_algorithm` replay loop with reward, regret and arm tallies;
  - the skip-on-error loop of `run_comparative_evaluation`;
  - the stable descending sort of `generate_report`;
  - the report's exploration thresholds.
- `EnhancedApp` (enhanced_app.dfy) is the multi-model service, with four parts:
  - its own copies of the feature engineering and the reward, proved equal to the evaluator's;
  - the `ModelEvaluator` metrics class;
  - confidence-score normalisation;
  - the ledger and evaluation history of `recommend`/`report`.
- `ProfitPrediction` (profit.dfy) covers the clamped sale probability, the cost-breakdown loop, the verdict rules and the three-tier comparison.
- `SimplePrice` (simple_price.dfy) covers the model price table, the market estimate with its floor, the rule-based tier, the price table per tier and the three endpoints.

Facts about the system that the proofs establish:

- The two reward copies agree on every input.
- Regret is never negative, and cumulative regret never falls.
- The arm tallies add up to the number of decisions.
- A report for an unknown or already consumed decision changes nothing. A known decision updates exactly the bandit that made it, exactly once.
- The profit predictor's cost factors add up to 93 % of the selling price. Its margin is therefore always 7 % (0 at a non-positive price), and it can never answer EXCELLENT or GOOD.
- `price_analysis` flags only the premium row as recommended, because each `update` overwrites the previous tier's table.
- The enhanced service never records a regret, so its overall regret is always 0.
- The enhanced service's `Market_Segment` fallback would agree with the engineered column, which is always present.

## Model

| member | source | states |
|---|---|---|
| Common.AppendTotal | ml_model/offline_eval.py:45-48 | appending a value keeps the existing running totals and adds exactly one more |
| Common.AppendTotalStep | ml_model/offline_eval.py:45-48 | the first total is the value itself, later ones add it to the last total; either way the result is the next prefix of the running totals |
| Common.PrefixSumsShape | ml_model/comprehensive_evaluation.py:179-183 | first running total is the first value, each later one is the previous plus the current value, the last is the whole sum |
| Common.PrefixSumsMonotone | ml_model/comprehensive_evaluation.py:177-183 | running totals of non-negative values are non-negative and never decrease |
| Common.Max | ml_model/comprehensive_evaluation.py:176 | `max` returns one of the values and no value exceeds it |
| Common.MapSumUpdate | ml_model/enhanced_app.py:44-46 | setting one key of a counter dictionary changes the total by the change at that key |
| App.FeatureNames | ml_model/app.py:37 | the feature names are the encoded category names followed by the eight numeric names |
| App.ServingColumns | ml_model/app.py:57 | skipping `categories_[0].size` feature names leaves exactly the numeric columns in declared order |
| App.WithDamageDefaults | ml_model/app.py:53-55 | a missing damage column becomes 0, a present one is kept, all other fields are unchanged |
| App.DamageDefaultsIdempotent | ml_model/app.py:53-55 | applying the damage defaults twice equals applying them once |
| App.ServingContext | ml_model/app.py:50-57 | the serving context exists exactly when there is a body carrying the inventory level and the six non-defaulted numeric columns (otherwise the source raises and answers 500), and then has full width |
| App.PricingService.Initialize | ml_model/app.py:25-46 | the bandit is fitted with exactly one (tier, reward, context) observation per row, in row order, and the ledger is empty |
| App.PricingService.Recommend | ml_model/app.py:48-61 | without a usable context nothing is stored (500); otherwise the bandit's tier is a declared tier, returned with the fresh id and stored with its context under that id only |
| App.PricingService.Report | ml_model/app.py:63-72 | an unknown or consumed id is a 404 with no ledger or model change; a known id is removed and the bandit gets exactly one observation with the stored tier and context (500 after the pop when the reward is missing) |
| OneHotEncoding.OneHotMeaning | ml_model/app.py:17 | a seen value lights exactly its own position; an unseen value (`handle_unknown="ignore"`) gives all zeros |
| OneHotEncoding.Encode | ml_model/app.py:21 | the encoded row is as wide as all category lists together |
| OneHotEncoding.EncodeUnseen | ml_model/app.py:17-21 | values unseen in every column encode as the all-zero vector of full width |
| OneHotEncoding.InventoryExample | ml_model/app.py:17-21 | with the fitted (sorted) inventory categories `[decent, high, low]`, `low` encodes as `[0, 0, 1]` and an unknown level as `[0, 0, 0]` |
| OneHotEncoding.EncodedNames | ml_model/app.py:37 | there is one encoded feature name per one-hot position |
| OneHotEncoding.PrepareContext | ml_model/app.py:20-23 | the context exists exactly when all columns are present, and is the one-hot block followed by the numeric columns |
| OneHotEncoding.ContextOfUnseen | ml_model/app.py:17-23 | with unseen categories the one-hot block is all zeros and the context keeps its width |
| Learner.Bandit.Fit | ml_model/app.py:43-44 | a fitted bandit has the given arms and policy and exactly the batch observations as history |
| Learner.Bandit.Predict | ml_model/app.py:58 | `predict` returns the policy's choice for the history, context and draw, which is a declared arm |
| Learner.Bandit.PartialFit | ml_model/app.py:71 | `partial_fit` appends exactly one observation and changes nothing else |
| Learner.Trajectory | ml_model/comprehensive_evaluation.py:159-186 | a replay chooses one arm per step, each from the history extended by the earlier steps' feedback |
| Learner.TrajectoryInArms | ml_model/comprehensive_evaluation.py:165-166 | every arm a replay chooses is a declared arm |
| Learner.TrajectoryStep | ml_model/offline_eval.py:41-43 | step i of a replay is the policy's choice at step i, and the rest of the replay starts from the history extended by that step |
| OfflineEval.BootstrapSize | ml_model/offline_eval.py:28-29 | the bootstrap takes all rows when there are fewer than 100, else the first 100 |
| OfflineEval.RealisedByTier | ml_model/offline_eval.py:42 | tiers 1.0 and 1.1 earn the full row reward, tier 0.9 half of it |
| OfflineEval.Context | ml_model/offline_eval.py:39-40 | a processed row always has its context, of full width |
| OfflineEval.Evaluate | ml_model/offline_eval.py:17-48 | the replay's decisions are the bandit trajectory from the bootstrap fit and are declared tiers; `cumulative_rewards` are the running totals of the credited rewards |
| OfflineEval.Replay | ml_model/offline_eval.py:38-48 | the replay loop appends exactly the running totals of the rewards credited along the bandit's trajectory |
| OfflineEval.CumulativeShape | ml_model/offline_eval.py:35-48 | one total per row; the first is the first reward, each later one adds the current reward, the last is the sum |
| Features.MarketSegment | ml_model/comprehensive_evaluation.py:67-77 | premium at 512 GB or more, high_end from 256, mid_range from 128, budget below (each an if-and-only-if) |
| Features.SegmentMonotone | ml_model/comprehensive_evaluation.py:67-77 | more storage never yields a cheaper segment |
| Features.ConditionScore | ml_model/comprehensive_evaluation.py:80-84 | the condition score is 0.4·battery + 60 − 30·(backglass + screen damage) |
| Features.ConditionScoreRange | ml_model/comprehensive_evaluation.py:80-84 | for battery in [0, 100] and 0/1 damage flags the score is in [0, 100], and 100 exactly for a perfect device |
| Features.EngineerFeatures | ml_model/comprehensive_evaluation.py:53-89 | the original row is kept, the condition score follows the damage total, and the segment is one of the four labels |
| Features.EngineerAll | ml_model/comprehensive_evaluation.py:53-89 | feature engineering keeps the number and order of rows |
| Features.NumericalFeatures | ml_model/comprehensive_evaluation.py:32-37 | fifteen numeric columns in declared order (Storage first, Battery fifth, Condition_Score fourteenth) |
| Features.CategoricalFeatures | ml_model/comprehensive_evaluation.py:31 | one categorical value per categorical column |
| Reward.BusinessReward | ml_model/comprehensive_evaluation.py:91-120 | the reward is base price × (p·(tier·margin + 0.01) − 0.01), with p the adjusted sale probability |
| Reward.MissingFieldDefaults | ml_model/comprehensive_evaluation.py:93-95 | missing battery reads 95, missing damage 0, missing inventory `decent` |
| Reward.StandardTierExample | ml_model/comprehensive_evaluation.py:98-120 | tier 1.0, battery 100, no damage, `decent` earns 0.172 × base price |
| Reward.RewardScalesWithPrice | ml_model/comprehensive_evaluation.py:116-120 | the reward scales linearly with the base price |
| Reward.SaleProbabilityMonotone | ml_model/comprehensive_evaluation.py:100-114 | with a non-negative condition factor a healthier battery never lowers the sale probability |
| Reward.BatteryNeverHurts | ml_model/comprehensive_evaluation.py:91-120 | at non-negative price and tier, with a non-negative condition factor, a healthier battery never lowers the reward |
| Reward.ArmRewards | ml_model/comprehensive_evaluation.py:172-175 | one reward per declared arm |
| Reward.OptimalReward | ml_model/comprehensive_evaluation.py:172-176 | the oracle reward is at least every arm's reward and is attained by some arm |
| Reward.Regret | ml_model/comprehensive_evaluation.py:177 | the regret of a declared arm is non-negative, and zero exactly when that arm is optimal |
| ComprehensiveEvaluation.ContextDict | ml_model/comprehensive_evaluation.py:140-141 | the reward reads the row's battery, damage total and inventory level from the context dictionary |
| ComprehensiveEvaluation.Oracle | ml_model/comprehensive_evaluation.py:171-176 | each row's oracle is the best reward over the declared arms: at least every arm's reward and attained by one of them |
| ComprehensiveEvaluation.Rewards | ml_model/comprehensive_evaluation.py:169 | the step rewards are the business rewards of the chosen arms |
| ComprehensiveEvaluation.Regrets | ml_model/comprehensive_evaluation.py:171-177 | each step's regret is the optimum minus the chosen arm's reward, so it is non-negative and zero exactly when the chosen arm is optimal |
| ComprehensiveEvaluation.Tally | ml_model/comprehensive_evaluation.py:154 | `arm_selections` has exactly the three declared arms as keys |
| ComprehensiveEvaluation.TallyStep | ml_model/comprehensive_evaluation.py:166 | one more choice adds one to that arm's count and leaves the others |
| ComprehensiveEvaluation.TallyTotal | ml_model/comprehensive_evaluation.py:154-166 | the three counts add up to the number of decisions |
| ComprehensiveEvaluation.AvgRegretNonNegative | ml_model/comprehensive_evaluation.py:193 | the average regret of every result is non-negative |
| ComprehensiveEvaluation.SummariseWellFormed | ml_model/comprehensive_evaluation.py:177-197 | running totals have one entry per decision and end at the totals, cumulative regret never falls, the tallies sum to `n_decisions` |
| ComprehensiveEvaluation.ReplayArms | ml_model/comprehensive_evaluation.py:148-165 | the fitted bandit chooses one arm per test row |
| ComprehensiveEvaluation.Outcome | ml_model/comprehensive_evaluation.py:122-198 | a result exists exactly when the library does not raise and the test split is non-empty, and it carries the configuration's name and `n_decisions` = test size |
| ComprehensiveEvaluation.OutcomeWellFormed | ml_model/comprehensive_evaluation.py:152-198 | every result `evaluate_algorithm` returns satisfies the running-sum, non-negative-regret and tally facts |
| ComprehensiveEvaluation.Outcomes | ml_model/comprehensive_evaluation.py:220-223 | one outcome per configuration, in order |
| ComprehensiveEvaluation.Kept | ml_model/comprehensive_evaluation.py:218-229 | the stored results are the successes, at most one per configuration |
| ComprehensiveEvaluation.KeptStep | ml_model/comprehensive_evaluation.py:220-226 | one more configuration appends its result exactly when it succeeded |
| ComprehensiveEvaluation.OutcomesWellFormed | ml_model/comprehensive_evaluation.py:220-223 | every successful outcome is well formed |
| ComprehensiveEvaluation.KeptWellFormed | ml_model/comprehensive_evaluation.py:218-228 | every stored result is well formed |
| ComprehensiveEvaluation.KeptNames | ml_model/comprehensive_evaluation.py:218-229 | the stored names are exactly the names of the outcomes that succeeded |
| ComprehensiveEvaluation.TopCount | ml_model/comprehensive_evaluation.py:281 | the top count is one of the three counts and at least each of them |
| ComprehensiveEvaluation.ShareBounds | ml_model/comprehensive_evaluation.py:279-281 | the most-selected share lies between one third and one |
| ComprehensiveEvaluation.TopCountThreshold | ml_model/comprehensive_evaluation.py:281-289 | the top count exceeds a bound iff some arm's count does, and stays under it iff every arm's count does |
| ComprehensiveEvaluation.OverExploitedIff | ml_model/comprehensive_evaluation.py:279-285 | the best result is flagged over-exploited iff one arm has more than 80 % of its decisions |
| ComprehensiveEvaluation.GoodBalanceIff | ml_model/comprehensive_evaluation.py:286-289 | the best result is flagged well balanced iff every arm has under 40 % of its decisions |
| ComprehensiveEvaluation.GenerateReport | ml_model/comprehensive_evaluation.py:231-302 | no results gives the "no results" answer; otherwise every result is ranked, and the best is the earliest highest average reward, with its averages, exploration verdict and premium-vs-discount comparison |
| ComprehensiveEvaluation.ReportRanking | ml_model/comprehensive_evaluation.py:249 | the ranking lists every result exactly once, by descending average reward, with equal averages kept in configuration order |
| ComprehensiveEvaluation.Advance | ml_model/comprehensive_evaluation.py:166-183 | a step keeps the tally's keys |
| ComprehensiveEvaluation.AccumulatedStart | ml_model/comprehensive_evaluation.py:152-157 | the zero totals, empty lists and zero counts are the figures of no steps |
| ComprehensiveEvaluation.AccumulatedStep | ml_model/comprehensive_evaluation.py:159-186 | one loop step turns the figures after j steps into the figures after j + 1 |
| ComprehensiveEvaluation.AccumulatedEnd | ml_model/comprehensive_evaluation.py:188-197 | after the last step the figures are the sums, running totals and tally of all steps |
| ComprehensiveEvaluation.OfflineBanditEvaluator.constructor | ml_model/comprehensive_evaluation.py:13-20 | a new evaluator has no results |
| ComprehensiveEvaluation.OfflineBanditEvaluator.Bootstrap | ml_model/comprehensive_evaluation.py:136-145 | the training decisions are the drawn tiers and the rewards their business rewards, in row order |
| ComprehensiveEvaluation.OfflineBanditEvaluator.Replay | ml_model/comprehensive_evaluation.py:152-186 | the loop's totals, running totals and arm tallies are those of the rewards and regrets along the bandit's trajectory |
| ComprehensiveEvaluation.OfflineBanditEvaluator.EvaluateAlgorithm | ml_model/comprehensive_evaluation.py:122-198 | the method returns exactly the specified outcome, and every result it returns is well formed |
| ComprehensiveEvaluation.OfflineBanditEvaluator.RunComparativeEvaluation | ml_model/comprehensive_evaluation.py:200-229 | the stored and returned results are the successful outcomes in configuration order, and they stay well formed |
| ComprehensiveEvaluation.OfflineBanditEvaluator.CurrentReport | ml_model/comprehensive_evaluation.py:231-234 | the report is the "no results" answer exactly when nothing is stored |
| ComprehensiveEvaluation.ComparisonKeepsSuccesses | ml_model/comprehensive_evaluation.py:218-229 | the stored names are exactly the configurations that do not raise, and none on an empty test split |
| Ranking.Insert | ml_model/comprehensive_evaluation.py:249 | inserting an index adds exactly that index |
| Ranking.RankDescending | ml_model/comprehensive_evaluation.py:249 | the ranking holds exactly the result indices |
| Ranking.ConsSorted | ml_model/comprehensive_evaluation.py:249 | prefixing a larger, earlier index keeps the ranking sorted and stable |
| Ranking.InsertSorted | ml_model/comprehensive_evaluation.py:249 | insertion keeps the ranking duplicate-free, descending and stable |
| Ranking.RankIsStableSort | ml_model/comprehensive_evaluation.py:249 | `sorted(..., reverse=True)` lists each index once, in descending order, with ties in original order |
| Ranking.FirstArgMax | ml_model/profit_prediction.py:183-184 | `max` with a key returns the first index holding the largest key |
| Ranking.RankHead | ml_model/comprehensive_evaluation.py:270-272 | the head of the ranking is the earliest index with the largest key |
| EnhancedApp.EnhancedSegment | ml_model/enhanced_app.py:69-77 | the service's segment cut-offs are the evaluator's |
| EnhancedApp.EnhancedEngineer | ml_model/enhanced_app.py:55-91 | the service keeps the row, uses the evaluator's segments, and sums the two damage flags |
| EnhancedApp.EngineeringAgrees | ml_model/enhanced_app.py:55-91 | the service derives exactly the evaluator's engineered row |
| EnhancedApp.FallbackSegment | ml_model/enhanced_app.py:210-220 | the fallback uses the same cut-offs on the request's storage, mid_range when storage is missing |
| EnhancedApp.SaleProbabilitiesAgree | ml_model/enhanced_app.py:96-118 | the service's sale probability equals the evaluator's on every tier and context |
| EnhancedApp.RewardsAgree | ml_model/enhanced_app.py:93-126 | the service's `calculate_business_reward` equals the evaluator's on every input |
| EnhancedApp.InitRewardMatchesEvaluator | ml_model/enhanced_app.py:164-168 | the bootstrap reward of a row is the evaluator's reward for the same row and tier |
| EnhancedApp.InitialRewards | ml_model/enhanced_app.py:161-170 | the loop collects exactly the drawn tiers and their rewards, in row order |
| EnhancedApp.ConfidenceScores | ml_model/enhanced_app.py:231-235 | the scores exist exactly when the total is non-zero, have one entry per arm, and each is that arm's expectation over the total |
| EnhancedApp.ConfidenceSumsToOne | ml_model/enhanced_app.py:233-235 | whenever the scores exist they add up to one |
| EnhancedApp.ModelEvaluator.constructor | ml_model/enhanced_app.py:26-32 | a new evaluator has empty lists and empty maps |
| EnhancedApp.ModelEvaluator.CalculateRegret | ml_model/enhanced_app.py:34-38 | the regret is optimal minus actual, appended to the regret list, and nothing else changes |
| EnhancedApp.ModelEvaluator.UpdateMetrics | ml_model/enhanced_app.py:40-50 | the reward is appended to the history, the arm is counted once more, the reward is filed under its hash, the regrets are unchanged, and the counts and filed lists still total the history length |
| EnhancedApp.MetricsStep | ml_model/enhanced_app.py:40-50 | one update raises both the total count and the total filed by exactly one |
| EnhancedApp.Counted | ml_model/enhanced_app.py:44-46 | the arm's count goes up by one (from 0 when new), other counts unchanged |
| EnhancedApp.Filed | ml_model/enhanced_app.py:48-50 | the reward is appended to its hash's list (a new list when new), other lists unchanged |
| EnhancedApp.CountedSum | ml_model/enhanced_app.py:44-46 | counting one selection adds exactly one to the total count |
| EnhancedApp.FiledSum | ml_model/enhanced_app.py:48-50 | filing one reward adds exactly one to the total filed |
| EnhancedApp.ArmCountBounded | ml_model/enhanced_app.py:44-46 | no arm's count exceeds the total count |
| EnhancedApp.RequestRow | ml_model/enhanced_app.py:198-199 | the request is a device row exactly when every column the engineering reads is present |
| EnhancedApp.FallbackAgrees | ml_model/enhanced_app.py:210-220 | the fallback segment equals the engineered segment of the same request |
| EnhancedApp.HistoryRewardsAppend | ml_model/enhanced_app.py:290 | appending an entry appends its reward |
| EnhancedApp.FitModels | ml_model/enhanced_app.py:172-183 | four distinct bandits under the four names, with the four policies, all fitted on the same observations |
| EnhancedApp.EnhancedService.Initialize | ml_model/enhanced_app.py:128-186 | the four models are fitted on the drawn tiers, bootstrap rewards and contexts; the ledger and history are empty |
| EnhancedApp.EnhancedService.Recommend | ml_model/enhanced_app.py:188-256 | no body is a 500, an unknown model a 400, and a missing column a 500, each storing nothing; otherwise the named model's tier (a declared tier) is returned with segment, condition score and confidence scores, and exactly one decision is stored under the fresh id |
| EnhancedApp.EnhancedService.Report | ml_model/enhanced_app.py:258-292 | an unknown or consumed id is a 404 that changes no model, metric or history; a known id is popped, and only the model that made the decision gets one update, the metrics record it, and the history gains one entry |
| EnhancedApp.EnhancedService.ApplyOutcome | ml_model/enhanced_app.py:271-290 | one `partial_fit` on the deciding model only, one metrics update, one history entry |
| EnhancedApp.EnhancedService.OverallRegret | ml_model/enhanced_app.py:317 | the reported cumulative regret is always 0 |
| EnhancedApp.EnhancedService.OverallAverageReward | ml_model/enhanced_app.py:318 | the reported average reward is the mean reward of the evaluation history, 0 when it is empty |
| ProfitPrediction.BaseProbabilityOrder | ml_model/profit_prediction.py:41-47 | cheaper tiers start from a higher probability; any other tier starts where the standard tier does |
| ProfitPrediction.StorageMultiplier | ml_model/profit_prediction.py:58-59 | the storage multiplier never exceeds 1.2, equals 1.2 exactly from 256 GB, and is at least 0.8 for non-negative storage |
| ProfitPrediction.Clamp | ml_model/profit_prediction.py:89 | the result lies in [0.05, 0.95], equals the input inside that range and the nearest bound outside |
| ProfitPrediction.SaleProbability | ml_model/profit_prediction.py:29-89 | the sale probability always lies in [0.05, 0.95] |
| ProfitPrediction.PredictSaleProbability | ml_model/profit_prediction.py:29-89 | the search loop with `break` gives exactly the specified probability, with popularity 1.15 exactly when a high-demand name occurs |
| ProfitPrediction.ProductMonotone | ml_model/profit_prediction.py:82-87 | with non-negative multipliers a larger base probability gives a larger product |
| ProfitPrediction.CheaperTierSellsLikelier | ml_model/profit_prediction.py:40-89 | with non-negative condition and storage factors, a tier with a higher base probability never sells less likely |
| ProfitPrediction.GenerateRecommendation | ml_model/profit_prediction.py:148-161 | each of the six verdicts is characterised on its own by the first-match rules |
| ProfitPrediction.CalculateExpectedProfit | ml_model/profit_prediction.py:91-146 | the cost loop and the figures give exactly the specified analysis |
| ProfitPrediction.CostClosedForm | ml_model/profit_prediction.py:111-117 | the total cost is 0.93 × selling price, and the breakdown holds each factor's share under its name |
| ProfitPrediction.MarginClosedForm | ml_model/profit_prediction.py:120-134 | the gross profit is 7 % of the selling price, and the margin is 7 at a positive price, else 0 |
| ProfitPrediction.NetProfitClosedForm | ml_model/profit_prediction.py:122-131 | the holding cost is 0.03·(1 − p)·price, and the net expected profit is price·(0.1·p − 0.03) |
| ProfitPrediction.AnalysisClosedForm | ml_model/profit_prediction.py:104-146 | for any device and tier: cost 93 %, gross 7 %, margin 7 (or 0), expected profit price·(0.1·p − 0.03) |
| ProfitPrediction.AnalysisAtClosedForm | ml_model/profit_prediction.py:110-134 | the same closed form at a given selling price and sale probability |
| ProfitPrediction.ProfitableIff | ml_model/profit_prediction.py:122-131 | at a positive selling price a tier makes money exactly when its sale probability exceeds 0.3 |
| ProfitPrediction.ReachableVerdicts | ml_model/profit_prediction.py:134-161 | EXCELLENT and GOOD are never reported; MODERATE, HIGH RISK, REVIEW and LOW MARGIN are pinned to sale-probability ranges |
| ProfitPrediction.TierKeyLiterals | ml_model/profit_prediction.py:179-180 | the keys are `tier_0.9_Discount`, `tier_1.0_Standard` and `tier_1.1_Premium` |
| ProfitPrediction.TierKeysDistinct | ml_model/profit_prediction.py:174-180 | the three tier keys are pairwise different, so the comparison holds one entry per tier |
| ProfitPrediction.ComparePricingTiers | ml_model/profit_prediction.py:163-191 | three entries in tier order under their keys, each the tier's analysis; the optimum has the largest expected profit and is the earliest among ties |
| SimplePrice.GetModelBaseValue | ml_model/simple_price_api.py:37-60 | a listed model gets its table value and any other name 50000; every value is between 45000 and 120000 |
| SimplePrice.ModelValuesRange | ml_model/simple_price_api.py:39-59 | every table value lies between 45000 and 120000 |
| SimplePrice.EstimateMarketPrice | ml_model/simple_price_api.py:62-112 | the estimate is never below 20000 and never below the raw product; it is one of the two |
| SimplePrice.ReferenceDeviceEstimate | ml_model/simple_price_api.py:62-112 | for a 128 GB, 4 GB RAM, 12 MP, full-battery, undamaged device at `decent` inventory the estimate is the model's base value |
| SimplePrice.ProStoragePremium | ml_model/simple_price_api.py:74-77 | from 128 GB a "Pro" name earns at least the storage premium of another name |
| SimplePrice.GetSimpleRecommendation | ml_model/simple_price_api.py:114-127 | the rule-based tier is always one of the three tiers |
| SimplePrice.RecommendationRules | ml_model/simple_price_api.py:114-127 | 0.9 iff damaged or battery < 80; 1.1 iff undamaged, battery ≥ 95, storage ≥ 512 and `low` inventory; 1.0 otherwise |
| SimplePrice.AllPricesTable | ml_model/simple_price_api.py:129-143 | the price table has exactly one row per tier |
| SimplePrice.RecommendedFlag | ml_model/simple_price_api.py:129-143 | exactly the recommended tier's row is flagged, and it is present whenever it is a tier |
| SimplePrice.PricesFollowTiers | ml_model/simple_price_api.py:135-138 | at a non-negative base price dearer tiers have higher prices in both currencies |
| SimplePrice.CalculateAllPrices | ml_model/simple_price_api.py:129-143 | the loop over tiers builds exactly the specified table |
| SimplePrice.RecommendPrice | ml_model/simple_price_api.py:158-219 | no body is a 400; otherwise the rule-based tier, its flagged row of the table, the storage segment, the condition score and the market estimate |
| SimplePrice.PriceAnalysis | ml_model/simple_price_api.py:224-255 | no body is a 400; otherwise the merged table equals the table computed for tier 1.1 |
| SimplePrice.UpdateOverwrites | ml_model/simple_price_api.py:237-240 | `update` with a full tier table replaces every earlier row |
| SimplePrice.AnalysisFlagsOnlyPremium | ml_model/simple_price_api.py:237-240 | in the analysis table only the premium row is flagged |
| SimplePrice.ReportOutcome | ml_model/simple_price_api.py:260-284 | no body or no non-empty id is a 400; any other id is acknowledged with that id, and nothing is stored |

## Left out

- Floating point: all arithmetic is on exact reals. `round(...)` in the price and profit outputs and in `convert_lkr_to_eur` is not modelled, and neither are the rounded-value ties in `compare_pricing_tiers`.
- `np.exp` in `Age_Depreciation` is a function parameter (`decay`). The fitted `StandardScaler.transform` is a parameter (`scale`). `hash(str(context))` is a parameter (`contextHash`).
- The learning algorithms are not modelled:
  - LinTS, LinUCB, epsilon-greedy and random come from a foreign library;
  - a policy is a function of the observation history, the context and a random draw;
  - that it only returns declared tiers is an assumption (`Learner.Chooses`).
- `feature_importance` reads the library's internal matrices.
- Randomness and identity are inputs: `np.random.choice` tiers, the policies' random draws, `uuid4` ids (assumed fresh), the `train_test_split` partition and the `df.sample` shuffle order.
- Excluded as I/O and runtime: CSV loading, JSON output, plotting, Flask routing, `/health` and `/`, the `initialize_*` retry loops, `print`, timestamps, and concurrent requests on the global dictionaries.
- Fields of the wrong JSON type (a numeric model name, a string battery) are not modelled. A `Record` keeps numeric and string fields apart.
- The report text and the JSON dump of `generate_report`/`main` are left out. The report's decisions are modelled: ranking, best result, thresholds and premium-vs-discount.
- `model_comparison`'s per-model pandas aggregation (mean, std, value counts) is left out. Its two overall metrics are modelled.
- `ProfitPredictor`'s `seasonal_multiplier` and `competition_factor` are never read by the source and are not modelled. `create_enhanced_feedback_system` is a print-only demo.
- EnhancedApp.ConfidenceScores: a zero expectation total is modelled as absent scores, not as the NaN/infinity or exception the division would give. Scores are keyed by tier value rather than by the tier's string form.
- EnhancedApp.EnhancedService.Recommend: `predict_expectations` is an input assumed to hold one value per declared tier. The confidence scores are not tied to the bandit's internal state.
- EnhancedApp.EnhancedService.Report: a report without a reward is assumed to raise inside `partial_fit` after the decision is popped, leaving the model unchanged. The same holds for App.PricingService.Report.
- App.PricingService.Recommend: a request body that is not a JSON object is treated like a missing body (500).
- Common.Lower: folds only the ASCII letters A-Z. Python's `str.lower()` also folds other Unicode letters, and sometimes changes the length ('İ' becomes 'i' followed by U+0307). This does not change which names `predict_sale_probability` counts as high-demand, because those names are plain ASCII (`iphone 12`, `iphone 13`, `iphone 14`). Only two non-ASCII letters lower into ASCII letters. The Kelvin sign becomes 'k', which none of the names contains. 'İ' becomes an 'i' that is always followed by U+0307, never by the 'p' of "iphone".
