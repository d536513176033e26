/** The offline replay evaluator (`OfflineBanditEvaluator` in
    comprehensive_evaluation.py): bootstrap a fresh bandit on synthetic
    rewards for the training rows, replay the test rows through it with
    online updates, and accumulate reward, regret and arm tallies. */
module ComprehensiveEvaluation {
  import opened Common
  import opened Features
  import opened Reward
  import opened Learner
  import Ranking

  /** One row of a split with its context vector (encoded and scaled when the
      data was loaded). */
  datatype Sample = Sample(row: DeviceRow, context: seq<real>)

  /** The columns of a row the reward model reads: Storage, RAM, Battery,
      the two damage flags and the inventory level. */
  function ContextDict(row: DeviceRow): (ctx: Record)
    ensures Battery(ctx) == row.battery && Inventory(ctx) == row.inventoryLevel
    ensures DamagePenalty(ctx) == row.backglassDamage + row.screenDamage
  {
    Record(map["Storage" := row.storage, "RAM" := row.ram, "Battery" := row.battery,
               "Backglass_Damage" := row.backglassDamage, "Screen_Damage" := row.screenDamage],
           map["inventory_level" := row.inventoryLevel])
  }

  /** The reward of one row at one tier, at the row's listed price. */
  function StepReward(s: Sample, arm: real): real
  {
    BusinessReward(arm, s.row.price, ContextDict(s.row))
  }

  function Contexts(samples: seq<Sample>): (xs: seq<seq<real>>)
    ensures |xs| == |samples|
    ensures forall i :: 0 <= i < |samples| ==> xs[i] == samples[i].context
  {
    seq(|samples|, i requires 0 <= i < |samples| => samples[i].context)
  }

  /** What each replay step feeds back for the arm it chose. */
  function Payoffs(samples: seq<Sample>): (ps: seq<real -> real>)
    ensures |ps| == |samples|
    ensures forall i, a :: 0 <= i < |samples| ==> ps[i](a) == StepReward(samples[i], a)
  {
    seq(|samples|, i requires 0 <= i < |samples| => (a: real) => StepReward(samples[i], a))
  }

  /** The best reward over the declared arms for each row. */
  function Oracle(samples: seq<Sample>): (os: seq<real>)
    ensures |os| == |samples|
    ensures forall i, a :: 0 <= i < |samples| && a in Arms ==> StepReward(samples[i], a) <= os[i]
    ensures forall i :: 0 <= i < |samples| ==> os[i] == OptimalReward(samples[i].row.price, ContextDict(samples[i].row))
  {
    seq(|samples|, i requires 0 <= i < |samples| => OptimalReward(samples[i].row.price, ContextDict(samples[i].row)))
  }

  /** The payoff of each chosen arm. */
  function Earned(pay: seq<real -> real>, chosen: seq<real>): (rs: seq<real>)
    requires |chosen| == |pay|
    ensures |rs| == |pay| && forall i :: 0 <= i < |pay| ==> rs[i] == pay[i](chosen[i])
  {
    seq(|pay|, i requires 0 <= i < |pay| => pay[i](chosen[i]))
  }

  /** The shortfall of each chosen arm's payoff against the best payoff. */
  function Missed(oracle: seq<real>, pay: seq<real -> real>, chosen: seq<real>): (rs: seq<real>)
    requires |oracle| == |pay| == |chosen|
    ensures |rs| == |pay| && forall i :: 0 <= i < |pay| ==> rs[i] == oracle[i] - pay[i](chosen[i])
  {
    seq(|pay|, i requires 0 <= i < |pay| => oracle[i] - pay[i](chosen[i]))
  }

  /** Reward of each step for the chosen arms. */
  function Rewards(test: seq<Sample>, chosen: seq<real>): (rs: seq<real>)
    requires |chosen| == |test|
    ensures |rs| == |test|
    ensures forall i :: 0 <= i < |test| ==> rs[i] == StepReward(test[i], chosen[i])
  {
    Earned(Payoffs(test), chosen)
  }

  /** Regret of each step: the best reward over the arms less the reward of
      the chosen arm. Regret is never negative. */
  function Regrets(test: seq<Sample>, chosen: seq<real>): (rs: seq<real>)
    requires |chosen| == |test|
    ensures |rs| == |test|
    ensures forall i :: 0 <= i < |test| && chosen[i] in Arms ==> rs[i] >= 0.0
    ensures forall i :: 0 <= i < |test| && chosen[i] in Arms ==>
              rs[i] == Regret(chosen[i], test[i].row.price, ContextDict(test[i].row))
  {
    Missed(Oracle(test), Payoffs(test), chosen)
  }

  /** `arm_selections`: a count for every declared arm. */
  function Tally(chosen: seq<real>): (m: map<real, nat>)
    ensures m.Keys == {0.9, 1.0, 1.1}
  {
    map[0.9 := Count(chosen, 0.9), 1.0 := Count(chosen, 1.0), 1.1 := Count(chosen, 1.1)]
  }

  /** Counting one more choice adds one to that arm's count only. */
  lemma TallyStep(chosen: seq<real>, j: nat)
    requires j < |chosen| && chosen[j] in Arms
    ensures Tally(chosen[..j + 1]) == Tally(chosen[..j])[chosen[j] := Tally(chosen[..j])[chosen[j]] + 1]
  {
    assert chosen[..j + 1][..j] == chosen[..j];
  }

  /** Sum of the counts of the three declared arms. */
  function TotalSelections(m: map<real, nat>): nat
    requires m.Keys == {0.9, 1.0, 1.1}
  {
    m[0.9] + m[1.0] + m[1.1]
  }

  /** Counting only declared arms, the three counts add up to the number of
      choices. */
  lemma {:induction false} TallyTotal(chosen: seq<real>)
    requires forall i :: 0 <= i < |chosen| ==> chosen[i] in Arms
    ensures TotalSelections(Tally(chosen)) == |chosen|
  {
    if chosen != [] {
      var n := |chosen| - 1;
      TallyTotal(chosen[..n]);
      assert chosen[n] in Arms;
    }
  }

  /** One algorithm's evaluation; the averages are the totals over the
      number of decisions. */
  datatype EvalResult = EvalResult(
    algorithm: string, totalReward: real, totalRegret: real,
    cumulativeRewards: seq<real>, cumulativeRegrets: seq<real>,
    armSelections: map<real, nat>, nDecisions: nat)
  {
    function AvgReward(): real
      requires nDecisions > 0
    {
      totalReward / nDecisions as real
    }

    function AvgRegret(): real
      requires nDecisions > 0
    {
      totalRegret / nDecisions as real
    }
  }

  /** The result record built from the per-step rewards, regrets and choices. */
  function Summarise(name: string, rewards: seq<real>, regrets: seq<real>, chosen: seq<real>): EvalResult
    requires |rewards| == |regrets| == |chosen| > 0
  {
    EvalResult(name, Sum(rewards), Sum(regrets),
               PrefixSums(rewards), PrefixSums(regrets), Tally(chosen), |chosen|)
  }

  /** The facts every result of the evaluator satisfies. */
  ghost predicate WellFormed(r: EvalResult)
  {
    && r.nDecisions > 0
    && |r.cumulativeRewards| == r.nDecisions && |r.cumulativeRegrets| == r.nDecisions
    && r.cumulativeRewards[r.nDecisions - 1] == r.totalReward
    && r.cumulativeRegrets[r.nDecisions - 1] == r.totalRegret
    && (forall i, j :: 0 <= i <= j < r.nDecisions ==> 0.0 <= r.cumulativeRegrets[i] <= r.cumulativeRegrets[j])
    && 0.0 <= r.totalRegret
    && r.armSelections.Keys == {0.9, 1.0, 1.1}
    && TotalSelections(r.armSelections) == r.nDecisions
  }

  /** The average regret of a well-formed result is never negative. */
  lemma AvgRegretNonNegative(r: EvalResult)
    requires WellFormed(r)
    ensures r.AvgRegret() >= 0.0
  {
    DivCompare(r.totalRegret, r.nDecisions as real, 0.0);
  }

  /** With non-negative regrets and declared arms only: cumulative regret
      never falls, the running totals end at the totals, the tallies count
      every step, and the averages are the totals over the number of steps. */
  lemma SummariseWellFormed(name: string, rewards: seq<real>, regrets: seq<real>, chosen: seq<real>)
    requires |rewards| == |regrets| == |chosen| > 0
    requires forall i :: 0 <= i < |regrets| ==> regrets[i] >= 0.0
    requires forall i :: 0 <= i < |chosen| ==> chosen[i] in Arms
    ensures WellFormed(Summarise(name, rewards, regrets, chosen))
  {
    var r := Summarise(name, rewards, regrets, chosen);
    PrefixSumsShape(rewards);
    PrefixSumsShape(regrets);
    PrefixSumsMonotone(regrets);
    TallyTotal(chosen);
  }

  /** A learning-policy configuration. `libraryRaises` stands for the
      foreign library raising an exception for it. */
  datatype Algorithm = Algorithm(name: string, select: Policy, libraryRaises: bool)

  /** The random choices of one evaluation: the simulated optimal tier for
      each training row, and the policy's draw at each test step. */
  datatype Draws = Draws(trainTiers: seq<real>, predictDraws: seq<nat>)

  predicate DrawsFit(d: Draws, train: seq<Sample>, test: seq<Sample>)
  {
    |d.trainTiers| == |train| && |d.predictDraws| == |test|
  }

  /** The bootstrap rewards: the reward model at the drawn tier for each
      training row. */
  function BootstrapRewards(train: seq<Sample>, tiers: seq<real>): (rs: seq<real>)
    requires |tiers| == |train|
    ensures |rs| == |train|
    ensures forall i :: 0 <= i < |train| ==> rs[i] == StepReward(train[i], tiers[i])
  {
    seq(|train|, i requires 0 <= i < |train| => StepReward(train[i], tiers[i]))
  }

  /** The observations the bandit is fitted on before the replay. */
  function BootstrapHistory(train: seq<Sample>, tiers: seq<real>): seq<Observation>
    requires |tiers| == |train|
  {
    Observations(tiers, BootstrapRewards(train, tiers), Contexts(train))
  }

  /** The arm the fitted bandit chooses at each test step. */
  function ReplayArms(algo: Algorithm, train: seq<Sample>, test: seq<Sample>, d: Draws): (chosen: seq<real>)
    requires DrawsFit(d, train, test)
    ensures |chosen| == |test|
  {
    Trajectory(algo.select, BootstrapHistory(train, d.trainTiers), Contexts(test), d.predictDraws, Payoffs(test))
  }

  /** What `evaluate_algorithm` returns; `None` exactly where it raises (the
      library failing, or an empty test split dividing by zero). */
  function Outcome(algo: Algorithm, train: seq<Sample>, test: seq<Sample>, d: Draws): (o: Option<EvalResult>)
    requires DrawsFit(d, train, test)
    ensures o.Some? <==> !algo.libraryRaises && |test| > 0
    ensures o.Some? ==> o.value.algorithm == algo.name && o.value.nDecisions == |test|
  {
    if algo.libraryRaises || |test| == 0 then None
    else
      var chosen := ReplayArms(algo, train, test, d);
      Some(Summarise(algo.name, Rewards(test, chosen), Regrets(test, chosen), chosen))
  }

  /** Every result the evaluator produces is well formed. */
  lemma OutcomeWellFormed(algo: Algorithm, train: seq<Sample>, test: seq<Sample>, d: Draws)
    requires DrawsFit(d, train, test) && Chooses(algo.select, Arms)
    ensures Outcome(algo, train, test, d).Some? ==> WellFormed(Outcome(algo, train, test, d).value)
  {
    if !algo.libraryRaises && |test| > 0 {
      var chosen := ReplayArms(algo, train, test, d);
      TrajectoryInArms(algo.select, Arms, BootstrapHistory(train, d.trainTiers), Contexts(test),
                       d.predictDraws, Payoffs(test));
      SummariseWellFormed(algo.name, Rewards(test, chosen), Regrets(test, chosen), chosen);
    }
  }

  /** Every configuration's name with its outcome, in configuration order. */
  function Outcomes(algorithms: seq<Algorithm>, train: seq<Sample>, test: seq<Sample>, draws: seq<Draws>)
    : (os: seq<(string, Option<EvalResult>)>)
    requires |draws| == |algorithms|
    requires forall k :: 0 <= k < |algorithms| ==> DrawsFit(draws[k], train, test)
    ensures |os| == |algorithms|
  {
    seq(|algorithms|, k requires 0 <= k < |algorithms| && DrawsFit(draws[k], train, test) =>
      (algorithms[k].name, Outcome(algorithms[k], train, test, draws[k])))
  }

  /** The outcomes that succeeded, in order; failed ones are skipped. */
  function Kept(named: seq<(string, Option<EvalResult>)>): (rs: seq<(string, EvalResult)>)
    ensures |rs| <= |named|
  {
    if named == [] then []
    else
      var n := |named| - 1;
      Kept(named[..n]) + (if named[n].1.Some? then [(named[n].0, named[n].1.value)] else [])
  }

  /** Keeping one more outcome appends it exactly when it succeeded. */
  lemma KeptStep(named: seq<(string, Option<EvalResult>)>, k: nat)
    requires k < |named|
    ensures Kept(named[..k + 1])
            == Kept(named[..k]) + (if named[k].1.Some? then [(named[k].0, named[k].1.value)] else [])
  {
    assert named[..k + 1][..k] == named[..k];
  }

  function Names(results: seq<(string, EvalResult)>): set<string>
  {
    set k | 0 <= k < |results| :: results[k].0
  }

  /** Every outcome that succeeded is well formed. */
  lemma OutcomesWellFormed(algorithms: seq<Algorithm>, train: seq<Sample>, test: seq<Sample>, draws: seq<Draws>)
    requires |draws| == |algorithms|
    requires forall k :: 0 <= k < |algorithms| ==> DrawsFit(draws[k], train, test)
    requires forall k :: 0 <= k < |algorithms| ==> Chooses(algorithms[k].select, Arms)
    ensures var named := Outcomes(algorithms, train, test, draws);
            forall c :: 0 <= c < |named| && named[c].1.Some? ==> WellFormed(named[c].1.value)
  {
    forall c | 0 <= c < |algorithms| {
      OutcomeWellFormed(algorithms[c], train, test, draws[c]);
    }
  }

  /** Keeping the successes keeps only well-formed results when every
      success is well formed. */
  lemma {:induction false} KeptWellFormed(named: seq<(string, Option<EvalResult>)>)
    requires forall c :: 0 <= c < |named| && named[c].1.Some? ==> WellFormed(named[c].1.value)
    ensures forall k :: 0 <= k < |Kept(named)| ==> WellFormed(Kept(named)[k].1)
  {
    if named != [] {
      var n := |named| - 1;
      assert forall c :: 0 <= c < n ==> named[..n][c] == named[c];
      KeptWellFormed(named[..n]);
      assert forall k :: 0 <= k < |Kept(named[..n])| ==> Kept(named)[k] == Kept(named[..n])[k];
    }
  }

  /** Names of the outcomes that succeeded. */
  function SucceededNames(named: seq<(string, Option<EvalResult>)>): set<string>
  {
    set c | 0 <= c < |named| && named[c].1.Some? :: named[c].0
  }

  /** The kept results carry exactly the names of the outcomes that
      succeeded. */
  lemma {:induction false} KeptNames(named: seq<(string, Option<EvalResult>)>)
    ensures Names(Kept(named)) == SucceededNames(named)
  {
    if named != [] {
      var n := |named| - 1;
      var prev := named[..n];
      KeptNames(prev);
      var all := Kept(named);
      assert all[..|Kept(prev)|] == Kept(prev);
      forall nm | nm in Names(all) ensures nm in SucceededNames(named) {
        var k :| 0 <= k < |all| && all[k].0 == nm;
        if k < |Kept(prev)| {
          assert nm in Names(Kept(prev));
          var c :| 0 <= c < |prev| && prev[c].1.Some? && prev[c].0 == nm;
          assert named[c] == prev[c];
        } else {
          assert named[n].1.Some? && named[n].0 == nm;
        }
      }
      forall nm | nm in SucceededNames(named) ensures nm in Names(all) {
        var c :| 0 <= c < |named| && named[c].1.Some? && named[c].0 == nm;
        if c < n {
          assert prev[c] == named[c];
          assert nm in SucceededNames(prev);
          var k :| 0 <= k < |Kept(prev)| && Kept(prev)[k].0 == nm;
          assert all[k] == Kept(prev)[k];
        } else {
          assert all[|all| - 1].0 == nm;
        }
      }
    }
  }

  /** The verdict on the best result's arm distribution. */
  datatype Balance = OverExploited | GoodBalance | ReasonableDistribution

  /** The decisions of `generate_report` beyond its formatting. */
  datatype Report =
    | NoResults
    | Summary(ranking: seq<string>, best: string, bestAvgReward: real, bestAvgRegret: real,
              balance: Balance, favorsPremium: bool)

  /** The count of the most selected arm. */
  function TopCount(m: map<real, nat>): (top: nat)
    requires m.Keys == {0.9, 1.0, 1.1}
    ensures top == m[0.9] || top == m[1.0] || top == m[1.1]
    ensures m[0.9] <= top && m[1.0] <= top && m[1.1] <= top
  {
    if m[0.9] >= m[1.0] && m[0.9] >= m[1.1] then m[0.9]
    else if m[1.0] >= m[1.1] then m[1.0] else m[1.1]
  }

  /** Largest arm count over the number of decisions. */
  function MostSelectedShare(r: EvalResult): real
    requires r.armSelections.Keys == {0.9, 1.0, 1.1} && TotalSelections(r.armSelections) > 0
  {
    TopCount(r.armSelections) as real / TotalSelections(r.armSelections) as real
  }

  /** With three arms the busiest arm has at least a third of the
      decisions, and never more than all of them. */
  lemma ShareBounds(r: EvalResult)
    requires r.armSelections.Keys == {0.9, 1.0, 1.1} && TotalSelections(r.armSelections) > 0
    ensures 1.0 / 3.0 <= MostSelectedShare(r) <= 1.0
  {
    var top, total := TopCount(r.armSelections) as real, TotalSelections(r.armSelections) as real;
    assert 3.0 * top >= total && top <= total;
    DivCompare(top, total, 1.0 / 3.0);
    DivCompare(top, total, 1.0);
  }

  function BalanceOf(share: real): Balance
  {
    if share > 0.8 then OverExploited else if share < 0.4 then GoodBalance else ReasonableDistribution
  }

  /** The busiest arm exceeds a bound exactly when some arm does, and
      stays under a bound exactly when every arm does. */
  lemma TopCountThreshold(m: map<real, nat>, bound: real)
    requires m.Keys == {0.9, 1.0, 1.1}
    ensures TopCount(m) as real > bound <==> exists a :: a in Arms && m[a] as real > bound
    ensures TopCount(m) as real < bound <==> forall a :: a in Arms ==> m[a] as real < bound
  {
    assert Arms == [0.9, 1.0, 1.1];
    if TopCount(m) as real > bound {
      if TopCount(m) == m[0.9] { assert Arms[0] == 0.9; }
      else if TopCount(m) == m[1.0] { assert Arms[1] == 1.0; }
      else { assert Arms[2] == 1.1; }
    }
  }

  /** The best result is flagged over-exploited exactly when one arm takes
      more than 80 % of its decisions. */
  lemma OverExploitedIff(r: EvalResult)
    requires WellFormed(r)
    ensures BalanceOf(MostSelectedShare(r)) == OverExploited <==>
              exists a :: a in Arms && r.armSelections[a] as real > 0.8 * r.nDecisions as real
  {
    var n := r.nDecisions as real;
    var top := TopCount(r.armSelections) as real;
    assert MostSelectedShare(r) == top / n;
    DivCompare(top, n, 0.8);
    TopCountThreshold(r.armSelections, 0.8 * n);
  }

  /** The best result is flagged well balanced exactly when every arm takes
      under 40 % of its decisions. */
  lemma GoodBalanceIff(r: EvalResult)
    requires WellFormed(r)
    ensures BalanceOf(MostSelectedShare(r)) == GoodBalance <==>
              forall a :: a in Arms ==> r.armSelections[a] as real < 0.4 * r.nDecisions as real
  {
    var n := r.nDecisions as real;
    var top := TopCount(r.armSelections) as real;
    assert MostSelectedShare(r) == top / n;
    DivCompare(top, n, 0.8);
    DivCompare(top, n, 0.4);
    TopCountThreshold(r.armSelections, 0.4 * n);
  }

  function AvgRewards(results: seq<(string, EvalResult)>): (keys: seq<real>)
    requires forall k :: 0 <= k < |results| ==> WellFormed(results[k].1)
    ensures |keys| == |results|
  {
    seq(|results|, k requires 0 <= k < |results| && WellFormed(results[k].1) => results[k].1.AvgReward())
  }

  /** Ranking by descending average reward (stable), the best result's
      figures, its exploration verdict and whether it chose the premium tier
      more often than the discount tier. The best is a result with the
      highest average reward, the earliest one among equals. */
  function GenerateReport(results: seq<(string, EvalResult)>): (rep: Report)
    requires forall k :: 0 <= k < |results| ==> WellFormed(results[k].1)
    ensures rep.NoResults? <==> results == []
    ensures rep.Summary? ==>
              |rep.ranking| == |results| &&
              exists k :: 0 <= k < |results| && WellFormed(results[k].1) &&
                Ranking.FirstMax(AvgRewards(results), k) &&
                rep.best == results[k].0 &&
                rep.bestAvgReward == results[k].1.AvgReward() &&
                rep.bestAvgRegret == results[k].1.AvgRegret() &&
                rep.balance == BalanceOf(MostSelectedShare(results[k].1)) &&
                rep.favorsPremium == (results[k].1.armSelections[1.1] > results[k].1.armSelections[0.9])
  {
    if results == [] then NoResults
    else
      var keys := AvgRewards(results);
      var order := Ranking.RankDescending(keys, |results|);
      Ranking.RankHead(keys);
      var top := order[0];
      var best := results[top].1;
      assert WellFormed(best);
      var m := best.armSelections;
      Summary(seq(|order|, k requires 0 <= k < |order| => results[order[k]].0),
              results[top].0, best.AvgReward(), best.AvgRegret(),
              BalanceOf(MostSelectedShare(best)), m[1.1] > m[0.9])
  }

  /** The ranking lists every result once, by descending average reward,
      with equal averages in configuration order. */
  lemma ReportRanking(results: seq<(string, EvalResult)>)
    requires forall k :: 0 <= k < |results| ==> WellFormed(results[k].1)
    requires results != []
    ensures exists order: seq<nat> ::
              Ranking.InBounds(AvgRewards(results), order) && Ranking.Distinct(order) &&
              |order| == |results| &&
              Ranking.Descending(AvgRewards(results), order) &&
              Ranking.Stable(AvgRewards(results), order) &&
              GenerateReport(results).ranking == seq(|order|, k requires 0 <= k < |order| => results[order[k]].0)
  {
    var keys := AvgRewards(results);
    Ranking.RankIsStableSort(keys, |results|);
  }

  /** The replay's running figures: total reward and regret, their running
      totals, and the count of each arm. */
  datatype Running = Running(totalReward: real, totalRegret: real, cumulativeRewards: seq<real>,
                             cumulativeRegrets: seq<real>, armSelections: map<real, nat>)

  /** Every figure at zero, with a zero count for each declared arm. */
  const Start: Running := Running(0.0, 0.0, [], [], map[0.9 := 0, 1.0 := 0, 1.1 := 0])

  /** One step's update: add the reward and regret to the totals, record
      the new totals, and count the chosen arm. */
  function Advance(run: Running, arm: real, reward: real, regret: real): (next: Running)
    requires arm in run.armSelections
    ensures next.armSelections.Keys == run.armSelections.Keys
  {
    var totalReward, totalRegret := run.totalReward + reward, run.totalRegret + regret;
    Running(totalReward, totalRegret, run.cumulativeRewards + [totalReward], run.cumulativeRegrets + [totalRegret],
            run.armSelections[arm := run.armSelections[arm] + 1])
  }

  /** The running figures after the first j steps. */
  ghost predicate Accumulated(j: nat, rewards: seq<real>, regrets: seq<real>, chosen: seq<real>, run: Running)
    requires j <= |rewards| && j <= |regrets| && j <= |chosen|
  {
    && run.totalReward == Sum(rewards[..j]) && run.totalRegret == Sum(regrets[..j])
    && run.cumulativeRewards == PrefixSums(rewards)[..j]
    && run.cumulativeRegrets == PrefixSums(regrets)[..j]
    && run.armSelections == Tally(chosen[..j])
  }

  /** Before the first step the figures are the starting ones. */
  lemma AccumulatedStart(rewards: seq<real>, regrets: seq<real>, chosen: seq<real>)
    ensures Accumulated(0, rewards, regrets, chosen, Start)
  {
    assert rewards[..0] == [] && regrets[..0] == [] && chosen[..0] == [];
  }

  /** Advancing by step j's arm, reward and regret gives the figures after
      j + 1 steps. */
  lemma AccumulatedStep(j: nat, rewards: seq<real>, regrets: seq<real>, chosen: seq<real>, run: Running)
    requires j < |rewards| && j < |regrets| && j < |chosen| && chosen[j] in Arms
    requires Accumulated(j, rewards, regrets, chosen, run)
    ensures chosen[j] in run.armSelections
    ensures Accumulated(j + 1, rewards, regrets, chosen, Advance(run, chosen[j], rewards[j], regrets[j]))
  {
    PrefixSumsStep(rewards, j);
    PrefixSumsStep(regrets, j);
    TallyStep(chosen, j);
  }

  /** After the last step the figures are the whole sums, the running
      totals and the tally. */
  lemma AccumulatedEnd(rewards: seq<real>, regrets: seq<real>, chosen: seq<real>, run: Running)
    requires |rewards| == |regrets| == |chosen|
    requires Accumulated(|chosen|, rewards, regrets, chosen, run)
    ensures run.totalReward == Sum(rewards) && run.totalRegret == Sum(regrets)
    ensures run.cumulativeRewards == PrefixSums(rewards) && run.cumulativeRegrets == PrefixSums(regrets)
    ensures run.armSelections == Tally(chosen)
  {
    assert chosen[..|chosen|] == chosen && rewards[..|chosen|] == rewards && regrets[..|chosen|] == regrets;
    assert PrefixSums(rewards)[..|chosen|] == PrefixSums(rewards);
    assert PrefixSums(regrets)[..|chosen|] == PrefixSums(regrets);
  }

  class OfflineBanditEvaluator {
    const arms: seq<real> := Arms
    var results: seq<(string, EvalResult)>

    ghost predicate Valid()
      reads this
    {
      forall k :: 0 <= k < |results| ==> WellFormed(results[k].1)
    }

    constructor ()
      ensures Valid() && results == []
    {
      results := [];
    }

    /** The bootstrap loop of `evaluate_algorithm`: each training row's
        drawn tier and its reward. */
    method Bootstrap(train: seq<Sample>, tiers: seq<real>) returns (decisions: seq<real>, rewards: seq<real>)
      requires |tiers| == |train|
      ensures decisions == tiers && rewards == BootstrapRewards(train, tiers)
    {
      decisions, rewards := [], [];
      var i := 0;
      while i < |train|
        invariant 0 <= i <= |train|
        invariant decisions == tiers[..i]
        invariant rewards == BootstrapRewards(train, tiers)[..i]
      {
        var optimalTier := tiers[i];
        var reward := BusinessReward(optimalTier, train[i].row.price, ContextDict(train[i].row));
        rewards := rewards + [reward];
        decisions := decisions + [optimalTier];
        i := i + 1;
      }
      assert decisions == tiers[..i];
      assert BootstrapRewards(train, tiers)[..i] == BootstrapRewards(train, tiers);
    }

    /** The replay loop of `evaluate_algorithm`: predict, score the chosen
        tier against the best tier, tally, and feed the reward back with
        `partial_fit`. `pay[j]` is the business reward of row j at a tier and
        `oracle[j]` the best such reward. */
    method Replay(model: Bandit, xs: seq<seq<real>>, draws: seq<nat>, pay: seq<real -> real>, oracle: seq<real>)
      returns (run: Running)
      requires model.Valid() && model.arms == Arms
      requires |draws| == |xs| && |pay| == |xs| && |oracle| == |xs|
      modifies model
      ensures var chosen := Trajectory(model.select, old(model.history), xs, draws, pay);
              && run.totalReward == Sum(Earned(pay, chosen)) && run.totalRegret == Sum(Missed(oracle, pay, chosen))
              && run.cumulativeRewards == PrefixSums(Earned(pay, chosen))
              && run.cumulativeRegrets == PrefixSums(Missed(oracle, pay, chosen))
              && run.armSelections == Tally(chosen)
    {
      ghost var chosen := Trajectory(model.select, model.history, xs, draws, pay);
      ghost var rewards, regrets := Earned(pay, chosen), Missed(oracle, pay, chosen);
      TrajectoryInArms(model.select, Arms, model.history, xs, draws, pay);
      run := Start;
      AccumulatedStart(rewards, regrets, chosen);
      var j := 0;
      while j < |xs|
        invariant 0 <= j <= |xs|
        invariant model.Valid() && model.arms == Arms
        invariant Trajectory(model.select, model.history, xs[j..], draws[j..], pay[j..]) == chosen[j..]
        invariant Accumulated(j, rewards, regrets, chosen, run)
      {
        var predictedArm := model.Predict(xs[j], draws[j]);
        TrajectoryStep(model.select, model.history, xs, draws, pay, chosen, j);
        var actualReward := pay[j](predictedArm);
        var regret := oracle[j] - actualReward;
        AccumulatedStep(j, rewards, regrets, chosen, run);
        run := Advance(run, predictedArm, actualReward, regret);
        model.PartialFit(predictedArm, actualReward, xs[j]);
        j := j + 1;
      }
      AccumulatedEnd(rewards, regrets, chosen, run);
    }

    /** `evaluate_algorithm`: bootstrap, fit a fresh bandit, replay the test
        rows, and summarise; `None` where the source raises. */
    method EvaluateAlgorithm(algo: Algorithm, train: seq<Sample>, test: seq<Sample>, d: Draws)
      returns (res: Option<EvalResult>)
      requires DrawsFit(d, train, test) && Chooses(algo.select, Arms)
      ensures res == Outcome(algo, train, test, d)
      ensures res.Some? ==> WellFormed(res.value)
    {
      OutcomeWellFormed(algo, train, test, d);
      if algo.libraryRaises {
        return None;
      }
      var trainDecisions, trainRewards := Bootstrap(train, d.trainTiers);
      var model := new Bandit.Fit(arms, algo.select, trainDecisions, trainRewards, Contexts(train));
      var run := Replay(model, Contexts(test), d.predictDraws, Payoffs(test), Oracle(test));
      if |test| == 0 {
        return None;
      }
      res := Some(EvalResult(algo.name, run.totalReward, run.totalRegret,
                             run.cumulativeRewards, run.cumulativeRegrets, run.armSelections, |test|));
    }

    /** `run_comparative_evaluation`: evaluate each configuration in turn,
        keep the ones that succeed, and store them as the results. */
    method RunComparativeEvaluation(algorithms: seq<Algorithm>, train: seq<Sample>, test: seq<Sample>,
                                    draws: seq<Draws>)
      returns (rs: seq<(string, EvalResult)>)
      requires Valid()
      requires |draws| == |algorithms|
      requires forall k :: 0 <= k < |algorithms| ==> DrawsFit(draws[k], train, test)
      requires forall k :: 0 <= k < |algorithms| ==> Chooses(algorithms[k].select, Arms)
      modifies this
      ensures Valid()
      ensures rs == results == Kept(Outcomes(algorithms, train, test, draws))
    {
      ghost var named := Outcomes(algorithms, train, test, draws);
      var collected: seq<(string, EvalResult)> := [];
      var k := 0;
      while k < |algorithms|
        invariant 0 <= k <= |algorithms|
        invariant collected == Kept(named[..k])
      {
        var result := EvaluateAlgorithm(algorithms[k], train, test, draws[k]);
        assert named[k] == (algorithms[k].name, result);
        KeptStep(named, k);
        if result.Some? {
          collected := collected + [(algorithms[k].name, result.value)];
        }
        k := k + 1;
      }
      assert named[..k] == named;
      OutcomesWellFormed(algorithms, train, test, draws);
      KeptWellFormed(named);
      results := collected;
      rs := collected;
    }

    /** `generate_report` on the stored results. */
    function CurrentReport(): (rep: Report)
      requires Valid()
      reads this
      ensures rep.NoResults? <==> results == []
    {
      GenerateReport(results)
    }
  }

  /** Running a comparison keeps exactly the configurations that do not
      raise, and none at all on an empty test split. */
  lemma ComparisonKeepsSuccesses(algorithms: seq<Algorithm>, train: seq<Sample>, test: seq<Sample>, draws: seq<Draws>)
    requires |draws| == |algorithms|
    requires forall k :: 0 <= k < |algorithms| ==> DrawsFit(draws[k], train, test)
    ensures Names(Kept(Outcomes(algorithms, train, test, draws)))
            == set k | 0 <= k < |algorithms| && !algorithms[k].libraryRaises && |test| > 0 :: algorithms[k].name
  {
    var named := Outcomes(algorithms, train, test, draws);
    KeptNames(named);
    assert forall c :: 0 <= c < |named| ==> named[c].0 == algorithms[c].name;
  }
}
