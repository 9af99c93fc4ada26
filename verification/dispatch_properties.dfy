/**
  Properties of the dispatch simulator that relate several loop iterations
  or several calls: monotone accumulators, the savings bound, the idle
  battery, depletion gating, the irrelevance of index 0, the optimizer's
  starting point, and two worked scenarios.
 */
module DispatchProperties {
  import opened Numeric
  import opened NumpyArrays
  import opened Outcomes
  import opened DemandProfile
  import opened Dispatch

  /** All inputs of one evaluation are non-negative. */
  predicate NonNegativeInputs(p: Profiles, d: Decisions)
  {
    NonNegativeProfiles(p) && NonNegativeDecisions(d)
  }

  /** One interval adds a non-negative amount to both running totals. */
  lemma StepIncrementsNonNegative(p: Profiles, d: Decisions, k: nat)
    requires 1 <= k && Covers(p, d, k)
    requires NonNegativeInputs(p, d)
    ensures Simulate(p, d, k - 1).totalCost <= Simulate(p, d, k).totalCost
    ensures Simulate(p, d, k - 1).totalSavings <= Simulate(p, d, k).totalSavings
    ensures Simulate(p, d, k).totalSavings - Simulate(p, d, k - 1).totalSavings <= p.demand[k]
  {
    var prev := Simulate(p, d, k - 1);
    var s := IntervalAt(p, d, k, prev.soc[k - 1]);
    assert s.usable >= 0.0;
    assert s.supply.fromGrid >= 0.0;
  }

  /** Cost and savings never decrease as the loop advances. */
  lemma {:induction false} AccumulatorsNonDecreasing(p: Profiles, d: Decisions, j: nat, k: nat)
    requires j <= k && Covers(p, d, k)
    requires NonNegativeInputs(p, d)
    ensures Simulate(p, d, j).totalCost <= Simulate(p, d, k).totalCost
    ensures Simulate(p, d, j).totalSavings <= Simulate(p, d, k).totalSavings
    decreases k - j
  {
    if j < k {
      assert Covers(p, d, k - 1);
      AccumulatorsNonDecreasing(p, d, j, k - 1);
      StepIncrementsNonNegative(p, d, k);
    }
  }

  /**
    Savings never exceed the demand of the intervals replayed so far
    (intervals `1..k`), and neither total goes negative.
   */
  lemma {:induction false} SavingsBoundedByDemand(p: Profiles, d: Decisions, k: nat)
    requires Covers(p, d, k)
    requires NonNegativeInputs(p, d)
    ensures 0.0 <= Simulate(p, d, k).totalSavings <= Sum(p.demand, 1, k + 1)
    ensures 0.0 <= Simulate(p, d, k).totalCost
    decreases k
  {
    if k > 0 {
      assert Covers(p, d, k - 1);
      SavingsBoundedByDemand(p, d, k - 1);
      StepIncrementsNonNegative(p, d, k);
    }
  }

  /**
    For non-negative inputs the objective is never below minus the total
    demand of intervals `1..T-1`: the best it can do is meet all of that
    demand from renewables at no grid cost.
   */
  lemma ObjectiveLowerBound(p: Profiles, x: seq<real>)
    requires WellFormed(p) && NonNegativeProfiles(p) && NonNegative(x)
    requires EnergyManagement(p, x).Success?
    ensures EnergyManagement(p, x).value >= -Sum(p.demand, 1, |p.demand|)
  {
    var horizon := |p.demand|;
    var d := Split(x, horizon);
    assert NonNegativeDecisions(d);
    SavingsBoundedByDemand(p, d, horizon - 1);
  }

  /** With no demand in intervals `1..k`, nothing is bought and nothing is saved. */
  lemma {:induction false} NoDemandNoCostNoSavings(p: Profiles, d: Decisions, k: nat)
    requires Covers(p, d, k)
    requires NonNegativeInputs(p, d)
    requires forall t :: 1 <= t <= k ==> p.demand[t] == 0.0
    ensures Simulate(p, d, k).totalCost == 0.0
    ensures Simulate(p, d, k).totalSavings == 0.0
    decreases k
  {
    if k > 0 {
      assert Covers(p, d, k - 1);
      NoDemandNoCostNoSavings(p, d, k - 1);
      SimulateStep(p, d, k);
      NoDemandStep(p, d, k);
    }
  }

  /** An interval without demand draws on no source. */
  lemma NoDemandStep(p: Profiles, d: Decisions, k: nat)
    requires 1 <= k && Covers(p, d, k)
    requires NonNegativeInputs(p, d)
    requires p.demand[k] == 0.0
    ensures StepAt(p, d, k).supply == Supply(0.0, 0.0, 0.0)
  {
    var s := StepAt(p, d, k);
    assert s.usable >= 0.0;
  }

  /** With no charge and no discharge in intervals `1..k`, the SOC never moves. */
  lemma {:induction false} IdleBatteryKeepsSoc(p: Profiles, d: Decisions, k: nat)
    requires Covers(p, d, k)
    requires forall t :: 1 <= t <= k ==> d.charge[t] == 0.0 && d.discharge[t] == 0.0
    ensures forall t :: 0 <= t <= k ==> Simulate(p, d, k).soc[t] == InitialSoc()
    decreases k
  {
    if k > 0 {
      assert Covers(p, d, k - 1);
      IdleBatteryKeepsSoc(p, d, k - 1);
    }
  }

  /**
    A battery that is empty after iteration `j` and is not charged afterwards
    stays empty, so however much discharge is requested it delivers nothing
    in any later interval.
   */
  lemma {:induction false} EmptyBatteryDeliversNothing(p: Profiles, d: Decisions, j: nat, k: nat)
    requires j <= k && Covers(p, d, k)
    requires Simulate(p, d, j).soc[j] == 0.0
    requires NonNegative(d.discharge)
    requires forall t :: j < t <= k ==> d.charge[t] == 0.0
    ensures forall t :: j <= t <= k ==> Simulate(p, d, k).soc[t] == 0.0
    ensures forall t :: j < t <= k ==> StepAt(p, d, t).usable == 0.0 && StepAt(p, d, t).supply.fromBattery == 0.0
    decreases k - j
  {
    if j < k {
      assert Covers(p, d, k - 1);
      EmptyBatteryDeliversNothing(p, d, j, k - 1);
      SimulateStep(p, d, k);
      var prev := Simulate(p, d, k - 1);
      assert prev.soc[k - 1] == 0.0;
      var s := StepAt(p, d, k);
      assert s.soc == 0.0;
      forall t | j < t <= k
        ensures StepAt(p, d, t).usable == 0.0 && StepAt(p, d, t).supply.fromBattery == 0.0
      {
        if t < k {
          assert Covers(p, d, t);
        }
      }
    }
  }

  /** Two decision sets and two profile sets that agree on intervals `1..k`. */
  predicate AgreeFromOne(p: Profiles, p': Profiles, d: Decisions, d': Decisions, k: nat)
    requires Covers(p, d, k) && Covers(p', d', k)
  {
    forall t :: 1 <= t <= k ==>
      && p.demand[t] == p'.demand[t] && p.solar[t] == p'.solar[t] && p.wind[t] == p'.wind[t]
      && d.grid[t] == d'.grid[t] && d.charge[t] == d'.charge[t] && d.discharge[t] == d'.discharge[t]
  }

  /** The loop starts at `t = 1`: entries at index 0 never influence the run. */
  lemma {:induction false} IndexZeroIrrelevant(p: Profiles, p': Profiles, d: Decisions, d': Decisions, k: nat)
    requires Covers(p, d, k) && Covers(p', d', k)
    requires AgreeFromOne(p, p', d, d', k)
    ensures Simulate(p, d, k) == Simulate(p', d', k)
    decreases k
  {
    if k > 0 {
      assert Covers(p, d, k - 1) && Covers(p', d', k - 1);
      IndexZeroIrrelevant(p, p', d, d', k - 1);
      SimulateStep(p, d, k);
      SimulateStep(p', d', k);
      assert StepAt(p, d, k) == StepAt(p', d', k);
    }
  }

  /**
    Two decision vectors that agree on every entry the loop reads split into
    slices that agree on intervals `1..T-1`; with profiles that agree there
    too, the two evaluations agree from index 1 on.
   */
  lemma SplitAgreesFromOne(p: Profiles, p': Profiles, x: seq<real>, x': seq<real>)
    requires WellFormed(p) && WellFormed(p') && |p.demand| == |p'.demand| >= 1
    requires |x| == |x'| && (|p.demand| == 1 || |x| >= 3 * |p.demand|)
    requires forall t :: 1 <= t < |p.demand| ==>
      p.demand[t] == p'.demand[t] && p.solar[t] == p'.solar[t] && p.wind[t] == p'.wind[t]
    requires forall i :: 0 <= i < |x| && i < 3 * |p.demand| && i != 0 && i != |p.demand| && i != 2 * |p.demand| ==>
      x[i] == x'[i]
    ensures var horizon := |p.demand|;
      && Covers(p, Split(x, horizon), horizon - 1)
      && Covers(p', Split(x', horizon), horizon - 1)
      && AgreeFromOne(p, p', Split(x, horizon), Split(x', horizon), horizon - 1)
  {
    var horizon := |p.demand|;
    var d, d' := Split(x, horizon), Split(x', horizon);
    forall t | 1 <= t < horizon
      ensures d.grid[t] == d'.grid[t] && d.charge[t] == d'.charge[t] && d.discharge[t] == d'.discharge[t]
    {
      assert d.grid[t] == x[t] && d'.grid[t] == x'[t];
      assert d.charge[t] == x[horizon + t] && d'.charge[t] == x'[horizon + t];
      assert d.discharge[t] == x[2 * horizon + t] && d'.discharge[t] == x'[2 * horizon + t];
    }
  }

  /** The same, one level up: both evaluations replay to the same run. */
  lemma RunIgnoresIndexZero(p: Profiles, p': Profiles, x: seq<real>, x': seq<real>)
    requires WellFormed(p) && WellFormed(p') && |p.demand| == |p'.demand| >= 1
    requires |x| == |x'| && (|p.demand| == 1 || |x| >= 3 * |p.demand|)
    requires forall t :: 1 <= t < |p.demand| ==>
      p.demand[t] == p'.demand[t] && p.solar[t] == p'.solar[t] && p.wind[t] == p'.wind[t]
    requires forall i :: 0 <= i < |x| && i < 3 * |p.demand| && i != 0 && i != |p.demand| && i != 2 * |p.demand| ==>
      x[i] == x'[i]
    ensures var horizon := |p.demand|;
      Simulate(p, Split(x, horizon), horizon - 1) == Simulate(p', Split(x', horizon), horizon - 1)
  {
    var horizon := |p.demand|;
    SplitAgreesFromOne(p, p', x, x');
    IndexZeroIrrelevant(p, p', Split(x, horizon), Split(x', horizon), horizon - 1);
  }

  /**
    The objective ignores `x[0]`, `x[T]`, `x[2*T]`, every entry past `3*T`, and
    index 0 of all three profiles.
   */
  lemma ObjectiveIgnoresIndexZero(p: Profiles, p': Profiles, x: seq<real>, x': seq<real>)
    requires WellFormed(p) && WellFormed(p') && |p.demand| == |p'.demand| && |x| == |x'|
    requires forall t :: 1 <= t < |p.demand| ==>
      p.demand[t] == p'.demand[t] && p.solar[t] == p'.solar[t] && p.wind[t] == p'.wind[t]
    requires forall i :: 0 <= i < |x| && i < 3 * |p.demand| && i != 0 && i != |p.demand| && i != 2 * |p.demand| ==>
      x[i] == x'[i]
    ensures EnergyManagement(p, x) == EnergyManagement(p', x')
  {
    if EnergyManagement(p, x).Success? {
      RunIgnoresIndexZero(p, p', x, x');
    }
  }

  /**
    A decision vector longer than `3*T` is accepted, and its surplus is
    ignored: the objective equals that of its first `3*T` entries followed by
    any other tail.
   */
  lemma ObjectiveIgnoresSurplus(p: Profiles, x: seq<real>, y: seq<real>)
    requires WellFormed(p) && |p.demand| >= 1 && |x| >= 3 * |p.demand|
    ensures EnergyManagement(p, x).Success?
    ensures EnergyManagement(p, x) == EnergyManagement(p, x[..3 * |p.demand|] + y)
  {
    var horizon := |p.demand|;
    SurplusSplitAgrees(p, x, y);
    IndexZeroIrrelevant(p, p, Split(x, horizon), Split(x[..3 * horizon] + y, horizon), horizon - 1);
  }

  /** Replacing the surplus of `x` changes no slice entry the loop reads. */
  lemma SurplusSplitAgrees(p: Profiles, x: seq<real>, y: seq<real>)
    requires WellFormed(p) && |p.demand| >= 1 && |x| >= 3 * |p.demand|
    ensures var horizon := |p.demand|;
      var d, d' := Split(x, horizon), Split(x[..3 * horizon] + y, horizon);
      && Covers(p, d, horizon - 1) && Covers(p, d', horizon - 1)
      && AgreeFromOne(p, p, d, d', horizon - 1)
  {
    var horizon := |p.demand|;
    var x' := x[..3 * horizon] + y;
    var d, d' := Split(x, horizon), Split(x', horizon);
    forall t | 1 <= t < horizon
      ensures d.grid[t] == d'.grid[t] && d.charge[t] == d'.charge[t] && d.discharge[t] == d'.discharge[t]
    {
      assert d.grid[t] == x[t] && d'.grid[t] == x'[t];
      assert d.charge[t] == x[horizon + t] && d'.charge[t] == x'[horizon + t];
      assert d.discharge[t] == x[2 * horizon + t] && d'.discharge[t] == x'[2 * horizon + t];
    }
  }

  /**
    A demand profile that fits the grid bound puts the initial guess inside
    the bounds list: grid = demand, battery entries 0.
   */
  lemma InitialGuessWithinBounds(demand: seq<real>)
    requires forall t :: 0 <= t < |demand| ==> 0.0 <= demand[t] <= Max(SolarPowerMax, WindPowerMax)
    ensures WithinBounds(InitialGuess(demand), SearchBounds(|demand|))
  {
    var x := InitialGuess(demand);
    var b := SearchBounds(|demand|);
    var n := |demand|;
    forall i | 0 <= i < |x|
      ensures b[i].lo <= x[i] <= b[i].hi
    {
      if i < n {
        assert x[i] == Split(x, n).grid[i];
      } else if i < 2 * n {
        assert x[i] == Split(x, n).charge[i - n];
      } else {
        assert x[i] == Split(x, n).discharge[i - 2 * n];
      }
    }
  }

  /** The script's own starting point (grid = 5 kW by day) respects its own bounds. */
  lemma ScriptInitialGuessWithinBounds()
    ensures |DispatchDemand| == TimePeriod
    ensures WithinBounds(InitialGuess(DispatchDemand), SearchBounds(TimePeriod))
  {
    InitialGuessWithinBounds(DispatchDemand);
  }

  /** The four-interval profiles both scenarios below use. */
  const ScenarioProfiles := Profiles([0.0, 10.0, 10.0, 0.0], [0.0, 5.0, 0.0, 0.0], [0.0, 0.0, 0.0, 0.0])

  /** Grid = demand, no battery use. */
  const GridOnlyDecisions := Decisions([0.0, 10.0, 10.0, 0.0], Zeros(4), Zeros(4))

  /** Grid = demand, 5 kWh of discharge requested in interval 1. */
  const BatteryFirstDecisions := Decisions([0.0, 10.0, 10.0, 0.0], Zeros(4), [0.0, 5.0, 0.0, 0.0])

  lemma GridOnlyRun1()
    ensures Covers(ScenarioProfiles, GridOnlyDecisions, 1)
    ensures Simulate(ScenarioProfiles, GridOnlyDecisions, 1) == Run([2.0, 2.0], 0.75, 5.0)
  {
    SimulateStep(ScenarioProfiles, GridOnlyDecisions, 1);
    assert StepAt(ScenarioProfiles, GridOnlyDecisions, 1) == Step(0.0, 2.0, Supply(5.0, 0.0, 5.0));
  }

  lemma GridOnlyRun2()
    ensures Covers(ScenarioProfiles, GridOnlyDecisions, 2)
    ensures Simulate(ScenarioProfiles, GridOnlyDecisions, 2) == Run([2.0, 2.0, 2.0], 2.25, 5.0)
  {
    GridOnlyRun1();
    SimulateStep(ScenarioProfiles, GridOnlyDecisions, 2);
    assert StepAt(ScenarioProfiles, GridOnlyDecisions, 2) == Step(0.0, 2.0, Supply(0.0, 0.0, 10.0));
  }

  lemma GridOnlyRun3()
    ensures Covers(ScenarioProfiles, GridOnlyDecisions, 3)
    ensures Simulate(ScenarioProfiles, GridOnlyDecisions, 3) == Run([2.0, 2.0, 2.0, 2.0], 2.25, 5.0)
  {
    GridOnlyRun2();
    SimulateStep(ScenarioProfiles, GridOnlyDecisions, 3);
    assert StepAt(ScenarioProfiles, GridOnlyDecisions, 3) == Step(0.0, 2.0, Supply(0.0, 0.0, 0.0));
  }

  /**
    Four intervals, demand 0/10/10/0, 5 kW of solar in interval 1, no battery
    use and grid = demand: interval 1 takes 5 from renewables and 5 from the
    grid, interval 2 takes 10 from the grid, so the cost is 15 * 0.15 and the
    savings are 5.
   */
  lemma ScenarioGridOnly()
    ensures EnergyManagement(ScenarioProfiles, [0.0, 10.0, 10.0, 0.0] + Zeros(8)) == Success(2.25 - 5.0)
  {
    var x := [0.0, 10.0, 10.0, 0.0] + Zeros(8);
    assert Split(x, 4) == GridOnlyDecisions;
    GridOnlyRun3();
  }

  lemma BatteryFirstRun1()
    ensures Covers(ScenarioProfiles, BatteryFirstDecisions, 1)
    ensures StepAt(ScenarioProfiles, BatteryFirstDecisions, 1) == Step(4.25, 0.0, Supply(5.0, 4.25, 0.75))
    ensures Simulate(ScenarioProfiles, BatteryFirstDecisions, 1) == Run([2.0, 0.0], 0.1125, 5.0)
  {
    SimulateStep(ScenarioProfiles, BatteryFirstDecisions, 1);
    assert StepAt(ScenarioProfiles, BatteryFirstDecisions, 1) == Step(4.25, 0.0, Supply(5.0, 4.25, 0.75));
  }

  lemma BatteryFirstRun2()
    ensures Covers(ScenarioProfiles, BatteryFirstDecisions, 2)
    ensures Simulate(ScenarioProfiles, BatteryFirstDecisions, 2) == Run([2.0, 0.0, 0.0], 1.6125, 5.0)
  {
    BatteryFirstRun1();
    SimulateStep(ScenarioProfiles, BatteryFirstDecisions, 2);
    assert StepAt(ScenarioProfiles, BatteryFirstDecisions, 2) == Step(0.0, 0.0, Supply(0.0, 0.0, 10.0));
  }

  lemma BatteryFirstRun3()
    ensures Covers(ScenarioProfiles, BatteryFirstDecisions, 3)
    ensures Simulate(ScenarioProfiles, BatteryFirstDecisions, 3) == Run([2.0, 0.0, 0.0, 0.0], 1.6125, 5.0)
  {
    BatteryFirstRun2();
    SimulateStep(ScenarioProfiles, BatteryFirstDecisions, 3);
    assert StepAt(ScenarioProfiles, BatteryFirstDecisions, 3) == Step(0.0, 0.0, Supply(0.0, 0.0, 0.0));
  }

  /**
    The same scenario with 5 kWh of discharge requested in interval 1. The
    battery holds 2 kWh, yet it delivers 0.85 * 5 = 4.25 (usable energy is
    gated only on the SOC being positive), the grid supplies the remaining
    0.75, and the SOC falls by the raw 5 and is clipped to 0. In interval 2
    the now empty battery delivers nothing.
   */
  lemma ScenarioBatteryFirst()
    ensures
      var x := [0.0, 10.0, 10.0, 0.0] + Zeros(4) + [0.0, 5.0, 0.0, 0.0];
      && StepAt(ScenarioProfiles, Split(x, 4), 1) == Step(4.25, 0.0, Supply(5.0, 4.25, 0.75))
      && EnergyManagement(ScenarioProfiles, x) == Success(1.6125 - 5.0)
  {
    var x := [0.0, 10.0, 10.0, 0.0] + Zeros(4) + [0.0, 5.0, 0.0, 0.0];
    assert Split(x, 4) == BatteryFirstDecisions;
    BatteryFirstRun1();
    BatteryFirstRun3();
  }
}
