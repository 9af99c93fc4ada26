/**
  The hybrid dispatch simulator: the objective `energy_management(x)` that the
  optimizer evaluates. It replays the horizon one interval at a time,
  carrying the battery state of charge (SOC) forward, meets each interval's
  demand from renewables, then the battery, then the requested grid amount,
  and accumulates grid cost and renewable savings.

  The script's scalar constants are constants here too; its profiles (demand,
  and the randomly drawn solar and wind power) are inputs of any common length.
  The loop is a fold over the interval index.
 */
module Dispatch {
  import opened Numeric
  import opened NumpyArrays
  import opened Outcomes

  /** Grid electricity price, $/kWh. */
  const GridPrice: real := 0.15
  /** Battery capacity, kWh. */
  const BatteryCapacity: real := 10.0
  /** Peak solar and wind power, kW. */
  const SolarPowerMax: real := 6.0
  const WindPowerMax: real := 5.0
  const ChargingEfficiency: real := 0.9
  const DischargingEfficiency: real := 0.85
  /** Initial state of charge, as a fraction of capacity. */
  const InitialBatterySoc: real := 0.2
  /** The script simulates 24 hourly intervals. */
  const TimePeriod: nat := 24

  /** The SOC written to `battery_soc[0]` before the loop: 20 % of 10 kWh. */
  function InitialSoc(): (r: real)
    ensures 0.0 <= r <= BatteryCapacity
  {
    InitialBatterySoc * BatteryCapacity
  }

  /** Demand, solar and wind power, one entry per interval. */
  datatype Profiles = Profiles(demand: seq<real>, solar: seq<real>, wind: seq<real>)

  /** All three profiles cover the same horizon, the length of the demand profile. */
  predicate WellFormed(p: Profiles)
  {
    |p.solar| == |p.demand| && |p.wind| == |p.demand|
  }

  predicate NonNegativeProfiles(p: Profiles)
  {
    NonNegative(p.demand) && NonNegative(p.solar) && NonNegative(p.wind)
  }

  // ---------------------------------------------------------------------------
  // Decision vector layout
  // ---------------------------------------------------------------------------

  /** The three slices of the decision vector `x`. */
  datatype Decisions = Decisions(grid: seq<real>, charge: seq<real>, discharge: seq<real>)

  predicate NonNegativeDecisions(d: Decisions)
  {
    NonNegative(d.grid) && NonNegative(d.charge) && NonNegative(d.discharge)
  }

  /**
    `x[:T]`, `x[T:2*T]` and `x[2*T:]` with Python's slice clamping: the three
    slices partition `x` in order, and a vector of exactly `3*T` entries splits
    into three slices of length `T`.
   */
  function Split(x: seq<real>, horizon: nat): (d: Decisions)
    ensures |d.grid| == SliceBound(horizon, |x|)
    ensures |d.grid| + |d.charge| == SliceBound(2 * horizon, |x|)
    ensures |d.grid| + |d.charge| + |d.discharge| == |x|
    ensures forall i :: 0 <= i < |d.grid| ==> d.grid[i] == x[i]
    ensures forall i :: 0 <= i < |d.charge| ==> d.charge[i] == x[horizon + i]
    ensures forall i :: 0 <= i < |d.discharge| ==> d.discharge[i] == x[2 * horizon + i]
    ensures |x| == 3 * horizon ==> |d.grid| == horizon && |d.charge| == horizon && |d.discharge| == horizon
  {
    var a := SliceBound(horizon, |x|);
    var b := SliceBound(2 * horizon, |x|);
    Decisions(x[..a], x[a..b], x[b..])
  }

  /** The decision vector whose slices are the given ones. */
  function Join(d: Decisions): seq<real>
  {
    d.grid + d.charge + d.discharge
  }

  /** The three slices partition `x` in order, whatever its length. */
  lemma JoinSplit(x: seq<real>, horizon: nat)
    ensures Join(Split(x, horizon)) == x
  {
    var a := SliceBound(horizon, |x|);
    var b := SliceBound(2 * horizon, |x|);
    assert x[..a] + x[a..b] + x[b..] == x;
  }

  /** Joining three slices of length `T` and splitting again gives the slices back. */
  lemma SplitJoin(d: Decisions, horizon: nat)
    requires |d.grid| == horizon && |d.charge| == horizon
    ensures Split(Join(d), horizon) == d
  {
    var x := Join(d);
    var s := Split(x, horizon);
    assert s.grid == x[..horizon] == d.grid;
    assert s.charge == x[horizon..2 * horizon] == d.charge;
    assert s.discharge == x[2 * horizon..] == d.discharge;
  }

  // ---------------------------------------------------------------------------
  // One interval
  // ---------------------------------------------------------------------------

  /**
    Energy the battery can deliver this interval: the requested discharge
    scaled by the discharging efficiency, gated on the SOC the interval starts
    with. An empty battery delivers nothing.
   */
  function UsableBatteryEnergy(prevSoc: real, discharge: real): (r: real)
    ensures prevSoc <= 0.0 ==> r == 0.0
    ensures prevSoc > 0.0 ==> r == discharge * DischargingEfficiency
    ensures discharge >= 0.0 ==> 0.0 <= r <= discharge * DischargingEfficiency
  {
    if prevSoc > 0.0 then discharge * DischargingEfficiency else 0.0
  }

  /**
    The SOC recurrence: raw (unscaled) discharge is subtracted, efficiency-scaled
    charge is added, and the result is clipped to `[0, capacity]`.
   */
  function AdvanceSoc(prevSoc: real, charge: real, discharge: real): (soc: real)
    ensures 0.0 <= soc <= BatteryCapacity
  {
    Clip(prevSoc + charge * ChargingEfficiency - discharge, 0.0, BatteryCapacity)
  }

  /**
    Without clipping the change is exactly `charge * eta_c - discharge`: the
    discharge enters unscaled. From a SOC in range, a pure discharge never
    raises the SOC and a pure charge never lowers it.
   */
  lemma AdvanceSocChange(prevSoc: real, charge: real, discharge: real)
    ensures var soc := AdvanceSoc(prevSoc, charge, discharge);
      && (0.0 <= prevSoc + charge * ChargingEfficiency - discharge <= BatteryCapacity ==>
            soc - prevSoc == charge * ChargingEfficiency - discharge)
      && (0.0 <= prevSoc <= BatteryCapacity && charge == 0.0 && discharge >= 0.0 ==> soc <= prevSoc)
      && (0.0 <= prevSoc <= BatteryCapacity && charge >= 0.0 && discharge == 0.0 ==> soc >= prevSoc)
  {
  }

  /** How much of an interval's demand each source meets. */
  datatype Supply = Supply(fromRenewables: real, fromBattery: real, fromGrid: real)

  function Total(s: Supply): real
  {
    s.fromRenewables + s.fromBattery + s.fromGrid
  }

  /**
    The energy balance in its fixed priority: renewables first, the battery
    for what remains, then the requested grid amount for what still remains.
    No source gives more than the demand left when its turn comes.
   */
  function Balance(demand: real, renewable: real, usable: real, grid: real): (s: Supply)
    ensures s.fromRenewables <= renewable && s.fromRenewables <= demand
    ensures s.fromBattery <= demand - s.fromRenewables
    ensures s.fromGrid <= demand - s.fromRenewables - s.fromBattery
  {
    var fromRenewables := Min(renewable, demand);
    var remaining := demand - fromRenewables;
    var fromBattery := Min(remaining, usable);
    var fromGrid := Min(remaining - fromBattery, grid);
    Supply(fromRenewables, fromBattery, fromGrid)
  }

  /**
    The priority order: the battery is drawn on only once renewables are used
    up, and the grid only once the battery is too.
   */
  lemma BalancePriority(demand: real, renewable: real, usable: real, grid: real)
    ensures var s := Balance(demand, renewable, usable, grid);
      && (s.fromBattery > 0.0 ==> s.fromRenewables == renewable)
      && (usable >= 0.0 && s.fromGrid > 0.0 ==> s.fromRenewables == renewable && s.fromBattery == usable)
  {
  }

  /**
    For non-negative quantities each source gives at most what it has, and
    together they meet exactly `min(demand, available)`: unmet demand is
    simply left over, with no penalty.
   */
  lemma BalanceMeetsDemand(demand: real, renewable: real, usable: real, grid: real)
    requires demand >= 0.0 && renewable >= 0.0 && usable >= 0.0 && grid >= 0.0
    ensures var s := Balance(demand, renewable, usable, grid);
      && 0.0 <= s.fromRenewables
      && 0.0 <= s.fromBattery <= usable
      && 0.0 <= s.fromGrid <= grid
      && Total(s) == Min(demand, renewable + usable + grid)
  {
  }

  /** Everything one loop iteration computes. */
  datatype Step = Step(usable: real, soc: real, supply: Supply)

  /**
    Loop iteration `t` on that interval's inputs: usable battery energy is read
    from the SOC the interval starts with, before the SOC is advanced; the
    balance then uses that usable energy.
   */
  function Interval(demand: real, renewable: real, grid: real, charge: real, discharge: real, prevSoc: real): Step
  {
    var usable := UsableBatteryEnergy(prevSoc, discharge);
    Step(usable, AdvanceSoc(prevSoc, charge, discharge), Balance(demand, renewable, usable, grid))
  }

  /**
    One iteration as a whole: the new SOC stays in range, a battery that
    starts the interval empty contributes nothing, and the sources together
    never supply more than the demand.
   */
  lemma IntervalSafety(demand: real, renewable: real, grid: real, charge: real, discharge: real, prevSoc: real)
    ensures var r := Interval(demand, renewable, grid, charge, discharge, prevSoc);
      && 0.0 <= r.soc <= BatteryCapacity
      && (prevSoc <= 0.0 ==> r.usable == 0.0 && r.supply.fromBattery == 0.0)
      && Total(r.supply) <= demand
  {
  }

  /** Interval `t` of the horizon, starting from `prevSoc`. */
  function IntervalAt(p: Profiles, d: Decisions, t: nat, prevSoc: real): Step
    requires WellFormed(p) && t < |p.demand|
    requires t < |d.grid| && t < |d.charge| && t < |d.discharge|
  {
    Interval(p.demand[t], p.solar[t] + p.wind[t], d.grid[t], d.charge[t], d.discharge[t], prevSoc)
  }

  // ---------------------------------------------------------------------------
  // The fold over the horizon
  // ---------------------------------------------------------------------------

  /** The SOC trajectory so far and the two running totals. */
  datatype Run = Run(soc: seq<real>, totalCost: real, totalSavings: real)

  /**
    The inputs reach far enough for loop iterations `1..k`: the profiles are
    indexed up to `k`, and so are the decision slices when at least one
    iteration runs.
   */
  predicate Covers(p: Profiles, d: Decisions, k: nat)
  {
    && WellFormed(p)
    && k < |p.demand|
    && (k == 0 || (k < |d.grid| && k < |d.charge| && k < |d.discharge|))
  }

  /**
    The state after loop iterations `t = 1..k`. The trajectory has one entry per
    interval boundary reached, starts at the initial SOC, and stays within
    `[0, capacity]` throughout.
   */
  function Simulate(p: Profiles, d: Decisions, k: nat): (r: Run)
    requires Covers(p, d, k)
    ensures |r.soc| == k + 1
    ensures r.soc[0] == InitialSoc()
    ensures forall t :: 0 <= t <= k ==> 0.0 <= r.soc[t] <= BatteryCapacity
    decreases k
  {
    if k == 0 then
      Run([InitialSoc()], 0.0, 0.0)
    else
      var prev := Simulate(p, d, k - 1);
      var s := IntervalAt(p, d, k, prev.soc[k - 1]);
      Run(prev.soc + [s.soc],
          prev.totalCost + s.supply.fromGrid * GridPrice,
          prev.totalSavings + s.supply.fromRenewables)
  }

  /**
    What loop iteration `t` computes, given the state the earlier iterations
    left. Usable battery energy is gated on the SOC before the update, not
    after it: it is non-zero only if `soc[t-1] > 0`, and then it is the scaled
    requested discharge.
   */
  function StepAt(p: Profiles, d: Decisions, t: nat): (s: Step)
    requires 1 <= t && Covers(p, d, t)
    ensures s.soc == Simulate(p, d, t).soc[t]
    ensures Simulate(p, d, t - 1).soc[t - 1] == 0.0 ==> s.usable == 0.0 && s.supply.fromBattery == 0.0
    ensures Simulate(p, d, t - 1).soc[t - 1] > 0.0 ==> s.usable == d.discharge[t] * DischargingEfficiency
  {
    IntervalAt(p, d, t, Simulate(p, d, t - 1).soc[t - 1])
  }

  /** One unfolding of the fold: iteration `k` extends the state iterations `1..k-1` left. */
  lemma SimulateStep(p: Profiles, d: Decisions, k: nat)
    requires 1 <= k && Covers(p, d, k)
    ensures
      var prev := Simulate(p, d, k - 1);
      var s := StepAt(p, d, k);
      Simulate(p, d, k) == Run(prev.soc + [s.soc], prev.totalCost + s.supply.fromGrid * GridPrice,
                                  prev.totalSavings + s.supply.fromRenewables)
  {
  }

  /**
    `energy_management(x)`. It raises `IndexError` exactly when the horizon is
    empty (writing `battery_soc[0]` fails) or when at least one iteration runs
    and `x` has fewer than `3*T` entries; a longer `x` is accepted and its
    surplus ignored. Otherwise it returns total cost minus total savings after
    the last interval.
   */
  function EnergyManagement(p: Profiles, x: seq<real>): (r: Result<real>)
    requires WellFormed(p)
    ensures r.Failure? <==> |p.demand| == 0 || (|p.demand| >= 2 && |x| < 3 * |p.demand|)
    ensures r.Success? ==>
      var run := Simulate(p, Split(x, |p.demand|), |p.demand| - 1);
      r.value == run.totalCost - run.totalSavings
  {
    var horizon := |p.demand|;
    if horizon == 0 || (horizon >= 2 && |x| < 3 * horizon) then
      Failure(IndexOutOfRange)
    else
      var run := Simulate(p, Split(x, horizon), horizon - 1);
      Success(run.totalCost - run.totalSavings)
  }

  /**
    The error condition is exactly the failure of the indexing the replay
    needs: for a non-empty horizon the objective fails precisely when the
    split decision slices do not reach the last interval.
   */
  lemma FailsExactlyWhenUncovered(p: Profiles, x: seq<real>)
    requires WellFormed(p) && |p.demand| >= 1
    ensures EnergyManagement(p, x).Failure? <==> !Covers(p, Split(x, |p.demand|), |p.demand| - 1)
  {
  }

  // ---------------------------------------------------------------------------
  // Optimizer inputs
  // ---------------------------------------------------------------------------

  /**
    The starting point handed to the optimizer: `np.zeros(3*T)` with the grid
    slice overwritten by the demand profile. It splits back into grid = demand
    and two all-zero battery slices.
   */
  function InitialGuess(demand: seq<real>): (x: seq<real>)
    ensures |x| == 3 * |demand|
    ensures Split(x, |demand|) == Decisions(demand, Zeros(|demand|), Zeros(|demand|))
  {
    var d := Decisions(demand, Zeros(|demand|), Zeros(|demand|));
    SplitJoin(d, |demand|);
    Join(d)
  }

  /** One `(low, high)` pair of the bounds list. */
  datatype Bound = Bound(lo: real, hi: real)

  /**
    The bounds list: `T` grid entries in `[0, max(solar_max, wind_max)]`
    followed by `2*T` battery entries in `[0, capacity]`.
   */
  function SearchBounds(horizon: nat): (b: seq<Bound>)
    ensures |b| == 3 * horizon
    ensures forall i :: 0 <= i < horizon ==> b[i] == Bound(0.0, Max(SolarPowerMax, WindPowerMax))
    ensures forall i :: horizon <= i < 3 * horizon ==> b[i] == Bound(0.0, BatteryCapacity)
  {
    var gridBound := Bound(0.0, Max(SolarPowerMax, WindPowerMax));
    var batteryBound := Bound(0.0, BatteryCapacity);
    Repeat(gridBound, horizon) + Repeat(batteryBound, horizon) + Repeat(batteryBound, horizon)
  }

  /** `x` has one entry per bound and lies inside every one of them. */
  predicate WithinBounds(x: seq<real>, b: seq<Bound>)
  {
    |x| == |b| && forall i :: 0 <= i < |x| ==> b[i].lo <= x[i] <= b[i].hi
  }
}
