/**
  `energy_management(x)` written as the script writes it: one pass of a
  `for` loop over `t = 1 .. T-1` that reads usable battery energy from the
  previous SOC, writes the next entry of a zero-initialised SOC array,
  balances demand and updates two running totals in place. It computes
  exactly the functional fold.
 */
module DispatchLoop {
  import opened NumpyArrays
  import opened Outcomes
  import opened Dispatch

  /** The loop itself, over already split decisions. */
  method Replay(p: Profiles, d: Decisions) returns (soc: seq<real>, totalCost: real, totalSavings: real)
    requires |p.demand| >= 1 && Covers(p, d, |p.demand| - 1)
    ensures Run(soc, totalCost, totalSavings) == Simulate(p, d, |p.demand| - 1)
    ensures |soc| == |p.demand|
    ensures forall t :: 0 <= t < |soc| ==> 0.0 <= soc[t] <= BatteryCapacity
  {
    var horizon := |p.demand|;
    totalCost := 0.0;
    totalSavings := 0.0;
    soc := Zeros(horizon);
    soc := soc[0 := InitialSoc()];
    var t := 1;
    while t < horizon
      invariant 1 <= t <= horizon
      invariant |soc| == horizon
      invariant Simulate(p, d, t - 1) == Run(soc[..t], totalCost, totalSavings)
    {
      var step := IntervalAt(p, d, t, soc[t - 1]);
      assert soc[..t] + [step.soc] == soc[t := step.soc][..t + 1];
      soc := soc[t := step.soc];
      totalCost := totalCost + step.supply.fromGrid * GridPrice;
      totalSavings := totalSavings + step.supply.fromRenewables;
      t := t + 1;
    }
    assert soc[..horizon] == soc;
  }

  /** The objective: shape check, split of `x`, the loop, and `cost - savings`. */
  method EnergyManagementLoop(p: Profiles, x: seq<real>) returns (r: Result<real>)
    requires WellFormed(p)
    ensures r == EnergyManagement(p, x)
  {
    var horizon := |p.demand|;
    if horizon == 0 || (horizon >= 2 && |x| < 3 * horizon) {
      return Failure(IndexOutOfRange);
    }
    var d := Split(x, horizon);
    var soc, totalCost, totalSavings := Replay(p, d);
    r := Success(totalCost - totalSavings);
  }
}
