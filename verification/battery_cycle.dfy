/**
  The battery cycle evaluator: `battery_performance(x)` scores one
  charge/discharge cycle given how many hours the battery charges (`x[0]`)
  and discharges (`x[1]`). Energy charged is capped by the free headroom of
  a battery that starts 20 % full, energy used is capped by what was stored,
  and the score is the delivered energy per unit charged, negated for the
  minimizer. Energies are in Wh, powers in W, times in hours.
 */
module BatteryCycle {
  import opened Numeric
  import opened Outcomes

  /** Battery capacity, Wh. */
  const Capacity: real := 10000.0
  const ChargingEfficiency: real := 0.9
  const DischargingEfficiency: real := 0.85
  /** Charging and discharging power, W. */
  const ChargingPower: real := 3000.0
  const DischargingPower: real := 2500.0
  /** Initial state of charge, as a fraction of capacity. */
  const InitialSocFraction: real := 0.2
  /** The trajectory script covers 24 hourly steps. */
  const TimePeriod: nat := 24

  /** The storage system's overall efficiency: a round trip loses at both ends. */
  function RoundTripEfficiency(): (r: real)
    ensures 0.0 < r <= ChargingEfficiency && r <= DischargingEfficiency
  {
    ChargingEfficiency * DischargingEfficiency
  }

  /** Free capacity above the initial state of charge: 8000 Wh. */
  function Headroom(): (r: real)
    ensures 0.0 <= r <= Capacity
  {
    Capacity - InitialSocFraction * Capacity
  }

  /** Every intermediate quantity of one evaluation. */
  datatype Cycle = Cycle(charged: real, discharged: real, stored: real, used: real,
                         delivered: real, efficiency: real)

  /**
    One evaluation. Stored energy is the charged energy unless the headroom
    is smaller; used energy is the discharged energy unless the stored energy
    is smaller; what the battery delivers is the used energy after a round
    trip. The efficiency is delivered over charged, and 0 when nothing (or a
    negative amount) was charged.
   */
  function Evaluate(chargingTimes: real, dischargingTimes: real): (c: Cycle)
    ensures c.charged == chargingTimes * ChargingPower * ChargingEfficiency
    ensures c.discharged == dischargingTimes * DischargingPower * DischargingEfficiency
    ensures c.stored <= c.charged && c.stored <= Headroom()
    ensures c.stored == c.charged || c.stored == Headroom()
    ensures c.used <= c.discharged && c.used <= c.stored
    ensures c.used == c.discharged || c.used == c.stored
    ensures c.delivered == c.used * RoundTripEfficiency()
    ensures c.charged <= 0.0 ==> c.efficiency == 0.0
    ensures c.charged > 0.0 ==> c.efficiency * c.charged == c.delivered
  {
    var charged := chargingTimes * ChargingPower * ChargingEfficiency;
    var discharged := dischargingTimes * DischargingPower * DischargingEfficiency;
    var stored := Min(charged, Headroom());
    var used := Min(discharged, stored);
    var delivered := used * RoundTripEfficiency();
    var efficiency := if charged > 0.0 then delivered / charged else 0.0;
    Cycle(charged, discharged, stored, used, delivered, efficiency)
  }

  /** `a / b <= r` follows from `a <= r * b` for positive `b`. */
  lemma RatioAtMost(a: real, b: real, r: real)
    requires b > 0.0 && a <= r * b
    ensures a / b <= r
  {
    assert a / b * b == a;
    assert (a / b - r) * b <= 0.0;
  }

  /**
    For non-negative times the efficiency lies between 0 and the round-trip
    efficiency: used <= stored <= charged, so at most the round-trip share of
    the charged energy comes back out.
   */
  lemma EfficiencyBounds(chargingTimes: real, dischargingTimes: real)
    requires chargingTimes >= 0.0 && dischargingTimes >= 0.0
    ensures 0.0 <= Evaluate(chargingTimes, dischargingTimes).efficiency <= RoundTripEfficiency()
  {
    var c := Evaluate(chargingTimes, dischargingTimes);
    if c.charged > 0.0 {
      assert 0.0 <= c.used <= c.charged;
      assert 0.0 <= c.delivered <= RoundTripEfficiency() * c.charged;
      RatioAtMost(c.delivered, c.charged, RoundTripEfficiency());
      assert c.delivered / c.charged >= 0.0;
    }
  }

  /**
    A balanced cycle reaches the bound: a positive charge that fits in the
    headroom, with at least as much discharge, returns the full round-trip
    share.
   */
  lemma BalancedCycleReachesRoundTrip(chargingTimes: real, dischargingTimes: real)
    requires chargingTimes > 0.0
    requires chargingTimes * ChargingPower * ChargingEfficiency <= Headroom()
    requires dischargingTimes * DischargingPower * DischargingEfficiency
             >= chargingTimes * ChargingPower * ChargingEfficiency
    ensures Evaluate(chargingTimes, dischargingTimes).efficiency == RoundTripEfficiency()
  {
    var c := Evaluate(chargingTimes, dischargingTimes);
    assert c.charged > 0.0;
    assert c.stored == c.charged;
    assert c.used == c.charged;
    assert c.delivered == c.charged * RoundTripEfficiency();
    assert c.efficiency * c.charged == c.delivered;
    assert (c.efficiency - RoundTripEfficiency()) * c.charged == 0.0;
  }

  /**
    Conversely, only a balanced cycle attains the round-trip efficiency: a
    positive charge that fits in the headroom, with at least as much discharge.
   */
  lemma RoundTripOnlyWhenBalanced(chargingTimes: real, dischargingTimes: real)
    requires Evaluate(chargingTimes, dischargingTimes).efficiency == RoundTripEfficiency()
    ensures chargingTimes > 0.0
    ensures chargingTimes * ChargingPower * ChargingEfficiency <= Headroom()
    ensures dischargingTimes * DischargingPower * DischargingEfficiency
            >= chargingTimes * ChargingPower * ChargingEfficiency
  {
    var c := Evaluate(chargingTimes, dischargingTimes);
    assert c.charged > 0.0;
    assert c.used * RoundTripEfficiency() == RoundTripEfficiency() * c.charged;
    assert c.used == c.charged;
  }

  /** Without any discharge time nothing comes back out. */
  lemma NoDischargeNoEfficiency(chargingTimes: real, dischargingTimes: real)
    requires chargingTimes >= 0.0 && dischargingTimes <= 0.0
    ensures Evaluate(chargingTimes, dischargingTimes).efficiency <= 0.0
  {
    var c := Evaluate(chargingTimes, dischargingTimes);
    if c.charged > 0.0 {
      assert c.used <= 0.0;
      assert c.efficiency * c.charged <= 0.0;
    }
  }

  /**
    `battery_performance(x)`: the negated efficiency of the cycle `x[0]`
    hours of charging, `x[1]` hours of discharging. It raises `IndexError`
    exactly when `x` has fewer than two entries; later entries are ignored.
   */
  function BatteryPerformance(x: seq<real>): (r: Result<real>)
    ensures r.Failure? <==> |x| < 2
    ensures r.Success? ==> r.value == -Evaluate(x[0], x[1]).efficiency
  {
    if |x| < 2 then Failure(IndexOutOfRange) else Success(-Evaluate(x[0], x[1]).efficiency)
  }

  /** For non-negative times the objective lies between minus the round-trip efficiency and 0. */
  lemma PerformanceBounds(x: seq<real>)
    requires |x| >= 2 && x[0] >= 0.0 && x[1] >= 0.0
    ensures -RoundTripEfficiency() <= BatteryPerformance(x).value <= 0.0
  {
    EfficiencyBounds(x[0], x[1]);
  }

  /**
    The script's starting point, eight hours each way: 21600 Wh charged,
    8000 stored, 17000 discharged, 8000 used, 6120 delivered.
   */
  lemma ScriptInitialGuess()
    ensures var c := Evaluate(8.0, 8.0);
      && c == Cycle(21600.0, 17000.0, 8000.0, 8000.0, 6120.0, 6120.0 / 21600.0)
      && BatteryPerformance([8.0, 8.0]) == Success(-(6120.0 / 21600.0))
  {
  }
}
