/**
  The battery SOC trajectory drawn for an optimized cycle: starting 20 %
  full, the battery charges by a fixed increment each hour while
  `t < charging_times`, discharges by a fixed decrement while
  `t < charging_times + discharging_times`, and idles afterwards; every new
  value is clipped to `[0, capacity]`. The cycle lengths are real numbers
  compared against the integer hour.
 */
module PhaseTrajectory {
  import opened Numeric
  import opened NumpyArrays
  import opened Outcomes
  import opened BatteryCycle

  /** Energy added per charging hour: 2700 Wh. */
  const ChargeIncrement: real := 2700.0
  /** Energy removed per discharging hour: 2125 Wh. */
  const DischargeDecrement: real := 2125.0

  /** The increments are the powers scaled by their efficiencies. */
  lemma IncrementsFromPowers()
    ensures ChargeIncrement == ChargingPower * ChargingEfficiency
    ensures DischargeDecrement == DischargingPower * DischargingEfficiency
  {
  }

  /** The SOC at hour 0: 2000 Wh. */
  function StartSoc(): (r: real)
    ensures 0.0 <= r <= Capacity
  {
    InitialSocFraction * Capacity
  }

  datatype Phase = Charging | Discharging | Idle

  /**
    The branch hour `t` takes: charging first, then discharging, then idle.
    The battery idles once the hour has reached both the charging time and
    the end of the discharging window.
   */
  function PhaseAt(chargingTimes: real, dischargingTimes: real, t: nat): (phase: Phase)
    ensures phase == Charging <==> (t as real) < chargingTimes
    ensures phase == Idle <==> chargingTimes <= (t as real) && chargingTimes + dischargingTimes <= (t as real)
  {
    if (t as real) < chargingTimes then Charging
    else if (t as real) < chargingTimes + dischargingTimes then Discharging
    else Idle
  }

  /** The value written before clipping: above, below or at the previous SOC. */
  function Unclipped(phase: Phase, prev: real): (r: real)
    ensures phase == Charging ==> r > prev
    ensures phase == Discharging ==> r < prev
    ensures phase == Idle ==> r == prev
  {
    match phase
    case Charging => prev + ChargeIncrement
    case Discharging => prev - DischargeDecrement
    case Idle => prev
  }

  /** `battery_soc[t]`: every entry, including the first, lies in `[0, capacity]`. */
  function SocAt(chargingTimes: real, dischargingTimes: real, t: nat): (soc: real)
    ensures 0.0 <= soc <= Capacity
    ensures t == 0 ==> soc == StartSoc()
    decreases t
  {
    if t == 0 then StartSoc()
    else
      var prev := SocAt(chargingTimes, dischargingTimes, t - 1);
      Clip(Unclipped(PhaseAt(chargingTimes, dischargingTimes, t), prev), 0.0, Capacity)
  }

  /**
    The script's loop over an array of `horizon` hours. An empty array makes
    the write to index 0 raise `IndexError`; otherwise entry `t` is `SocAt(t)`.
   */
  method SimulatePhases(chargingTimes: real, dischargingTimes: real, horizon: nat) returns (r: Result<seq<real>>)
    ensures r.Failure? <==> horizon == 0
    ensures r.Success? ==> |r.value| == horizon
    ensures r.Success? ==> forall t :: 0 <= t < horizon ==> r.value[t] == SocAt(chargingTimes, dischargingTimes, t)
  {
    if horizon == 0 {
      return Failure(IndexOutOfRange);
    }
    var soc := Zeros(horizon);
    soc := soc[0 := StartSoc()];
    var t := 1;
    while t < horizon
      invariant 1 <= t <= horizon
      invariant |soc| == horizon
      invariant forall i :: 0 <= i < t ==> soc[i] == SocAt(chargingTimes, dischargingTimes, i)
    {
      var next: real;
      if (t as real) < chargingTimes {
        next := soc[t - 1] + ChargeIncrement;
      } else if (t as real) < chargingTimes + dischargingTimes {
        next := soc[t - 1] - DischargeDecrement;
      } else {
        next := soc[t - 1];
      }
      assert Clip(next, 0.0, Capacity) == SocAt(chargingTimes, dischargingTimes, t);
      soc := soc[t := Clip(next, 0.0, Capacity)];
      t := t + 1;
    }
    return Success(soc);
  }

  /**
    The phases come in order: once charging has ended it never resumes, and
    once the battery idles it idles for good.
   */
  lemma PhasesInOrder(chargingTimes: real, dischargingTimes: real, s: nat, u: nat)
    requires s <= u
    ensures PhaseAt(chargingTimes, dischargingTimes, s) != Charging ==>
      PhaseAt(chargingTimes, dischargingTimes, u) != Charging
    ensures PhaseAt(chargingTimes, dischargingTimes, s) == Idle ==>
      PhaseAt(chargingTimes, dischargingTimes, u) == Idle
  {
  }

  /** One hour's change: up while charging, down while discharging, none while idle. */
  lemma PhaseStep(chargingTimes: real, dischargingTimes: real, t: nat)
    requires t >= 1
    ensures var prev, soc := SocAt(chargingTimes, dischargingTimes, t - 1), SocAt(chargingTimes, dischargingTimes, t);
      match PhaseAt(chargingTimes, dischargingTimes, t)
      case Charging => soc >= prev
      case Discharging => soc <= prev
      case Idle => soc == prev
  {
  }

  /**
    While charging, the SOC after `t` hours is the start value plus `t`
    increments, capped at capacity.
   */
  lemma {:induction false} ChargingClosedForm(chargingTimes: real, dischargingTimes: real, t: nat)
    requires (t as real) < chargingTimes
    ensures SocAt(chargingTimes, dischargingTimes, t) == Min(StartSoc() + ChargeIncrement * (t as real), Capacity)
    decreases t
  {
    if t > 0 {
      ChargingClosedForm(chargingTimes, dischargingTimes, t - 1);
      assert StartSoc() + ChargeIncrement * (t as real)
          == StartSoc() + ChargeIncrement * ((t - 1) as real) + ChargeIncrement;
    }
  }

  /**
    From an hour `s` whose successor already discharges, the SOC `u - s`
    hours later is the SOC at `s` less `u - s` decrements, floored at 0,
    as long as hour `u` still discharges.
   */
  lemma {:induction false} DischargingClosedForm(chargingTimes: real, dischargingTimes: real, s: nat, u: nat)
    requires s <= u
    requires chargingTimes <= ((s + 1) as real)
    requires (u as real) < chargingTimes + dischargingTimes
    ensures SocAt(chargingTimes, dischargingTimes, u)
         == Max(SocAt(chargingTimes, dischargingTimes, s) - DischargeDecrement * ((u - s) as real), 0.0)
    decreases u - s
  {
    if s < u {
      DischargingClosedForm(chargingTimes, dischargingTimes, s, u - 1);
      assert DischargeDecrement * ((u - s) as real)
          == DischargeDecrement * ((u - 1 - s) as real) + DischargeDecrement;
    }
  }

  /** After both phases have run out the SOC never changes again. */
  lemma {:induction false} IdleKeepsSoc(chargingTimes: real, dischargingTimes: real, s: nat, u: nat)
    requires s <= u
    requires chargingTimes <= ((s + 1) as real) && chargingTimes + dischargingTimes <= ((s + 1) as real)
    ensures SocAt(chargingTimes, dischargingTimes, u) == SocAt(chargingTimes, dischargingTimes, s)
    decreases u - s
  {
    if s < u {
      IdleKeepsSoc(chargingTimes, dischargingTimes, s, u - 1);
    }
  }

  /** The SOC never falls while the battery charges. */
  lemma ChargingNonDecreasing(chargingTimes: real, dischargingTimes: real, s: nat, u: nat)
    requires s <= u && (u as real) < chargingTimes
    ensures SocAt(chargingTimes, dischargingTimes, s) <= SocAt(chargingTimes, dischargingTimes, u)
  {
    ChargingClosedForm(chargingTimes, dischargingTimes, s);
    ChargingClosedForm(chargingTimes, dischargingTimes, u);
  }

  /** The SOC never rises while the battery discharges. */
  lemma DischargingNonIncreasing(chargingTimes: real, dischargingTimes: real, s: nat, u: nat)
    requires s <= u && chargingTimes <= ((s + 1) as real) && (u as real) < chargingTimes + dischargingTimes
    ensures SocAt(chargingTimes, dischargingTimes, u) <= SocAt(chargingTimes, dischargingTimes, s)
  {
    DischargingClosedForm(chargingTimes, dischargingTimes, s, u);
  }

  /** A battery that is full during the charging phase stays full until that phase ends. */
  lemma {:induction false} FullStaysFull(chargingTimes: real, dischargingTimes: real, s: nat, u: nat)
    requires s <= u && (u as real) < chargingTimes
    requires SocAt(chargingTimes, dischargingTimes, s) == Capacity
    ensures SocAt(chargingTimes, dischargingTimes, u) == Capacity
    decreases u - s
  {
    if s < u {
      FullStaysFull(chargingTimes, dischargingTimes, s, u - 1);
    }
  }

  /** A battery that is empty during the discharging phase stays empty until that phase ends. */
  lemma {:induction false} EmptyStaysEmpty(chargingTimes: real, dischargingTimes: real, s: nat, u: nat)
    requires s <= u && chargingTimes <= ((s + 1) as real) && (u as real) < chargingTimes + dischargingTimes
    requires SocAt(chargingTimes, dischargingTimes, s) == 0.0
    ensures SocAt(chargingTimes, dischargingTimes, u) == 0.0
    decreases u - s
  {
    if s < u {
      EmptyStaysEmpty(chargingTimes, dischargingTimes, s, u - 1);
    }
  }

  /**
    With the script's starting point of eight hours each way the battery is
    full from hour 3 to hour 7, is drained by hour 12 (10000 - 5 * 2125 < 0),
    and stays empty through hour 23.
   */
  lemma EightHourCycle()
    ensures forall t :: 3 <= t <= 7 ==> SocAt(8.0, 8.0, t) == Capacity
    ensures forall t :: 12 <= t < TimePeriod ==> SocAt(8.0, 8.0, t) == 0.0
  {
    forall t | 3 <= t <= 7
      ensures SocAt(8.0, 8.0, t) == Capacity
    {
      ChargingClosedForm(8.0, 8.0, t);
    }
    ChargingClosedForm(8.0, 8.0, 7);
    DischargingClosedForm(8.0, 8.0, 7, 12);
    forall t | 12 <= t < TimePeriod
      ensures SocAt(8.0, 8.0, t) == 0.0
    {
      if t < 16 {
        EmptyStaysEmpty(8.0, 8.0, 12, t);
      } else {
        EmptyStaysEmpty(8.0, 8.0, 12, 15);
        IdleKeepsSoc(8.0, 8.0, 15, t);
      }
    }
  }
}
