# Battery and hybrid-energy simulators, modelled in Dafny

This project models the two simulators in `Models/model4.py` and
`Models/model3.py` of a small collection of numerical energy models. Python
floats are treated as exact reals throughout.

**Hybrid dispatch simulator** (`Models/model4.py`). `energy_management(x)` is
the objective an external optimizer minimizes. It works as follows:

- It splits the decision vector `x` into grid draw, battery charge and
  battery discharge slices.
- It replays the horizon one hour at a time, from hour 1 on.
- The usable battery energy for hour `t` depends on the state of charge
  (SOC) the hour starts with.
- The SOC advances by `charge * 0.9 - discharge` and is clipped to
  `[0, 10]` kWh.
- Each hour's demand is met first by renewables, then by the battery, then
  by the requested grid amount. Each source is capped by Python's `min`.
- Grid cost and renewable savings are accumulated, and the function returns
  `cost - savings`.

The script's inputs to the optimizer are modelled too: the fixed day/night
demand profile, the starting point and the bounds list.

**Battery cycle evaluator and SOC trajectory** (`Models/model3.py`).

- `battery_performance(x)` scores a cycle of `x[0]` hours of charging and
  `x[1]` hours of discharging:
  - stored energy is capped by the free headroom (8000 Wh);
  - used energy is capped by stored energy;
  - the score is the negated ratio of delivered to charged energy, with a
    guard against dividing by zero.
- The plotting loop builds the SOC trajectory of the optimized cycle. It is
  a three-phase state machine (charge, then discharge, then idle) with
  clipping.

Layout:

| file | module | contents |
|---|---|---|
| `numeric.dfy` | `Numeric` | Python `min`/`max`, numpy `clip`, finite sums |
| `arrays.dfy` | `NumpyArrays` | `np.zeros`, list repetition, slice assignment |
| `outcomes.dfy` | `Outcomes` | the `Result` of a call that can raise `IndexError` |
| `demand_profile.dfy` | `DemandProfile` | the day/night demand profile both scripts build |
| `dispatch.dfy` | `Dispatch` | `energy_management` as a fold over the horizon, the decision layout, the starting point and the bounds |
| `dispatch_loop.dfy` | `DispatchLoop` | the same objective written as the script's `for` loop, proved equal to the fold |
| `dispatch_properties.dfy` | `DispatchProperties` | invariants across intervals and calls, and two worked scenarios |
| `battery_cycle.dfy` | `BatteryCycle` | `battery_performance` |
| `phase_trajectory.dfy` | `PhaseTrajectory` | the SOC phase loop |

Solar and wind power are drawn at random in the script. Here they are
arbitrary input sequences; properties that need them non-negative say so.
The objective is modelled for any horizon `T`, the length of the demand
profile. The script itself uses `T = 24`.

Design choices, and behaviour of the code worth knowing:

- **Constants.** The scalar constants are the scripts' own values, as
  Dafny constants: capacity 10 kWh, efficiencies 0.9 and 0.85, grid price
  0.15 $/kWh, 20 % initial charge. In `model3.py` they are 10000 Wh, 3000 W
  and 2500 W.
- **Malformed decision vectors.** A longer `x` is accepted and its surplus
  ignored (`DispatchProperties.ObjectiveIgnoresSurplus`). A shorter one
  raises `IndexError` only when the horizon is empty or at least one hour is
  replayed (`Dispatch.EnergyManagement`, `Dispatch.FailsExactlyWhenUncovered`).
- **No validation of constants.** The code validates none of its constants,
  and neither does the model.
- **Battery over-delivery.** Usable battery energy is gated only on the
  previous SOC being positive. It is not capped by the energy actually
  stored. `DispatchProperties.ScenarioBatteryFirst` exhibits this: a
  battery holding 2 kWh delivers 4.25 kWh when 5 kWh of discharge is
  requested, and its SOC is then clipped to 0. The model keeps this
  behaviour, as the code has it.
- **Night-level demand.** `energy_demand[18:6]` is an empty slice, so the
  night-level demand is never written and night demand stays 0
  (`DemandProfile.NightLevelNeverWritten`).

## Model

| member | source | states |
|---|---|---|
| Numeric.Min | Models/model4.py:67 | Python's `min` returns one of its arguments, and that argument is at most both |
| Numeric.Max | Models/model4.py:87 | Python's `max` returns one of its arguments, and that argument is at least both |
| Numeric.Clip | Models/model4.py:64 | the clipped value lies in `[lo, hi]` for a non-empty interval and is the input itself when that is already inside |
| Numeric.ClipIsNearest | Models/model4.py:64 | the clipped value is at least as close to the input as any point of the interval |
| NumpyArrays.Repeat | Models/model4.py:87 | `[v] * n` has `n` entries, all equal to `v` |
| NumpyArrays.Zeros | Models/model4.py:49 | `np.zeros(n)` has `n` entries, all 0 |
| NumpyArrays.AssignSlice | Models/model4.py:17-18 | slice assignment overwrites exactly the indices `lo <= i < hi` and leaves every other entry and the length unchanged; a backwards slice changes nothing |
| DemandProfile.DayNightProfile | Models/model4.py:16-18 | the demand profile has `horizon` entries, the day level on hours 6..17 and 0 on every other hour |
| DemandProfile.NightLevelNeverWritten | Models/model3.py:19-21 | in both scripts' profiles every night hour is 0 and no hour carries the night level |
| Dispatch.InitialSoc | Models/model4.py:50 | the starting SOC lies within `[0, capacity]` |
| Dispatch.Split | Models/model4.py:42-44 | the three slices have the clamped lengths, entry `i` of each is entry `i`, `T+i`, `2T+i` of `x`, and a vector of `3T` entries gives three slices of length `T` |
| Dispatch.JoinSplit | Models/model4.py:42-44 | the three slices partition `x` in order, whatever its length |
| Dispatch.SplitJoin | Models/model4.py:42-44 | splitting the concatenation of two length-`T` slices and any third slice recovers the three slices |
| Dispatch.UsableBatteryEnergy | Models/model4.py:59 | usable energy is 0 when the previous SOC is not positive and the requested discharge times 0.85 when it is positive; for non-negative discharge it lies between 0 and that amount |
| Dispatch.AdvanceSoc | Models/model4.py:63-64 | the next SOC lies in `[0, capacity]` |
| Dispatch.AdvanceSocChange | Models/model4.py:63 | without clipping the SOC changes by exactly `charge * 0.9 - discharge` (raw discharge); from an in-range SOC a pure discharge never raises it and a pure charge never lowers it |
| Dispatch.Balance | Models/model4.py:67-73 | no source gives more than the demand left when its turn comes; renewables give at most what is available |
| Dispatch.BalancePriority | Models/model4.py:67-73 | the battery is drawn on only once renewables are exhausted; for non-negative usable energy, the grid only once the battery is too |
| Dispatch.BalanceMeetsDemand | Models/model4.py:67-73 | for non-negative inputs each source gives between 0 and its availability and together they meet exactly `min(demand, available)` |
| Dispatch.IntervalSafety | Models/model4.py:55-73 | one iteration keeps the SOC in `[0, capacity]`, draws nothing from a battery that starts the hour empty, and never supplies more than the hour's demand |
| Dispatch.Simulate | Models/model4.py:49-64 | after iterations `1..k` the trajectory has `k+1` entries, starts at the initial SOC and stays within `[0, capacity]` |
| Dispatch.StepAt | Models/model4.py:59-64 | iteration `t` reads usable energy from `soc[t-1]`: none when it is 0, the scaled discharge when positive; its SOC is entry `t` of the trajectory |
| Dispatch.EnergyManagement | Models/model4.py:31-80 | `IndexError` exactly when the horizon is empty or `x` is shorter than `3T` with at least one iteration; otherwise total cost minus total savings of the replay |
| Dispatch.FailsExactlyWhenUncovered | Models/model4.py:42-63 | for a non-empty horizon the objective fails precisely when the decision slices do not reach the last hour the loop indexes |
| Dispatch.InitialGuess | Models/model4.py:83-84 | the starting point has `3T` entries and splits into grid = demand and two all-zero battery slices |
| Dispatch.SearchBounds | Models/model4.py:87 | `3T` bounds: the first `T` are `[0, max(6, 5)]`, the other `2T` are `[0, capacity]` |
| DispatchLoop.Replay | Models/model4.py:46-78 | the loop, writing each SOC into a zero-initialised array, leaves exactly the state of the fold, with every SOC in `[0, capacity]` |
| DispatchLoop.EnergyManagementLoop | Models/model4.py:31-80 | the imperative objective returns the same result, error or value, as the functional one |
| DispatchProperties.StepIncrementsNonNegative | Models/model4.py:76-77 | for non-negative inputs each interval adds a non-negative amount to cost and to savings, the latter at most that interval's demand |
| DispatchProperties.AccumulatorsNonDecreasing | Models/model4.py:76-77 | for non-negative inputs, cost and savings after `j` iterations are at most those after `k >= j` |
| DispatchProperties.SavingsBoundedByDemand | Models/model4.py:67-77 | for non-negative inputs, savings never exceed the demand of hours `1..k` and neither total is negative |
| DispatchProperties.ObjectiveLowerBound | Models/model4.py:77-80 | for non-negative inputs the objective is at least minus the total demand of hours `1..T-1` |
| DispatchProperties.NoDemandStep | Models/model4.py:67-73 | for non-negative inputs, an hour without demand draws on no source |
| DispatchProperties.NoDemandNoCostNoSavings | Models/model4.py:67-77 | for non-negative profiles and decisions, no demand in hours `1..k` keeps both totals at 0, whatever the renewable supply |
| DispatchProperties.IdleBatteryKeepsSoc | Models/model4.py:63-64 | with zero charge and discharge the SOC stays at its initial value in every hour |
| DispatchProperties.EmptyBatteryDeliversNothing | Models/model4.py:59-64 | a battery empty after hour `j` and not charged afterwards stays empty and delivers nothing in any later hour, whatever non-negative discharge is requested |
| DispatchProperties.IndexZeroIrrelevant | Models/model4.py:53 | two evaluations whose inputs agree from index 1 on produce the same run |
| DispatchProperties.SplitAgreesFromOne | Models/model4.py:42-44 | decision vectors agreeing off indices `0`, `T`, `2T` and beyond `3T` split into slices agreeing from index 1 |
| DispatchProperties.RunIgnoresIndexZero | Models/model4.py:42-53 | such decision vectors and profiles replay to the same run |
| DispatchProperties.ObjectiveIgnoresIndexZero | Models/model4.py:31-80 | the objective ignores `x[0]`, `x[T]`, `x[2T]`, entries past `3T` and index 0 of every profile |
| DispatchProperties.ObjectiveIgnoresSurplus | Models/model4.py:42-44 | a decision vector of at least `3T` entries is accepted, and replacing everything past its first `3T` entries with any other tail leaves the objective unchanged |
| DispatchProperties.SurplusSplitAgrees | Models/model4.py:42-44 | replacing the surplus of `x` changes no slice entry the loop reads |
| DispatchProperties.InitialGuessWithinBounds | Models/model4.py:83-87 | a demand profile within the grid bound puts the starting point inside the bounds list |
| DispatchProperties.ScriptInitialGuessWithinBounds | Models/model4.py:83-87 | the script's own demand profile has 24 hours and its starting point respects its bounds |
| DispatchProperties.ScenarioGridOnly | Models/model4.py:53-80 | demand 0/10/10/0, 5 kW solar in hour 1, grid = demand: cost `15 * 0.15`, savings 5 |
| DispatchProperties.ScenarioBatteryFirst | Models/model4.py:59-73 | the same with 5 kWh discharge in hour 1: the 2 kWh battery delivers 4.25, the grid 0.75, the SOC drops to 0 and the objective is `1.6125 - 5` |
| BatteryCycle.RoundTripEfficiency | Models/model3.py:9 | the round-trip efficiency is positive and no larger than either efficiency |
| BatteryCycle.Headroom | Models/model3.py:43 | the free headroom lies within `[0, capacity]` |
| BatteryCycle.Evaluate | Models/model3.py:39-50 | stored energy is at most the charged energy and the headroom and equals one of them; used energy is at most the discharged and the stored energy and equals one of them; efficiency is 0 when nothing is charged and delivered over charged otherwise |
| BatteryCycle.EfficiencyBounds | Models/model3.py:47-50 | for non-negative times the efficiency lies in `[0, round-trip efficiency]` |
| BatteryCycle.BalancedCycleReachesRoundTrip | Models/model3.py:43-50 | a positive charge within the headroom with at least as much discharge attains the round-trip efficiency |
| BatteryCycle.RoundTripOnlyWhenBalanced | Models/model3.py:39-50 | only a balanced cycle attains the round-trip efficiency: it needs a positive charge within the headroom and at least as much discharge |
| BatteryCycle.NoDischargeNoEfficiency | Models/model3.py:40-50 | without discharge time the efficiency is not positive |
| BatteryCycle.BatteryPerformance | Models/model3.py:24-53 | `IndexError` exactly when `x` has fewer than two entries; otherwise the negated efficiency of the cycle `x[0]`, `x[1]` |
| BatteryCycle.PerformanceBounds | Models/model3.py:47-53 | for non-negative times the objective lies in `[-round-trip efficiency, 0]` |
| BatteryCycle.ScriptInitialGuess | Models/model3.py:56 | eight hours each way: 21600 Wh charged, 8000 stored, 17000 discharged, 8000 used, 6120 delivered |
| PhaseTrajectory.IncrementsFromPowers | Models/model3.py:80-82 | the hourly increments are the powers scaled by their efficiencies, 2700 and 2125 Wh |
| PhaseTrajectory.StartSoc | Models/model3.py:76 | the trajectory starts within `[0, capacity]` |
| PhaseTrajectory.PhaseAt | Models/model3.py:79-84 | hour `t` charges exactly when `t` is below the charging time, and idles exactly when it has reached both the charging time and the end of the discharging window |
| PhaseTrajectory.Unclipped | Models/model3.py:80-84 | before clipping, a charging hour raises the SOC, a discharging hour lowers it and an idle hour keeps it |
| PhaseTrajectory.SocAt | Models/model3.py:76-87 | every entry of the trajectory lies in `[0, capacity]` and entry 0 is the start value |
| PhaseTrajectory.SimulatePhases | Models/model3.py:74-87 | an empty array raises `IndexError`; otherwise the loop fills entry `t` with the trajectory's value for hour `t` |
| PhaseTrajectory.PhasesInOrder | Models/model3.py:79-84 | charging never resumes once it has ended, and idling never ends once it has begun |
| PhaseTrajectory.PhaseStep | Models/model3.py:79-87 | each hour the SOC rises or holds while charging, falls or holds while discharging, and holds while idle |
| PhaseTrajectory.ChargingClosedForm | Models/model3.py:79-87 | while charging, the SOC after `t` hours is `min(2000 + 2700 t, capacity)` |
| PhaseTrajectory.DischargingClosedForm | Models/model3.py:81-87 | during discharge the SOC `n` hours on is the earlier SOC less `n` decrements, floored at 0 |
| PhaseTrajectory.IdleKeepsSoc | Models/model3.py:83-84 | once both phases are over the SOC never changes |
| PhaseTrajectory.ChargingNonDecreasing | Models/model3.py:79-80 | the SOC never falls during the charging phase |
| PhaseTrajectory.DischargingNonIncreasing | Models/model3.py:81-82 | the SOC never rises during the discharging phase |
| PhaseTrajectory.FullStaysFull | Models/model3.py:80-87 | a full battery stays full for the rest of the charging phase |
| PhaseTrajectory.EmptyStaysEmpty | Models/model3.py:82-87 | an empty battery stays empty for the rest of the discharging phase |
| PhaseTrajectory.EightHourCycle | Models/model3.py:74-87 | with eight hours each way the battery is full in hours 3..7 and empty from hour 12 to the end of the day |

## Left out

- The `scipy.optimize.minimize` calls and the use of their results (`Models/model4.py:90-98`, `Models/model3.py:59-66`) are left out. The optimizer is an external solver with no visible contract; only the objectives it evaluates are modelled, and the phase trajectory takes the cycle lengths as arbitrary reals.
- The random draws of solar and wind power (`Models/model4.py:21-28`) are left out. Both profiles are inputs.
- All plotting and `print` output is left out, because it is presentation.
- Floating-point rounding, NaN and infinity are not modelled: all arithmetic is over exact reals.
- Python's integer start values (`total_cost = 0`) and integer-valued constants are modelled as reals. The distinction has no effect on the values computed.
- The scalar constants are fixed at the scripts' values. The contracts are not proved for other capacities, prices or efficiencies.
- `battery_soc` in `energy_management` is a local array that is discarded. The model returns it as part of the run, and the objective uses only the two totals.
- `model3.py` builds `energy_demand` (lines 19-21), but its code never reads it. It is modelled as `DemandProfile.CycleDemand`, which only `DemandProfile.NightLevelNeverWritten` mentions; no model of the battery cycle uses it.
- `Models/model2.py`, the other formula and graph scripts, `src/App.jsx` and `tailwind.config.js` are not part of this model. They are closed-form float formulas, plots and user interface.
