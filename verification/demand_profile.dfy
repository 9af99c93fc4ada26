/**
  The fixed day/night demand profile both scripts build: an all-zero array of
  `horizon` hours, then `demand[6:18] = day` and `demand[18:6] = night`.
  The second slice runs backwards, so it is empty and the night level is
  never written.
 */
module DemandProfile {
  import opened NumpyArrays

  const DayStart: nat := 6
  const DayEnd: nat := 18

  /** The profile as the scripts build it, slice assignment by slice assignment. */
  function DayNightProfile(horizon: nat, day: real, night: real): (r: seq<real>)
    ensures |r| == horizon
    ensures forall h :: 0 <= h < horizon ==> r[h] == (if DayStart <= h < DayEnd then day else 0.0)
  {
    AssignSlice(AssignSlice(Zeros(horizon), DayStart, DayEnd, day), DayEnd, DayStart, night)
  }

  /** Demand of the dispatch simulator: 5 kW by day over 24 hours. */
  const DispatchDemand: seq<real> := DayNightProfile(24, 5.0, 3.0)

  /** Demand of the battery cycle script: 1500 W by day over 24 hours. */
  const CycleDemand: seq<real> := DayNightProfile(24, 1500.0, 500.0)

  /** Neither script's night level ever reaches its profile. */
  lemma NightLevelNeverWritten()
    ensures forall h :: 0 <= h < 24 && (h < DayStart || h >= DayEnd) ==> DispatchDemand[h] == 0.0
    ensures forall h :: 0 <= h < 24 && (h < DayStart || h >= DayEnd) ==> CycleDemand[h] == 0.0
    ensures forall h :: 0 <= h < 24 ==> DispatchDemand[h] != 3.0 && CycleDemand[h] != 500.0
  {
  }
}
