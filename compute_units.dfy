/** The compute-unit decision taken on a transaction simulation's result. */
module ComputeUnits {
  import opened Wrappers

  const DefaultComputeUnits: nat := 800_000
  const SafetyMargin: nat := 20_000

  /** A simulation result: whether it reported an error, and the units it consumed. */
  datatype SimulationResult = SimulationResult(err: bool, unitsConsumed: Option<nat>)

  /** The compute-unit limit to request: the fallback on an error or a missing (or zero,
      hence falsy) consumption figure, otherwise the consumption plus the safety margin.
      The trailing fallback after the margin is added can never be taken. */
  function RequiredComputeUnits(sim: SimulationResult): (r: nat)
    ensures sim.err ==> r == DefaultComputeUnits
    ensures sim.unitsConsumed.None? || sim.unitsConsumed == Some(0) ==> r == DefaultComputeUnits
    ensures !sim.err && sim.unitsConsumed.Some? && sim.unitsConsumed.value > 0 ==>
              r == sim.unitsConsumed.value + SafetyMargin
    ensures r > SafetyMargin
  {
    if sim.err || sim.unitsConsumed.None? || sim.unitsConsumed.value == 0 then DefaultComputeUnits
    else
      var withMargin := sim.unitsConsumed.value + SafetyMargin;
      // the fallback applies only to a zero sum, which a positive consumption never gives
      if withMargin != 0 then withMargin else DefaultComputeUnits
  }
}
