/** The four automatable controls and the per-block snapshot of them. */
module Parameters {

  const ThresholdMinDb: real := -60.0
  const ThresholdMaxDb: real := 0.0
  const RatioMin: real := 1.0
  const RatioMax: real := 50.0
  const AttackMinMs: real := 1.0
  const AttackMaxMs: real := 100.0
  const ReleaseMinMs: real := 10.0
  const ReleaseMaxMs: real := 2000.0

  /** One relaxed read of each control, taken once at the start of a block.
      The block only ever sees this value copy, so a control change made while
      the block runs becomes visible at the next block at the earliest. */
  datatype Snapshot = Snapshot(threshold: real, ratio: real, attackMs: real, releaseMs: real) {

    /** The ranges declared by the parameter layout. The processor never clamps,
        so every operation that reads a snapshot requires them. */
    predicate Valid() {
      && ThresholdMinDb <= threshold <= ThresholdMaxDb
      && RatioMin <= ratio <= RatioMax
      && AttackMinMs <= attackMs <= AttackMaxMs
      && ReleaseMinMs <= releaseMs <= ReleaseMaxMs
    }
  }

  /** The layout's default values: the gate fully open at -60 dB, ratio 1:1
      (no attenuation), 10 ms attack, 100 ms release. */
  function Defaults(): (s: Snapshot)
    ensures s.Valid()
    ensures s.ratio == RatioMin && s.threshold == ThresholdMinDb
  {
    Snapshot(-60.0, 1.0, 10.0, 100.0)
  }
}
