/** The linear/decibel conversions the processor calls, with their transcendental
    kernels supplied as parameters. */
module Decibels {

  import opened Reals

  /** The floor passed to both conversions by the processor. */
  const FloorDb: real := -100.0

  /** The transcendental functions used by the processor: `exp` (ballistics
      coefficients), `log10` (level detection) and `pow10`, x |-> 10^x (gain
      application). They are parameters of the model, not definitions. */
  datatype Math = Math(exp: imap<real, real>, log10: imap<real, real>, pow10: imap<real, real>)

  /** The only facts about the kernels the model relies on. */
  ghost predicate ValidMath(m: Math) {
    && (forall x: real :: x in m.exp && x in m.log10 && x in m.pow10)
    && (forall x | x in m.exp :: x < 0.0 ==> 0.0 < m.exp[x] < 1.0)
    && (forall x | x in m.pow10 :: x <= 0.0 ==> 0.0 < m.pow10[x] <= 1.0)
    && m.pow10[0.0] == 1.0
  }

  /** Amplitude to decibels, substituting `floor` for zero, negative and
      sub-floor amplitudes instead of taking a logarithm of zero. */
  function GainToDecibels(gain: real, floor: real, m: Math): (db: real)
    requires ValidMath(m)
    ensures db >= floor
    ensures gain <= 0.0 ==> db == floor
  {
    if gain > 0.0 then Max(floor, 20.0 * m.log10[gain]) else floor
  }

  /** Decibels to amplitude; anything at or below `floor` is silence. */
  function DecibelsToGain(db: real, floor: real, m: Math): (gain: real)
    requires ValidMath(m)
    requires floor < 0.0
    ensures db <= floor ==> gain == 0.0
    ensures floor < db <= 0.0 ==> 0.0 < gain <= 1.0
    ensures db == 0.0 ==> gain == 1.0
  {
    if db > floor then m.pow10[db * 0.05] else 0.0
  }
}
