# SilentRoom dynamics core in Dafny

SilentRoom is a downward expander/gate audio plugin. Each audio block runs as follows:

- Output channels that have no matching input are cleared.
- Then, for every sample index:
  - the **linked peak** of the input channels (the largest magnitude, starting from 0) is converted to decibels, with a floor of -100 dB;
  - a **hard-knee gain computer** turns that level into a target gain reduction: 0 dB at or above the threshold, and `-(threshold - level) * (1 - 1/ratio)` below it;
  - an **asymmetric one-pole envelope follower** smooths the target. It uses the attack coefficient when the target is below the current envelope and the release coefficient otherwise;
  - the smoothed reduction is converted back to a linear gain, which multiplies every input channel at that index.
- The deepest smoothed reduction of the block, or 0 dB if nothing went deeper, is published for the meter.
- `prepareToPlay` resets the envelope and the meter to 0 dB.

The model works over `real` and is split into modules:

- `Reals`: `Abs`, `Min`, `Max` and `Pow`.
- `Parameters`: the four controls, their declared ranges and defaults, and the per-block `Snapshot` of them.
- `Decibels`: the amplitude and decibel conversions with their -100 dB floor. The transcendental kernels (`exp`, `log10`, `10^x`) are supplied as a `Math` record of total maps. `ValidMath` states the only facts the proofs use:
  - `exp` maps negative numbers into (0, 1);
  - `10^x` maps x <= 0 into (0, 1];
  - `10^0 = 1`.
- `GainComputer`: the gain law and its monotonicity and range lemmas.
- `LevelDetector`: the linked peak, as a recursive definition and as the channel loop.
- `Envelope`: the ballistics coefficients and the follower step. It also holds the follower over a block (`Run` for the final value, `Envelopes` for every per-sample value) and its convergence lemmas.
- `Processor`: the carried state (`envelope` and the published `gainReduction`), the prepare-time reset, extra-channel clearing, gain application, one sample step, the sample loop and the whole block.

`ProcessBlock` states the block's effect against the block as the host hands it over:

- every input sample is multiplied by the gain of the smoothed reduction at its index, and is never louder than before;
- the extra output channels become silence, and all other channels are untouched;
- the carried envelope becomes the follower run over the block's targets;
- the meter becomes the minimum of 0 dB and the block's smoothed reductions.

Two facts about the code shape the contracts:

- `processBlock` never clamps the four parameters. The model makes the declared ranges a precondition (`Snapshot.Valid`). The precondition holds at every call because each parameter object keeps its raw value inside its `NormalisableRange` (Source/PluginProcessor.cpp:156, 165, 172, 185).
- The target is non-decreasing in the level: louder input gets less reduction (`GainComputer.MonotoneInLevel`).

## Model

| member | source | states |
|---|---|---|
| Parameters.Snapshot.Valid | Source/PluginProcessor.cpp:153-193 | threshold in [-60, 0] dB, ratio in [1, 50], attack in [1, 100] ms, release in [10, 2000] ms; every operation that reads a snapshot requires it, because the code never clamps; Defaults satisfies it |
| Parameters.Defaults | Source/PluginProcessor.cpp:153-193 | the layout's defaults lie in the declared ranges; the gate starts fully open: threshold at its -60 dB minimum, ratio 1:1 |
| Decibels.GainToDecibels | Source/PluginProcessor.cpp:238 | the detected level is never below the -100 dB floor, and a silent (zero) peak maps exactly to the floor |
| Decibels.DecibelsToGain | Source/PluginProcessor.cpp:256 | a reduction at or below the floor is silence; a reduction in (floor, 0] dB gives a gain in (0, 1]; 0 dB gives unity gain |
| GainComputer.TargetReduction | Source/PluginProcessor.cpp:241-249 | the target is never positive; it is exactly 0 at and above the threshold, including at the knee; below the threshold, target * ratio = (level - threshold) * (ratio - 1); the reduction never exceeds the distance below threshold; the target is 0 exactly when the level is at or above the threshold or the ratio is 1:1 |
| GainComputer.MonotoneInLevel | Source/PluginProcessor.cpp:243-249 | a louder level never gets more reduction than a quieter one |
| GainComputer.AntitoneInRatio | Source/PluginProcessor.cpp:243-249 | a larger ratio never gives less reduction |
| GainComputer.NeverReachesFloor | Source/PluginProcessor.cpp:238-249 | with the level at or above -100 dB and the threshold at or below 0 dB, the target is at least -100 * (1 - 1/ratio), so strictly above the -100 dB floor of the gain conversion |
| GainComputer.WorkedExample | Source/PluginProcessor.cpp:241-249 | threshold -20 dB, ratio 4:1, level -30 dB gives a target of -7.5 dB |
| GainComputer.DeepAttenuationExample | Source/PluginProcessor.cpp:241-249 | threshold -20 dB, ratio 10:1, level -60 dB gives a target of -36 dB |
| LevelDetector.Peak | Source/PluginProcessor.cpp:229-235 | the running maximum of the input magnitudes at one index, starting from 0; never negative, and PeakIsMax shows it is the maximum of 0 and those magnitudes |
| LevelDetector.PeakIsMax | Source/PluginProcessor.cpp:229-235 | the linked peak is at least every input channel's magnitude; it is 0 or equal to one of them; it is 0 exactly when every input sample at that index is 0 (so also when there are no input channels) |
| LevelDetector.PeakOfSameSamples | Source/PluginProcessor.cpp:229-235 | the peak reads nothing but the input samples at its own index |
| LevelDetector.LinkedPeak | Source/PluginProcessor.cpp:229-235 | the channel loop computes the linked peak: an upper bound of every input magnitude that is 0 or one of them |
| Envelope.Coefficient | Source/PluginProcessor.cpp:216-217 | for a positive time constant and sample rate, the coefficient lies strictly between 0 and 1 |
| Envelope.BlockCoefficients | Source/PluginProcessor.cpp:215-217 | for a snapshot within the declared ranges and a positive sample rate, both coefficients lie in (0, 1) |
| Envelope.DirectionOf | Source/PluginProcessor.cpp:252 | the attack coefficient is chosen exactly when the target is below the current envelope |
| Envelope.Alpha | Source/PluginProcessor.cpp:252 | the coefficient of a direction: attack or release; with DirectionOf it is the choice made at line 252 |
| Envelope.Pull | Source/PluginProcessor.cpp:253 | the one-pole update with a given coefficient; PullDistance shows it scales the signed distance to the target by alpha |
| Envelope.Step | Source/PluginProcessor.cpp:252-253 | one follower sample: coefficient chosen by direction, then the pull toward the target; characterised by StepContracts and FixedPoint |
| Envelope.StepContracts | Source/PluginProcessor.cpp:252-253 | one step lands between the target and the old envelope; it stays on the same side of the target; it gets strictly closer unless already there; a non-positive envelope chasing a non-positive target stays non-positive |
| Envelope.FixedPoint | Source/PluginProcessor.cpp:252-253 | an envelope equal to the target stays there |
| Envelope.Run | Source/PluginProcessor.cpp:226-253 | the envelope after following a sequence of targets one sample at a time; characterised by RunStaysWithin, ConstantTargetKeepsDirection, ConstantTargetDistance and RunAtRest |
| Envelope.Envelopes | Source/PluginProcessor.cpp:226-253 | one envelope per target, as many as there are targets; EnvelopesAreRuns shows entry i is the run over the first i + 1 targets |
| Envelope.EnvelopesAreRuns | Source/PluginProcessor.cpp:226-253 | the per-sample envelope at index i is the follower run over the first i + 1 targets, and the envelope after the block is the run over all of them |
| Envelope.RunStaysWithin | Source/PluginProcessor.cpp:252-253 | if the start and every target lie in (lo, hi], so does the envelope after any number of steps |
| Envelope.EnvelopesStayWithin | Source/PluginProcessor.cpp:226-253 | under the same conditions, every per-sample envelope of a block lies in (lo, hi] |
| Envelope.OnePole | Source/PluginProcessor.cpp:253 | the fixed-coefficient smoother run n times against one target, the reference the follower is compared with in ConstantTargetKeepsDirection |
| Envelope.OnePoleGeometric | Source/PluginProcessor.cpp:253 | with a fixed coefficient alpha and a fixed target, the signed distance to the target after n samples is alpha^n times the initial distance |
| Envelope.OnePoleDistance | Source/PluginProcessor.cpp:253 | for alpha in (0, 1), the same holds for the absolute distance |
| Envelope.PowInUnit | Source/PluginProcessor.cpp:253 | every power of a coefficient in (0, 1) lies in (0, 1], so the distance never grows |
| Envelope.ConstantTargetKeepsDirection | Source/PluginProcessor.cpp:252-253 | with a constant target the follower never switches between attack and release, and it coincides with the fixed-coefficient smoother of its starting direction |
| Envelope.ConstantTargetDistance | Source/PluginProcessor.cpp:216-253 | with a constant target the distance after n samples is alpha^n times the initial one, alpha being the starting direction's coefficient: geometric convergence |
| Envelope.RunAtRest | Source/PluginProcessor.cpp:252-253 | a run whose targets all equal the envelope leaves it unchanged |
| Envelope.SteadyState | Source/PluginProcessor.cpp:226-253 | a block whose targets all equal the carried envelope keeps every per-sample envelope there |
| Processor.State.Valid | Source/PluginProcessor.cpp:252-270 | the carried envelope and the published reduction both lie in (-100, 0] dB; Prepare establishes it and ProcessBlock preserves it |
| Processor.Prepare | Source/PluginProcessor.cpp:107-112 | the reset leaves the envelope and the published reduction at 0 dB, a valid state |
| Processor.Target | Source/PluginProcessor.cpp:229-249 | the target reduction of any sample, from peak through dB level and gain law, lies in (-100, 0] dB for in-range parameters |
| Processor.Targets | Source/PluginProcessor.cpp:226-249 | the targets of the first n samples, n of them; TargetsAt and TargetsPrefix characterise the entries |
| Processor.TargetsAt | Source/PluginProcessor.cpp:226-249 | the block's target sequence holds, at index i, the target of sample i, and every entry lies in (-100, 0] dB |
| Processor.TargetsOfSameInputs | Source/PluginProcessor.cpp:226-249 | the targets depend only on the input channels' samples |
| Processor.Silence | Source/PluginProcessor.cpp:206 | a cleared channel: the block's length of zero samples |
| Processor.ClearExtraChannels | Source/PluginProcessor.cpp:204-206 | channels from the input count up to the output count become silence of the block's length; every other channel is unchanged |
| Processor.ScaleColumn | Source/PluginProcessor.cpp:259-262 | one gain applied at index i of the input channels, keeping the buffer's shape; ScaleColumnAt gives its effect sample by sample |
| Processor.ScaleColumnAt | Source/PluginProcessor.cpp:259-262 | applying a gain at index i multiplies that sample of every input channel by the gain and changes no other sample or channel |
| Processor.ApplyGain | Source/PluginProcessor.cpp:259-262 | the channel loop applies one gain to index i of every input channel, as characterised by ScaleColumnAt |
| Processor.ProcessSample | Source/PluginProcessor.cpp:228-266 | one pass of the sample loop body: peak, dB level, target, envelope step, gain application and meter update, in the code's order |
| Processor.SampleStep | Source/PluginProcessor.cpp:228-266 | one loop iteration as a function of the loop state; ProcessSample shows the loop body computes it and LoopStep shows how iterations compose |
| Processor.EnvelopeAfter | Source/PluginProcessor.cpp:226-253 | the envelope the loop holds after n samples; EnvelopeAfterRun equates it with the follower run over the first n targets |
| Processor.MeterAfter | Source/PluginProcessor.cpp:223-267 | the meter after n samples; MeterBounds shows it is min(0, envelopes so far) |
| Processor.Attenuate | Source/PluginProcessor.cpp:226-262 | the buffer after n iterations, keeping its shape; AttenuateSamples and AttenuateUntouched give its samples |
| Processor.LoopStep | Source/PluginProcessor.cpp:226-267 | one loop iteration takes the state after n samples (buffer scaled at indices below n, envelope after n steps, meter after n samples) to the state after n + 1 |
| Processor.AttenuateUntouched | Source/PluginProcessor.cpp:226-262 | after n iterations, samples at index n and above and channels that are not inputs are unchanged, so each iteration reads its own index unscaled |
| Processor.AttenuateSamples | Source/PluginProcessor.cpp:226-262 | after n iterations, each input sample below index n is its original value times the gain of its index |
| Processor.TargetsPrefix | Source/PluginProcessor.cpp:226-249 | the targets of the first k samples are a prefix of the targets of the first n |
| Processor.EnvelopeAfterRun | Source/PluginProcessor.cpp:251-253 | the envelope the loop holds after n samples is the follower run over the first n targets |
| Processor.EnvelopesAreTrace | Source/PluginProcessor.cpp:226-253 | the block's per-sample envelopes are the envelopes the loop holds after each iteration |
| Processor.MeterBounds | Source/PluginProcessor.cpp:223-267 | after n samples the meter is at most 0 dB and at most every envelope reached so far, and it is 0 dB or one of those envelopes |
| Processor.SampleLoop | Source/PluginProcessor.cpp:223-267 | the loop ends with the envelope after the whole block and the meter of the whole block; every input sample is multiplied by its index's gain, and non-input channels are unchanged |
| Processor.BlockEnvelopes | Source/PluginProcessor.cpp:226-253 | the smoothed reduction after each sample of a block, one per sample; BlockFollowsLoop, BlockEnvelopesWithin and ProcessBlock characterise them |
| Processor.Gains | Source/PluginProcessor.cpp:256 | entry j is the linear gain of the j-th smoothed reduction |
| Processor.AttenuationOnly | Source/PluginProcessor.cpp:256-261 | a gain in (0, 1] never increases a sample's magnitude |
| Processor.NeverLouder | Source/PluginProcessor.cpp:256-262 | scaling by the gains of reductions in (-100, 0] dB never makes any input sample louder |
| Processor.BlockFollowsLoop | Source/PluginProcessor.cpp:204-253 | clearing the extra channels does not change the envelopes, since they read only the input channels |
| Processor.BlockEnvelopesWithin | Source/PluginProcessor.cpp:226-253 | every smoothed reduction of a block from a valid state lies in (-100, 0] dB |
| Processor.LoopFinalEnvelope | Source/PluginProcessor.cpp:226-253 | the envelope carried out of a block is the follower run over its targets and lies in (-100, 0] dB |
| Processor.LoopMeterOutcome | Source/PluginProcessor.cpp:223-270 | the published meter is at most 0 dB and at most every smoothed reduction of the block, and it is 0 dB or one of them, i.e. min(0, block minimum) |
| Processor.RelabelInputs | Source/PluginProcessor.cpp:204-262 | gains applied to the cleared buffer are gains applied to the block's own input samples |
| Processor.BlockState | Source/PluginProcessor.cpp:223-270 | the state handed to the next block is valid; its envelope is the run over the block's targets; its meter is min(0, block minimum) |
| Processor.BlockSamples | Source/PluginProcessor.cpp:226-262 | each input sample leaves the block scaled by the gain of its index's smoothed reduction, and never louder |
| Processor.RunBlock | Source/PluginProcessor.cpp:219-270 | the per-sample part of a block: scaled and never-louder input samples, untouched non-input channels, a valid next state with the run envelope and the min(0, block minimum) meter |
| Processor.ProcessBlock | Source/PluginProcessor.cpp:198-271 | a whole block: input samples scaled by their smoothed gains and never louder; extra outputs silenced; other channels untouched; the next state is valid, with the run envelope and the min(0, block minimum) meter |

## Left out

- Atomic parameter loads and the atomic meter store, with their memory orders: the block reads a plain `Snapshot` and writes a plain `State` field. Concurrency with the editor thread is not modelled.
- Float arithmetic: rounding, the `float`/`double` casts in the coefficient formula, denormals and `ScopedNoDenormals`. Everything is over `real`.
- `std::exp` and JUCE's `Decibels::gainToDecibels` / `decibelsToGain`: these are foreign, transcendental calls. The kernels are parameters (`Decibels.Math`) constrained by `ValidMath`. The conversions are modelled with the floor structure JUCE documents for them. JUCE's Decibels header is not part of this model.
- `getSampleRate()`: the sample rate is a parameter. It is required to be positive, as after `prepareToPlay`; a block processed before preparation is outside the model.
- `Parameters.Snapshot.Valid`: the declared ranges are a precondition. The 0.1 and 1.0 step quantisation of the ranges and the skew settings are left out; they only shape the controls.
- `Processor.Prepare`: the sample rate and block size passed to `prepareToPlay` are ignored, as in the code.
- The `envelope` and `gainReduction` members that the header does not declare: they are the fields of `Processor.State`.
- The MIDI buffer, which the block never reads.
- Host boilerplate: name, MIDI flags, programs, bus-layout check, state save and restore, editor creation, and the caching of parameter handles in the constructor.
- The editor: layout, painting, the meter timer and its display smoothing.
- Envelope.ConstantTargetDistance: gives the exact geometric rate in terms of the coefficient. It does not give a sample count for a given tolerance, because that would need facts about `exp` beyond `ValidMath`.
