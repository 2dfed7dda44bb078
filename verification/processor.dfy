/** The audio processor: state carried between blocks, the prepare-time reset,
    and the per-block pipeline (clear extra outputs, then per sample: linked peak,
    level in dB, target reduction, envelope step, gain, and the block's deepest
    reduction for the meter). */
module Processor {

  import opened Reals
  import opened Parameters
  import opened Decibels
  import opened LevelDetector
  import opened GainComputer
  import opened Envelope

  /** State the processor carries from block to block: the smoothed gain
      reduction in dB and the last published meter value in dB. */
  datatype State = State(envelope: real, gainReduction: real) {

    /** Both values are reductions (at most 0 dB) that never reach the -100 dB
        floor of the dB-to-gain conversion. */
    predicate Valid() {
      FloorDb < envelope <= 0.0 && FloorDb < gainReduction <= 0.0
    }
  }

  /** Prepare-time reset: no reduction in progress, meter reads 0 dB. The sample
      rate and block size the host passes are not used. */
  function Prepare(previous: State, sampleRate: real, samplesPerBlock: int): (s: State)
    ensures s.Valid()
    ensures s.envelope == 0.0 && s.gainReduction == 0.0
  {
    State(0.0, 0.0)
  }

  /** A planar buffer: every channel holds `numSamples` samples, and both the
      input and output channel counts fit in it. */
  predicate WellFormed(buffer: seq<seq<real>>, numSamples: nat, numIn: nat, numOut: nat) {
    && numIn <= |buffer| && numOut <= |buffer|
    && forall c | 0 <= c < |buffer| :: |buffer[c]| == numSamples
  }

  /** The target reduction at sample `i`: the linked peak of the input
      channels, in dB, through the gain computer. It lies strictly above the dB
      floor and at most 0 dB. */
  function Target(buffer: seq<seq<real>>, numIn: nat, i: nat, snap: Snapshot, m: Math): (t: real)
    requires HasColumn(buffer, numIn, i)
    requires snap.Valid() && ValidMath(m)
    ensures FloorDb < t <= 0.0
  {
    var levelDb := GainToDecibels(Peak(buffer, numIn, i), FloorDb, m);
    NeverReachesFloor(levelDb, snap.threshold, snap.ratio);
    TargetReduction(levelDb, snap.threshold, snap.ratio)
  }

  /** The target reductions of the first `n` sample indices, in order. */
  function Targets(buffer: seq<seq<real>>, n: nat, numIn: nat, snap: Snapshot, m: Math): (ts: seq<real>)
    requires HasColumns(buffer, numIn, n)
    requires snap.Valid() && ValidMath(m)
    ensures |ts| == n
  {
    if n == 0 then [] else Targets(buffer, n - 1, numIn, snap, m) + [Target(buffer, numIn, n - 1, snap, m)]
  }

  /** Entry `i` of the targets is the target reduction of sample `i`; so every
      entry lies in (FloorDb, 0]. */
  lemma {:induction false} TargetsAt(buffer: seq<seq<real>>, n: nat, numIn: nat, snap: Snapshot, m: Math)
    requires HasColumns(buffer, numIn, n)
    requires snap.Valid() && ValidMath(m)
    ensures forall i | 0 <= i < n :: Targets(buffer, n, numIn, snap, m)[i] == Target(buffer, numIn, i, snap, m)
    ensures forall i | 0 <= i < n :: FloorDb < Targets(buffer, n, numIn, snap, m)[i] <= 0.0
  {
    if n > 0 {
      TargetsAt(buffer, n - 1, numIn, snap, m);
    }
  }

  /** The targets read only the first `n` samples of the input channels. */
  lemma {:induction false} TargetsOfSameInputs(b1: seq<seq<real>>, b2: seq<seq<real>>, n: nat, numIn: nat,
                                               snap: Snapshot, m: Math)
    requires HasColumns(b1, numIn, n) && HasColumns(b2, numIn, n)
    requires forall c, j | 0 <= c < numIn && 0 <= j < n :: b1[c][j] == b2[c][j]
    requires snap.Valid() && ValidMath(m)
    ensures Targets(b1, n, numIn, snap, m) == Targets(b2, n, numIn, snap, m)
  {
    if n > 0 {
      TargetsOfSameInputs(b1, b2, n - 1, numIn, snap, m);
      PeakOfSameSamples(b1, b2, numIn, n - 1);
    }
  }

  /** The silence that clearing a channel leaves. */
  function Silence(numSamples: nat): (s: seq<real>)
    ensures |s| == numSamples && forall i | 0 <= i < numSamples :: s[i] == 0.0
  {
    seq(numSamples, i => 0.0)
  }

  /** Clears the output channels that have no matching input channel; every
      other channel is left as it was. */
  method ClearExtraChannels(buffer: seq<seq<real>>, numSamples: nat, numIn: nat, numOut: nat)
    returns (out: seq<seq<real>>)
    requires WellFormed(buffer, numSamples, numIn, numOut)
    ensures WellFormed(out, numSamples, numIn, numOut) && |out| == |buffer|
    ensures forall c | numIn <= c < numOut :: out[c] == Silence(numSamples)
    ensures forall c | 0 <= c < |buffer| && !(numIn <= c < numOut) :: out[c] == buffer[c]
  {
    out := buffer;
    var ch := numIn;
    while ch < numOut
      invariant numIn <= ch
      invariant |out| == |buffer|
      invariant forall c | 0 <= c < |out| :: |out[c]| == numSamples
      invariant forall c | numIn <= c < ch && c < numOut :: out[c] == Silence(numSamples)
      invariant forall c | 0 <= c < |buffer| && !(numIn <= c < ch && c < numOut) :: out[c] == buffer[c]
    {
      out := out[ch := Silence(numSamples)];
      ch := ch + 1;
    }
  }

  /** A channel with its sample `i` multiplied by `gain`. */
  function ScaleAt(row: seq<real>, i: nat, gain: real): (r: seq<real>)
    requires i < |row|
    ensures |r| == |row|
  {
    row[i := row[i] * gain]
  }

  /** The buffer with sample `i` of every input channel multiplied by `gain`. */
  function ScaleColumn(buffer: seq<seq<real>>, numIn: nat, i: nat, gain: real): (r: seq<seq<real>>)
    requires HasColumn(buffer, numIn, i)
    ensures |r| == |buffer| && forall c | 0 <= c < |buffer| :: |r[c]| == |buffer[c]|
  {
    seq(|buffer|, c requires 0 <= c < |buffer| => if c < numIn then ScaleAt(buffer[c], i, gain) else buffer[c])
  }

  /** Scaling a column multiplies exactly sample `i` of each input channel by
      the gain and leaves every other sample and every other channel as it was. */
  lemma ScaleColumnAt(buffer: seq<seq<real>>, numIn: nat, i: nat, gain: real)
    requires HasColumn(buffer, numIn, i)
    ensures var r := ScaleColumn(buffer, numIn, i, gain);
            && (forall c | 0 <= c < numIn :: r[c][i] == buffer[c][i] * gain)
            && (forall c, j | 0 <= c < numIn && 0 <= j < |buffer[c]| && j != i :: r[c][j] == buffer[c][j])
            && (forall c | numIn <= c < |buffer| :: r[c] == buffer[c])
  {
  }

  /** Multiplies sample `i` of every input channel by the same gain, one
      channel after another. */
  method ApplyGain(buffer: seq<seq<real>>, numIn: nat, i: nat, gain: real) returns (out: seq<seq<real>>)
    requires HasColumn(buffer, numIn, i)
    ensures out == ScaleColumn(buffer, numIn, i, gain)
  {
    out := buffer;
    var ch := 0;
    while ch < numIn
      invariant 0 <= ch <= numIn
      invariant |out| == |buffer|
      invariant forall c | 0 <= c < ch :: out[c] == ScaleAt(buffer[c], i, gain)
      invariant forall c | ch <= c < |buffer| :: out[c] == buffer[c]
    {
      out := out[ch := ScaleAt(out[ch], i, gain)];
      ch := ch + 1;
    }
  }

  /** The state of the per-sample loop: the buffer as processed so far, the
      smoothed reduction and the deepest reduction of the block so far. */
  datatype Frame = Frame(out: seq<seq<real>>, envelope: real, maxGR: real)

  /** One iteration of the per-sample loop, as a function of its state: the
      target of sample `i` as the buffer now reads, one follower step toward it,
      that step's gain applied to sample `i` of every input channel, and the
      meter moved to the new reduction if it is deeper. */
  function SampleStep(f: Frame, numIn: nat, i: nat, snap: Snapshot, coeffs: Coefficients, m: Math): (g: Frame)
    requires HasColumn(f.out, numIn, i)
    requires snap.Valid() && ValidMath(m)
  {
    var next := Step(f.envelope, Target(f.out, numIn, i, snap, m), coeffs);
    var gain := DecibelsToGain(next, FloorDb, m);
    Frame(ScaleColumn(f.out, numIn, i, gain), next, if next < f.maxGR then next else f.maxGR)
  }

  /** The smoothed reduction after the first `n` samples of the loop, starting
      from `start`. The targets are read from the buffer the loop started from:
      `LoopStep` shows that this is what the loop reads at each sample. */
  function EnvelopeAfter(cleared: seq<seq<real>>, numIn: nat, n: nat, start: real,
                         snap: Snapshot, coeffs: Coefficients, m: Math): real
    requires HasColumns(cleared, numIn, n)
    requires snap.Valid() && ValidMath(m)
  {
    if n == 0 then start
    else Step(EnvelopeAfter(cleared, numIn, n - 1, start, snap, coeffs, m), Target(cleared, numIn, n - 1, snap, m), coeffs)
  }

  /** The meter after the first `n` samples: 0 dB at first, then moved to each
      new smoothed reduction that is deeper. */
  function MeterAfter(cleared: seq<seq<real>>, numIn: nat, n: nat, start: real,
                      snap: Snapshot, coeffs: Coefficients, m: Math): real
    requires HasColumns(cleared, numIn, n)
    requires snap.Valid() && ValidMath(m)
  {
    if n == 0 then 0.0
    else
      var e := EnvelopeAfter(cleared, numIn, n, start, snap, coeffs, m);
      var prev := MeterAfter(cleared, numIn, n - 1, start, snap, coeffs, m);
      if e < prev then e else prev
  }

  /** The buffer after the first `n` samples: sample `j` of every input channel
      scaled by `gains[j]`, one sample index after another. */
  function Attenuate(cleared: seq<seq<real>>, numIn: nat, gains: seq<real>, n: nat): (out: seq<seq<real>>)
    requires n <= |gains| && HasColumns(cleared, numIn, n)
    ensures |out| == |cleared| && forall c | 0 <= c < |cleared| :: |out[c]| == |cleared[c]|
  {
    if n == 0 then cleared
    else ScaleColumn(Attenuate(cleared, numIn, gains, n - 1), numIn, n - 1, gains[n - 1])
  }

  /** Attenuating touches only the processed samples of the input channels. */
  lemma {:induction false} AttenuateUntouched(cleared: seq<seq<real>>, numIn: nat, gains: seq<real>, n: nat)
    requires n <= |gains| && HasColumns(cleared, numIn, n)
    ensures var out := Attenuate(cleared, numIn, gains, n);
            forall c, j | 0 <= c < numIn && n <= j < |cleared[c]| :: out[c][j] == cleared[c][j]
    ensures var out := Attenuate(cleared, numIn, gains, n);
            forall c | numIn <= c < |cleared| :: out[c] == cleared[c]
  {
    if n > 0 {
      AttenuateUntouched(cleared, numIn, gains, n - 1);
      ScaleColumnAt(Attenuate(cleared, numIn, gains, n - 1), numIn, n - 1, gains[n - 1]);
    }
  }

  /** Each processed sample of an input channel is the original sample times
      the gain of its index: the loop scales each sample exactly once. */
  lemma {:induction false} AttenuateSamples(cleared: seq<seq<real>>, numIn: nat, gains: seq<real>, n: nat)
    requires n <= |gains| && HasColumns(cleared, numIn, n)
    ensures forall c, j | 0 <= c < numIn && 0 <= j < n ::
              Attenuate(cleared, numIn, gains, n)[c][j] == cleared[c][j] * gains[j]
  {
    if n > 0 {
      var prev := Attenuate(cleared, numIn, gains, n - 1);
      var out := Attenuate(cleared, numIn, gains, n);
      AttenuateSamples(cleared, numIn, gains, n - 1);
      AttenuateUntouched(cleared, numIn, gains, n - 1);
      ScaleColumnAt(prev, numIn, n - 1, gains[n - 1]);
      forall c, j | 0 <= c < numIn && 0 <= j < n
        ensures out[c][j] == cleared[c][j] * gains[j]
      {
        if j == n - 1 {
          assert prev[c][j] == cleared[c][j];
        }
      }
    }
  }

  /** One iteration of the loop, reading its target from the buffer as
      processed so far, moves each trace one sample on, provided the gain
      planned for that sample is the gain of the new envelope: earlier
      iterations never wrote the sample it reads. */
  lemma LoopStep(cleared: seq<seq<real>>, numIn: nat, gains: seq<real>, n: nat, start: real,
                 snap: Snapshot, coeffs: Coefficients, m: Math)
    requires n < |gains| && HasColumns(cleared, numIn, n + 1)
    requires snap.Valid() && ValidMath(m)
    requires gains[n] == DecibelsToGain(EnvelopeAfter(cleared, numIn, n + 1, start, snap, coeffs, m), FloorDb, m)
    ensures var f := Frame(Attenuate(cleared, numIn, gains, n),
                           EnvelopeAfter(cleared, numIn, n, start, snap, coeffs, m),
                           MeterAfter(cleared, numIn, n, start, snap, coeffs, m));
            SampleStep(f, numIn, n, snap, coeffs, m)
            == Frame(Attenuate(cleared, numIn, gains, n + 1),
                     EnvelopeAfter(cleared, numIn, n + 1, start, snap, coeffs, m),
                     MeterAfter(cleared, numIn, n + 1, start, snap, coeffs, m))
  {
    var out := Attenuate(cleared, numIn, gains, n);
    AttenuateUntouched(cleared, numIn, gains, n);
    PeakOfSameSamples(out, cleared, numIn, n);
    assert Target(out, numIn, n, snap, m) == Target(cleared, numIn, n, snap, m);
  }

  /** The first `k` targets of a longer prefix are the targets of the first
      `k` samples. */
  lemma {:induction false} TargetsPrefix(buffer: seq<seq<real>>, n: nat, k: nat, numIn: nat, snap: Snapshot, m: Math)
    requires k <= n && HasColumns(buffer, numIn, n)
    requires snap.Valid() && ValidMath(m)
    ensures Targets(buffer, n, numIn, snap, m)[..k] == Targets(buffer, k, numIn, snap, m)
  {
    if k < n {
      var ts := Targets(buffer, n, numIn, snap, m);
      TargetsPrefix(buffer, n - 1, k, numIn, snap, m);
      assert ts[..n - 1] == Targets(buffer, n - 1, numIn, snap, m);
      assert ts[..k] == ts[..n - 1][..k];
    } else {
      assert Targets(buffer, n, numIn, snap, m)[..n] == Targets(buffer, n, numIn, snap, m);
    }
  }

  /** After `n` samples the loop's envelope is the follower run over the
      targets of the first `n` samples of the buffer it started from. */
  lemma {:induction false} EnvelopeAfterRun(cleared: seq<seq<real>>, numIn: nat, n: nat, start: real,
                                            snap: Snapshot, coeffs: Coefficients, m: Math)
    requires HasColumns(cleared, numIn, n)
    requires snap.Valid() && ValidMath(m)
    ensures EnvelopeAfter(cleared, numIn, n, start, snap, coeffs, m)
            == Run(start, Targets(cleared, n, numIn, snap, m), coeffs)
  {
    if n > 0 {
      var ts := Targets(cleared, n, numIn, snap, m);
      EnvelopeAfterRun(cleared, numIn, n - 1, start, snap, coeffs, m);
      assert ts[..n - 1] == Targets(cleared, n - 1, numIn, snap, m);
    }
  }

  /** The meter after `n` samples is at most 0 dB and at most every envelope
      the loop passed through, and it is 0 dB or one of those envelopes. */
  lemma {:induction false} MeterBounds(cleared: seq<seq<real>>, numIn: nat, n: nat, start: real,
                                       snap: Snapshot, coeffs: Coefficients, m: Math)
    requires HasColumns(cleared, numIn, n)
    requires snap.Valid() && ValidMath(m)
    ensures var meter := MeterAfter(cleared, numIn, n, start, snap, coeffs, m);
            && meter <= 0.0
            && (forall j | 1 <= j <= n :: meter <= EnvelopeAfter(cleared, numIn, j, start, snap, coeffs, m))
            && (meter == 0.0 || exists j | 1 <= j <= n :: meter == EnvelopeAfter(cleared, numIn, j, start, snap, coeffs, m))
  {
    if n > 0 {
      MeterBounds(cleared, numIn, n - 1, start, snap, coeffs, m);
      var e := EnvelopeAfter(cleared, numIn, n, start, snap, coeffs, m);
      var prev := MeterAfter(cleared, numIn, n - 1, start, snap, coeffs, m);
      var meter := MeterAfter(cleared, numIn, n, start, snap, coeffs, m);
      if e < prev {
        assert meter == EnvelopeAfter(cleared, numIn, n, start, snap, coeffs, m);
        assert exists j | 1 <= j <= n :: meter == EnvelopeAfter(cleared, numIn, j, start, snap, coeffs, m);
      } else if prev != 0.0 {
        var j :| 1 <= j <= n - 1 && prev == EnvelopeAfter(cleared, numIn, j, start, snap, coeffs, m);
        assert meter == EnvelopeAfter(cleared, numIn, j, start, snap, coeffs, m);
      }
    }
  }

  /** Entry `i` of the envelopes a block follows is the envelope the loop
      reaches at sample `i`. */
  lemma EnvelopesAreTrace(cleared: seq<seq<real>>, numIn: nat, n: nat, start: real,
                          snap: Snapshot, coeffs: Coefficients, m: Math)
    requires HasColumns(cleared, numIn, n)
    requires snap.Valid() && ValidMath(m)
    ensures forall i | 0 <= i < n ::
              Envelopes(start, Targets(cleared, n, numIn, snap, m), coeffs)[i]
              == EnvelopeAfter(cleared, numIn, i + 1, start, snap, coeffs, m)
  {
    var ts := Targets(cleared, n, numIn, snap, m);
    EnvelopesAreRuns(start, ts, coeffs);
    forall i | 0 <= i < n
      ensures Envelopes(start, ts, coeffs)[i] == EnvelopeAfter(cleared, numIn, i + 1, start, snap, coeffs, m)
    {
      TargetsPrefix(cleared, n, i + 1, numIn, snap, m);
      EnvelopeAfterRun(cleared, numIn, i + 1, start, snap, coeffs, m);
    }
  }

  /** One sample index of the block: linked peak of the input channels, level
      in dB, target reduction, one envelope step, and the resulting gain
      applied to every input channel at that index; the meter keeps the
      deepest reduction. */
  method ProcessSample(f: Frame, numIn: nat, i: nat, snap: Snapshot, coeffs: Coefficients, m: Math)
    returns (g: Frame)
    requires HasColumn(f.out, numIn, i)
    requires snap.Valid() && ValidMath(m)
    ensures g == SampleStep(f, numIn, i, snap, coeffs, m)
  {
    var peak := LinkedPeak(f.out, numIn, i);
    var levelDb := GainToDecibels(peak, FloorDb, m);
    var target := TargetReduction(levelDb, snap.threshold, snap.ratio);
    assert target == Target(f.out, numIn, i, snap, m);
    var alpha := if target < f.envelope then coeffs.attack else coeffs.release;
    assert alpha == Alpha(coeffs, DirectionOf(target, f.envelope));
    var envelope := Pull(f.envelope, target, alpha);
    var gain := DecibelsToGain(envelope, FloorDb, m);
    var out := ApplyGain(f.out, numIn, i, gain);
    var maxGR := f.maxGR;
    if envelope < maxGR {
      maxGR := envelope;
    }
    g := Frame(out, envelope, maxGR);
  }

  /** The smoothed reduction after each sample of a block processed from `state`. */
  function BlockEnvelopes(state: State, buffer: seq<seq<real>>, numSamples: nat, numIn: nat,
                          snap: Snapshot, sampleRate: real, m: Math): (envs: seq<real>)
    requires WellFormed(buffer, numSamples, numIn, numIn)
    requires snap.Valid() && sampleRate > 0.0 && ValidMath(m)
    ensures |envs| == numSamples
  {
    Envelopes(state.envelope, Targets(buffer, numSamples, numIn, snap, m), BlockCoefficients(snap, sampleRate, m))
  }

  /** The linear gain of each smoothed reduction, in order. */
  function Gains(envs: seq<real>, m: Math): (gains: seq<real>)
    requires ValidMath(m)
    ensures |gains| == |envs|
    ensures forall j | 0 <= j < |envs| :: gains[j] == DecibelsToGain(envs[j], FloorDb, m)
  {
    seq(|envs|, j requires 0 <= j < |envs| => DecibelsToGain(envs[j], FloorDb, m))
  }

  /** A gain in (0, 1] never increases a sample's magnitude. */
  lemma AttenuationOnly(x: real, gain: real)
    requires 0.0 < gain <= 1.0
    ensures Abs(x * gain) <= Abs(x)
  {
    if x >= 0.0 {
      assert x * gain <= x * 1.0;
    } else {
      assert (-x) * gain <= (-x) * 1.0;
    }
  }

  /** Entry `i` of the block's envelopes is the envelope the loop reaches at
      sample `i`, when the loop runs over a buffer whose input channels are
      those of the block. */
  lemma BlockFollowsLoop(state: State, buffer: seq<seq<real>>, cleared: seq<seq<real>>,
                         numSamples: nat, numIn: nat, snap: Snapshot, sampleRate: real, m: Math)
    requires WellFormed(buffer, numSamples, numIn, numIn) && WellFormed(cleared, numSamples, numIn, numIn)
    requires forall c | 0 <= c < numIn :: cleared[c] == buffer[c]
    requires snap.Valid() && sampleRate > 0.0 && ValidMath(m)
    ensures var coeffs := BlockCoefficients(snap, sampleRate, m);
            var envs := BlockEnvelopes(state, buffer, numSamples, numIn, snap, sampleRate, m);
            forall i | 0 <= i < numSamples ::
              envs[i] == EnvelopeAfter(cleared, numIn, i + 1, state.envelope, snap, coeffs, m)
  {
    TargetsOfSameInputs(cleared, buffer, numSamples, numIn, snap, m);
    EnvelopesAreTrace(cleared, numIn, numSamples, state.envelope, snap, BlockCoefficients(snap, sampleRate, m), m);
  }

  /** The envelope carried out of a block is the follower run over the block's
      targets, and it stays in (FloorDb, 0]. */
  lemma LoopFinalEnvelope(state: State, buffer: seq<seq<real>>, cleared: seq<seq<real>>,
                          numSamples: nat, numIn: nat, snap: Snapshot, sampleRate: real, m: Math)
    requires state.Valid()
    requires WellFormed(buffer, numSamples, numIn, numIn) && WellFormed(cleared, numSamples, numIn, numIn)
    requires forall c | 0 <= c < numIn :: cleared[c] == buffer[c]
    requires snap.Valid() && sampleRate > 0.0 && ValidMath(m)
    ensures var coeffs := BlockCoefficients(snap, sampleRate, m);
            var e := EnvelopeAfter(cleared, numIn, numSamples, state.envelope, snap, coeffs, m);
            && e == Run(state.envelope, Targets(buffer, numSamples, numIn, snap, m), coeffs)
            && FloorDb < e <= 0.0
  {
    var coeffs := BlockCoefficients(snap, sampleRate, m);
    TargetsOfSameInputs(cleared, buffer, numSamples, numIn, snap, m);
    EnvelopeAfterRun(cleared, numIn, numSamples, state.envelope, snap, coeffs, m);
    TargetsAt(buffer, numSamples, numIn, snap, m);
    RunStaysWithin(state.envelope, Targets(buffer, numSamples, numIn, snap, m), coeffs, FloorDb, 0.0);
  }

  /** The gains applied to a buffer whose input channels equal the block's
      are the gains applied to the block's own samples. */
  lemma RelabelInputs(out: seq<seq<real>>, cleared: seq<seq<real>>, buffer: seq<seq<real>>, numIn: nat,
                      envs: seq<real>, m: Math, gains: seq<real>)
    requires HasColumns(out, numIn, |envs|) && HasColumns(cleared, numIn, |envs|) && HasColumns(buffer, numIn, |envs|)
    requires ValidMath(m)
    requires forall c | 0 <= c < numIn :: cleared[c] == buffer[c]
    requires gains == Gains(envs, m)
    requires forall c, j | 0 <= c < numIn && 0 <= j < |envs| :: out[c][j] == cleared[c][j] * gains[j]
    ensures forall c, j | 0 <= c < numIn && 0 <= j < |envs| ::
              out[c][j] == buffer[c][j] * DecibelsToGain(envs[j], FloorDb, m)
  {
    forall c, j | 0 <= c < numIn && 0 <= j < |envs|
      ensures out[c][j] == buffer[c][j] * DecibelsToGain(envs[j], FloorDb, m)
    {
      assert cleared[c][j] == buffer[c][j];
      assert gains[j] == DecibelsToGain(envs[j], FloorDb, m);
      assert out[c][j] == cleared[c][j] * gains[j];
    }
  }

  /** Scaling by the gains of reductions in (FloorDb, 0] never makes a sample
      louder. */
  lemma NeverLouder(out: seq<seq<real>>, input: seq<seq<real>>, numIn: nat, envs: seq<real>, m: Math)
    requires HasColumns(out, numIn, |envs|) && HasColumns(input, numIn, |envs|) && ValidMath(m)
    requires forall j | 0 <= j < |envs| :: FloorDb < envs[j] <= 0.0
    requires forall c, j | 0 <= c < numIn && 0 <= j < |envs| ::
               out[c][j] == input[c][j] * DecibelsToGain(envs[j], FloorDb, m)
    ensures forall c, j | 0 <= c < numIn && 0 <= j < |envs| :: Abs(out[c][j]) <= Abs(input[c][j])
  {
    forall c, j | 0 <= c < numIn && 0 <= j < |envs|
      ensures Abs(out[c][j]) <= Abs(input[c][j])
    {
      AttenuationOnly(input[c][j], DecibelsToGain(envs[j], FloorDb, m));
    }
  }

  /** Every smoothed reduction of a block stays in (FloorDb, 0]. */
  lemma BlockEnvelopesWithin(state: State, buffer: seq<seq<real>>, numSamples: nat, numIn: nat,
                             snap: Snapshot, sampleRate: real, m: Math)
    requires state.Valid()
    requires WellFormed(buffer, numSamples, numIn, numIn)
    requires snap.Valid() && sampleRate > 0.0 && ValidMath(m)
    ensures var envs := BlockEnvelopes(state, buffer, numSamples, numIn, snap, sampleRate, m);
            forall j | 0 <= j < numSamples :: FloorDb < envs[j] <= 0.0
  {
    var ts := Targets(buffer, numSamples, numIn, snap, m);
    TargetsAt(buffer, numSamples, numIn, snap, m);
    EnvelopesStayWithin(state.envelope, ts, BlockCoefficients(snap, sampleRate, m), FloorDb, 0.0);
  }

  /** The meter published after a block is at most 0 dB and at most every
      smoothed reduction of the block, and it is 0 dB or one of them. */
  lemma LoopMeterOutcome(state: State, buffer: seq<seq<real>>, cleared: seq<seq<real>>,
                         numSamples: nat, numIn: nat, snap: Snapshot, sampleRate: real, m: Math)
    requires WellFormed(buffer, numSamples, numIn, numIn) && WellFormed(cleared, numSamples, numIn, numIn)
    requires forall c | 0 <= c < numIn :: cleared[c] == buffer[c]
    requires snap.Valid() && sampleRate > 0.0 && ValidMath(m)
    ensures var meter := MeterAfter(cleared, numIn, numSamples, state.envelope, snap, BlockCoefficients(snap, sampleRate, m), m);
            var envs := BlockEnvelopes(state, buffer, numSamples, numIn, snap, sampleRate, m);
            && meter <= 0.0
            && (forall i | 0 <= i < numSamples :: meter <= envs[i])
            && (meter == 0.0 || exists i | 0 <= i < numSamples :: meter == envs[i])
  {
    var coeffs := BlockCoefficients(snap, sampleRate, m);
    var meter := MeterAfter(cleared, numIn, numSamples, state.envelope, snap, coeffs, m);
    var envs := BlockEnvelopes(state, buffer, numSamples, numIn, snap, sampleRate, m);
    BlockFollowsLoop(state, buffer, cleared, numSamples, numIn, snap, sampleRate, m);
    MeterBounds(cleared, numIn, numSamples, state.envelope, snap, coeffs, m);
    if meter != 0.0 {
      var j :| 1 <= j <= numSamples && meter == EnvelopeAfter(cleared, numIn, j, state.envelope, snap, coeffs, m);
      assert meter == envs[j - 1];
    }
  }

  /** The per-sample loop over a block: one `ProcessSample` per index, in
      order, starting from the cleared buffer, the carried envelope and a 0 dB
      meter. `gains` is the gain each sample will receive; it is ghost and only
      names what the loop computes. */
  method SampleLoop(cleared: seq<seq<real>>, numIn: nat, numSamples: nat, start: real, ghost gains: seq<real>,
                    snap: Snapshot, coeffs: Coefficients, m: Math)
    returns (f: Frame)
    requires HasColumns(cleared, numIn, numSamples) && |gains| == numSamples
    requires snap.Valid() && ValidMath(m)
    requires forall i | 0 <= i < numSamples ::
               gains[i] == DecibelsToGain(EnvelopeAfter(cleared, numIn, i + 1, start, snap, coeffs, m), FloorDb, m)
    ensures f.envelope == EnvelopeAfter(cleared, numIn, numSamples, start, snap, coeffs, m)
    ensures f.maxGR == MeterAfter(cleared, numIn, numSamples, start, snap, coeffs, m)
    ensures |f.out| == |cleared| && forall c | 0 <= c < |cleared| :: |f.out[c]| == |cleared[c]|
    ensures forall c, j | 0 <= c < numIn && 0 <= j < numSamples :: f.out[c][j] == cleared[c][j] * gains[j]
    ensures forall c | numIn <= c < |cleared| :: f.out[c] == cleared[c]
  {
    f := Frame(cleared, start, 0.0);
    var i := 0;
    while i < numSamples
      invariant 0 <= i <= numSamples
      invariant f == Frame(Attenuate(cleared, numIn, gains, i),
                           EnvelopeAfter(cleared, numIn, i, start, snap, coeffs, m),
                           MeterAfter(cleared, numIn, i, start, snap, coeffs, m))
    {
      LoopStep(cleared, numIn, gains, i, start, snap, coeffs, m);
      f := ProcessSample(f, numIn, i, snap, coeffs, m);
      i := i + 1;
    }
    AttenuateSamples(cleared, numIn, gains, numSamples);
    AttenuateUntouched(cleared, numIn, gains, numSamples);
  }

  /** The state a block hands on, when the loop ends at the envelope and meter
      it reaches after the whole block: the envelope is the follower run over
      the block's targets, the meter is at most 0 dB and at most every smoothed
      reduction of the block and is 0 dB or one of them, and both stay in
      (FloorDb, 0]. */
  lemma BlockState(state: State, buffer: seq<seq<real>>, cleared: seq<seq<real>>, numSamples: nat, numIn: nat,
                   snap: Snapshot, sampleRate: real, m: Math, next: State)
    requires state.Valid()
    requires WellFormed(buffer, numSamples, numIn, numIn) && WellFormed(cleared, numSamples, numIn, numIn)
    requires forall c | 0 <= c < numIn :: cleared[c] == buffer[c]
    requires snap.Valid() && sampleRate > 0.0 && ValidMath(m)
    requires var coeffs := BlockCoefficients(snap, sampleRate, m);
             && next.envelope == EnvelopeAfter(cleared, numIn, numSamples, state.envelope, snap, coeffs, m)
             && next.gainReduction == MeterAfter(cleared, numIn, numSamples, state.envelope, snap, coeffs, m)
    ensures next.Valid()
    ensures next.envelope
            == Run(state.envelope, Targets(buffer, numSamples, numIn, snap, m), BlockCoefficients(snap, sampleRate, m))
    ensures var envs := BlockEnvelopes(state, buffer, numSamples, numIn, snap, sampleRate, m);
            && next.gainReduction <= 0.0
            && (forall i | 0 <= i < numSamples :: next.gainReduction <= envs[i])
            && (next.gainReduction == 0.0 || exists i | 0 <= i < numSamples :: next.gainReduction == envs[i])
  {
    var envs := BlockEnvelopes(state, buffer, numSamples, numIn, snap, sampleRate, m);
    LoopFinalEnvelope(state, buffer, cleared, numSamples, numIn, snap, sampleRate, m);
    BlockEnvelopesWithin(state, buffer, numSamples, numIn, snap, sampleRate, m);
    LoopMeterOutcome(state, buffer, cleared, numSamples, numIn, snap, sampleRate, m);
    if next.gainReduction != 0.0 {
      var i :| 0 <= i < numSamples && next.gainReduction == envs[i];
      assert FloorDb < envs[i];
    }
  }

  /** The samples a block hands on, when the loop scaled each input sample of
      the cleared buffer by the gain of the block's smoothed reduction at its
      index: stated against the block's own samples, and never louder. */
  lemma BlockSamples(state: State, buffer: seq<seq<real>>, cleared: seq<seq<real>>, numSamples: nat, numIn: nat,
                     snap: Snapshot, sampleRate: real, m: Math, gains: seq<real>, out: seq<seq<real>>)
    requires state.Valid()
    requires WellFormed(buffer, numSamples, numIn, numIn) && WellFormed(cleared, numSamples, numIn, numIn)
    requires HasColumns(out, numIn, numSamples)
    requires forall c | 0 <= c < numIn :: cleared[c] == buffer[c]
    requires snap.Valid() && sampleRate > 0.0 && ValidMath(m)
    requires gains == Gains(BlockEnvelopes(state, buffer, numSamples, numIn, snap, sampleRate, m), m)
    requires forall c, j | 0 <= c < numIn && 0 <= j < numSamples :: out[c][j] == cleared[c][j] * gains[j]
    ensures var envs := BlockEnvelopes(state, buffer, numSamples, numIn, snap, sampleRate, m);
            forall c, i | 0 <= c < numIn && 0 <= i < numSamples ::
              out[c][i] == buffer[c][i] * DecibelsToGain(envs[i], FloorDb, m)
    ensures forall c, i | 0 <= c < numIn && 0 <= i < numSamples :: Abs(out[c][i]) <= Abs(buffer[c][i])
  {
    var envs := BlockEnvelopes(state, buffer, numSamples, numIn, snap, sampleRate, m);
    RelabelInputs(out, cleared, buffer, numIn, envs, m, gains);
    BlockEnvelopesWithin(state, buffer, numSamples, numIn, snap, sampleRate, m);
    NeverLouder(out, buffer, numIn, envs, m);
  }

  /** The per-sample part of a block, run on the buffer left after clearing:
      its input channels are those of the block as the host handed it over,
      and the results are stated against that block. */
  method RunBlock(state: State, buffer: seq<seq<real>>, cleared: seq<seq<real>>, numSamples: nat, numIn: nat,
                  snap: Snapshot, sampleRate: real, m: Math)
    returns (out: seq<seq<real>>, next: State)
    requires state.Valid()
    requires WellFormed(buffer, numSamples, numIn, numIn) && WellFormed(cleared, numSamples, numIn, numIn)
    requires forall c | 0 <= c < numIn :: cleared[c] == buffer[c]
    requires snap.Valid() && sampleRate > 0.0 && ValidMath(m)
    ensures |out| == |cleared| && forall c | 0 <= c < |cleared| :: |out[c]| == |cleared[c]|
    ensures forall c | numIn <= c < |cleared| :: out[c] == cleared[c]
    ensures next.Valid()
    ensures var envs := BlockEnvelopes(state, buffer, numSamples, numIn, snap, sampleRate, m);
            forall c, i | 0 <= c < numIn && 0 <= i < numSamples ::
              out[c][i] == buffer[c][i] * DecibelsToGain(envs[i], FloorDb, m)
    ensures forall c, i | 0 <= c < numIn && 0 <= i < numSamples :: Abs(out[c][i]) <= Abs(buffer[c][i])
    ensures next.envelope
            == Run(state.envelope, Targets(buffer, numSamples, numIn, snap, m), BlockCoefficients(snap, sampleRate, m))
    ensures var envs := BlockEnvelopes(state, buffer, numSamples, numIn, snap, sampleRate, m);
            && next.gainReduction <= 0.0
            && (forall i | 0 <= i < numSamples :: next.gainReduction <= envs[i])
            && (next.gainReduction == 0.0 || exists i | 0 <= i < numSamples :: next.gainReduction == envs[i])
  {
    var coeffs := BlockCoefficients(snap, sampleRate, m);
    ghost var envs := BlockEnvelopes(state, buffer, numSamples, numIn, snap, sampleRate, m);
    ghost var gains := Gains(envs, m);
    assert forall i | 0 <= i < numSamples ::
             gains[i] == DecibelsToGain(EnvelopeAfter(cleared, numIn, i + 1, state.envelope, snap, coeffs, m), FloorDb, m) by {
      BlockFollowsLoop(state, buffer, cleared, numSamples, numIn, snap, sampleRate, m);
    }
    var f := SampleLoop(cleared, numIn, numSamples, state.envelope, gains, snap, coeffs, m);
    out := f.out;
    next := State(f.envelope, f.maxGR);
    BlockState(state, buffer, cleared, numSamples, numIn, snap, sampleRate, m, next);
    BlockSamples(state, buffer, cleared, numSamples, numIn, snap, sampleRate, m, gains, out);
    assert forall c | numIn <= c < |cleared| :: out[c] == cleared[c];
  }

  /** One audio block. Extra output channels are cleared; then, per sample
      index, the linked peak of the input channels is converted to dB, mapped to
      a target reduction, smoothed by the envelope follower, converted to a
      linear gain and applied to every input channel at that index; the deepest
      smoothed reduction of the block (0 dB if none deeper) is published. */
  method ProcessBlock(state: State, buffer: seq<seq<real>>, numSamples: nat, numIn: nat, numOut: nat,
                      snap: Snapshot, sampleRate: real, m: Math)
    returns (out: seq<seq<real>>, next: State)
    requires state.Valid()
    requires WellFormed(buffer, numSamples, numIn, numOut)
    requires snap.Valid() && sampleRate > 0.0 && ValidMath(m)
    ensures WellFormed(out, numSamples, numIn, numOut) && |out| == |buffer|
    ensures next.Valid()
    ensures var envs := BlockEnvelopes(state, buffer, numSamples, numIn, snap, sampleRate, m);
            forall c, i | 0 <= c < numIn && 0 <= i < numSamples ::
              out[c][i] == buffer[c][i] * DecibelsToGain(envs[i], FloorDb, m)
    ensures forall c, i | 0 <= c < numIn && 0 <= i < numSamples :: Abs(out[c][i]) <= Abs(buffer[c][i])
    ensures forall c, i | numIn <= c < numOut && 0 <= i < numSamples :: out[c][i] == 0.0
    ensures forall c | 0 <= c < |buffer| && numIn <= c && numOut <= c :: out[c] == buffer[c]
    ensures next.envelope
            == Run(state.envelope, Targets(buffer, numSamples, numIn, snap, m), BlockCoefficients(snap, sampleRate, m))
    ensures var envs := BlockEnvelopes(state, buffer, numSamples, numIn, snap, sampleRate, m);
            && next.gainReduction <= 0.0
            && (forall i | 0 <= i < numSamples :: next.gainReduction <= envs[i])
            && (next.gainReduction == 0.0 || exists i | 0 <= i < numSamples :: next.gainReduction == envs[i])
  {
    var cleared := ClearExtraChannels(buffer, numSamples, numIn, numOut);
    out, next := RunBlock(state, buffer, cleared, numSamples, numIn, snap, sampleRate, m);
  }
}
