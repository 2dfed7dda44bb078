/** Ballistics: the per-block smoothing coefficients and the asymmetric one-pole
    envelope follower that smooths the target gain reduction. */
module Envelope {

  import opened Reals
  import opened Decibels
  import opened Parameters

  /** Smoothing coefficients for the two directions of travel. */
  datatype Coefficients = Coefficients(attack: real, release: real) {
    predicate Valid() {
      0.0 < attack < 1.0 && 0.0 < release < 1.0
    }
  }

  /** One-pole coefficient exp(-1 / (t * sampleRate)) for a time constant of
      `timeMs` milliseconds. */
  function Coefficient(timeMs: real, sampleRate: real, m: Math): (alpha: real)
    requires ValidMath(m)
    requires timeMs > 0.0 && sampleRate > 0.0
    ensures 0.0 < alpha < 1.0
  {
    var samples := timeMs * 0.001 * sampleRate;
    assert samples > 0.0;
    m.exp[-1.0 / samples]
  }

  /** The coefficients derived once per block from the snapshot. */
  function BlockCoefficients(snap: Snapshot, sampleRate: real, m: Math): (c: Coefficients)
    requires ValidMath(m)
    requires snap.Valid() && sampleRate > 0.0
    ensures c.Valid()
  {
    Coefficients(Coefficient(snap.attackMs, sampleRate, m), Coefficient(snap.releaseMs, sampleRate, m))
  }

  /** Attack: the reduction is deepening. Release: it is recovering or steady. */
  datatype Direction = Attack | Release

  function DirectionOf(target: real, envelope: real): (d: Direction)
    ensures d == Attack <==> target < envelope
  {
    if target < envelope then Attack else Release
  }

  function Alpha(c: Coefficients, d: Direction): real {
    match d
    case Attack => c.attack
    case Release => c.release
  }

  /** One sample of the follower: move from `envelope` toward `target` by the
      fraction `1 - alpha`, with `alpha` chosen by the direction of travel. */
  function Step(envelope: real, target: real, c: Coefficients): real {
    Pull(envelope, target, Alpha(c, DirectionOf(target, envelope)))
  }

  /** The one-pole update with a given coefficient. */
  function Pull(envelope: real, target: real, alpha: real): real {
    target + alpha * (envelope - target)
  }

  /** The new envelope lies between the target and the old envelope, on the
      same side of the target as before, and strictly closer to it unless
      already there; so a non-positive envelope chasing a non-positive target
      stays non-positive. */
  lemma StepContracts(envelope: real, target: real, c: Coefficients)
    requires c.Valid()
    ensures Min(target, envelope) <= Step(envelope, target, c) <= Max(target, envelope)
    ensures (Step(envelope, target, c) < target <==> envelope < target)
    ensures (Step(envelope, target, c) > target <==> envelope > target)
    ensures envelope != target ==> Abs(Step(envelope, target, c) - target) < Abs(envelope - target)
    ensures target <= 0.0 && envelope <= 0.0 ==> Step(envelope, target, c) <= 0.0
  {
    var alpha := Alpha(c, DirectionOf(target, envelope));
    PullBetween(envelope, target, alpha);
    assert Step(envelope, target, c) == Pull(envelope, target, alpha);
  }

  /** The pull with a coefficient in (0, 1) lands strictly between the target
      and the old envelope, unless the two already coincide. */
  lemma PullBetween(envelope: real, target: real, alpha: real)
    requires 0.0 < alpha < 1.0
    ensures envelope > target ==> target < Pull(envelope, target, alpha) < envelope
    ensures envelope < target ==> envelope < Pull(envelope, target, alpha) < target
    ensures envelope == target ==> Pull(envelope, target, alpha) == target
  {
    PullFromDistance(target, envelope - target, alpha);
    assert target + (envelope - target) == envelope;
  }

  /** The same, with the old envelope written as its distance `d` from the target. */
  lemma PullFromDistance(target: real, d: real, alpha: real)
    requires 0.0 < alpha < 1.0
    ensures d > 0.0 ==> target < Pull(target + d, target, alpha) < target + d
    ensures d < 0.0 ==> target + d < Pull(target + d, target, alpha) < target
    ensures d == 0.0 ==> Pull(target + d, target, alpha) == target
  {
    ScaleBounds(alpha, d);
  }

  /** Scaling by a factor in (0, 1) keeps the sign and shrinks the magnitude. */
  lemma ScaleBounds(alpha: real, d: real)
    requires 0.0 < alpha < 1.0
    ensures d > 0.0 ==> 0.0 < alpha * d < d
    ensures d < 0.0 ==> d < alpha * d < 0.0
    ensures d == 0.0 ==> alpha * d == 0.0
  {
    assert d > 0.0 ==> alpha * d < 1.0 * d;
    assert d < 0.0 ==> alpha * -d < 1.0 * -d;
  }

  /** The envelope after following `targets` one sample at a time from `envelope`. */
  function Run(envelope: real, targets: seq<real>, c: Coefficients): real
  {
    if |targets| == 0 then envelope
    else Step(Run(envelope, targets[..|targets| - 1], c), targets[|targets| - 1], c)
  }

  /** The envelope a run leaves behind: the last per-sample value, or the
      starting one when there were no samples. */
  function Final(start: real, envs: seq<real>): real {
    if |envs| == 0 then start else envs[|envs| - 1]
  }

  /** The envelope after each sample of a block: each entry is one step of the
      follower from the previous entry (from `start` for the first). */
  function Envelopes(start: real, targets: seq<real>, c: Coefficients): (envs: seq<real>)
    ensures |envs| == |targets|
    decreases |targets|
  {
    if |targets| == 0 then []
    else
      var prev := Envelopes(start, targets[..|targets| - 1], c);
      prev + [Step(Final(start, prev), targets[|targets| - 1], c)]
  }

  /** Entry `i` of the per-sample envelopes is the run over the first i + 1
      targets, and the last entry is the run over the whole block. */
  lemma {:induction false} EnvelopesAreRuns(start: real, targets: seq<real>, c: Coefficients)
    ensures forall i | 0 <= i < |targets| :: Envelopes(start, targets, c)[i] == Run(start, targets[..i + 1], c)
    ensures Final(start, Envelopes(start, targets, c)) == Run(start, targets, c)
    decreases |targets|
  {
    if |targets| > 0 {
      var n := |targets|;
      var prefix := targets[..n - 1];
      var prev := Envelopes(start, prefix, c);
      var envs := Envelopes(start, targets, c);
      EnvelopesAreRuns(start, prefix, c);
      assert targets[..n][..n - 1] == prefix;
      assert targets[..n] == targets;
      forall i | 0 <= i < n
        ensures envs[i] == Run(start, targets[..i + 1], c)
      {
        if i < n - 1 {
          assert envs[i] == prev[i];
          assert prefix[..i + 1] == targets[..i + 1];
        }
      }
    }
  }

  /** A target equal to the envelope is a fixed point of the follower. */
  lemma FixedPoint(target: real, c: Coefficients)
    ensures Step(target, target, c) == target
  {
  }

  /** If the starting envelope and every target lie in the half-open interval
      (lo, hi], so does the envelope after the run. */
  lemma {:induction false} RunStaysWithin(envelope: real, targets: seq<real>, c: Coefficients, lo: real, hi: real)
    requires c.Valid()
    requires lo < envelope <= hi
    requires forall k | 0 <= k < |targets| :: lo < targets[k] <= hi
    ensures lo < Run(envelope, targets, c) <= hi
    decreases |targets|
  {
    if |targets| > 0 {
      var prefix := targets[..|targets| - 1];
      RunStaysWithin(envelope, prefix, c, lo, hi);
      StepContracts(Run(envelope, prefix, c), targets[|targets| - 1], c);
    }
  }

  /** Every per-sample envelope of a block stays in (lo, hi] under the same
      conditions. */
  lemma {:induction false} EnvelopesStayWithin(envelope: real, targets: seq<real>, c: Coefficients, lo: real, hi: real)
    requires c.Valid()
    requires lo < envelope <= hi
    requires forall k | 0 <= k < |targets| :: lo < targets[k] <= hi
    ensures forall i | 0 <= i < |targets| :: lo < Envelopes(envelope, targets, c)[i] <= hi
  {
    EnvelopesAreRuns(envelope, targets, c);
    forall i | 0 <= i < |targets|
      ensures lo < Envelopes(envelope, targets, c)[i] <= hi
    {
      RunStaysWithin(envelope, targets[..i + 1], c, lo, hi);
    }
  }

  /** The textbook one-pole smoother with a single fixed coefficient, run for
      `n` samples against a fixed target. */
  function OnePole(envelope: real, target: real, alpha: real, n: nat): real {
    if n == 0 then envelope else Pull(OnePole(envelope, target, alpha, n - 1), target, alpha)
  }

  /** The fixed-coefficient smoother closes the signed distance to its target
      geometrically: after n samples it is alpha^n times the initial one. */
  lemma {:induction false} OnePoleGeometric(envelope: real, target: real, alpha: real, n: nat)
    ensures OnePole(envelope, target, alpha, n) - target == Pow(alpha, n) * (envelope - target)
  {
    if n > 0 {
      var prev := OnePole(envelope, target, alpha, n - 1);
      var next := OnePole(envelope, target, alpha, n);
      assert next == Pull(prev, target, alpha);
      assert Pow(alpha, n) == alpha * Pow(alpha, n - 1);
      OnePoleGeometric(envelope, target, alpha, n - 1);
      PullDistance(prev, target, alpha);
      GeometricStep(alpha, Pow(alpha, n - 1), Pow(alpha, n), envelope - target, prev - target, next - target);
    }
  }

  /** One pull scales the signed distance to the target by alpha. */
  lemma PullDistance(envelope: real, target: real, alpha: real)
    ensures Pull(envelope, target, alpha) - target == alpha * (envelope - target)
  {
  }

  lemma GeometricStep(alpha: real, p: real, pNext: real, dist0: real, mid: real, after: real)
    requires pNext == alpha * p
    requires mid == p * dist0 && after == alpha * mid
    ensures after == pNext * dist0
  {
  }

  /** With a constant target the follower never switches coefficient: it stays
      on the side of the target it started on, so it coincides with the
      fixed-coefficient smoother using the starting direction's coefficient. */
  lemma {:induction false} ConstantTargetKeepsDirection(envelope: real, targets: seq<real>, target: real, c: Coefficients)
    requires c.Valid()
    requires forall k | 0 <= k < |targets| :: targets[k] == target
    ensures DirectionOf(target, Run(envelope, targets, c)) == DirectionOf(target, envelope)
    ensures Run(envelope, targets, c) == OnePole(envelope, target, Alpha(c, DirectionOf(target, envelope)), |targets|)
    decreases |targets|
  {
    if |targets| > 0 {
      var prefix := targets[..|targets| - 1];
      ConstantTargetKeepsDirection(envelope, prefix, target, c);
      StepContracts(Run(envelope, prefix, c), target, c);
    }
  }

  /** With a constant target over a block the distance to the target after n
      samples is alpha^n times the initial one, alpha being the coefficient of
      the starting direction: geometric convergence. */
  lemma {:induction false} ConstantTargetDistance(envelope: real, targets: seq<real>, target: real, c: Coefficients)
    requires c.Valid()
    requires forall k | 0 <= k < |targets| :: targets[k] == target
    ensures Abs(Run(envelope, targets, c) - target)
            == Pow(Alpha(c, DirectionOf(target, envelope)), |targets|) * Abs(envelope - target)
  {
    var alpha := Alpha(c, DirectionOf(target, envelope));
    var n := |targets|;
    ConstantTargetKeepsDirection(envelope, targets, target, c);
    OnePoleDistance(envelope, target, alpha, n);
    assert Run(envelope, targets, c) == OnePole(envelope, target, alpha, n);
  }

  lemma {:induction false} OnePoleDistance(envelope: real, target: real, alpha: real, n: nat)
    requires 0.0 < alpha < 1.0
    ensures Abs(OnePole(envelope, target, alpha, n) - target) == Pow(alpha, n) * Abs(envelope - target)
  {
    OnePoleGeometric(envelope, target, alpha, n);
    PowInUnit(alpha, n);
    AbsOfScaled(Pow(alpha, n), envelope - target, OnePole(envelope, target, alpha, n) - target);
  }

  /** Powers of a coefficient in (0, 1) lie in (0, 1]. */
  lemma {:induction false} PowInUnit(alpha: real, n: nat)
    requires 0.0 < alpha < 1.0
    ensures 0.0 < Pow(alpha, n) <= 1.0
  {
    if n > 0 {
      PowInUnit(alpha, n - 1);
      var p := Pow(alpha, n - 1);
      assert alpha * p <= 1.0 * p;
    }
  }

  lemma AbsOfScaled(p: real, d: real, x: real)
    requires p >= 0.0 && x == p * d
    ensures Abs(x) == p * Abs(d)
  {
    if d < 0.0 {
      assert x == -(p * -d);
    }
  }

  /** A target equal to the envelope is a fixed point of the follower, over a
      whole run as over one sample. */
  lemma {:induction false} RunAtRest(envelope: real, targets: seq<real>, c: Coefficients)
    requires forall k | 0 <= k < |targets| :: targets[k] == envelope
    ensures Run(envelope, targets, c) == envelope
    decreases |targets|
  {
    if |targets| > 0 {
      RunAtRest(envelope, targets[..|targets| - 1], c);
    }
  }

  /** A block whose targets all equal the current envelope leaves every
      per-sample envelope there. */
  lemma {:induction false} SteadyState(envelope: real, targets: seq<real>, c: Coefficients)
    requires forall k | 0 <= k < |targets| :: targets[k] == envelope
    ensures forall i | 0 <= i < |targets| :: Envelopes(envelope, targets, c)[i] == envelope
  {
    EnvelopesAreRuns(envelope, targets, c);
    forall i | 0 <= i < |targets|
      ensures Envelopes(envelope, targets, c)[i] == envelope
    {
      RunAtRest(envelope, targets[..i + 1], c);
    }
  }
}
