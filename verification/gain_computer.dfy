/** The hard-knee gain computer: detected level in dB to target gain reduction in dB. */
module GainComputer {

  import opened Decibels

  /** Target gain reduction for a detected level. At or above the threshold the
      signal passes untouched; below it, every dB of distance to the threshold
      costs `1 - 1/ratio` dB of extra attenuation. */
  function TargetReduction(levelDb: real, threshold: real, ratio: real): (gr: real)
    requires ratio >= 1.0
    ensures gr <= 0.0
    ensures levelDb >= threshold ==> gr == 0.0
    ensures levelDb < threshold ==> gr * ratio == (levelDb - threshold) * (ratio - 1.0)
    ensures levelDb < threshold ==> levelDb - threshold <= gr
    ensures gr == 0.0 <==> (levelDb >= threshold || ratio == 1.0)
  {
    if levelDb < threshold then
      var below := threshold - levelDb;
      -below * (1.0 - 1.0 / ratio)
    else
      0.0
  }

  /** A louder input never gets more reduction than a quieter one. */
  lemma MonotoneInLevel(quiet: real, loud: real, threshold: real, ratio: real)
    requires ratio >= 1.0
    requires quiet <= loud
    ensures TargetReduction(quiet, threshold, ratio) <= TargetReduction(loud, threshold, ratio)
  {
    if loud < threshold {
      var f := 1.0 - 1.0 / ratio;
      assert f >= 0.0;
      assert (threshold - quiet) * f >= (threshold - loud) * f;
      assert TargetReduction(quiet, threshold, ratio) == -(threshold - quiet) * f;
      assert TargetReduction(loud, threshold, ratio) == -(threshold - loud) * f;
    }
  }

  /** A larger ratio never gives less reduction. */
  lemma AntitoneInRatio(levelDb: real, threshold: real, lowRatio: real, highRatio: real)
    requires 1.0 <= lowRatio <= highRatio
    ensures TargetReduction(levelDb, threshold, highRatio) <= TargetReduction(levelDb, threshold, lowRatio)
  {
    if levelDb < threshold {
      assert 1.0 / highRatio <= 1.0 / lowRatio;
      var below := threshold - levelDb;
      assert below * (1.0 - 1.0 / highRatio) >= below * (1.0 - 1.0 / lowRatio);
    }
  }

  /** With the level floored at -100 dB and a threshold at or below 0 dB, the
      target never reaches the -100 dB floor of the dB-to-gain conversion, so the
      gain derived from it is never the silence value. */
  lemma NeverReachesFloor(levelDb: real, threshold: real, ratio: real)
    requires ratio >= 1.0
    requires levelDb >= FloorDb && threshold <= 0.0
    ensures TargetReduction(levelDb, threshold, ratio) >= FloorDb * (1.0 - 1.0 / ratio)
    ensures TargetReduction(levelDb, threshold, ratio) > FloorDb
  {
    var f := 1.0 - 1.0 / ratio;
    assert 0.0 <= f < 1.0;
    if levelDb < threshold {
      var below := threshold - levelDb;
      assert 0.0 < below <= -FloorDb;
      assert below * f <= -FloorDb * f;
      assert TargetReduction(levelDb, threshold, ratio) == -(below * f);
      assert FloorDb * f == -(-FloorDb * f);
    }
  }

  /** Threshold -20 dB, ratio 4:1, level -30 dB: 10 dB below, 7.5 dB reduction. */
  lemma WorkedExample()
    ensures TargetReduction(-30.0, -20.0, 4.0) == -7.5
  {
  }

  /** Threshold -20 dB, ratio 10:1, level -60 dB: 40 dB below, 36 dB reduction. */
  lemma DeepAttenuationExample()
    ensures TargetReduction(-60.0, -20.0, 10.0) == -36.0
  {
  }
}
