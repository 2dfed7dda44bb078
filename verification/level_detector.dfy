/** Linked peak detection: one level for all input channels at one sample index. */
module LevelDetector {

  import opened Reals

  /** The first `n` samples of each of the first `numIn` channels exist. */
  predicate HasColumns(buffer: seq<seq<real>>, numIn: nat, n: nat) {
    numIn <= |buffer| && forall c | 0 <= c < numIn :: n <= |buffer[c]|
  }

  /** The channels a detector reads: the first `numIn` channels of the buffer,
      each long enough to hold sample `i`. */
  predicate HasColumn(buffer: seq<seq<real>>, numIn: nat, i: nat) {
    HasColumns(buffer, numIn, i + 1)
  }

  /** The running peak of sample `i` over the first `numIn` channels,
      scanning the channels in order from 0 and keeping the larger magnitude. */
  function Peak(buffer: seq<seq<real>>, numIn: nat, i: nat): (p: real)
    requires HasColumn(buffer, numIn, i)
    ensures p >= 0.0
  {
    if numIn == 0 then 0.0
    else
      var running := Peak(buffer, numIn - 1, i);
      var a := Abs(buffer[numIn - 1][i]);
      if a > running then a else running
  }

  /** The peak is the maximum of 0 and the channel magnitudes at index `i`,
      and it is 0 exactly when every channel is silent there. */
  lemma {:induction false} PeakIsMax(buffer: seq<seq<real>>, numIn: nat, i: nat)
    requires HasColumn(buffer, numIn, i)
    ensures forall c | 0 <= c < numIn :: Abs(buffer[c][i]) <= Peak(buffer, numIn, i)
    ensures Peak(buffer, numIn, i) == 0.0 || exists c | 0 <= c < numIn :: Peak(buffer, numIn, i) == Abs(buffer[c][i])
    ensures Peak(buffer, numIn, i) == 0.0 <==> forall c | 0 <= c < numIn :: buffer[c][i] == 0.0
  {
    if numIn > 0 {
      PeakIsMax(buffer, numIn - 1, i);
    }
  }

  /** The peak reads nothing but sample `i` of the input channels: two buffers
      that agree there have the same peak. */
  lemma {:induction false} PeakOfSameSamples(b1: seq<seq<real>>, b2: seq<seq<real>>, numIn: nat, i: nat)
    requires HasColumn(b1, numIn, i) && HasColumn(b2, numIn, i)
    requires forall c | 0 <= c < numIn :: b1[c][i] == b2[c][i]
    ensures Peak(b1, numIn, i) == Peak(b2, numIn, i)
  {
    if numIn > 0 {
      PeakOfSameSamples(b1, b2, numIn - 1, i);
    }
  }

  /** The detector loop over the input channels at sample index `i`. */
  method LinkedPeak(buffer: seq<seq<real>>, numIn: nat, i: nat) returns (p: real)
    requires HasColumn(buffer, numIn, i)
    ensures p == Peak(buffer, numIn, i)
    ensures forall c | 0 <= c < numIn :: Abs(buffer[c][i]) <= p
    ensures p == 0.0 || exists c | 0 <= c < numIn :: p == Abs(buffer[c][i])
  {
    p := 0.0;
    var ch := 0;
    while ch < numIn
      invariant 0 <= ch <= numIn
      invariant p == Peak(buffer, ch, i)
    {
      var a := Abs(buffer[ch][i]);
      if a > p {
        p := a;
      }
      ch := ch + 1;
    }
    PeakIsMax(buffer, numIn, i);
  }
}
