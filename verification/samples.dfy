/** Sample-level arithmetic used by the session controller: the hard clip to the
    normalised range [-1, 1], uniform gain, the energy of a buffer, and the crude
    loudness correction that serves as the last-resort mastering path.
    Samples are reals: IEEE rounding and the NaN that an empty buffer would produce
    are not modelled. */
module Samples {

  type Buffer = seq<real>

  /** Loudness (RMS) the basic mastering path aims for. */
  const TargetRms: real := 0.1
  /** Largest gain the basic mastering path may apply. */
  const MaxGain: real := 1.5
  /** Guard added to the RMS before dividing (1e-10). */
  const Epsilon: real := 0.0000000001

  predicate InRange(x: real) { -1.0 <= x <= 1.0 }

  /** Every sample lies in the normalised range. */
  predicate Bounded(s: Buffer) { forall i :: 0 <= i < |s| ==> InRange(s[i]) }

  /** Hard clip of one sample to [-1, 1] (numpy's clip). */
  function Clip(x: real): (y: real)
    ensures InRange(y)
    ensures InRange(x) ==> y == x
    ensures 0.0 <= x ==> 0.0 <= y <= x
    ensures x <= 0.0 ==> x <= y <= 0.0
  {
    if x < -1.0 then -1.0 else if x > 1.0 then 1.0 else x
  }

  /** Element-wise hard clip of a buffer. */
  function ClipBuffer(s: Buffer): (r: Buffer)
    ensures |r| == |s| && Bounded(r)
    ensures forall i :: 0 <= i < |s| ==> r[i] == Clip(s[i])
  {
    seq(|s|, i requires 0 <= i < |s| => Clip(s[i]))
  }

  /** Clipping a buffer that is already in range changes nothing. */
  lemma ClipBufferIdentity(s: Buffer)
    requires Bounded(s)
    ensures ClipBuffer(s) == s
  {
  }

  /** Clipping twice is clipping once. */
  lemma ClipBufferIdempotent(s: Buffer)
    ensures ClipBuffer(ClipBuffer(s)) == ClipBuffer(s)
  {
    ClipBufferIdentity(ClipBuffer(s));
  }

  /** Uniform gain applied to every sample. */
  function Scale(s: Buffer, g: real): Buffer
  {
    seq(|s|, i requires 0 <= i < |s| => s[i] * g)
  }

  /** Sum of a sequence of reals. */
  function Sum(xs: seq<real>): real
  {
    if |xs| == 0 then 0.0 else xs[0] + Sum(xs[1..])
  }

  /** The squared samples. */
  function Squares(s: Buffer): seq<real>
  {
    seq(|s|, i requires 0 <= i < |s| => s[i] * s[i])
  }

  /** The energy of a buffer: the sum of its squared samples. */
  function Energy(s: Buffer): real
  {
    Sum(Squares(s))
  }

  /** `rms` is the root mean square of `s`: its square times the length is the
      energy. Stated without division or square root; for an empty buffer every
      rms >= 0 qualifies (the source's mean of nothing is NaN). */
  predicate IsRms(rms: real, s: Buffer) {
    rms >= 0.0 && Energy(s) == rms * rms * (|s| as real)
  }

  /** The root mean square of `s` is at most `bound`. */
  predicate RmsAtMost(s: Buffer, bound: real) {
    Energy(s) <= bound * bound * (|s| as real)
  }

  /** Summing is monotone in every term. */
  lemma {:induction false} SumMonotone(xs: seq<real>, ys: seq<real>)
    requires |xs| == |ys|
    requires forall i :: 0 <= i < |xs| ==> xs[i] <= ys[i]
    ensures Sum(xs) <= Sum(ys)
  {
    if |xs| > 0 {
      SumMonotone(xs[1..], ys[1..]);
    }
  }

  /** Multiplying every term by `k` multiplies the sum by `k`. */
  lemma {:induction false} SumScaled(xs: seq<real>, k: real)
    ensures Sum(Scale(xs, k)) == k * Sum(xs)
  {
    if |xs| > 0 {
      var t := Scale(xs, k);
      forall i | 0 <= i < |xs| - 1 ensures t[1..][i] == Scale(xs[1..], k)[i] {
        assert t[1..][i] == t[i + 1];
      }
      assert t[1..] == Scale(xs[1..], k);
      SumScaled(xs[1..], k);
      Distribute(k, xs[0], Sum(xs[1..]));
    }
  }

  // Arithmetic steps kept in lemmas of their own so that each proof stays small.

  lemma Distribute(k: real, a: real, b: real)
    ensures a * k + k * b == k * (a + b)
  {
  }

  lemma SquareOfProduct(x: real, g: real)
    ensures (x * g) * (x * g) == (x * x) * (g * g)
  {
  }

  lemma SquareMonotone(a: real, b: real)
    requires 0.0 <= a <= b
    ensures a * a <= b * b
  {
  }

  lemma SquareOfNegation(x: real)
    ensures (-x) * (-x) == x * x
  {
  }

  lemma ProductMonotone(k: real, a: real, b: real)
    requires k >= 0.0 && a <= b
    ensures k * a <= k * b
  {
  }

  lemma RegroupSquare(g: real, r: real, n: real)
    ensures g * g * (r * r * n) == n * ((g * r) * (g * r))
  {
  }

  /** Clipping a sample never increases its square. */
  lemma ClipSquare(x: real)
    ensures Clip(x) * Clip(x) <= x * x
  {
    if x > 1.0 {
      SquareMonotone(1.0, x);
    } else if x < -1.0 {
      SquareMonotone(1.0, -x);
      SquareOfNegation(x);
    }
  }

  /** Clipping never adds energy. */
  lemma EnergyClip(s: Buffer)
    ensures Energy(ClipBuffer(s)) <= Energy(s)
  {
    var c := ClipBuffer(s);
    forall i | 0 <= i < |s| ensures Squares(c)[i] <= Squares(s)[i] {
      ClipSquare(s[i]);
    }
    SumMonotone(Squares(c), Squares(s));
  }

  /** A uniform gain scales the energy by the square of the gain. */
  lemma EnergyScale(s: Buffer, g: real)
    ensures Energy(Scale(s, g)) == g * g * Energy(s)
  {
    SquaresOfScale(s, g);
    SumScaled(Squares(s), g * g);
  }

  /** The squares of a scaled buffer are its squares scaled by the square of the gain. */
  lemma SquaresOfScale(s: Buffer, g: real)
    ensures Squares(Scale(s, g)) == Scale(Squares(s), g * g)
  {
    var sq := Squares(Scale(s, g));
    forall i | 0 <= i < |s| ensures sq[i] == Scale(Squares(s), g * g)[i] {
      SquareOfProduct(s[i], g);
    }
  }

  /** The gain of the basic mastering path: TargetRms / (rms + Epsilon), capped at MaxGain. */
  function BasicGain(rms: real): (g: real)
    requires rms >= 0.0
    ensures 0.0 < g <= MaxGain
    ensures g * (rms + Epsilon) <= TargetRms
    ensures g == MaxGain || g * (rms + Epsilon) == TargetRms
  {
    var raw := TargetRms / (rms + Epsilon);
    if MaxGain < raw then MaxGain else raw
  }

  /** The basic mastering path: one uniform gain, then a hard clip. */
  function BasicMastered(s: Buffer, rms: real): (r: Buffer)
    requires rms >= 0.0
    ensures |r| == |s| && Bounded(r)
  {
    ClipBuffer(Scale(s, BasicGain(rms)))
  }

  /** Clipping after a uniform gain leaves at most the square of the gain times the
      energy. */
  lemma EnergyClippedGain(s: Buffer, g: real)
    ensures Energy(ClipBuffer(Scale(s, g))) <= g * g * Energy(s)
  {
    EnergyClip(Scale(s, g));
    EnergyScale(s, g);
  }

  /** The arithmetic core of the loudness bound, over plain reals. */
  lemma LoudnessBound(g: real, rms: real, n: real, out: real, e: real)
    requires g > 0.0 && rms >= 0.0 && n >= 0.0
    requires g * (rms + Epsilon) <= TargetRms
    requires out <= g * g * e
    requires e == rms * rms * n
    ensures out <= TargetRms * TargetRms * n
  {
    ProductMonotone(g, 0.0, rms);
    ProductMonotone(g, rms, rms + Epsilon);
    SquareMonotone(g * rms, TargetRms);
    RegroupSquare(g, rms, n);
    ProductMonotone(n, (g * rms) * (g * rms), TargetRms * TargetRms);
  }

  lemma EnergyBound(c: Buffer, s: Buffer, g: real, rms: real)
    requires |c| == |s| && IsRms(rms, s)
    requires g > 0.0 && g * (rms + Epsilon) <= TargetRms
    requires Energy(c) <= g * g * Energy(s)
    ensures RmsAtMost(c, TargetRms)
  {
    LoudnessBound(g, rms, |s| as real, Energy(c), Energy(s));
  }

  /** A gain that would take the RMS to at most the target, followed by the clip,
      leaves the buffer no louder than the target. */
  lemma ClippedGainAtMostTarget(s: Buffer, rms: real, g: real)
    requires IsRms(rms, s)
    requires g > 0.0 && g * (rms + Epsilon) <= TargetRms
    ensures RmsAtMost(ClipBuffer(Scale(s, g)), TargetRms)
  {
    EnergyClippedGain(s, g);
    EnergyBound(ClipBuffer(Scale(s, g)), s, g, rms);
  }

  /** Whatever the input, the basic mastering path never leaves the buffer louder
      than the target loudness. */
  lemma BasicMasteringAtMostTarget(s: Buffer, rms: real)
    requires IsRms(rms, s)
    ensures RmsAtMost(BasicMastered(s, rms), TargetRms)
  {
    ClippedGainAtMostTarget(s, rms, BasicGain(rms));
  }

  /** A silent buffer stays silent and unchanged: the epsilon guard prevents a
      division blow-up and silence times any gain is silence. */
  lemma SilenceUnchanged(s: Buffer, rms: real)
    requires rms >= 0.0
    requires forall i :: 0 <= i < |s| ==> s[i] == 0.0
    ensures BasicMastered(s, rms) == s
  {
  }
}
