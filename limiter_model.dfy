/** The look-ahead peak limiter as values: its settings and state, one step
    of `Limiter32::process` as a function, runs of steps, and the properties
    the limiter promises (output ceiling, safe division, gains within
    [0, 1], hold window, ring-buffer cursor, an exact L-sample delay). */
module LimiterModel {
  import opened FixedPoint

  /** At most this many channels get a look-ahead buffer. */
  const MaxLimiterChans: int := 2

  /** `>> 31` on a non-negative 64-bit product is a floor division by 2^31. */
  const Q31: int := 0x8000_0000

  /** `maxVal & 0xFFFF0000` clears the low 16 bits of a non-negative peak. */
  const PeakQuantum: int := 0x1_0000

  /** Settings fixed at construction (`thresholdLin` also by `setThreshold`)
      and the state that `process` updates. `lookaheadMem[i]` is channel
      `i`'s ring buffer of `nLookaheadSamps` delayed samples. */
  datatype Limiter = Limiter(
    nChans: int,
    aAtt: int, bAtt: int,
    aRel: int, bRel: int,
    nHoldSamps: int,
    nLookaheadSamps: int,
    thresholdLin: int,
    lookaheadMem: seq<seq<int>>,
    lookaheadCnt: int,
    holdCnt: int,
    gain: int,
    relState: int)

  /** Channels the loops visit: `for (i = 0; i < nChans; i++)` runs no
      iteration for a negative count. */
  function ActiveChans(nChans: int): nat {
    if nChans < 0 then 0 else nChans
  }

  /** A one-pole coefficient pair in Q31 that sums to full scale. */
  predicate IsPolePair(a: int, b: int) {
    0 <= b <= FullScale && a == FullScale - b
  }

  /** The hold counter is either still at its reload value (which a
      negative hold time makes negative) or counting down inside [0, nHold]. */
  predicate HoldInRange(holdCnt: int, nHoldSamps: int) {
    holdCnt == nHoldSamps || 0 <= holdCnt <= nHoldSamps
  }

  predicate Valid(l: Limiter) {
    && l.nChans <= MaxLimiterChans
    && IsPolePair(l.aAtt, l.bAtt)
    && IsPolePair(l.aRel, l.bRel)
    && IsInt32(l.nHoldSamps)
    && 1 <= l.nLookaheadSamps <= Int32Max
    && 0 <= l.thresholdLin <= FullScale
    && |l.lookaheadMem| == ActiveChans(l.nChans)
    && (forall i :: 0 <= i < |l.lookaheadMem| ==> |l.lookaheadMem[i]| == l.nLookaheadSamps)
    && (forall i, j :: 0 <= i < |l.lookaheadMem| && 0 <= j < |l.lookaheadMem[i]| ==> IsInt32(l.lookaheadMem[i][j]))
    && 0 <= l.lookaheadCnt < l.nLookaheadSamps
    && HoldInRange(l.holdCnt, l.nHoldSamps)
    && 0 <= l.gain <= FullScale
    && 0 <= l.relState <= FullScale
  }

  /** Both limiters have the same settings (everything but the state). */
  predicate SameSettings(a: Limiter, b: Limiter) {
    && a.nChans == b.nChans
    && a.aAtt == b.aAtt && a.bAtt == b.bAtt
    && a.aRel == b.aRel && a.bRel == b.bRel
    && a.nHoldSamps == b.nHoldSamps
    && a.nLookaheadSamps == b.nLookaheadSamps
    && a.thresholdLin == b.thresholdLin
  }

  /** The state right after construction: silent buffers, cursor at the
      start, a full hold window and unity gain. */
  predicate IsFresh(l: Limiter) {
    && (forall i, j :: 0 <= i < |l.lookaheadMem| && 0 <= j < |l.lookaheadMem[i]| ==> l.lookaheadMem[i][j] == 0)
    && l.lookaheadCnt == 0
    && l.holdCnt == l.nHoldSamps
    && l.gain == FullScale
    && l.relState == FullScale
  }

  /** A frame `process` accepts: every active channel present and a
      32-bit sample other than INT32_MIN, whose `abs` is undefined. */
  predicate IsLimiterInput(nChans: int, samples: seq<int>) {
    && ActiveChans(nChans) <= |samples|
    && (forall i :: 0 <= i < ActiveChans(nChans) ==> Int32Min < samples[i] <= Int32Max)
  }

  // ---------------------------------------------------------------------
  // Construction and threshold
  // ---------------------------------------------------------------------

  /** A double whose `(int32_t)` truncation lies in [0, 0x7FFFFFFF]. */
  predicate ScaledFits(x: real) {
    -1.0 < x < FullScale as real + 1.0
  }

  /** `(int32_t)(1. / (t * fs) * 0x7FFFFFFF)` is defined and is a valid
      one-pole coefficient. */
  predicate CoefficientFits(t: real, fs: int) {
    t * fs as real != 0.0 && ScaledFits(1.0 / (t * fs as real) * FullScale as real)
  }

  /** The one-pole coefficient of time constant `t` seconds at `fs` Hz. */
  function SmoothingCoefficient(t: real, fs: int): (b: int)
    requires CoefficientFits(t, fs)
    ensures 0 <= b <= FullScale
  {
    TruncToInt(1.0 / (t * fs as real) * FullScale as real)
  }

  /** The look-ahead length `(int32_t)(tAtt * fs)` is at least one sample. */
  predicate LookaheadFits(tAtt: real, fs: int) {
    1.0 <= tAtt * fs as real < Int32Max as real + 1.0
  }

  /** `(int32_t)(t * fs)` is defined. */
  predicate SampleCountFits(t: real, fs: int) {
    Int32Min as real - 1.0 < t * fs as real < Int32Max as real + 1.0
  }

  /** A duration of `t` seconds at `fs` Hz in whole samples. */
  function SampleCount(t: real, fs: int): (n: int)
    requires SampleCountFits(t, fs)
    ensures IsInt32(n)
    ensures 0.0 <= t * fs as real ==> n as real <= t * fs as real < n as real + 1.0
  {
    TruncToInt(t * fs as real)
  }

  /** An attack time of at least one sample also gives a valid coefficient. */
  lemma LookaheadGivesCoefficient(tAtt: real, fs: int)
    requires LookaheadFits(tAtt, fs)
    ensures CoefficientFits(tAtt, fs)
  {
    var x := tAtt * fs as real;
    var y := 1.0 / x;
    assert 0.0 < y <= 1.0 by {
      assert y * x == 1.0;
    }
    assert y * FullScale as real <= FullScale as real;
  }

  predicate ThresholdFits(threshold: real, m: MathLib) {
    threshold >= 0.0 || ScaledFits(m.pow(10.0, threshold / 20.0) * FullScale as real)
  }

  /** The linear threshold of a level in dBFS: full scale for 0 dBFS and
      above, otherwise 10^(threshold/20) of full scale, truncated. */
  function LinearThreshold(threshold: real, m: MathLib): (thr: int)
    requires ThresholdFits(threshold, m)
    ensures 0 <= thr <= FullScale
    ensures threshold >= 0.0 ==> thr == FullScale
    ensures threshold < 0.0 ==> thr as real <= m.pow(10.0, threshold / 20.0) * FullScale as real + 1.0
    ensures var v := m.pow(10.0, threshold / 20.0) * FullScale as real;
      threshold < 0.0 && 0.0 <= v ==> thr as real <= v < thr as real + 1.0
  {
    if threshold >= 0.0 then FullScale
    else TruncToInt(m.pow(10.0, threshold / 20.0) * FullScale as real)
  }

  /** The channel count kept by a constructor: larger requests are cut down
      to the number of buffers the limiter has. */
  function ClampChannels(channels: int): (n: int)
    ensures n <= MaxLimiterChans
    ensures n == channels || (channels > MaxLimiterChans && n == MaxLimiterChans)
  {
    if channels > MaxLimiterChans then MaxLimiterChans else channels
  }

  predicate SettingsFit(tAtt: real, tHold: real, tRel: real, fs: int) {
    LookaheadFits(tAtt, fs) && SampleCountFits(tHold, fs) && CoefficientFits(tRel, fs)
  }

  /** Buffers of `n` channels, `len` zero samples each. */
  function SilentBuffers(n: nat, len: nat): (mem: seq<seq<int>>)
    ensures |mem| == n
    ensures forall i :: 0 <= i < n ==> |mem[i]| == len
    ensures forall i, j :: 0 <= i < n && 0 <= j < len ==> mem[i][j] == 0
  {
    seq(n, i => seq(len, j => 0))
  }

  /** A limiter built from its settings in their C representation. */
  function Initial(nChans: int, bAtt: int, bRel: int, nHoldSamps: int, nLookaheadSamps: int, thresholdLin: int): (l: Limiter)
    requires nChans <= MaxLimiterChans && 0 <= bAtt <= FullScale && 0 <= bRel <= FullScale
    requires IsInt32(nHoldSamps) && 1 <= nLookaheadSamps <= Int32Max && 0 <= thresholdLin <= FullScale
    ensures Valid(l) && IsFresh(l)
    ensures l.nChans == nChans && l.bAtt == bAtt && l.bRel == bRel && l.thresholdLin == thresholdLin
    ensures l.nHoldSamps == nHoldSamps && l.nLookaheadSamps == nLookaheadSamps
  {
    Limiter(nChans, FullScale - bAtt, bAtt, FullScale - bRel, bRel, nHoldSamps, nLookaheadSamps,
            thresholdLin, SilentBuffers(ActiveChans(nChans), nLookaheadSamps), 0, nHoldSamps, FullScale, FullScale)
  }

  /** `Limiter32(threshold, tAtt, tHold, tRel, channnels, fs)`. */
  function Create(threshold: real, tAtt: real, tHold: real, tRel: real, channels: int, fs: int, m: MathLib): (l: Limiter)
    requires SettingsFit(tAtt, tHold, tRel, fs) && ThresholdFits(threshold, m)
    ensures Valid(l) && IsFresh(l)
    ensures l.nChans == ClampChannels(channels)
    ensures l.nLookaheadSamps as real <= tAtt * fs as real < l.nLookaheadSamps as real + 1.0
    ensures l.thresholdLin == LinearThreshold(threshold, m)
    ensures threshold >= 0.0 ==> l.thresholdLin == FullScale
  {
    LookaheadGivesCoefficient(tAtt, fs);
    Initial(ClampChannels(channels), SmoothingCoefficient(tAtt, fs), SmoothingCoefficient(tRel, fs),
            SampleCount(tHold, fs), SampleCount(tAtt, fs), LinearThreshold(threshold, m))
  }

  /** `Limiter32(channnels)`: 2 ms attack and look-ahead, 10 ms hold,
      1 s release at 48 kHz, threshold 0x40000000 (-6 dBFS). */
  function CreateDefault(channels: int): (l: Limiter)
    ensures Valid(l) && IsFresh(l)
    ensures l.nChans == ClampChannels(channels)
    ensures l.bAtt == 22369621 && l.aAtt == 2125114026
    ensures l.bRel == 44739 && l.aRel == 2147438908
    ensures l.nHoldSamps == 480 && l.nLookaheadSamps == 96
    ensures l.thresholdLin == 0x4000_0000
  {
    var tAtt, tHold, tRel, fs := 0.002, 0.01, 1.0, 48000;
    assert tAtt * fs as real == 96.0 && tHold * fs as real == 480.0 && tRel * fs as real == 48000.0;
    LookaheadGivesCoefficient(tAtt, fs);
    Initial(ClampChannels(channels), SmoothingCoefficient(tAtt, fs), SmoothingCoefficient(tRel, fs),
            SampleCount(tHold, fs), SampleCount(tAtt, fs), 0x4000_0000)
  }

  // ---------------------------------------------------------------------
  // One step of process()
  // ---------------------------------------------------------------------

  function Abs(x: int): (r: int)
    ensures r >= 0 && (r == x || r == -x)
  {
    if x < 0 then -x else x
  }

  /** The running `max(abs(inSamps[i]), maxVal)` over the first `n` channels,
      starting from zero. */
  function Peak(samples: seq<int>, n: nat): (p: int)
    requires n <= |samples|
    ensures 0 <= p
    ensures forall i :: 0 <= i < n ==> Abs(samples[i]) <= p
    ensures n == 0 ==> p == 0
    ensures n > 0 ==> exists i :: 0 <= i < n && p == Abs(samples[i])
  {
    if n == 0 then 0 else Max(Abs(samples[n - 1]), Peak(samples, n - 1))
  }

  /** `maxVal & 0xFFFF0000` for a non-negative 32-bit peak: the peak rounded
      down to a multiple of 2^16. */
  function MaskPeak(p: int): (q: int)
    requires 0 <= p
    ensures 0 <= q <= p < q + PeakQuantum
    ensures q % PeakQuantum == 0
  {
    p - p % PeakQuantum
  }

  /** The gain that would bring the masked peak down to the threshold:
      `(thresholdLin / (maxVal >> 16)) << 15` when the peak is above it,
      unity otherwise. */
  function InstantGain(masked: int, thr: int): (g: int)
    requires 0 <= masked && masked % PeakQuantum == 0
    requires 0 <= thr <= FullScale
    ensures 0 <= g <= FullScale
    ensures masked <= thr ==> g == FullScale
    ensures masked > thr ==> Attenuate(g, masked) <= thr
  {
    if masked > thr then
      InstantGainBounds(masked, thr);
      (thr / (masked / PeakQuantum)) * 0x8000
    else FullScale
  }

  /** Division safety and the meaning of the instantaneous gain: the divisor
      `maxVal >> 16` is at least one, the shifted quotient fits in 31 bits,
      and applying it to the masked peak lands at or below the threshold. */
  lemma InstantGainBounds(masked: int, thr: int)
    requires 0 <= masked && masked % PeakQuantum == 0
    requires 0 <= thr <= FullScale && masked > thr
    ensures masked / PeakQuantum >= 1
    ensures 0 <= (thr / (masked / PeakQuantum)) * 0x8000 <= FullScale
    ensures (thr / (masked / PeakQuantum)) * 0x8000 * masked / Q31 <= thr
  {
    var k := masked / PeakQuantum;
    assert masked == PeakQuantum * k;
    assert k >= 1;
    var q := thr / k;
    assert q * k <= thr;
    assert q < PeakQuantum by {
      if q >= PeakQuantum {
        MulMonotone(PeakQuantum, q, k);
      }
    }
    assert q * 0x8000 * masked == (q * k) * Q31;
  }

  lemma MulMonotone(a: int, b: int, c: int)
    requires a <= b && 0 <= c
    ensures a * c <= b * c
  {
  }

  /** `((int64_t)g * x) >> 31` for a gain g in [0, 1]: it never amplifies,
      keeps the sign and fits in 32 bits. */
  function Attenuate(g: int, x: int): (r: int)
    requires 0 <= g <= FullScale
    ensures 0 <= x ==> 0 <= r <= x
    ensures x <= 0 ==> x <= r <= 0
  {
    if 0 <= x then
      MulMonotone(g, FullScale, x);
      g * x / Q31
    else
      MulMonotone(g, FullScale, -x);
      g * x / Q31
  }

  /** The one-pole smoother `((x * b) >> 31) + ((y * a) >> 31)` with
      a + b = full scale: it stays in [0, 1] and never exceeds both its
      target `x` and its previous value `y`. */
  function Smooth(x: int, y: int, b: int, a: int): (r: int)
    requires 0 <= x <= FullScale && 0 <= y <= FullScale && IsPolePair(a, b)
    ensures 0 <= r <= Max(x, y)
  {
    SmoothBounds(x, y, b, a);
    x * b / Q31 + y * a / Q31
  }

  lemma SmoothBounds(x: int, y: int, b: int, a: int)
    requires 0 <= x <= FullScale && 0 <= y <= FullScale && IsPolePair(a, b)
    ensures 0 <= x * b / Q31 + y * a / Q31 <= Max(x, y)
  {
    var top := Max(x, y);
    MulMonotone(x, top, b);
    MulMonotone(y, top, a);
    assert x * b + y * a <= top * FullScale by {
      assert top * b + top * a == top * (b + a);
    }
    FloorsAddBelow(x * b, y * a);
    assert top * FullScale == top * Q31 - top;
  }

  /** The smoother never undershoots both of its inputs by more than the
      two units its two floor divisions can lose. */
  lemma SmoothLowerBound(x: int, y: int, b: int, a: int)
    requires 0 <= x <= FullScale && 0 <= y <= FullScale && IsPolePair(a, b)
    ensures Min(x, y) - 2 <= Smooth(x, y, b, a)
  {
    var low := Min(x, y);
    MulMonotone(low, x, b);
    MulMonotone(low, y, a);
    assert low * b + low * a == low * FullScale;
    var p, q := x * b / Q31, y * a / Q31;
    assert p * Q31 > x * b - Q31 && q * Q31 > y * a - Q31;
    assert (p + q) * Q31 > low * Q31 - low - 2 * Q31;
    assert (p + q) * Q31 > (low - 3) * Q31;
    if p + q <= low - 3 {
      MulMonotone(p + q, low - 3, Q31);
    }
  }

  /** Two floor divisions by 2^31 sum to at most the floor of the sum. */
  lemma FloorsAddBelow(p: int, q: int)
    requires 0 <= p && 0 <= q
    ensures 0 <= p / Q31 + q / Q31 <= (p + q) / Q31
  {
  }

  /** `max(min(v, thr), -thr)`. */
  function Clamp(v: int, thr: int): (r: int)
    requires 0 <= thr
    ensures -thr <= r <= thr
    ensures -thr <= v <= thr ==> r == v
    ensures v > thr ==> r == thr
    ensures v < -thr ==> r == -thr
  {
    var low := if v < thr then v else thr;
    if low > -thr then low else -thr
  }

  /** The attack condition of `process`: the frame's gain is below where
      the release smoother would move the envelope. */
  predicate IsAttack(l: Limiter, gainTmp: int)
    requires Valid(l) && 0 <= gainTmp <= FullScale
  {
    gainTmp < Smooth(gainTmp, l.relState, l.bRel, l.aRel)
  }

  /** The release envelope and the hold counter after one step. */
  datatype Envelope = Envelope(relState: int, holdCnt: int)

  /** A new gain reduction (target below the smoothed release value) takes
      effect at once and restarts the hold window; otherwise the hold counter
      runs down first, and only then does the envelope release towards the
      target. */
  function Release(l: Limiter, gainTmp: int): (env: Envelope)
    requires Valid(l) && 0 <= gainTmp <= FullScale
    ensures 0 <= env.relState <= FullScale
    ensures HoldInRange(env.holdCnt, l.nHoldSamps)
    ensures env.relState <= Max(gainTmp, l.relState)
    ensures env.relState <= gainTmp || (l.holdCnt > 0 && env.holdCnt == l.holdCnt - 1 && env.relState == l.relState)
    ensures env.holdCnt == l.nHoldSamps || env.holdCnt == l.holdCnt - 1 || env.holdCnt == l.holdCnt
    ensures env.holdCnt == l.holdCnt - 1 ==> l.holdCnt > 0 && env.relState == l.relState
    ensures IsAttack(l, gainTmp) ==> env == Envelope(gainTmp, l.nHoldSamps)
    ensures !IsAttack(l, gainTmp) && l.holdCnt > 0 ==> env == Envelope(l.relState, l.holdCnt - 1)
    ensures !IsAttack(l, gainTmp) && l.holdCnt <= 0 ==>
      env == Envelope(Smooth(gainTmp, l.relState, l.bRel, l.aRel), l.holdCnt)
  {
    var tmp := Smooth(gainTmp, l.relState, l.bRel, l.aRel);
    if gainTmp < tmp then Envelope(gainTmp, l.nHoldSamps)
    else if l.holdCnt > 0 then Envelope(l.relState, l.holdCnt - 1)
    else Envelope(tmp, l.holdCnt)
  }

  /** The cursor after one step: `lookaheadCnt++`, back to 0 at the end. */
  function NextCursor(cnt: int, len: int): (next: int)
    requires 0 <= cnt < len
    ensures 0 <= next < len
    ensures next == (cnt + 1) % len
  {
    if cnt + 1 >= len then 0 else cnt + 1
  }

  /** The frame `process` hands back: each active channel's delayed sample
      scaled by `g` and clipped to the threshold; other entries untouched. */
  function DelayedOutputs(l: Limiter, g: int, samples: seq<int>): (out: seq<int>)
    requires Valid(l) && 0 <= g <= FullScale && ActiveChans(l.nChans) <= |samples|
    ensures |out| == |samples|
    ensures forall i :: 0 <= i < ActiveChans(l.nChans) ==> -l.thresholdLin <= out[i] <= l.thresholdLin
    ensures forall i :: ActiveChans(l.nChans) <= i < |samples| ==> out[i] == samples[i]
  {
    seq(|samples|, i requires 0 <= i < |samples| =>
      if i < ActiveChans(l.nChans) then Clamp(Attenuate(g, l.lookaheadMem[i][l.lookaheadCnt]), l.thresholdLin)
      else samples[i])
  }

  /** The buffers after the incoming frame is stored under the cursor. */
  function StoreFrame(l: Limiter, samples: seq<int>): (mem: seq<seq<int>>)
    requires Valid(l) && IsLimiterInput(l.nChans, samples)
    ensures |mem| == |l.lookaheadMem|
    ensures forall i :: 0 <= i < |mem| ==> |mem[i]| == l.nLookaheadSamps
    ensures forall i, j :: 0 <= i < |mem| && 0 <= j < |mem[i]| ==> IsInt32(mem[i][j])
  {
    seq(|l.lookaheadMem|, i requires 0 <= i < |l.lookaheadMem| => l.lookaheadMem[i][l.lookaheadCnt := samples[i]])
  }

  datatype LimiterStep = LimiterStep(limiter: Limiter, samples: seq<int>, gain: int)

  /** `Limiter32::process`: detect the peak of the incoming frame, update
      the envelope and the gain, then emit the delayed samples of each
      channel scaled by the gain and clipped to the threshold, storing the
      incoming samples in their place. Returns the gain it applied. */
  function Process(l: Limiter, samples: seq<int>): (r: LimiterStep)
    requires Valid(l) && IsLimiterInput(l.nChans, samples)
    ensures Valid(r.limiter) && SameSettings(l, r.limiter)
    ensures r.gain == r.limiter.gain
    ensures |r.samples| == |samples|
    ensures forall i :: 0 <= i < ActiveChans(l.nChans) ==> -l.thresholdLin <= r.samples[i] <= l.thresholdLin
    ensures forall i :: ActiveChans(l.nChans) <= i < |samples| ==> r.samples[i] == samples[i]
    ensures r.limiter.lookaheadCnt == (l.lookaheadCnt + 1) % l.nLookaheadSamps
  {
    var gainTmp := InstantGain(MaskPeak(Peak(samples, ActiveChans(l.nChans))), l.thresholdLin);
    var env := Release(l, gainTmp);
    var g := Smooth(env.relState, l.gain, l.bAtt, l.aAtt);
    var next := l.(lookaheadMem := StoreFrame(l, samples),
                   lookaheadCnt := NextCursor(l.lookaheadCnt, l.nLookaheadSamps),
                   holdCnt := env.holdCnt, gain := g, relState := env.relState);
    LimiterStep(next, DelayedOutputs(l, g, samples), g)
  }

  /** A step assembled from its parts — the stored frame, the advanced
      cursor, the envelope and gain updates and the emitted frame — is the
      step `process` takes. */
  lemma StepFromParts(l: Limiter, samples: seq<int>, next: Limiter, out: seq<int>)
    requires Valid(l) && IsLimiterInput(l.nChans, samples)
    requires SameSettings(l, next)
    requires next.lookaheadMem == StoreFrame(l, samples)
    requires next.lookaheadCnt == NextCursor(l.lookaheadCnt, l.nLookaheadSamps)
    requires next.relState == Release(l, FrameGain(l, samples)).relState
    requires next.holdCnt == Release(l, FrameGain(l, samples)).holdCnt
    requires next.gain == Smooth(next.relState, l.gain, l.bAtt, l.aAtt)
    requires out == DelayedOutputs(l, next.gain, samples)
    ensures Process(l, samples) == LimiterStep(next, out, next.gain)
  {
  }

  /** The instantaneous gain a frame asks for: unity when the masked peak
      of its active channels is within the threshold, otherwise a gain in
      [0, 1] that brings that peak down to the threshold. */
  function FrameGain(l: Limiter, samples: seq<int>): (g: int)
    requires Valid(l) && IsLimiterInput(l.nChans, samples)
    ensures 0 <= g <= FullScale
    ensures MaskPeak(Peak(samples, ActiveChans(l.nChans))) <= l.thresholdLin ==> g == FullScale
    ensures MaskPeak(Peak(samples, ActiveChans(l.nChans))) > l.thresholdLin ==>
      Attenuate(g, MaskPeak(Peak(samples, ActiveChans(l.nChans)))) <= l.thresholdLin
  {
    InstantGain(MaskPeak(Peak(samples, ActiveChans(l.nChans))), l.thresholdLin)
  }

  /** `setThreshold`: only the threshold changes. */
  function SetThreshold(l: Limiter, threshold: real, m: MathLib): (r: Limiter)
    requires Valid(l) && ThresholdFits(threshold, m)
    ensures Valid(r)
    ensures r.thresholdLin == LinearThreshold(threshold, m)
    ensures r.(thresholdLin := l.thresholdLin) == l
  {
    l.(thresholdLin := LinearThreshold(threshold, m))
  }

  // ---------------------------------------------------------------------
  // Step lemmas
  // ---------------------------------------------------------------------

  /** Peak detection: a frame whose every active sample is within the
      threshold asks for no gain reduction, and a frame that asks for one
      has, after masking, a peak the requested gain brings under the
      threshold. */
  lemma QuietFrameNeedsNoReduction(l: Limiter, samples: seq<int>)
    requires Valid(l) && IsLimiterInput(l.nChans, samples)
    requires forall i :: 0 <= i < ActiveChans(l.nChans) ==> Abs(samples[i]) <= l.thresholdLin
    ensures FrameGain(l, samples) == FullScale
  {
    var n := ActiveChans(l.nChans);
    var p := Peak(samples, n);
    if n > 0 {
      var i :| 0 <= i < n && p == Abs(samples[i]);
    }
  }

  /** The slot `process` touches is read before it is written: the sample
      leaving each active channel comes from the slot under the cursor, that
      slot then holds the new input, every other slot is unchanged, and the
      cursor moves one place around the ring. */
  lemma SlotReadThenWritten(l: Limiter, samples: seq<int>)
    requires Valid(l) && IsLimiterInput(l.nChans, samples)
    ensures var r := Process(l, samples);
      && r.limiter.lookaheadCnt == NextCursor(l.lookaheadCnt, l.nLookaheadSamps)
      && forall i :: 0 <= i < ActiveChans(l.nChans) ==>
           && r.samples[i] == Clamp(Attenuate(r.gain, l.lookaheadMem[i][l.lookaheadCnt]), l.thresholdLin)
           && r.limiter.lookaheadMem[i] == l.lookaheadMem[i][l.lookaheadCnt := samples[i]]
  {
  }

  /** Zero input into silent buffers keeps them silent and emits zeros. */
  lemma SilentStepStaysSilent(l: Limiter, samples: seq<int>)
    requires Valid(l) && IsLimiterInput(l.nChans, samples)
    requires forall i, j :: 0 <= i < |l.lookaheadMem| && 0 <= j < |l.lookaheadMem[i]| ==> l.lookaheadMem[i][j] == 0
    requires forall i :: 0 <= i < ActiveChans(l.nChans) ==> samples[i] == 0
    ensures var r := Process(l, samples);
      && (forall i :: 0 <= i < ActiveChans(l.nChans) ==> r.samples[i] == 0)
      && forall i, j :: 0 <= i < |r.limiter.lookaheadMem| && 0 <= j < |r.limiter.lookaheadMem[i]| ==>
           r.limiter.lookaheadMem[i][j] == 0
  {
  }

  // ---------------------------------------------------------------------
  // The look-ahead delay
  // ---------------------------------------------------------------------

  /** The sample channel `i` received `k` frames ago (1 = the latest), or
      zero before the history starts. */
  function Past(h: seq<seq<int>>, i: int, k: int): int
    requires 1 <= k
  {
    if k <= |h| && 0 <= i < |h[|h| - k]| then h[|h| - k][i] else 0
  }

  /** The buffer slot holding the sample from `k` frames ago when the cursor
      is at `cnt`: the one `k` places behind it, around the ring. */
  function Slot(cnt: int, k: int, len: int): (j: int)
    requires 0 <= cnt < len && 1 <= k <= len
    ensures 0 <= j < len
  {
    if k <= cnt then cnt - k else cnt - k + len
  }

  /** Every active buffer holds the last `nLookaheadSamps` frames of `h`
      (zero where `h` is shorter), the newest just behind the cursor. */
  ghost predicate Remembers(l: Limiter, h: seq<seq<int>>)
    requires Valid(l)
  {
    forall i, k :: 0 <= i < ActiveChans(l.nChans) && 1 <= k <= l.nLookaheadSamps ==>
      l.lookaheadMem[i][Slot(l.lookaheadCnt, k, l.nLookaheadSamps)] == Past(h, i, k)
  }

  lemma SlotAfterStep(cnt: int, k: int, len: int)
    requires 0 <= cnt < len && 2 <= k <= len
    ensures Slot(NextCursor(cnt, len), k, len) == Slot(cnt, k - 1, len)
  {
  }

  lemma NewestSlot(cnt: int, len: int)
    requires 0 <= cnt < len
    ensures Slot(NextCursor(cnt, len), 1, len) == cnt
    ensures Slot(cnt, len, len) == cnt
  {
  }

  /** Appending a frame ages every remembered sample by one. */
  lemma PastAfterAppend(h: seq<seq<int>>, x: seq<int>, i: int, k: int)
    requires 0 <= i < |x| && 1 <= k
    ensures Past(h + [x], i, k) == if k == 1 then x[i] else Past(h, i, k - 1)
  {
    var h' := h + [x];
    if k == 1 {
      assert h'[|h'| - 1] == x;
    } else if k <= |h'| {
      assert h'[|h'| - k] == h[|h| - (k - 1)];
    }
  }

  /** One step of the delay line: the output of channel `i` is the input
      from exactly `nLookaheadSamps` frames earlier, scaled by the new gain
      and clipped, and the buffers then remember the extended history. */
  lemma DelayLine(l: Limiter, h: seq<seq<int>>, samples: seq<int>)
    requires Valid(l) && IsLimiterInput(l.nChans, samples) && Remembers(l, h)
    ensures var r := Process(l, samples);
      && Remembers(r.limiter, h + [samples])
      && forall i :: 0 <= i < ActiveChans(l.nChans) ==>
           r.samples[i] == Clamp(Attenuate(r.gain, Past(h, i, l.nLookaheadSamps)), l.thresholdLin)
  {
    var r := Process(l, samples);
    SlotReadThenWritten(l, samples);
    var len, cnt := l.nLookaheadSamps, l.lookaheadCnt;
    var h' := h + [samples];
    NewestSlot(cnt, len);
    forall i, k | 0 <= i < ActiveChans(l.nChans) && 1 <= k <= len
      ensures r.limiter.lookaheadMem[i][Slot(r.limiter.lookaheadCnt, k, len)] == Past(h', i, k)
    {
      PastAfterAppend(h, samples, i, k);
      if k > 1 {
        SlotAfterStep(cnt, k, len);
      }
    }
  }

  datatype LimiterRun = LimiterRun(limiter: Limiter, outputs: seq<seq<int>>, gains: seq<int>)

  predicate AreLimiterInputs(nChans: int, frames: seq<seq<int>>) {
    forall t :: 0 <= t < |frames| ==> IsLimiterInput(nChans, frames[t])
  }

  /** `process` called once per frame, in order. */
  function Run(l: Limiter, frames: seq<seq<int>>): (r: LimiterRun)
    requires Valid(l) && AreLimiterInputs(l.nChans, frames)
    ensures Valid(r.limiter) && SameSettings(l, r.limiter)
    ensures |r.outputs| == |frames| && |r.gains| == |frames|
    ensures forall t :: 0 <= t < |frames| ==> |r.outputs[t]| == |frames[t]|
    ensures forall t :: 0 <= t < |frames| ==> 0 <= r.gains[t] <= FullScale
    decreases |frames|
  {
    if frames == [] then LimiterRun(l, [], [])
    else
      var step := Process(l, frames[0]);
      var rest := Run(step.limiter, frames[1..]);
      LimiterRun(rest.limiter, [step.samples] + rest.outputs, [step.gain] + rest.gains)
  }

  /** Over a run, every output sample is the input of `nLookaheadSamps`
      frames earlier (counting the history `h` the buffers already hold),
      scaled by the gain of its step and clipped. */
  lemma {:induction false} RunDelays(l: Limiter, h: seq<seq<int>>, frames: seq<seq<int>>)
    requires Valid(l) && AreLimiterInputs(l.nChans, frames) && Remembers(l, h)
    ensures var r := Run(l, frames);
      forall t, i :: 0 <= t < |frames| && 0 <= i < ActiveChans(l.nChans) ==>
        r.outputs[t][i] == Clamp(Attenuate(r.gains[t], Past(h + frames[..t], i, l.nLookaheadSamps)), l.thresholdLin)
    decreases |frames|
  {
    if frames != [] {
      var step := Process(l, frames[0]);
      DelayLine(l, h, frames[0]);
      var h' := h + [frames[0]];
      RunDelays(step.limiter, h', frames[1..]);
      var r := Run(l, frames);
      forall t, i | 0 <= t < |frames| && 0 <= i < ActiveChans(l.nChans)
        ensures r.outputs[t][i] == Clamp(Attenuate(r.gains[t], Past(h + frames[..t], i, l.nLookaheadSamps)), l.thresholdLin)
      {
        if t > 0 {
          assert h' + frames[1..][..t - 1] == h + frames[..t];
        } else {
          assert h + frames[..0] == h;
        }
      }
    }
  }

  lemma FreshRemembersNothing(l: Limiter)
    requires Valid(l) && IsFresh(l)
    ensures Remembers(l, [])
  {
  }

  /** `RunDelays` from a freshly built limiter, whose buffers hold no
      history yet. */
  lemma FreshRunDelays(l: Limiter, frames: seq<seq<int>>)
    requires Valid(l) && IsFresh(l) && AreLimiterInputs(l.nChans, frames)
    ensures var r := Run(l, frames);
      forall t, i :: 0 <= t < |frames| && 0 <= i < ActiveChans(l.nChans) ==>
        r.outputs[t][i] == Clamp(Attenuate(r.gains[t], Past(frames[..t], i, l.nLookaheadSamps)), l.thresholdLin)
  {
    FreshRemembersNothing(l);
    RunDelays(l, [], frames);
    assert forall t :: 0 <= t <= |frames| ==> [] + frames[..t] == frames[..t];
  }

  /** One output sample of a run from a fresh limiter: silence during the
      first `nLookaheadSamps` frames, then the input of `nLookaheadSamps`
      frames earlier. */
  lemma FreshOutputAt(l: Limiter, frames: seq<seq<int>>, t: int, i: int)
    requires Valid(l) && IsFresh(l) && AreLimiterInputs(l.nChans, frames)
    requires 0 <= t < |frames| && 0 <= i < ActiveChans(l.nChans)
    requires l.nLookaheadSamps <= t ==> i < |frames[t - l.nLookaheadSamps]|
    ensures var r := Run(l, frames);
      r.outputs[t][i] == Clamp(Attenuate(r.gains[t], if t < l.nLookaheadSamps then 0 else frames[t - l.nLookaheadSamps][i]), l.thresholdLin)
  {
    FreshRunDelays(l, frames);
    PastOfPrefix(frames, t, i, l.nLookaheadSamps);
  }

  lemma PastOfPrefix(frames: seq<seq<int>>, t: int, i: int, len: int)
    requires 0 <= t < |frames| && 0 <= i && 1 <= len
    requires len <= t ==> i < |frames[t - len]|
    ensures Past(frames[..t], i, len) == if t < len then 0 else frames[t - len][i]
  {
    if len <= t {
      assert frames[..t][t - len] == frames[t - len];
    }
  }

  /** From a freshly built limiter, the output at frame `t` is the input of
      frame `t - nLookaheadSamps` (scaled and clipped), and the first
      `nLookaheadSamps` outputs are silent. */
  lemma FreshLimiterDelays(l: Limiter, frames: seq<seq<int>>)
    requires Valid(l) && IsFresh(l) && AreLimiterInputs(l.nChans, frames)
    ensures var r := Run(l, frames);
      && (forall t, i :: 0 <= t < |frames| && t < l.nLookaheadSamps && 0 <= i < ActiveChans(l.nChans) ==>
            r.outputs[t][i] == 0)
      && forall t, i :: l.nLookaheadSamps <= t < |frames| && 0 <= i < ActiveChans(l.nChans) ==>
            r.outputs[t][i] == Clamp(Attenuate(r.gains[t], frames[t - l.nLookaheadSamps][i]), l.thresholdLin)
  {
    forall t, i | 0 <= t < |frames| && 0 <= i < ActiveChans(l.nChans)
      ensures Run(l, frames).outputs[t][i] ==
        Clamp(Attenuate(Run(l, frames).gains[t], if t < l.nLookaheadSamps then 0 else frames[t - l.nLookaheadSamps][i]), l.thresholdLin)
    {
      assert t >= l.nLookaheadSamps ==> IsLimiterInput(l.nChans, frames[t - l.nLookaheadSamps]);
      FreshOutputAt(l, frames, t, i);
    }
  }

  // ---------------------------------------------------------------------
  // Attack, hold and release
  // ---------------------------------------------------------------------

  /** No step of the run starts a new gain reduction. */
  ghost predicate NoAttackRun(l: Limiter, frames: seq<seq<int>>)
    requires Valid(l) && AreLimiterInputs(l.nChans, frames)
    decreases |frames|
  {
    frames != [] ==>
      && !IsAttack(l, FrameGain(l, frames[0]))
      && NoAttackRun(Process(l, frames[0]).limiter, frames[1..])
  }

  /** Inside the hold window the release envelope stays where it is and the
      hold counter counts down by one per frame. */
  lemma {:induction false} HoldKeepsRelease(l: Limiter, frames: seq<seq<int>>)
    requires Valid(l) && AreLimiterInputs(l.nChans, frames)
    requires |frames| <= l.holdCnt
    requires NoAttackRun(l, frames)
    ensures Run(l, frames).limiter.relState == l.relState
    ensures Run(l, frames).limiter.holdCnt == l.holdCnt - |frames|
    decreases |frames|
  {
    if frames != [] {
      var step := Process(l, frames[0]);
      assert step.limiter.relState == l.relState && step.limiter.holdCnt == l.holdCnt - 1;
      HoldKeepsRelease(step.limiter, frames[1..]);
    }
  }

  /** A frame that starts a gain reduction sets the release envelope to its
      gain and reloads the hold counter; for the next `nHoldSamps` frames
      without a new attack the envelope then stays at that gain while the
      counter runs down to zero. */
  lemma AttackThenHold(l: Limiter, frames: seq<seq<int>>)
    requires Valid(l) && AreLimiterInputs(l.nChans, frames)
    requires 1 <= |frames| <= l.nHoldSamps + 1
    requires IsAttack(l, FrameGain(l, frames[0]))
    requires NoAttackRun(Process(l, frames[0]).limiter, frames[1..])
    ensures Run(l, frames).limiter.relState == FrameGain(l, frames[0])
    ensures Run(l, frames).limiter.holdCnt == l.nHoldSamps - (|frames| - 1)
  {
    var step := Process(l, frames[0]);
    assert step.limiter.relState == FrameGain(l, frames[0]) && step.limiter.holdCnt == l.nHoldSamps;
    HoldKeepsRelease(step.limiter, frames[1..]);
  }

  /** Once the hold window has run out, a frame without a new attack moves
      the release envelope to the smoother's value: never above the frame's
      gain, and no more than two units below the lower of that gain and the
      previous envelope. The counter stays at zero. */
  lemma ReleaseAfterHold(l: Limiter, samples: seq<int>)
    requires Valid(l) && IsLimiterInput(l.nChans, samples)
    requires l.holdCnt == 0
    requires !IsAttack(l, FrameGain(l, samples))
    ensures var next := Process(l, samples).limiter;
      var g := FrameGain(l, samples);
      && next.relState == Smooth(g, l.relState, l.bRel, l.aRel)
      && next.holdCnt == 0
      && Min(g, l.relState) - 2 <= next.relState <= g
  {
    SmoothLowerBound(FrameGain(l, samples), l.relState, l.bRel, l.aRel);
  }
}
