/** The per-sample processing of one EQ32 biquad section, as values.

    A filter's run-time state is its active coefficient set, the pending set
    produced by the last design, the hand-off flag, and five state words per
    channel: the two previous inputs, the two previous outputs and the
    quantisation-error word used when error feedback is compiled in.
    Coefficients are Q8.24 fixed point, in the order b0, b1, b2, -a1, -a2,
    so the recursion is a plain multiply-accumulate. */
module Biquad {
  import opened FixedPoint

  /** Channels processed per call (EQ_CHANS). */
  const EqChans: nat := 2
  /** Coefficients per section (BIQUAD_COEFFS). */
  const BiquadCoeffs: nat := 5
  /** State words per channel (BIQUAD_STATES). */
  const BiquadStates: nat := 5
  const IntegerBits: nat := 8
  const FractionalBits: nat := 24
  /** 1.0 in Q8.24, `1 << fractional_bits`. */
  const FixedOne: int := 0x100_0000
  /** `error_mask` is `0xffffffff >> integer_bits` = 0x00FFFFFF, so on a
      two's-complement accumulator `acc & error_mask` is `acc mod 2^24`. */
  const ErrorModulus: int := 0x100_0000

  /** The coefficient set (fixed_one, 0, 0, 0, 0) of a pass-through filter. */
  const IdentityCoefficients: seq<int> := [FixedOne, 0, 0, 0, 0]

  /** Every channel's state words after `resetStates`. */
  const ZeroStates: seq<seq<int>> := [[0, 0, 0, 0, 0], [0, 0, 0, 0, 0]]

  datatype EqState = EqState(
    coefficients: seq<int>,
    newCoefficients: seq<int>,
    updateFilter: bool,
    states: seq<seq<int>>,
    errorFeedback: bool)

  predicate IsCoefficientSet(c: seq<int>) {
    |c| == BiquadCoeffs && forall k :: 0 <= k < |c| ==> IsInt32(c[k])
  }

  /** One channel's state words: four 32-bit history samples and the error
      word, which stays 0 without error feedback and holds the low 24 bits
      of the last accumulator with it. */
  predicate IsChannelState(s: seq<int>, errorFeedback: bool) {
    && |s| == BiquadStates
    && (forall k :: 0 <= k < 4 ==> IsInt32(s[k]))
    && (errorFeedback ==> 0 <= s[4] < ErrorModulus)
    && (!errorFeedback ==> s[4] == 0)
  }

  ghost predicate Valid(e: EqState) {
    && IsCoefficientSet(e.coefficients)
    && IsCoefficientSet(e.newCoefficients)
    && |e.states| == EqChans
    && forall i :: 0 <= i < EqChans ==> IsChannelState(e.states[i], e.errorFeedback)
  }

  /** The frame a caller passes: at least EqChans 32-bit samples. */
  predicate IsFrame(samples: seq<int>) {
    |samples| >= EqChans && forall i :: 0 <= i < |samples| ==> IsInt32(samples[i])
  }

  predicate AllZero(s: seq<int>) {
    forall k :: 0 <= k < |s| ==> s[k] == 0
  }

  /** Every channel's state words are zero, as after `resetStates`. */
  ghost predicate StatesZero(e: EqState) {
    forall i :: 0 <= i < |e.states| ==> AllZero(e.states[i])
  }

  /** The coefficients a call filters with: the pending set when the
      hand-off flag is raised, the active set otherwise. */
  function ActiveCoefficients(e: EqState): (c: seq<int>)
    ensures Valid(e) ==> IsCoefficientSet(c)
    ensures e.updateFilter ==> c == e.newCoefficients
    ensures !e.updateFilter ==> c == e.coefficients
  {
    if e.updateFilter then e.newCoefficients else e.coefficients
  }

  /** The exact 64-bit multiply-accumulate of one channel, with the error
      word added when error feedback is on. */
  function Accumulate(c: seq<int>, x: int, s: seq<int>, errorFeedback: bool): (acc: int)
    requires |c| == BiquadCoeffs && |s| == BiquadStates
    ensures c == IdentityCoefficients ==> acc == FixedOne * x + (if errorFeedback then s[4] else 0)
    ensures x == 0 && AllZero(s[..4]) ==> acc == (if errorFeedback then s[4] else 0)
  {
    c[0] * x + c[1] * s[0] + c[2] * s[1] + c[3] * s[2] + c[4] * s[3]
      + (if errorFeedback then s[4] else 0)
  }

  /** Every partial sum of the accumulation, in the source's order, fits
      the signed 64-bit accumulator (the products of two 32-bit values
      always do). */
  predicate AccumulatorFits(c: seq<int>, x: int, s: seq<int>, errorFeedback: bool)
    requires |c| == BiquadCoeffs && |s| == BiquadStates
  {
    var p1 := c[0] * x + c[1] * s[0];
    var p2 := p1 + c[2] * s[1];
    var p3 := p2 + c[3] * s[2];
    var p4 := p3 + c[4] * s[3];
    IsInt64(p1) && IsInt64(p2) && IsInt64(p3) && IsInt64(p4)
      && IsInt64(Accumulate(c, x, s, errorFeedback))
  }

  /** No channel of this call overflows the 64-bit accumulator. */
  ghost predicate FrameFits(e: EqState, samples: seq<int>)
    requires Valid(e) && |samples| >= EqChans
  {
    forall i :: 0 <= i < EqChans ==>
      AccumulatorFits(ActiveCoefficients(e), samples[i], e.states[i], e.errorFeedback)
  }

  datatype ChannelStep = ChannelStep(output: int, state: seq<int>)

  /** One channel of one call: accumulate, quantise with `>> 24` and the
      `(int32_t)` conversion, and shift the history words. */
  function FilterSample(c: seq<int>, x: int, s: seq<int>, errorFeedback: bool): (r: ChannelStep)
    requires IsCoefficientSet(c) && IsChannelState(s, errorFeedback) && IsInt32(x)
    ensures IsInt32(r.output) && IsChannelState(r.state, errorFeedback)
  {
    var acc := Accumulate(c, x, s, errorFeedback);
    var y := ToInt32(acc / FixedOne);
    ChannelStep(y, [x, s[0], y, s[2], if errorFeedback then acc % ErrorModulus else s[4]])
  }

  datatype FrameStep = FrameStep(eq: EqState, samples: seq<int>)

  /** `EQ32::process`: the pending coefficients are handed off first, then
      every channel is filtered with the same set; samples beyond EqChans
      are not touched. */
  function Process(e: EqState, samples: seq<int>): (r: FrameStep)
    requires Valid(e) && IsFrame(samples)
    ensures Valid(r.eq) && IsFrame(r.samples) && |r.samples| == |samples|
  {
    var c := ActiveCoefficients(e);
    var steps := seq(EqChans, i requires 0 <= i < EqChans =>
      FilterSample(c, samples[i], e.states[i], e.errorFeedback));
    var out := seq(|samples|, i requires 0 <= i < |samples| =>
      if i < EqChans then steps[i].output else samples[i]);
    var states := seq(EqChans, i requires 0 <= i < EqChans => steps[i].state);
    FrameStep(e.(coefficients := c, states := states), out)
  }

  /** The outputs of successive calls on a stream of frames, and the state
      after the last one. */
  datatype RunResult = RunResult(eq: EqState, outputs: seq<seq<int>>)

  predicate AreFrames(frames: seq<seq<int>>) {
    forall n :: 0 <= n < |frames| ==> IsFrame(frames[n])
  }

  function Run(e: EqState, frames: seq<seq<int>>): (r: RunResult)
    requires Valid(e) && AreFrames(frames)
    ensures Valid(r.eq) && |r.outputs| == |frames|
    decreases |frames|
  {
    if |frames| == 0 then RunResult(e, [])
    else
      var first := Process(e, frames[0]);
      var rest := Run(first.eq, frames[1..]);
      RunResult(rest.eq, [first.samples] + rest.outputs)
  }

  // ---------------------------------------------------------------------
  // Properties of one call

  /** The hand-off happens before any channel is filtered: after the call
      the active set is the pending one whenever the flag was raised, every
      channel's output and new state words are the ones that set gives,
      samples beyond the channels are untouched, the pending set is never
      modified and the flag is not cleared, so the copy recurs on the next
      call. */
  lemma HandoffPrecedesFiltering(e: EqState, samples: seq<int>)
    requires Valid(e) && IsFrame(samples)
    ensures var r := Process(e, samples);
      && (e.updateFilter ==> r.eq.coefficients == e.newCoefficients)
      && (!e.updateFilter ==> r.eq.coefficients == e.coefficients)
      && r.eq.newCoefficients == e.newCoefficients
      && r.eq.updateFilter == e.updateFilter
      && ActiveCoefficients(r.eq) == ActiveCoefficients(e)
      && r.eq.errorFeedback == e.errorFeedback
      && (forall i :: 0 <= i < EqChans ==>
           var step := FilterSample(r.eq.coefficients, samples[i], e.states[i], e.errorFeedback);
           r.samples[i] == step.output && r.eq.states[i] == step.state)
      && (forall i :: EqChans <= i < |samples| ==> r.samples[i] == samples[i])
  {
  }

  /** Conversely, a call's result is fixed by its channels: any output frame
      and channel states that agree with FilterSample on every channel, and
      with the input beyond the channels, are exactly what Process gives. */
  lemma ProcessFromChannels(e: EqState, x: seq<int>, y: seq<int>, t: seq<seq<int>>)
    requires Valid(e) && IsFrame(x) && |y| == |x| && |t| == EqChans
    requires forall k :: 0 <= k < EqChans ==>
      var step := FilterSample(ActiveCoefficients(e), x[k], e.states[k], e.errorFeedback);
      y[k] == step.output && t[k] == step.state
    requires forall k :: EqChans <= k < |x| ==> y[k] == x[k]
    ensures Process(e, x) == FrameStep(e.(coefficients := ActiveCoefficients(e), states := t), y)
  {
    var r := Process(e, x);
    assert r.samples == y;
    assert r.eq.states == t;
  }

  /** Channel i's output is the accumulator of the pre-call state words,
      shifted right by 24 (a floor division by 2^24) and converted to
      32 bits; when that quotient fits in 32 bits it is the output itself. */
  lemma OutputIsQuantisedAccumulator(e: EqState, samples: seq<int>, i: int)
    requires Valid(e) && IsFrame(samples) && 0 <= i < EqChans
    ensures var acc := Accumulate(ActiveCoefficients(e), samples[i], e.states[i], e.errorFeedback);
      && Process(e, samples).samples[i] == ToInt32(acc / FixedOne)
      && (IsInt32(acc / FixedOne) ==> Process(e, samples).samples[i] * FixedOne <= acc
                                      < (Process(e, samples).samples[i] + 1) * FixedOne)
  {
  }

  /** The history words shift: s1 takes the old s0, s0 the input, s3 the
      old s2 and s2 the new output. The error word is unchanged without
      error feedback and holds `acc & 0x00FFFFFF`, in [0, 2^24), with it. */
  lemma StateShift(e: EqState, samples: seq<int>, i: int)
    requires Valid(e) && IsFrame(samples) && 0 <= i < EqChans
    ensures var r := Process(e, samples);
      var s, t := e.states[i], r.eq.states[i];
      var acc := Accumulate(ActiveCoefficients(e), samples[i], s, e.errorFeedback);
      && t[0] == samples[i] && t[1] == s[0]
      && t[2] == r.samples[i] && t[3] == s[2]
      && (!e.errorFeedback ==> t[4] == s[4])
      && (e.errorFeedback ==> t[4] == acc % ErrorModulus && 0 <= t[4] < ErrorModulus)
  {
  }

  /** Channels do not interact: channel j's output and new state depend only
      on channel j's input, its old state words and the coefficients. */
  lemma ChannelsIndependent(e1: EqState, x1: seq<int>, e2: EqState, x2: seq<int>, j: int)
    requires Valid(e1) && IsFrame(x1) && Valid(e2) && IsFrame(x2) && 0 <= j < EqChans
    requires ActiveCoefficients(e1) == ActiveCoefficients(e2)
    requires e1.errorFeedback == e2.errorFeedback
    requires x1[j] == x2[j] && e1.states[j] == e2.states[j]
    ensures Process(e1, x1).samples[j] == Process(e2, x2).samples[j]
    ensures Process(e1, x1).eq.states[j] == Process(e2, x2).eq.states[j]
  {
  }

  /** With the identity coefficients every output equals its input, with or
      without error feedback, whatever the history words hold. */
  lemma IdentityPassesThrough(c: seq<int>, x: int, s: seq<int>, errorFeedback: bool)
    requires c == IdentityCoefficients && IsChannelState(s, errorFeedback) && IsInt32(x)
    ensures FilterSample(c, x, s, errorFeedback).output == x
  {
    var acc := Accumulate(c, x, s, errorFeedback);
    assert acc == FixedOne * x + (if errorFeedback then s[4] else 0);
    DivByFixedOne(x, if errorFeedback then s[4] else 0);
  }

  /** A zero frame on all-zero state words gives a zero frame and leaves the
      state words zero, whatever the coefficients. */
  lemma ZeroFrameKeepsStatesZero(e: EqState, samples: seq<int>)
    requires Valid(e) && IsFrame(samples) && StatesZero(e) && AllZero(samples)
    ensures StatesZero(Process(e, samples).eq) && AllZero(Process(e, samples).samples)
  {
    var c := ActiveCoefficients(e);
    forall i | 0 <= i < EqChans
      ensures FilterSample(c, samples[i], e.states[i], e.errorFeedback) == ChannelStep(0, [0, 0, 0, 0, 0])
    {
      assert AllZero(e.states[i]);
      assert e.states[i][0] == 0 && e.states[i][1] == 0 && e.states[i][2] == 0;
      assert e.states[i][3] == 0 && e.states[i][4] == 0 && samples[i] == 0;
    }
  }

  // ---------------------------------------------------------------------
  // Transparency of a section whose feedback cancels its feed-forward part

  /** b0 is unity and the recursive coefficients are the negated
      non-recursive ones, as for a peaking section designed at 0 dB. */
  predicate IsSymmetric(c: seq<int>) {
    |c| == BiquadCoeffs && c[0] == FixedOne && c[3] == -c[1] && c[4] == -c[2]
  }

  /** The output history equals the input history on every channel. */
  ghost predicate HistoryMatches(e: EqState) {
    forall i :: 0 <= i < |e.states| ==>
      |e.states[i]| == BiquadStates && e.states[i][0] == e.states[i][2] && e.states[i][1] == e.states[i][3]
  }

  lemma DivByFixedOne(x: int, err: int)
    requires 0 <= err < FixedOne
    ensures (FixedOne * x + err) / FixedOne == x
  {
  }

  /** One channel of a symmetric section whose output history equals its
      input history: the feed-forward and feedback history terms cancel, so
      the output is the input and the histories stay equal. */
  lemma SymmetricSampleIsTransparent(c: seq<int>, x: int, s: seq<int>, errorFeedback: bool)
    requires IsCoefficientSet(c) && IsChannelState(s, errorFeedback) && IsInt32(x)
    requires IsSymmetric(c) && s[0] == s[2] && s[1] == s[3]
    ensures FilterSample(c, x, s, errorFeedback).output == x
  {
    var err := if errorFeedback then s[4] else 0;
    assert c[3] * s[2] == -(c[1] * s[0]);
    assert c[4] * s[3] == -(c[2] * s[1]);
    assert Accumulate(c, x, s, errorFeedback) == FixedOne * x + err;
    DivByFixedOne(x, err);
  }

  /** One call of a symmetric section whose output history equals its input
      history outputs its input unchanged and keeps the histories equal. */
  lemma SymmetricStepIsTransparent(e: EqState, samples: seq<int>)
    requires Valid(e) && IsFrame(samples)
    requires IsSymmetric(ActiveCoefficients(e)) && HistoryMatches(e)
    ensures Process(e, samples).samples == samples
    ensures HistoryMatches(Process(e, samples).eq)
    ensures IsSymmetric(ActiveCoefficients(Process(e, samples).eq))
  {
    var c := ActiveCoefficients(e);
    var r := Process(e, samples);
    forall i | 0 <= i < EqChans
      ensures FilterSample(c, samples[i], e.states[i], e.errorFeedback).output == samples[i]
    {
      SymmetricSampleIsTransparent(c, samples[i], e.states[i], e.errorFeedback);
    }
    assert r.samples == samples;
  }

  /** A symmetric section whose histories match passes every frame of a
      stream through unchanged: it is exactly transparent. */
  lemma {:induction false} SymmetricRunIsTransparent(e: EqState, frames: seq<seq<int>>)
    requires Valid(e) && AreFrames(frames)
    requires IsSymmetric(ActiveCoefficients(e)) && HistoryMatches(e)
    ensures Run(e, frames).outputs == frames
    decreases |frames|
  {
    if |frames| > 0 {
      SymmetricStepIsTransparent(e, frames[0]);
      SymmetricRunIsTransparent(Process(e, frames[0]).eq, frames[1..]);
      assert frames == [frames[0]] + frames[1..];
    }
  }

  /** Silence in, silence out: from all-zero state words a stream of zero
      frames gives zero frames and leaves every state word zero. */
  lemma {:induction false} SilentRunStaysSilent(e: EqState, frames: seq<seq<int>>)
    requires Valid(e) && AreFrames(frames) && StatesZero(e)
    requires forall n :: 0 <= n < |frames| ==> AllZero(frames[n])
    ensures StatesZero(Run(e, frames).eq)
    ensures forall n :: 0 <= n < |frames| ==> AllZero(Run(e, frames).outputs[n])
    decreases |frames|
  {
    if |frames| > 0 {
      ZeroFrameKeepsStatesZero(e, frames[0]);
      SilentRunStaysSilent(Process(e, frames[0]).eq, frames[1..]);
      var r := Run(e, frames);
      var rest := Run(Process(e, frames[0]).eq, frames[1..]);
      assert r.outputs == [Process(e, frames[0]).samples] + rest.outputs;
      forall n | 0 <= n < |frames| ensures AllZero(r.outputs[n]) {
        if n > 0 {
          assert r.outputs[n] == rest.outputs[n - 1];
          assert frames[1..][n - 1] == frames[n];
        }
      }
    }
  }
}
