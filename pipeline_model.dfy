/** The audio path of `cppdsp_process_eq` as values: 24 dB of headroom by
    an arithmetic shift, the fixed cascade of five equalizer sections, the
    look-ahead limiter and the make-up shift; the static configuration of
    the components; and what the path promises (output on a grid of 32
    within 32 times the limiter threshold, silence stays silence). */
module PipelineModel {
  import opened FixedPoint
  import Biquad
  import opened EqDesign
  import LimiterModel

  /** NUM_CHANS: samples per frame. */
  const NumChans: nat := 2
  /** SAMPLE_FREQUENCY in Hz. */
  const SampleFrequency: int := 48000

  /** `x >>= 4` on a 32-bit sample: an arithmetic shift, i.e. a floor
      division by 16. */
  function Headroom(x: int): (r: int)
    ensures 16 * r <= x < 16 * r + 16
    ensures IsInt32(x) ==> -0x800_0000 <= r < 0x800_0000
  {
    x / 16
  }

  /** `x <<= 5` on a 32-bit sample, written as the 32-bit two's-complement
      result of multiplying by 32. */
  function MakeUp(x: int): (r: int)
    ensures IsInt32(r)
    ensures IsInt32(32 * x) ==> r == 32 * x
  {
    ToInt32(x * 32)
  }

  /** A limited sample shifted left by 5 lands on the grid of 32, within 32
      times the threshold, whenever that bound is representable. */
  lemma MakeUpOnGrid(v: int, thr: int)
    requires 0 <= thr && 32 * thr <= FullScale && -thr <= v <= thr
    ensures MakeUp(v) == 32 * v
    ensures MakeUp(v) % 32 == 0 && -32 * thr <= MakeUp(v) <= 32 * thr
  {
    assert IsInt32(32 * v);
  }

  function HeadroomFrame(x: seq<int>): (y: seq<int>)
    ensures |y| == |x| && forall i :: 0 <= i < |x| ==> y[i] == Headroom(x[i])
  {
    seq(|x|, i requires 0 <= i < |x| => Headroom(x[i]))
  }

  function MakeUpFrame(x: seq<int>): (y: seq<int>)
    ensures |y| == |x| && forall i :: 0 <= i < |x| ==> y[i] == MakeUp(x[i])
  {
    seq(|x|, i requires 0 <= i < |x| => MakeUp(x[i]))
  }

  /** A frame `cppdsp_process_eq` takes: NUM_CHANS 32-bit samples. */
  predicate IsInput(x: seq<int>) {
    |x| == NumChans && forall i :: 0 <= i < |x| ==> IsInt32(x[i])
  }

  // ---------------------------------------------------------------------
  // The filter cascade

  ghost predicate AllValid(eqs: seq<Biquad.EqState>) {
    forall k :: 0 <= k < |eqs| ==> Biquad.Valid(eqs[k])
  }

  /** No section of the cascade overflows its accumulator on the frame it
      receives from the section before it. */
  ghost predicate CascadeFits(eqs: seq<Biquad.EqState>, x: seq<int>)
    requires AllValid(eqs) && Biquad.IsFrame(x)
    decreases |eqs|
  {
    |eqs| == 0 ||
      (Biquad.FrameFits(eqs[0], x) && CascadeFits(eqs[1..], Biquad.Process(eqs[0], x).samples))
  }

  datatype CascadeStep = CascadeStep(filters: seq<Biquad.EqState>, samples: seq<int>)

  /** The sections run in list order on the same frame, each on the
      previous one's in-place output. */
  function Cascade(eqs: seq<Biquad.EqState>, x: seq<int>): (r: CascadeStep)
    requires AllValid(eqs) && Biquad.IsFrame(x) && CascadeFits(eqs, x)
    ensures |r.filters| == |eqs| && AllValid(r.filters)
    ensures Biquad.IsFrame(r.samples) && |r.samples| == |x|
    decreases |eqs|
  {
    if |eqs| == 0 then CascadeStep([], x)
    else
      var first := Biquad.Process(eqs[0], x);
      var rest := Cascade(eqs[1..], first.samples);
      CascadeStep([first.eq] + rest.filters, rest.samples)
  }

  /** The first section runs on the frame and the rest on its output. */
  lemma CascadeUnfold(eqs: seq<Biquad.EqState>, x: seq<int>)
    requires AllValid(eqs) && Biquad.IsFrame(x) && CascadeFits(eqs, x) && |eqs| > 0
    ensures Biquad.FrameFits(eqs[0], x)
    ensures var first := Biquad.Process(eqs[0], x);
      && AllValid(eqs[1..]) && CascadeFits(eqs[1..], first.samples)
      && Cascade(eqs, x) == CascadeStep([first.eq] + Cascade(eqs[1..], first.samples).filters,
                                        Cascade(eqs[1..], first.samples).samples)
  {
  }

  /** A cascade of five sections, written out stage by stage: each section
      filters the previous one's output, and each must fit on it. */
  lemma CascadeOfFive(eqs: seq<Biquad.EqState>, x: seq<int>)
    requires |eqs| == 5 && AllValid(eqs) && Biquad.IsFrame(x) && CascadeFits(eqs, x)
    ensures Biquad.FrameFits(eqs[0], x)
    ensures var p1 := Biquad.Process(eqs[0], x);
      && Biquad.FrameFits(eqs[1], p1.samples)
      && var p2 := Biquad.Process(eqs[1], p1.samples);
      && Biquad.FrameFits(eqs[2], p2.samples)
      && var p3 := Biquad.Process(eqs[2], p2.samples);
      && Biquad.FrameFits(eqs[3], p3.samples)
      && var p4 := Biquad.Process(eqs[3], p3.samples);
      && Biquad.FrameFits(eqs[4], p4.samples)
      && var p5 := Biquad.Process(eqs[4], p4.samples);
      Cascade(eqs, x) == CascadeStep([p1.eq, p2.eq, p3.eq, p4.eq, p5.eq], p5.samples)
  {
    var p1 := Biquad.Process(eqs[0], x);
    CascadeUnfold(eqs, x);
    assert eqs[1..][0] == eqs[1] && eqs[1..][1..] == eqs[2..];
    CascadeUnfold(eqs[1..], p1.samples);
    var p2 := Biquad.Process(eqs[1], p1.samples);
    assert eqs[2..][0] == eqs[2] && eqs[2..][1..] == eqs[3..];
    CascadeUnfold(eqs[2..], p2.samples);
    var p3 := Biquad.Process(eqs[2], p2.samples);
    assert eqs[3..][0] == eqs[3] && eqs[3..][1..] == eqs[4..];
    CascadeUnfold(eqs[3..], p3.samples);
    var p4 := Biquad.Process(eqs[3], p3.samples);
    assert eqs[4..][0] == eqs[4] && eqs[4..][1..] == [];
    CascadeUnfold(eqs[4..], p4.samples);
  }

  /** A section with all-zero state words accepts a zero frame. */
  lemma ZeroFrameFits(e: Biquad.EqState, x: seq<int>)
    requires Biquad.Valid(e) && Biquad.IsFrame(x) && Biquad.StatesZero(e) && Biquad.AllZero(x)
    ensures Biquad.FrameFits(e, x)
  {
    forall i | 0 <= i < Biquad.EqChans
      ensures Biquad.AccumulatorFits(Biquad.ActiveCoefficients(e), x[i], e.states[i], e.errorFeedback)
    {
      assert Biquad.AllZero(e.states[i]);
      assert x[i] == 0 && e.states[i][0] == 0 && e.states[i][1] == 0;
      assert e.states[i][2] == 0 && e.states[i][3] == 0 && e.states[i][4] == 0;
    }
  }

  ghost predicate AllStatesZero(eqs: seq<Biquad.EqState>) {
    forall k :: 0 <= k < |eqs| ==> Biquad.StatesZero(eqs[k])
  }

  /** A zero frame through sections with all-zero state words fits every
      accumulator, comes out zero and leaves every state word zero. */
  lemma {:induction false} SilentCascade(eqs: seq<Biquad.EqState>, x: seq<int>)
    requires AllValid(eqs) && Biquad.IsFrame(x) && AllStatesZero(eqs) && Biquad.AllZero(x)
    ensures CascadeFits(eqs, x)
    ensures AllStatesZero(Cascade(eqs, x).filters) && Biquad.AllZero(Cascade(eqs, x).samples)
    decreases |eqs|
  {
    if |eqs| > 0 {
      ZeroFrameFits(eqs[0], x);
      Biquad.ZeroFrameKeepsStatesZero(eqs[0], x);
      var first := Biquad.Process(eqs[0], x);
      SilentCascade(eqs[1..], first.samples);
    }
  }

  // ---------------------------------------------------------------------
  // One call of cppdsp_process_eq

  /** The five equalizer sections in processing order and the limiter. */
  datatype Dsp = Dsp(filters: seq<Biquad.EqState>, limiter: LimiterModel.Limiter)

  const FilterCount: nat := 5

  ghost predicate Valid(d: Dsp) {
    && |d.filters| == FilterCount
    && AllValid(d.filters)
    && LimiterModel.Valid(d.limiter)
    && LimiterModel.ActiveChans(d.limiter.nChans) == NumChans
  }

  /** The call is defined on this frame: no accumulator overflows and the
      limiter does not receive INT32_MIN. */
  ghost predicate StepFits(d: Dsp, x: seq<int>)
    requires Valid(d)
  {
    && IsInput(x)
    && Biquad.IsFrame(HeadroomFrame(x))
    && CascadeFits(d.filters, HeadroomFrame(x))
    && LimiterModel.IsLimiterInput(d.limiter.nChans, Cascade(d.filters, HeadroomFrame(x)).samples)
  }

  datatype DspStep = DspStep(dsp: Dsp, samples: seq<int>)

  /** `cppdsp_process_eq`: shift every sample right by 4, run the five
      sections, limit, and shift left by 5. The limiter's gain is not part
      of the result. */
  function ProcessEq(d: Dsp, x: seq<int>): (r: DspStep)
    requires Valid(d) && StepFits(d, x)
    ensures Valid(r.dsp) && IsInput(r.samples)
    ensures r.dsp.limiter.thresholdLin == d.limiter.thresholdLin
    ensures 32 * d.limiter.thresholdLin <= FullScale ==>
      forall i :: 0 <= i < NumChans ==>
        r.samples[i] % 32 == 0 && -32 * d.limiter.thresholdLin <= r.samples[i] <= 32 * d.limiter.thresholdLin
  {
    var eq := Cascade(d.filters, HeadroomFrame(x));
    var lim := LimiterModel.Process(d.limiter, eq.samples);
    var out := MakeUpFrame(lim.samples);
    assert forall i :: 0 <= i < NumChans ==> out[i] == MakeUp(lim.samples[i]);
    assert 32 * d.limiter.thresholdLin <= FullScale ==>
      forall i :: 0 <= i < NumChans ==>
        out[i] % 32 == 0 && -32 * d.limiter.thresholdLin <= out[i] <= 32 * d.limiter.thresholdLin
    by {
      if 32 * d.limiter.thresholdLin <= FullScale {
        forall i | 0 <= i < NumChans
          ensures out[i] % 32 == 0 && -32 * d.limiter.thresholdLin <= out[i] <= 32 * d.limiter.thresholdLin
        {
          MakeUpOnGrid(lim.samples[i], d.limiter.thresholdLin);
        }
      }
    }
    DspStep(Dsp(eq.filters, lim.limiter), out)
  }

  /** Silent components: every filter state word and every buffered
      limiter sample is zero. */
  ghost predicate Silent(d: Dsp)
    requires Valid(d)
  {
    && AllStatesZero(d.filters)
    && forall i, j :: 0 <= i < |d.limiter.lookaheadMem| && 0 <= j < |d.limiter.lookaheadMem[i]| ==>
         d.limiter.lookaheadMem[i][j] == 0
  }

  /** A zero frame into silent components is accepted, comes out zero and
      leaves the components silent. */
  lemma SilentStep(d: Dsp, x: seq<int>)
    requires Valid(d) && Silent(d) && IsInput(x) && Biquad.AllZero(x)
    ensures StepFits(d, x)
    ensures Silent(ProcessEq(d, x).dsp) && Biquad.AllZero(ProcessEq(d, x).samples)
  {
    var x0 := HeadroomFrame(x);
    assert Biquad.AllZero(x0);
    SilentCascade(d.filters, x0);
    var eq := Cascade(d.filters, x0);
    LimiterModel.SilentStepStaysSilent(d.limiter, eq.samples);
  }

  // ---------------------------------------------------------------------
  // Streams of calls

  /** Every call of the stream is defined. */
  ghost predicate RunFits(d: Dsp, frames: seq<seq<int>>)
    requires Valid(d)
    decreases |frames|
  {
    |frames| == 0 || (StepFits(d, frames[0]) && RunFits(ProcessEq(d, frames[0]).dsp, frames[1..]))
  }

  datatype DspRun = DspRun(dsp: Dsp, outputs: seq<seq<int>>)

  function Run(d: Dsp, frames: seq<seq<int>>): (r: DspRun)
    requires Valid(d) && RunFits(d, frames)
    ensures Valid(r.dsp) && |r.outputs| == |frames|
    ensures r.dsp.limiter.thresholdLin == d.limiter.thresholdLin
    ensures forall n :: 0 <= n < |frames| ==> IsInput(r.outputs[n])
    decreases |frames|
  {
    if |frames| == 0 then DspRun(d, [])
    else
      var first := ProcessEq(d, frames[0]);
      var rest := Run(first.dsp, frames[1..]);
      DspRun(rest.dsp, [first.samples] + rest.outputs)
  }

  /** A stream is its first call followed by the rest of the stream from
      the state that call leaves. */
  lemma RunUnfold(d: Dsp, frames: seq<seq<int>>)
    requires Valid(d) && RunFits(d, frames) && |frames| > 0
    ensures StepFits(d, frames[0]) && RunFits(ProcessEq(d, frames[0]).dsp, frames[1..])
    ensures var first := ProcessEq(d, frames[0]);
      && Run(d, frames).outputs[0] == first.samples
      && Run(d, frames).dsp == Run(first.dsp, frames[1..]).dsp
      && forall n :: 1 <= n < |frames| ==> Run(d, frames).outputs[n] == Run(first.dsp, frames[1..]).outputs[n - 1]
  {
    var first := ProcessEq(d, frames[0]);
    var rest := Run(first.dsp, frames[1..]);
    assert Run(d, frames) == DspRun(rest.dsp, [first.samples] + rest.outputs);
  }

  /** Over a whole stream, every output sample is a multiple of 32 within
      32 times the limiter threshold, whenever that bound is representable. */
  lemma {:induction false} RunOutputBound(d: Dsp, frames: seq<seq<int>>)
    requires Valid(d) && RunFits(d, frames) && 32 * d.limiter.thresholdLin <= FullScale
    ensures forall n, i :: 0 <= n < |frames| && 0 <= i < NumChans ==>
      var y := Run(d, frames).outputs[n][i];
      y % 32 == 0 && -32 * d.limiter.thresholdLin <= y <= 32 * d.limiter.thresholdLin
    decreases |frames|
  {
    if |frames| > 0 {
      RunUnfold(d, frames);
      var first := ProcessEq(d, frames[0]);
      RunOutputBound(first.dsp, frames[1..]);
    }
  }

  /** Silence in, silence out: from silent components, a stream of zero
      frames is accepted, gives zero frames and keeps the components
      silent. */
  lemma {:induction false} SilentRun(d: Dsp, frames: seq<seq<int>>)
    requires Valid(d) && Silent(d)
    requires forall n :: 0 <= n < |frames| ==> IsInput(frames[n]) && Biquad.AllZero(frames[n])
    ensures RunFits(d, frames)
    ensures Silent(Run(d, frames).dsp)
    ensures forall n :: 0 <= n < |frames| ==> Biquad.AllZero(Run(d, frames).outputs[n])
    decreases |frames|
  {
    if |frames| > 0 {
      SilentStep(d, frames[0]);
      var first := ProcessEq(d, frames[0]);
      SilentRun(first.dsp, frames[1..]);
      assert RunFits(d, frames);
      RunUnfold(d, frames);
    }
  }

  // ---------------------------------------------------------------------
  // The static configuration

  /** One static `EQ32(type, f0, SAMPLE_FREQUENCY, gain, Q)` instance. */
  datatype FilterSetting = FilterSetting(kind: int, f0: real, gain: real, q: real)

  /** pEQ1, pEQ2, hiPass1, hiPass2, hiShelv in processing order. */
  const Settings: seq<FilterSetting> := [
    FilterSetting(PeakingEq, 55.0, 11.0, 1.0),
    FilterSetting(PeakingEq, 55.0, 11.0, 1.0),
    FilterSetting(HighPassEq, 40.0, 0.0, 0.85),
    FilterSetting(HighPassEq, 40.0, 0.0, 0.85),
    FilterSetting(HighShelfEq, 8000.0, 3.0, 0.71)]

  /** postprocLim: -30.2 dBFS, 1 ms attack and look-ahead, 100 ms hold,
      1 s release, NUM_CHANS channels at SAMPLE_FREQUENCY. */
  const LimiterThreshold: real := -30.2
  const LimiterAttack: real := 0.001
  const LimiterHold: real := 0.1
  const LimiterRelease: real := 1.0

  /** The math library yields coefficients the fixed-point format holds for
      every static section, and a pow(10, -30.2/20) within [0.0309, 0.031]
      (its exact value is about 0.0309030). */
  ghost predicate SupportsStaticConfig(m: MathLib) {
    && (forall k :: 0 <= k < |Settings| ==>
          Designable(Settings[k].kind, Settings[k].f0, SampleFrequency as real, Settings[k].gain, Settings[k].q, m))
    && 0.0309 <= m.pow(10.0, LimiterThreshold / 20.0) <= 0.031
  }

  lemma StaticLimiterSettingsFit(m: MathLib)
    requires SupportsStaticConfig(m)
    ensures LimiterModel.SettingsFit(LimiterAttack, LimiterHold, LimiterRelease, SampleFrequency)
    ensures LimiterModel.ThresholdFits(LimiterThreshold, m)
  {
    assert LimiterAttack * SampleFrequency as real == 48.0;
    assert LimiterHold * SampleFrequency as real == 4800.0;
    assert LimiterRelease * SampleFrequency as real == 48000.0;
  }

  /** The limiter of the static configuration. */
  function StaticLimiter(m: MathLib): (l: LimiterModel.Limiter)
    requires SupportsStaticConfig(m)
    ensures LimiterModel.Valid(l) && LimiterModel.IsFresh(l)
    ensures l.nChans == NumChans && l.nLookaheadSamps == 48
    ensures 32 * l.thresholdLin <= FullScale
  {
    StaticLimiterSettingsFit(m);
    var l := LimiterModel.Create(LimiterThreshold, LimiterAttack, LimiterHold, LimiterRelease, NumChans, SampleFrequency, m);
    ThresholdLeavesMakeUpHeadroom(m, l.thresholdLin);
    l
  }

  /** At most 0.031 of full scale, the threshold times 32 stays below full
      scale, so the make-up shift cannot overflow. */
  lemma ThresholdLeavesMakeUpHeadroom(m: MathLib, thr: int)
    requires SupportsStaticConfig(m) && 0 <= thr
    requires thr as real <= m.pow(10.0, LimiterThreshold / 20.0) * FullScale as real + 1.0
    ensures 32 * thr <= FullScale
  {
    var p := m.pow(10.0, LimiterThreshold / 20.0);
    assert p * FullScale as real <= 0.031 * FullScale as real;
  }

  /** The components as the static initialisers leave them: each section
      holds its design as pending coefficients with the hand-off flag
      raised and zero state words; the limiter is fresh. The active
      coefficients are left unconstrained, as the constructor leaves them
      unset and the first call replaces them before use. */
  ghost predicate IsStaticConfig(d: Dsp, m: MathLib)
    requires SupportsStaticConfig(m)
  {
    && Valid(d)
    && (forall k :: 0 <= k < FilterCount ==> IsStaticSection(d.filters[k], k, m))
    && d.limiter == StaticLimiter(m)
  }

  /** Section `k` as its static initialiser leaves it: the design of
      `Settings[k]` staged, the hand-off flag raised, the state words zero. */
  ghost predicate IsStaticSection(e: Biquad.EqState, k: int, m: MathLib)
    requires SupportsStaticConfig(m) && 0 <= k < FilterCount
  {
    && Biquad.StatesZero(e)
    && e.updateFilter
    && e.newCoefficients ==
         DesignCoefficients(Settings[k].kind, Settings[k].f0, SampleFrequency as real, Settings[k].gain, Settings[k].q, m)
  }

  /** Five sections in their static states and the static limiter make up
      the static configuration. */
  lemma StaticConfigOfParts(d: Dsp, m: MathLib)
    requires SupportsStaticConfig(m) && Valid(d)
    requires IsStaticSection(d.filters[0], 0, m) && IsStaticSection(d.filters[1], 1, m)
    requires IsStaticSection(d.filters[2], 2, m) && IsStaticSection(d.filters[3], 3, m)
    requires IsStaticSection(d.filters[4], 4, m)
    requires d.limiter == StaticLimiter(m)
    ensures IsStaticConfig(d, m)
  {
  }

  /** From the static configuration, a stream of silent frames is processed
      without overflow and gives silent frames. */
  lemma StaticConfigSilence(d: Dsp, m: MathLib, frames: seq<seq<int>>)
    requires SupportsStaticConfig(m) && IsStaticConfig(d, m)
    requires forall n :: 0 <= n < |frames| ==> IsInput(frames[n]) && Biquad.AllZero(frames[n])
    ensures RunFits(d, frames)
    ensures forall n :: 0 <= n < |frames| ==> Biquad.AllZero(Run(d, frames).outputs[n])
  {
    SilentRun(d, frames);
  }

  /** From the static configuration, every output of every defined stream
      is a multiple of 32 within 32 times the limiter threshold, which is
      itself representable: the make-up shift never wraps. */
  lemma StaticConfigOutputBound(d: Dsp, m: MathLib, frames: seq<seq<int>>)
    requires SupportsStaticConfig(m) && IsStaticConfig(d, m) && RunFits(d, frames)
    ensures 32 * d.limiter.thresholdLin <= FullScale
    ensures forall n, i :: 0 <= n < |frames| && 0 <= i < NumChans ==>
      var y := Run(d, frames).outputs[n][i];
      y % 32 == 0 && -32 * d.limiter.thresholdLin <= y <= 32 * d.limiter.thresholdLin
  {
    RunOutputBound(d, frames);
  }
}
