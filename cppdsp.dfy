/** The DSP front end of `cppdsp.cpp`: five statically constructed
    equalizer sections and one limiter, and the per-frame routine that runs
    them in place on the caller's sample buffer. Proved against the value
    model of module PipelineModel. */
module CppDspPipeline {
  import opened FixedPoint
  import Biquad
  import opened EqDesign
  import LimiterModel
  import PipelineModel
  import opened Equalizer
  import opened PeakLimiter

  /** Five valid sections on pairwise disjoint storage. */
  ghost predicate SectionsApart(a: EQ32, b: EQ32, c: EQ32, d: EQ32, e: EQ32)
    reads a.Repr, b.Repr, c.Repr, d.Repr, e.Repr
  {
    && a.Valid() && b.Valid() && c.Valid() && d.Valid() && e.Valid()
    && a.Repr !! b.Repr && a.Repr !! c.Repr && a.Repr !! d.Repr && a.Repr !! e.Repr
    && b.Repr !! c.Repr && b.Repr !! d.Repr && b.Repr !! e.Repr
    && c.Repr !! d.Repr && c.Repr !! e.Repr
    && d.Repr !! e.Repr
  }

  /** The file-scope objects of `cppdsp.cpp`. Their storage never changes
      hands, so the references are constants. */
  class CppDsp {
    const pEQ1: EQ32
    const pEQ2: EQ32
    const hiPass1: EQ32
    const hiPass2: EQ32
    const hiShelv: EQ32
    const postprocLim: Limiter32

    /** `o` belongs to one of the components. */
    ghost predicate Owns(o: object) {
      || o in pEQ1.Repr || o in pEQ2.Repr || o in hiPass1.Repr || o in hiPass2.Repr || o in hiShelv.Repr
      || o in postprocLim.Repr
    }

    /** Every component is valid and owns its own storage, and the limiter
        serves NUM_CHANS channels. */
    ghost predicate Valid()
      reads pEQ1.Repr, pEQ2.Repr, hiPass1.Repr, hiPass2.Repr, hiShelv.Repr, postprocLim, postprocLim.lookaheadMem
    {
      && SectionsApart(pEQ1, pEQ2, hiPass1, hiPass2, hiShelv)
      && postprocLim.Valid()
      && postprocLim.Repr !! pEQ1.Repr && postprocLim.Repr !! pEQ2.Repr && postprocLim.Repr !! hiPass1.Repr
      && postprocLim.Repr !! hiPass2.Repr && postprocLim.Repr !! hiShelv.Repr
      && LimiterModel.ActiveChans(postprocLim.nChans) == PipelineModel.NumChans
    }

    /** The sections' states, in processing order. */
    ghost function SectionModels(): (eqs: seq<Biquad.EqState>)
      reads pEQ1.Repr, pEQ2.Repr, hiPass1.Repr, hiPass2.Repr, hiShelv.Repr
      requires SectionsApart(pEQ1, pEQ2, hiPass1, hiPass2, hiShelv)
      ensures |eqs| == PipelineModel.FilterCount && PipelineModel.AllValid(eqs)
    {
      [pEQ1.Model(), pEQ2.Model(), hiPass1.Model(), hiPass2.Model(), hiShelv.Model()]
    }

    /** The run-time state as a PipelineModel.Dsp value. */
    ghost function Model(): (d: PipelineModel.Dsp)
      reads pEQ1.Repr, pEQ2.Repr, hiPass1.Repr, hiPass2.Repr, hiShelv.Repr, postprocLim, postprocLim.lookaheadMem
      requires Valid()
      ensures PipelineModel.Valid(d)
    {
      PipelineModel.Dsp(SectionModels(), postprocLim.Model())
    }

    /** The static initialisers of `cppdsp.cpp`. The error-feedback build
        switch is passed in. */
    constructor (errorFeedback: bool, m: MathLib)
      requires PipelineModel.SupportsStaticConfig(m)
      ensures Valid()
      ensures fresh(pEQ1.Repr) && fresh(pEQ2.Repr) && fresh(hiPass1.Repr) && fresh(hiPass2.Repr)
      ensures fresh(hiShelv.Repr) && fresh(postprocLim.Repr)
      ensures PipelineModel.IsStaticConfig(Model(), m)
    {
      var eq1, eq2, hp1, hp2, hs, lim := NewComponents(errorFeedback, m);
      pEQ1, pEQ2, hiPass1, hiPass2, hiShelv, postprocLim := eq1, eq2, hp1, hp2, hs, lim;
    }

    /** `cppdsp_process_eq`: 24 dB of headroom, the five sections in order,
        the limiter (whose gain is dropped) and 30 dB of make-up gain, all in
        place on `inSamps`. */
    method ProcessEq(inSamps: array<int>)
      requires Valid() && !Owns(inSamps)
      requires PipelineModel.StepFits(Model(), inSamps[..])
      modifies pEQ1.Repr, pEQ2.Repr, hiPass1.Repr, hiPass2.Repr, hiShelv.Repr, postprocLim.Repr, inSamps
      ensures Valid()
      ensures Model() == PipelineModel.ProcessEq(old(Model()), old(inSamps[..])).dsp
      ensures inSamps[..] == PipelineModel.ProcessEq(old(Model()), old(inSamps[..])).samples
    {
      EqualizeFrame(inSamps);
      LimitFrame(inSamps);
    }

    /** The first half of `cppdsp_process_eq`: the headroom shift, then the
        five `process` calls in order. The limiter is untouched. */
    method EqualizeFrame(inSamps: array<int>)
      requires Valid() && !Owns(inSamps)
      requires Biquad.IsFrame(PipelineModel.HeadroomFrame(inSamps[..]))
      requires PipelineModel.CascadeFits(Model().filters, PipelineModel.HeadroomFrame(inSamps[..]))
      modifies pEQ1.Repr, pEQ2.Repr, hiPass1.Repr, hiPass2.Repr, hiShelv.Repr, inSamps
      ensures Valid()
      ensures var eq := PipelineModel.Cascade(old(Model()).filters, PipelineModel.HeadroomFrame(old(inSamps[..])));
        Model() == PipelineModel.Dsp(eq.filters, old(Model()).limiter) && inSamps[..] == eq.samples
    {
      EqualizeSections(pEQ1, pEQ2, hiPass1, hiPass2, hiShelv, inSamps);
    }

    /** The second half of `cppdsp_process_eq`: the limiter, whose gain is
        dropped, then the make-up shift. The sections are untouched. */
    method LimitFrame(inSamps: array<int>)
      requires Valid() && !Owns(inSamps)
      requires LimiterModel.IsLimiterInput(postprocLim.nChans, inSamps[..])
      modifies postprocLim.Repr, inSamps
      ensures Valid()
      ensures var lim := LimiterModel.Process(old(Model()).limiter, old(inSamps[..]));
        Model() == PipelineModel.Dsp(old(Model()).filters, lim.limiter) && inSamps[..] == PipelineModel.MakeUpFrame(lim.samples)
    {
      LimitAndMakeUp(postprocLim, inSamps);
    }
  }

  /** The headroom shift and the five `process` calls, on the sections
      alone. */
  method EqualizeSections(a: EQ32, b: EQ32, c: EQ32, d: EQ32, e: EQ32, inSamps: array<int>)
    requires SectionsApart(a, b, c, d, e)
    requires inSamps !in a.Repr && inSamps !in b.Repr && inSamps !in c.Repr && inSamps !in d.Repr && inSamps !in e.Repr
    requires Biquad.IsFrame(PipelineModel.HeadroomFrame(inSamps[..]))
    requires PipelineModel.CascadeFits([a.Model(), b.Model(), c.Model(), d.Model(), e.Model()], PipelineModel.HeadroomFrame(inSamps[..]))
    modifies a.Repr, b.Repr, c.Repr, d.Repr, e.Repr, inSamps
    ensures SectionsApart(a, b, c, d, e)
    ensures var eq := PipelineModel.Cascade(old([a.Model(), b.Model(), c.Model(), d.Model(), e.Model()]),
                                            PipelineModel.HeadroomFrame(old(inSamps[..])));
      [a.Model(), b.Model(), c.Model(), d.Model(), e.Model()] == eq.filters && inSamps[..] == eq.samples
  {
    ghost var eqs := [a.Model(), b.Model(), c.Model(), d.Model(), e.Model()];
    ApplyHeadroom(inSamps);
    PipelineModel.CascadeOfFive(eqs, inSamps[..]);
    SectionPair(a, b, inSamps);
    SectionTriple(c, d, e, inSamps);
  }

  /** The limiter, whose gain is dropped, then the make-up shift. */
  method LimitAndMakeUp(l: Limiter32, inSamps: array<int>)
    requires l.Valid() && inSamps !in l.Repr
    requires LimiterModel.IsLimiterInput(l.nChans, inSamps[..])
    modifies l.Repr, inSamps
    ensures l.Valid()
    ensures var lim := LimiterModel.Process(old(l.Model()), old(inSamps[..]));
      l.Model() == lim.limiter && inSamps[..] == PipelineModel.MakeUpFrame(lim.samples)
  {
    var _ := l.Process(inSamps);
    ApplyMakeUp(inSamps);
  }

  /** The headroom loop: each of the NUM_CHANS samples shifted right
      arithmetically by 4. */
  method ApplyHeadroom(inSamps: array<int>)
    modifies inSamps
    ensures inSamps[..] == PipelineModel.HeadroomFrame(old(inSamps[..]))
  {
    ghost var x := inSamps[..];
    for i := 0 to inSamps.Length
      invariant forall j :: 0 <= j < i ==> inSamps[j] == PipelineModel.Headroom(x[j])
      invariant forall j :: i <= j < inSamps.Length ==> inSamps[j] == x[j]
    {
      inSamps[i] := inSamps[i] / 16;
    }
    assert inSamps[..] == PipelineModel.HeadroomFrame(x);
  }

  /** The make-up loop: each sample shifted left by 5 in 32-bit two's
      complement. */
  method ApplyMakeUp(inSamps: array<int>)
    modifies inSamps
    ensures inSamps[..] == PipelineModel.MakeUpFrame(old(inSamps[..]))
  {
    ghost var x := inSamps[..];
    for i := 0 to inSamps.Length
      invariant forall j :: 0 <= j < i ==> inSamps[j] == PipelineModel.MakeUp(x[j])
      invariant forall j :: i <= j < inSamps.Length ==> inSamps[j] == x[j]
    {
      inSamps[i] := ToInt32(inSamps[i] * 32);
    }
    assert inSamps[..] == PipelineModel.MakeUpFrame(x);
  }

  /** The static initialiser of section `k` (`pEQ1`, `pEQ2`, `hiPass1`,
      `hiPass2`, `hiShelv`): `EQ32(type, f0, SAMPLE_FREQUENCY, gain, Q)` with
      the arguments of `PipelineModel.Settings[k]`. */
  method NewSection(k: int, errorFeedback: bool, m: MathLib) returns (e: EQ32)
    requires PipelineModel.SupportsStaticConfig(m) && 0 <= k < PipelineModel.FilterCount
    ensures fresh(e.Repr) && e.Valid()
    ensures PipelineModel.IsStaticSection(e.Model(), k, m)
  {
    var s := PipelineModel.Settings[k];
    e := new EQ32(s.kind, s.f0, PipelineModel.SampleFrequency as real, s.gain, s.q, errorFeedback, m);
  }

  /** The static objects of `cppdsp.cpp`: the five sections in processing
      order and the limiter. */
  method NewComponents(errorFeedback: bool, m: MathLib)
    returns (a: EQ32, b: EQ32, c: EQ32, d: EQ32, e: EQ32, l: Limiter32)
    requires PipelineModel.SupportsStaticConfig(m)
    ensures fresh(a.Repr) && fresh(b.Repr) && fresh(c.Repr) && fresh(d.Repr) && fresh(e.Repr) && fresh(l.Repr)
    ensures SectionsApart(a, b, c, d, e) && l.Valid()
    ensures l.Repr !! a.Repr && l.Repr !! b.Repr && l.Repr !! c.Repr && l.Repr !! d.Repr && l.Repr !! e.Repr
    ensures LimiterModel.ActiveChans(l.nChans) == PipelineModel.NumChans
    ensures PipelineModel.IsStaticConfig(PipelineModel.Dsp([a.Model(), b.Model(), c.Model(), d.Model(), e.Model()], l.Model()), m)
  {
    a, b, c, d, e := NewSections(errorFeedback, m);
    PipelineModel.StaticLimiterSettingsFit(m);
    l := new Limiter32(PipelineModel.LimiterThreshold, PipelineModel.LimiterAttack, PipelineModel.LimiterHold,
                       PipelineModel.LimiterRelease, PipelineModel.NumChans, PipelineModel.SampleFrequency, m);
    PipelineModel.StaticConfigOfParts(PipelineModel.Dsp([a.Model(), b.Model(), c.Model(), d.Model(), e.Model()], l.Model()), m);
  }

  /** The five static sections, in processing order. */
  method NewSections(errorFeedback: bool, m: MathLib) returns (a: EQ32, b: EQ32, c: EQ32, d: EQ32, e: EQ32)
    requires PipelineModel.SupportsStaticConfig(m)
    ensures fresh(a.Repr) && fresh(b.Repr) && fresh(c.Repr) && fresh(d.Repr) && fresh(e.Repr)
    ensures SectionsApart(a, b, c, d, e)
    ensures PipelineModel.IsStaticSection(a.Model(), 0, m) && PipelineModel.IsStaticSection(b.Model(), 1, m)
    ensures PipelineModel.IsStaticSection(c.Model(), 2, m) && PipelineModel.IsStaticSection(d.Model(), 3, m)
    ensures PipelineModel.IsStaticSection(e.Model(), 4, m)
  {
    a := NewSection(0, errorFeedback, m);
    b := NewSection(1, errorFeedback, m);
    c := NewSection(2, errorFeedback, m);
    d := NewSection(3, errorFeedback, m);
    e := NewSection(4, errorFeedback, m);
  }

  /** Three consecutive `process` calls on distinct sections. */
  method SectionTriple(a: EQ32, b: EQ32, c: EQ32, samples: array<int>)
    requires a.Valid() && b.Valid() && c.Valid() && a.Repr !! b.Repr && a.Repr !! c.Repr && b.Repr !! c.Repr
    requires samples !in a.Repr && samples !in b.Repr && samples !in c.Repr
    requires Biquad.IsFrame(samples[..]) && Biquad.FrameFits(a.Model(), samples[..])
    requires var p1 := Biquad.Process(a.Model(), samples[..]);
      && Biquad.FrameFits(b.Model(), p1.samples)
      && Biquad.FrameFits(c.Model(), Biquad.Process(b.Model(), p1.samples).samples)
    modifies a.Repr, b.Repr, c.Repr, samples
    ensures a.Valid() && b.Valid() && c.Valid()
    ensures var p1 := Biquad.Process(old(a.Model()), old(samples[..]));
      var p2 := Biquad.Process(old(b.Model()), p1.samples);
      var p3 := Biquad.Process(old(c.Model()), p2.samples);
      a.Model() == p1.eq && b.Model() == p2.eq && c.Model() == p3.eq && samples[..] == p3.samples
  {
    SectionPair(a, b, samples);
    c.Process(samples);
  }

  /** Two consecutive `process` calls on distinct sections. */
  method SectionPair(a: EQ32, b: EQ32, samples: array<int>)
    requires a.Valid() && b.Valid() && a.Repr !! b.Repr && samples !in a.Repr && samples !in b.Repr
    requires Biquad.IsFrame(samples[..]) && Biquad.FrameFits(a.Model(), samples[..])
    requires Biquad.FrameFits(b.Model(), Biquad.Process(a.Model(), samples[..]).samples)
    modifies a.Repr, b.Repr, samples
    ensures a.Valid() && b.Valid()
    ensures var first := Biquad.Process(old(a.Model()), old(samples[..]));
      && a.Model() == first.eq
      && b.Model() == Biquad.Process(old(b.Model()), first.samples).eq
      && samples[..] == Biquad.Process(old(b.Model()), first.samples).samples
  {
    a.Process(samples);
    b.Process(samples);
  }
}
