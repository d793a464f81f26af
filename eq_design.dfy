/** The design step of EQ32 (`designEQ` and `setCoefficients`): the filter
    parameters select one of the Audio-EQ-Cookbook sections, the section is
    normalised by a0, and the five ratios are converted to Q8.24 by
    truncation. The double arithmetic is modelled on `real` (no rounding);
    cos, sin, pow, sinh and sqrt come from a supplied MathLib. */
module EqDesign {
  import opened FixedPoint
  import Biquad

  // Filter types, in the order of the source's enumeration.
  const GainEq: int := 0
  const LowPassEq: int := 1
  const HighPassEq: int := 2
  const BandPassEq: int := 3
  const NotchEq: int := 4
  const PeakingEq: int := 5
  const LowShelfEq: int := 6
  const HighShelfEq: int := 7
  const LowShelfQEq: int := 8
  const HighShelfQEq: int := 9
  const AllpassEq: int := 10

  const Pi: real := 3.14159265358979323846

  /** An analogue-prototype section b0 + b1 z^-1 + b2 z^-2 over
      a0 + a1 z^-1 + a2 z^-2, before normalisation. */
  datatype Section = Section(b0: real, b1: real, b2: real, a0: real, a1: real, a2: real)

  predicate IsKnownType(kind: int) {
    GainEq <= kind <= AllpassEq
  }

  /** The types whose sections depend on the normalised frequency
      2 pi f0 / fs; the gain type and unknown types do not read it. */
  predicate UsesOmega(kind: int) {
    IsKnownType(kind) && kind != GainEq
  }

  /** The quality factor the design uses: Q, raised to 0.1 when smaller. */
  function QFloor(q: real): (r: real)
    ensures r >= 0.1
    ensures q >= 0.1 ==> r == q
    ensures q < 0.1 ==> r == 0.1
  {
    if q < 0.1 then 0.1 else q
  }

  /** The intermediate quantities of `designEQ` for a filter that reads the
      normalised frequency: cos and sin of omega = 2 pi f0 / fs, the
      amplitude A = 10^(gain/40), alpha, beta and sqrt(A). */
  datatype Terms = Terms(cs: real, sn: real, A: real, alpha: real, beta: real, rootA: real)

  /** The shelf term `sqrt((A*A + 1)/S - (A-1)*(A-1))` for slope S. */
  function ShelfBeta(A: real, S: real, m: MathLib): real
    requires S != 0.0
  {
    m.sqrt((A * A + 1.0) / S - (A - 1.0) * (A - 1.0))
  }

  /** The slope S is Q capped at 1, so from Q = 1 upwards beta no longer
      depends on Q and reduces to sqrt(2A); below 1 it is the floored Q.
      Every Q at or below the floor 0.1 gives alpha = sn sinh(5). */
  function DesignTerms(f0: real, fs: real, gain: real, q: real, m: MathLib): (t: Terms)
    requires fs != 0.0
    ensures q >= 1.0 ==> t.beta == m.sqrt(2.0 * t.A)
    ensures q < 1.0 ==> t.beta == ShelfBeta(t.A, QFloor(q), m)
    ensures q <= 0.1 ==> t.alpha == t.sn * m.sinh(5.0)
  {
    var omega := 2.0 * Pi * f0 / fs;
    var cs := m.cos(omega);
    var sn := m.sin(omega);
    var A := m.pow(10.0, gain / 40.0);
    var Q := QFloor(q);
    var S := if Q < 1.0 then Q else 1.0;
    var alpha := sn * m.sinh(1.0 / (2.0 * Q));
    var beta := ShelfBeta(A, S, m);
    assert S == 1.0 ==> (A * A + 1.0) / S - (A - 1.0) * (A - 1.0) == 2.0 * A;
    assert Q == 0.1 ==> 1.0 / (2.0 * Q) == 5.0;
    Terms(cs, sn, A, alpha, beta, m.sqrt(A))
  }

  /** The cookbook section of each type that reads the normalised frequency
      (the `switch` of `designEQ` from LOW_PASS_EQ to ALLPASS_EQ). */
  function TypedSection(kind: int, t: Terms): (s: Section)
    requires UsesOmega(kind)
    requires kind == PeakingEq ==> t.A != 0.0
    ensures kind in {LowPassEq, HighPassEq, BandPassEq, NotchEq, AllpassEq} ==>
      s.a0 == 1.0 + t.alpha && s.a1 == -2.0 * t.cs && s.a2 == 1.0 - t.alpha
    ensures kind == LowPassEq ==> s.b0 == s.b2 && s.b1 == 2.0 * s.b0
    ensures kind == HighPassEq ==> s.b0 == s.b2 && s.b1 == -2.0 * s.b0
    ensures kind == BandPassEq ==> s.b0 == t.alpha && s.b1 == 0.0 && s.b2 == -s.b0
    ensures kind == NotchEq ==> s.b0 == s.b2 == 1.0 && s.b1 == s.a1
    ensures kind == AllpassEq ==> s.b0 == s.a2 && s.b1 == s.a1 && s.b2 == s.a0
    ensures kind == PeakingEq ==> s.b1 == s.a1 == -2.0 * t.cs && s.b0 + s.b2 == 2.0 && s.a0 + s.a2 == 2.0
  {
    var cs, sn, A, alpha := t.cs, t.sn, t.A, t.alpha;
    var betaSn := t.beta * sn;
    var twoRootAAlpha := 2.0 * t.rootA * alpha;
    if kind == LowPassEq then
      Section((1.0 - cs) / 2.0, 1.0 - cs, (1.0 - cs) / 2.0, 1.0 + alpha, -2.0 * cs, 1.0 - alpha)
    else if kind == HighPassEq then
      Section((1.0 + cs) / 2.0, -1.0 - cs, (1.0 + cs) / 2.0, 1.0 + alpha, -2.0 * cs, 1.0 - alpha)
    else if kind == BandPassEq then
      Section(alpha, 0.0, -alpha, 1.0 + alpha, -2.0 * cs, 1.0 - alpha)
    else if kind == NotchEq then
      Section(1.0, -2.0 * cs, 1.0, 1.0 + alpha, -2.0 * cs, 1.0 - alpha)
    else if kind == PeakingEq then
      Section(1.0 + alpha * A, -2.0 * cs, 1.0 - alpha * A, 1.0 + alpha / A, -2.0 * cs, 1.0 - alpha / A)
    else if kind == LowShelfEq then
      Section(A * ((A + 1.0) - (A - 1.0) * cs + betaSn),
              2.0 * A * ((A - 1.0) - (A + 1.0) * cs),
              A * ((A + 1.0) - (A - 1.0) * cs - betaSn),
              (A + 1.0) + (A - 1.0) * cs + betaSn,
              -2.0 * ((A - 1.0) + (A + 1.0) * cs),
              (A + 1.0) + (A - 1.0) * cs - betaSn)
    else if kind == HighShelfEq then
      Section(A * ((A + 1.0) + (A - 1.0) * cs + betaSn),
              -2.0 * A * ((A - 1.0) + (A + 1.0) * cs),
              A * ((A + 1.0) + (A - 1.0) * cs - betaSn),
              (A + 1.0) - (A - 1.0) * cs + betaSn,
              2.0 * ((A - 1.0) - (A + 1.0) * cs),
              (A + 1.0) - (A - 1.0) * cs - betaSn)
    else if kind == LowShelfQEq then
      Section(A * ((A + 1.0) - (A - 1.0) * cs + twoRootAAlpha),
              2.0 * A * ((A - 1.0) - (A + 1.0) * cs),
              A * ((A + 1.0) - (A - 1.0) * cs - twoRootAAlpha),
              (A + 1.0) + (A - 1.0) * cs + twoRootAAlpha,
              -2.0 * ((A - 1.0) + (A + 1.0) * cs),
              (A + 1.0) + (A - 1.0) * cs - twoRootAAlpha)
    else if kind == HighShelfQEq then
      Section(A * ((A + 1.0) + (A - 1.0) * cs + twoRootAAlpha),
              -2.0 * A * ((A - 1.0) + (A + 1.0) * cs),
              A * ((A + 1.0) + (A - 1.0) * cs - twoRootAAlpha),
              (A + 1.0) - (A - 1.0) * cs + twoRootAAlpha,
              2.0 * ((A - 1.0) - (A + 1.0) * cs),
              (A + 1.0) - (A - 1.0) * cs - twoRootAAlpha)
    else
      Section(1.0 - alpha, -2.0 * cs, 1.0 + alpha, 1.0 + alpha, -2.0 * cs, 1.0 - alpha)
  }

  /** The real divisions of the design are defined: fs is non-zero where
      omega is read, and A is non-zero where the peaking section divides by
      it (pow(10, x) is positive in the C library). */
  predicate DivisionsDefined(kind: int, fs: real, gain: real, m: MathLib) {
    && (UsesOmega(kind) ==> fs != 0.0)
    && (kind == PeakingEq ==> m.pow(10.0, gain / 40.0) != 0.0)
  }

  /** The section `designEQ` selects; an unknown type gives the identity
      section (1, 0, 0, 1, 0, 0). The gain type and unknown types give a
      plain non-negative scale factor over a0 = 1, so their normalisation
      never divides by zero and never inverts the polarity. */
  function CookbookSection(kind: int, f0: real, fs: real, gain: real, q: real, m: MathLib): (s: Section)
    requires DivisionsDefined(kind, fs, gain, m)
    ensures !UsesOmega(kind) ==> s.a0 == 1.0 && s.a1 == 0.0 && s.a2 == 0.0
    ensures !UsesOmega(kind) ==> s.b1 == 0.0 && s.b2 == 0.0 && s.b0 >= 0.0
  {
    if kind == GainEq then
      var A := m.pow(10.0, gain / 40.0);
      Section(A * A, 0.0, 0.0, 1.0, 0.0, 0.0)
    else if !IsKnownType(kind) then Section(1.0, 0.0, 0.0, 1.0, 0.0, 0.0)
    else TypedSection(kind, DesignTerms(f0, fs, gain, q, m))
  }

  /** The five ratios b0/a0, b1/a0, b2/a0, -a1/a0, -a2/a0 handed to
      `setCoefficients`. */
  function Normalize(s: Section): (v: seq<real>)
    requires s.a0 != 0.0
    ensures |v| == Biquad.BiquadCoeffs
    ensures forall k :: 0 <= k < 3 ==> v[k] * s.a0 == [s.b0, s.b1, s.b2][k]
    ensures v[3] * s.a0 == -s.a1 && v[4] * s.a0 == -s.a2
  {
    [s.b0 / s.a0, s.b1 / s.a0, s.b2 / s.a0, -s.a1 / s.a0, -s.a2 / s.a0]
  }

  /** `int32_t(d * fixed_one)`: a real coefficient in Q8.24, truncated. */
  function ToFixed(d: real): (n: int)
    ensures 0.0 <= d ==> 0 <= n && n as real <= d * 0x100_0000 as real < n as real + 1.0
    ensures d < 0.0 ==> n <= 0 && n as real - 1.0 < d * 0x100_0000 as real <= n as real
  {
    TruncToInt(d * Biquad.FixedOne as real)
  }

  /** Every value converts to Q8.24 without leaving the 32-bit range (out of
      range, the source's double-to-int32 conversion is undefined). */
  predicate FitsFixed(v: seq<real>) {
    forall k :: 0 <= k < |v| ==> IsInt32(ToFixed(v[k]))
  }

  /** The conversion loop of `setCoefficients`. */
  function Quantize(v: seq<real>): (c: seq<int>)
    requires |v| == Biquad.BiquadCoeffs && FitsFixed(v)
    ensures Biquad.IsCoefficientSet(c)
    ensures forall k :: 0 <= k < |v| ==>
      (v[k] >= 0.0 ==> 0 <= c[k] && c[k] as real <= v[k] * 0x100_0000 as real < c[k] as real + 1.0)
    ensures forall k :: 0 <= k < |v| ==>
      (v[k] < 0.0 ==> c[k] <= 0 && c[k] as real - 1.0 < v[k] * 0x100_0000 as real <= c[k] as real)
  {
    seq(Biquad.BiquadCoeffs, k requires 0 <= k < Biquad.BiquadCoeffs => ToFixed(v[k]))
  }

  /** The parameters admit a design: the frequency ratio is defined where
      it is read, a0 is non-zero and every normalised coefficient fits. */
  predicate Designable(kind: int, f0: real, fs: real, gain: real, q: real, m: MathLib) {
    && DivisionsDefined(kind, fs, gain, m)
    && CookbookSection(kind, f0, fs, gain, q, m).a0 != 0.0
    && FitsFixed(Normalize(CookbookSection(kind, f0, fs, gain, q, m)))
  }

  /** The coefficient set `designEQ` stages. */
  function DesignCoefficients(kind: int, f0: real, fs: real, gain: real, q: real, m: MathLib): (c: seq<int>)
    requires Designable(kind, f0, fs, gain, q, m)
    ensures Biquad.IsCoefficientSet(c)
  {
    Quantize(Normalize(CookbookSection(kind, f0, fs, gain, q, m)))
  }

  /** The design reads Q only through its floor, so storing the floored
      value does not change what is designed. */
  lemma DesignSeesFlooredQ(kind: int, f0: real, fs: real, gain: real, q: real, m: MathLib)
    requires DivisionsDefined(kind, fs, gain, m)
    ensures CookbookSection(kind, f0, fs, gain, QFloor(q), m) == CookbookSection(kind, f0, fs, gain, q, m)
    ensures Designable(kind, f0, fs, gain, q, m) ==>
      Designable(kind, f0, fs, gain, QFloor(q), m)
      && DesignCoefficients(kind, f0, fs, gain, QFloor(q), m) == DesignCoefficients(kind, f0, fs, gain, q, m)
  {
    if UsesOmega(kind) {
      assert DesignTerms(f0, fs, gain, QFloor(q), m) == DesignTerms(f0, fs, gain, q, m);
    }
  }

  lemma UnitIsFixedOne()
    ensures ToFixed(1.0) == Biquad.FixedOne && ToFixed(0.0) == 0
  {
    assert 1.0 * Biquad.FixedOne as real == 16777216.0;
    assert (16777216.0).Floor == 16777216;
  }

  /** A type outside the enumeration always admits a design, whatever the
      other parameters, and stages exactly (fixed_one, 0, 0, 0, 0). */
  lemma UnknownTypeStagesIdentity(kind: int, f0: real, fs: real, gain: real, q: real, m: MathLib)
    requires !IsKnownType(kind)
    ensures Designable(kind, f0, fs, gain, q, m)
    ensures DesignCoefficients(kind, f0, fs, gain, q, m) == Biquad.IdentityCoefficients
  {
    var s := CookbookSection(kind, f0, fs, gain, q, m);
    assert s == Section(1.0, 0.0, 0.0, 1.0, 0.0, 0.0);
    assert Normalize(s) == [1.0, 0.0, 0.0, 0.0, 0.0];
    UnitIsFixedOne();
  }

  /** The gain type at 0 dB (where pow(10, 0) is 1) stages the identity. */
  lemma GainTypeAtZeroDbStagesIdentity(f0: real, fs: real, q: real, m: MathLib)
    requires m.pow(10.0, 0.0) == 1.0
    ensures Designable(GainEq, f0, fs, 0.0, q, m)
    ensures DesignCoefficients(GainEq, f0, fs, 0.0, q, m) == Biquad.IdentityCoefficients
  {
    var s := CookbookSection(GainEq, f0, fs, 0.0, q, m);
    assert 0.0 / 40.0 == 0.0;
    assert s == Section(1.0, 0.0, 0.0, 1.0, 0.0, 0.0);
    assert Normalize(s) == [1.0, 0.0, 0.0, 0.0, 0.0];
    UnitIsFixedOne();
  }

  /** At unit amplitude the peaking section's numerator equals its
      denominator. */
  lemma PeakingSectionAtUnitAmplitude(t: Terms)
    requires t.A == 1.0
    ensures var s := TypedSection(PeakingEq, t);
      s.b0 == s.a0 && s.b1 == s.a1 && s.b2 == s.a2
  {
  }

  lemma SelfRatio(d: real)
    requires d != 0.0
    ensures d / d == 1.0
  {
    assert (d / d) * d == d;
    assert (d / d - 1.0) * d == 0.0;
  }

  lemma NegatedRatio(a: real, d: real)
    requires d != 0.0
    ensures -a / d == -(a / d)
  {
    assert (-a / d) * d == -a;
    assert (a / d) * d == a;
    assert (-a / d + a / d) * d == 0.0;
  }

  /** A section whose numerator equals its denominator normalises to
      (1, x1, x2, -x1, -x2). */
  lemma MatchedSectionNormalizes(s: Section)
    requires s.a0 != 0.0 && s.b0 == s.a0 && s.b1 == s.a1 && s.b2 == s.a2
    ensures var x1, x2 := s.b1 / s.a0, s.b2 / s.a0;
      Normalize(s) == [1.0, x1, x2, -x1, -x2]
  {
    NegatedRatio(s.a1, s.a0);
    NegatedRatio(s.a2, s.a0);
    SelfRatio(s.a0);
  }

  /** The Q8.24 conversion truncates toward zero, so it commutes with
      negation. */
  lemma ToFixedIsOdd(x: real)
    ensures ToFixed(-x) == -ToFixed(x)
  {
    var one := Biquad.FixedOne as real;
    assert (-x) * one == -(x * one);
    TruncIsOdd(x * one);
  }

  /** A section whose numerator equals its denominator quantises to unity b0
      and recursive coefficients that negate the non-recursive ones. */
  lemma MatchedSectionQuantizesSymmetric(s: Section)
    requires s.a0 != 0.0 && s.b0 == s.a0 && s.b1 == s.a1 && s.b2 == s.a2
    requires FitsFixed(Normalize(s))
    ensures Biquad.IsSymmetric(Quantize(Normalize(s)))
  {
    MatchedSectionNormalizes(s);
    var x1, x2 := s.b1 / s.a0, s.b2 / s.a0;
    ToFixedIsOdd(x1);
    ToFixedIsOdd(x2);
    UnitIsFixedOne();
    var c := Quantize(Normalize(s));
    assert c == [ToFixed(1.0), ToFixed(x1), ToFixed(x2), ToFixed(-x1), ToFixed(-x2)];
  }

  /** A peaking section at 0 dB has unity b0 and recursive coefficients that
      are exactly the negated non-recursive ones, so (with matching
      histories) it is transparent. */
  lemma PeakingAtZeroDbIsSymmetric(f0: real, fs: real, q: real, m: MathLib)
    requires m.pow(10.0, 0.0) == 1.0
    requires Designable(PeakingEq, f0, fs, 0.0, q, m)
    ensures Biquad.IsSymmetric(DesignCoefficients(PeakingEq, f0, fs, 0.0, q, m))
  {
    assert 0.0 / 40.0 == 0.0;
    var t := DesignTerms(f0, fs, 0.0, q, m);
    assert t.A == 1.0;
    var s := CookbookSection(PeakingEq, f0, fs, 0.0, q, m);
    assert s == TypedSection(PeakingEq, t);
    PeakingSectionAtUnitAmplitude(t);
    MatchedSectionQuantizesSymmetric(s);
  }
}
