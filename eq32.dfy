/** The EQ32 filter object: its design parameters, the active and pending
    coefficient arrays, the hand-off flag and the per-channel state words,
    updated in place by its methods. Each method is proved against the value
    model of modules Biquad and EqDesign. */
module Equalizer {
  import opened FixedPoint
  import Biquad
  import opened EqDesign

  /** `setCenterFrequency`'s clamp: a negative frequency becomes 0, then one
      above fs/2 becomes fs/2 (with the fs current at the call). */
  function ClampFrequency(f0: real, fs: real): (r: real)
    ensures fs >= 0.0 ==> 0.0 <= r <= fs / 2.0
    ensures 0.0 <= f0 <= fs / 2.0 ==> r == f0
    ensures f0 < 0.0 && fs >= 0.0 ==> r == 0.0
    ensures f0 > fs / 2.0 ==> r == fs / 2.0
  {
    var low := if f0 < 0.0 then 0.0 else f0;
    if low > fs / 2.0 then fs / 2.0 else low
  }

  /** `setGain`'s clamp to [-24, +24] dB. */
  function ClampGain(gain: real): (r: real)
    ensures -24.0 <= r <= 24.0
    ensures -24.0 <= gain <= 24.0 ==> r == gain
    ensures gain < -24.0 ==> r == -24.0
    ensures gain > 24.0 ==> r == 24.0
  {
    var low := if gain < -24.0 then -24.0 else gain;
    if low > 24.0 then 24.0 else low
  }

  /** `setQfactor`'s clamp to [0, 30]. */
  function ClampQ(q: real): (r: real)
    ensures 0.0 <= r <= 30.0
    ensures 0.0 <= q <= 30.0 ==> r == q
    ensures q < 0.0 ==> r == 0.0
    ensures q > 30.0 ==> r == 30.0
  {
    var low := if q < 0.0 then 0.0 else q;
    if low > 30.0 then 30.0 else low
  }

  class EQ32 {
    var kind: int
    var f0: real
    var fs: real
    var gain: real
    var Q: real
    var updateFilter: bool
    const coefficients: array<int>
    const newCoefficients: array<int>
    const states: array2<int>
    /** The ERROR_FEEDBACK build switch, fixed for the object's lifetime. */
    const errorFeedback: bool
    ghost const Repr: set<object>

    ghost predicate Shaped() {
      && Repr == {this, coefficients, newCoefficients, states}
      && coefficients != newCoefficients
      && coefficients.Length == Biquad.BiquadCoeffs
      && newCoefficients.Length == Biquad.BiquadCoeffs
      && states.Length0 == Biquad.EqChans
      && states.Length1 == Biquad.BiquadStates
    }

    ghost function Row(i: int): seq<int>
      reads states
      requires Shaped() && 0 <= i < Biquad.EqChans
    {
      [states[i, 0], states[i, 1], states[i, 2], states[i, 3], states[i, 4]]
    }

    /** The coefficient arrays hold 32-bit words, the four history words of
        each channel are 32-bit samples, and the error word lies in
        [0, 2^24) with error feedback and is 0 without it. */
    ghost predicate Valid()
      reads Repr
    {
      && Shaped()
      && Biquad.Valid(Model())
    }

    /** The run-time state as a Biquad.EqState value. */
    ghost function Model(): (e: Biquad.EqState)
      reads Repr
      requires Shaped()
    {
      Biquad.EqState(coefficients[..], newCoefficients[..], updateFilter, [Row(0), Row(1)], errorFeedback)
    }

    /** Freshly zeroed arrays make a valid object. */
    lemma ZeroedIsValid()
      requires Shaped()
      requires forall k :: 0 <= k < Biquad.BiquadCoeffs ==> coefficients[k] == 0 && newCoefficients[k] == 0
      requires forall i, j :: 0 <= i < Biquad.EqChans && 0 <= j < Biquad.BiquadStates ==> states[i, j] == 0
      ensures Valid()
    {
      assert Row(0) == Row(1) == [0, 0, 0, 0, 0];
    }

    /** What `designEQ` leaves behind, given Q before it: the floored Q is
        stored, and the set designed from the parameters is pending and
        flagged. (The active set and the state words are outside its frame.) */
    ghost predicate StagedDesign(qBefore: real, m: MathLib)
      reads this, newCoefficients
      requires Shaped() && Designable(kind, f0, fs, gain, qBefore, m)
    {
      && Q == QFloor(qBefore)
      && updateFilter
      && newCoefficients[..] == DesignCoefficients(kind, f0, fs, gain, qBefore, m)
    }

    /** `EQ32(void)`: a 0 dB peaking filter at 1 kHz whose active set is the
        identity, with no pending hand-off and zero state words. */
    constructor Default(errorFeedback: bool)
      ensures Valid() && fresh(Repr)
      ensures kind == PeakingEq && f0 == 1000.0 && fs == 48000.0 && gain == 0.0 && Q == 0.7071
      ensures !updateFilter && coefficients[..] == Biquad.IdentityCoefficients
      ensures Model().states == Biquad.ZeroStates && this.errorFeedback == errorFeedback
    {
      kind := PeakingEq;
      f0 := 1000.0;
      fs := 48000.0;
      gain := 0.0;
      Q := 0.7071;
      updateFilter := false;
      coefficients := new int[Biquad.BiquadCoeffs];
      newCoefficients := new int[Biquad.BiquadCoeffs](_ => 0);
      states := new int[Biquad.EqChans, Biquad.BiquadStates];
      this.errorFeedback := errorFeedback;
      Repr := {this, coefficients, newCoefficients, states};
      new;
      assert fresh(Repr);
      coefficients[0] := Biquad.FixedOne;
      coefficients[1] := 0;
      coefficients[2] := 0;
      coefficients[3] := 0;
      coefficients[4] := 0;
      assert coefficients[..] == Biquad.IdentityCoefficients;
      assert newCoefficients[..] == [0, 0, 0, 0, 0];
      ResetStates();
    }

    /** `EQ32(type, f0, fs, gain, Q)`: the parameters are stored as given
        (not clamped), the design stages its set and raises the flag, and
        the state words are zeroed. The active set is not initialised by the
        source; the first call of `process` replaces it. */
    constructor (kind: int, f0: real, fs: real, gain: real, Q: real, errorFeedback: bool, m: MathLib)
      requires Designable(kind, f0, fs, gain, Q, m)
      ensures Valid() && fresh(Repr)
      ensures this.kind == kind && this.f0 == f0 && this.fs == fs && this.gain == gain
      ensures this.errorFeedback == errorFeedback && StagedDesign(Q, m)
      ensures Model().states == Biquad.ZeroStates
    {
      this.kind := kind;
      this.f0 := f0;
      this.fs := fs;
      this.gain := gain;
      this.Q := Q;
      updateFilter := false;
      coefficients := new int[Biquad.BiquadCoeffs](_ => 0);
      newCoefficients := new int[Biquad.BiquadCoeffs](_ => 0);
      states := new int[Biquad.EqChans, Biquad.BiquadStates]((_, _) => 0);
      this.errorFeedback := errorFeedback;
      Repr := {this, coefficients, newCoefficients, states};
      new;
      assert fresh(Repr);
      ZeroedIsValid();
      DesignEQ(m);
      ResetStates();
    }

    method SetType(kind: int, updateCoeffs: bool, m: MathLib)
      requires Valid()
      requires updateCoeffs ==> Designable(kind, f0, fs, gain, Q, m)
      modifies this, newCoefficients
      ensures Valid() && this.kind == kind
      ensures f0 == old(f0) && fs == old(fs) && gain == old(gain)
      ensures updateCoeffs ==> StagedDesign(old(Q), m)
      ensures !updateCoeffs ==>
        Q == old(Q) && updateFilter == old(updateFilter) && newCoefficients[..] == old(newCoefficients[..])
    {
      this.kind := kind;
      if updateCoeffs {
        DesignEQ(m);
      }
    }

    method SetCenterFrequency(f0: real, updateCoeffs: bool, m: MathLib)
      requires Valid()
      requires updateCoeffs ==> Designable(kind, ClampFrequency(f0, fs), fs, gain, Q, m)
      modifies this, newCoefficients
      ensures Valid() && this.f0 == ClampFrequency(f0, fs)
      ensures kind == old(kind) && fs == old(fs) && gain == old(gain)
      ensures updateCoeffs ==> StagedDesign(old(Q), m)
      ensures !updateCoeffs ==>
        Q == old(Q) && updateFilter == old(updateFilter) && newCoefficients[..] == old(newCoefficients[..])
    {
      var f := f0;
      if f < 0.0 {
        f := 0.0;
      }
      if f > fs / 2.0 {
        f := fs / 2.0;
      }
      this.f0 := f;
      if updateCoeffs {
        DesignEQ(m);
      }
    }

    method SetSamplingFrequency(fs: real, updateCoeffs: bool, m: MathLib)
      requires Valid()
      requires updateCoeffs ==> Designable(kind, f0, fs, gain, Q, m)
      modifies this, newCoefficients
      ensures Valid() && this.fs == fs
      ensures kind == old(kind) && f0 == old(f0) && gain == old(gain)
      ensures updateCoeffs ==> StagedDesign(old(Q), m)
      ensures !updateCoeffs ==>
        Q == old(Q) && updateFilter == old(updateFilter) && newCoefficients[..] == old(newCoefficients[..])
    {
      this.fs := fs;
      if updateCoeffs {
        DesignEQ(m);
      }
    }

    method SetGain(gain: real, updateCoeffs: bool, m: MathLib)
      requires Valid()
      requires updateCoeffs ==> Designable(kind, f0, fs, ClampGain(gain), Q, m)
      modifies this, newCoefficients
      ensures Valid() && this.gain == ClampGain(gain)
      ensures kind == old(kind) && f0 == old(f0) && fs == old(fs)
      ensures updateCoeffs ==> StagedDesign(old(Q), m)
      ensures !updateCoeffs ==>
        Q == old(Q) && updateFilter == old(updateFilter) && newCoefficients[..] == old(newCoefficients[..])
    {
      var g := gain;
      if g < -24.0 {
        g := -24.0;
      }
      if g > 24.0 {
        g := 24.0;
      }
      this.gain := g;
      if updateCoeffs {
        DesignEQ(m);
      }
    }

    method SetQfactor(Q: real, updateCoeffs: bool, m: MathLib)
      requires Valid()
      requires updateCoeffs ==> Designable(kind, f0, fs, gain, ClampQ(Q), m)
      modifies this, newCoefficients
      ensures Valid()
      ensures kind == old(kind) && f0 == old(f0) && fs == old(fs) && gain == old(gain)
      ensures updateCoeffs ==> StagedDesign(ClampQ(Q), m)
      ensures !updateCoeffs ==>
        this.Q == ClampQ(Q) && updateFilter == old(updateFilter)
        && newCoefficients[..] == old(newCoefficients[..])
    {
      var q := Q;
      if q < 0.0 {
        q := 0.0;
      }
      if q > 30.0 {
        q := 30.0;
      }
      this.Q := q;
      if updateCoeffs {
        DesignEQ(m);
      }
    }

    /** `resetStates`: every state word of every channel becomes 0; the
        coefficients and the flag are untouched. It needs only well-formed
        coefficient sets, so a constructor can call it on fresh arrays. */
    method ResetStates()
      requires Shaped()
      requires Biquad.IsCoefficientSet(coefficients[..]) && Biquad.IsCoefficientSet(newCoefficients[..])
      modifies states
      ensures Valid()
      ensures Model().states == Biquad.ZeroStates
    {
      for i := 0 to Biquad.EqChans
        invariant forall k, j :: 0 <= k < i && 0 <= j < Biquad.BiquadStates ==> states[k, j] == 0
      {
        for j := 0 to Biquad.BiquadStates
          invariant forall jj :: 0 <= jj < j ==> states[i, jj] == 0
          invariant forall k, jj :: 0 <= k < i && 0 <= jj < Biquad.BiquadStates ==> states[k, jj] == 0
        {
          states[i, j] := 0;
        }
      }
      assert Row(0) == Biquad.ZeroStates[0] && Row(1) == Biquad.ZeroStates[1];
    }

    /** `designEQ`: floor Q at 0.1 (stored back), select and normalise the
        cookbook section, and stage it through `setCoefficients`. */
    method DesignEQ(m: MathLib)
      requires Valid() && Designable(kind, f0, fs, gain, Q, m)
      modifies this`Q, this`updateFilter, newCoefficients
      ensures Valid() && StagedDesign(old(Q), m)
    {
      DesignSeesFlooredQ(kind, f0, fs, gain, Q, m);
      if Q < 0.1 {
        Q := 0.1;
      }
      var section := CookbookSection(kind, f0, fs, gain, Q, m);
      SetCoefficients(Normalize(section));
    }

    /** `setCoefficients`: convert the five doubles to Q8.24 into the
        pending set and raise the hand-off flag. */
    method SetCoefficients(doubleCoeffs: seq<real>)
      requires Valid() && |doubleCoeffs| == Biquad.BiquadCoeffs && FitsFixed(doubleCoeffs)
      modifies this`updateFilter, newCoefficients
      ensures Valid()
      ensures newCoefficients[..] == Quantize(doubleCoeffs) && updateFilter
    {
      for i := 0 to Biquad.BiquadCoeffs
        invariant forall k :: 0 <= k < i ==> newCoefficients[k] == ToFixed(doubleCoeffs[k])
      {
        newCoefficients[i] := ToFixed(doubleCoeffs[i]);
      }
      updateFilter := true;
    }

    /** `process`: hand off the pending set if flagged, then filter every
        channel of the frame in place. */
    method Process(samples: array<int>)
      requires Valid() && samples !in Repr
      requires Biquad.IsFrame(samples[..])
      requires Biquad.FrameFits(Model(), samples[..])
      modifies coefficients, states, samples
      ensures Valid()
      ensures Model() == Biquad.Process(old(Model()), old(samples[..])).eq
      ensures samples[..] == Biquad.Process(old(Model()), old(samples[..])).samples
    {
      ghost var e, x := Model(), samples[..];
      HandOff();
      FilterFrame(samples);
      Biquad.ProcessFromChannels(e, x, samples[..], Model().states);
    }

    /** The first step of `process`: when the flag is raised the pending set
        is copied over the active one. The flag stays raised. */
    method HandOff()
      requires Valid()
      modifies coefficients
      ensures Valid()
      ensures coefficients[..] == Biquad.ActiveCoefficients(old(Model()))
    {
      if updateFilter {
        for i := 0 to Biquad.BiquadCoeffs
          invariant forall k :: 0 <= k < i ==> coefficients[k] == newCoefficients[k]
        {
          coefficients[i] := newCoefficients[i];
        }
      }
    }

    /** The channel loop of `process`: every channel is filtered with the
        active set; samples beyond the channels are untouched. */
    method FilterFrame(samples: array<int>)
      requires Valid() && samples !in Repr
      requires Biquad.IsFrame(samples[..])
      requires forall k :: 0 <= k < Biquad.EqChans ==>
        Biquad.AccumulatorFits(coefficients[..], samples[k], Model().states[k], errorFeedback)
      modifies states, samples
      ensures Valid()
      ensures forall k :: 0 <= k < Biquad.EqChans ==>
        var step := Biquad.FilterSample(coefficients[..], old(samples[k]), old(Model()).states[k], errorFeedback);
        samples[k] == step.output && Model().states[k] == step.state
      ensures forall k :: Biquad.EqChans <= k < samples.Length ==> samples[k] == old(samples[k])
    {
      for i := 0 to Biquad.EqChans
        invariant Valid()
        invariant forall k :: 0 <= k < i ==>
          var step := Biquad.FilterSample(coefficients[..], old(samples[k]), old(Model()).states[k], errorFeedback);
          samples[k] == step.output && Model().states[k] == step.state
        invariant forall k :: i <= k < Biquad.EqChans ==> Model().states[k] == old(Model()).states[k]
        invariant forall k :: i <= k < samples.Length ==> samples[k] == old(samples[k])
      {
        ghost var x, s, other := samples[i], Model().states[i], Model().states[1 - i];
        ghost var step := Biquad.FilterSample(coefficients[..], x, s, errorFeedback);
        var temp64 := Accumulate(i, samples[i]);
        FilterChannel(i, samples, temp64);
        assert Model().states[i] == [x, s[0], step.output, s[2], step.state[4]] == step.state;
        assert Model().states[1 - i] == other;
      }
    }

    /** The write-back half of one pass of `process`'s channel loop, given
        the accumulator: shift the non-recursive history, write the quantised
        output over the input, shift the recursive history and keep the
        error word. */
    method FilterChannel(i: int, samples: array<int>, temp64: int)
      requires Valid() && samples !in Repr && 0 <= i < Biquad.EqChans <= samples.Length
      requires IsInt32(samples[i])
      modifies states, samples
      ensures Valid()
      ensures samples[i] == ToInt32(temp64 / Biquad.FixedOne)
      ensures states[i, 0] == old(samples[i]) && states[i, 1] == old(states[i, 0])
      ensures states[i, 2] == samples[i] && states[i, 3] == old(states[i, 2])
      ensures states[i, 4] == if errorFeedback then temp64 % Biquad.ErrorModulus else old(states[i, 4])
      ensures forall k, j :: 0 <= k < Biquad.EqChans && k != i && 0 <= j < Biquad.BiquadStates ==>
        states[k, j] == old(states[k, j])
      ensures forall k :: 0 <= k < samples.Length && k != i ==> samples[k] == old(samples[k])
    {
      ghost var before, other := Model().states[i], Model().states[1 - i];
      states[i, 1] := states[i, 0];
      states[i, 0] := samples[i];
      samples[i] := ToInt32(temp64 / Biquad.FixedOne);
      states[i, 3] := states[i, 2];
      states[i, 2] := samples[i];
      if errorFeedback {
        states[i, 4] := temp64 % Biquad.ErrorModulus;
      }
      assert Model().states[1 - i] == other;
      assert Model().states[i] == [old(samples[i]), before[0], samples[i], before[2], states[i, 4]];
    }

    /** The 64-bit multiply-accumulate of channel i on input x, summed in the
        source's order; no partial sum leaves the 64-bit range. */
    method Accumulate(i: int, x: int) returns (temp64: int)
      requires Valid() && 0 <= i < Biquad.EqChans && IsInt32(x)
      requires Biquad.AccumulatorFits(coefficients[..], x, Model().states[i], errorFeedback)
      ensures IsInt64(temp64)
      ensures temp64 == Biquad.Accumulate(coefficients[..], x, Model().states[i], errorFeedback)
    {
      ghost var c, s := coefficients[..], Model().states[i];
      assert c[0] == coefficients[0] && c[1] == coefficients[1] && c[2] == coefficients[2];
      assert c[3] == coefficients[3] && c[4] == coefficients[4];
      assert s[0] == states[i, 0] && s[1] == states[i, 1] && s[2] == states[i, 2];
      assert s[3] == states[i, 3] && s[4] == states[i, 4];
      temp64 := coefficients[0] * x;
      temp64 := temp64 + coefficients[1] * states[i, 0];
      assert IsInt64(temp64);
      temp64 := temp64 + coefficients[2] * states[i, 1];
      assert IsInt64(temp64);
      temp64 := temp64 + coefficients[3] * states[i, 2];
      assert IsInt64(temp64);
      temp64 := temp64 + coefficients[4] * states[i, 3];
      assert IsInt64(temp64);
      if errorFeedback {
        temp64 := temp64 + states[i, 4];
      }
    }
  }
}
