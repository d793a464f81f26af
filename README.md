# Fixed-point home-DSP audio path, modelled in Dafny

This project models the signal path of the XMOS startKIT home-DSP firmware. Each stereo frame of 32-bit samples goes through the following steps in place:

1. 24 dB of headroom, applied as an arithmetic shift right by 4.
2. A cascade of five EQ32 biquad sections. Their coefficients are Q8.24 fixed point, with a pending coefficient set and a hand-off flag. Error feedback of the quantisation error is optional.
3. The Limiter32 look-ahead peak limiter. It has a masked peak detector, a guarded fixed-point division, release and attack one-pole smoothers, a hold counter, per-channel ring buffers and a cursor, and a symmetric clip.
4. 30 dB of make-up gain, applied as a shift left by 5.

The project has two layers:

- **Value models.** Modules `Biquad`, `EqDesign`, `LimiterModel` and `PipelineModel` define each component's state as a datatype and each operation as a function. The properties the code promises are proved as lemmas about them.
- **Imperative classes.** `Equalizer.EQ32`, `PeakLimiter.Limiter32` and `CppDspPipeline.CppDsp` keep the source's fields, arrays and loops. They update them in place. Each method is proved against the value model through a `Model()` function of the object's state.

Design notes:

- C integer types are modelled by range predicates. Every narrowing conversion is written out: `FixedPoint.ToInt32` wraps and `FixedPoint.TruncToInt` truncates toward zero.
- `>>` on signed values is a floor division.
- Doubles are modelled as reals. `cos`, `sin`, `pow`, `sinh` and `sqrt` are supplied by a `MathLib` value, so every design statement holds for whatever values those functions return.
- The `ERROR_FEEDBACK` build switch is a constant field of each filter.

Facts about the code that the model keeps:

- `process` never clears `update_filter`, so the pending set is copied over the active set on every call while the flag is raised.
- `setCoefficients` converts a double coefficient to Q8.24 with `int32_t(x * fixed_one)`, which truncates toward zero. The value is not clamped, and a value out of range is excluded by a precondition.
- A setter called with `update_coeffs == 0` changes only its own field and does not redesign the coefficients.
- With the coefficients (fixed_one, 0, 0, 0, 0), a section outputs every input sample unchanged.

## Model

| member | source | states |
|---|---|---|
| FixedPoint.ToInt32 | startkit_home_dsp/src/eq32.h:123 | `(int32_t)` of a wider value is the unique 32-bit value congruent to it modulo 2^32, and the value itself when it fits |
| FixedPoint.TruncToInt | startkit_home_dsp/src/eq32.cpp:264 | double-to-integer conversion truncates toward zero: for d >= 0 the result is the largest integer not above d; for d < 0 it is the smallest integer not below d |
| FixedPoint.TruncIsOdd | startkit_home_dsp/src/eq32.cpp:264 | truncation commutes with negation |
| Biquad.ActiveCoefficients | startkit_home_dsp/src/eq32.h:101-104 | a call filters with the pending set when `update_filter` is raised and with the active set otherwise; on a well-formed state either is a set of five 32-bit words |
| Biquad.Accumulate | startkit_home_dsp/src/eq32.h:109-116 | with the identity coefficients the accumulator is fixed_one times the input (plus the error word with feedback); a zero input on zero history words leaves only the error word |
| Biquad.FilterSample | startkit_home_dsp/src/eq32.h:109-131 | one channel's step yields a 32-bit output and a well-formed channel state: four 32-bit history words, and an error word in [0, 2^24) with feedback or 0 without |
| Biquad.Process | startkit_home_dsp/src/eq32.h:95-133 | a call keeps the filter state well formed and gives a frame of 32-bit samples of the same length |
| Biquad.Run | startkit_home_dsp/src/eq32.h:95-133 | successive calls keep the state well formed and give one output frame per input frame |
| Biquad.HandoffPrecedesFiltering | startkit_home_dsp/src/eq32.h:101-132 | with the flag raised, the active set equals the pending set before any channel is filtered, and every channel uses that one set; the pending set is unchanged, the flag stays raised, and samples beyond the channels are untouched |
| Biquad.ProcessFromChannels | startkit_home_dsp/src/eq32.h:106-132 | conversely, any output frame and channel states that agree with the per-channel step on every channel, and with the input elsewhere, are exactly the result of the call |
| Biquad.OutputIsQuantisedAccumulator | startkit_home_dsp/src/eq32.h:109-123 | channel i's output is the `(int32_t)` of the floor of (c0 x + c1 s0 + c2 s1 + c3 s2 + c4 s3 [+ s4]) / 2^24 over the pre-call state; when that fits, output * 2^24 <= acc < (output + 1) * 2^24 |
| Biquad.StateShift | startkit_home_dsp/src/eq32.h:119-131 | s1' = s0, s0' = x, s3' = s2, s2' = y; the error word is unchanged without feedback, and with feedback equals acc & 0x00FFFFFF, in [0, 2^24) |
| Biquad.ChannelsIndependent | startkit_home_dsp/src/eq32.h:106-132 | channel j's output and new state depend only on its input, its old state words, the coefficients and the feedback switch |
| Biquad.IdentityPassesThrough | startkit_home_dsp/src/eq32.h:109-123 | with coefficients (fixed_one, 0, 0, 0, 0) the output equals the input exactly, with or without error feedback |
| Biquad.ZeroFrameKeepsStatesZero | startkit_home_dsp/src/eq32.h:109-130 | a zero frame on all-zero state words gives a zero frame and leaves every state word zero, whatever the coefficients |
| Biquad.SymmetricSampleIsTransparent | startkit_home_dsp/src/eq32.h:109-127 | with b0 = 1, -a1 = -b1 and -a2 = -b2, and output history equal to input history, one channel step outputs its input |
| Biquad.SymmetricStepIsTransparent | startkit_home_dsp/src/eq32.h:95-133 | such a section passes a whole frame through unchanged and keeps its histories equal |
| Biquad.SymmetricRunIsTransparent | startkit_home_dsp/src/eq32.h:95-133 | such a section passes every frame of a stream through unchanged |
| Biquad.SilentRunStaysSilent | startkit_home_dsp/src/eq32.h:95-133 | from all-zero state words, a stream of zero frames gives zero frames and leaves the state words zero |
| EqDesign.QFloor | startkit_home_dsp/src/eq32.cpp:136 | the design's Q is at least 0.1; it equals Q when Q >= 0.1 and is 0.1 otherwise |
| EqDesign.DesignTerms | startkit_home_dsp/src/eq32.cpp:132-139 | the shelf slope S is Q capped at 1: for Q >= 1 beta no longer depends on Q and equals sqrt(2A); for Q < 1 beta uses S = the floored Q; every Q at or below 0.1 gives alpha = sn sinh(5) |
| EqDesign.TypedSection | startkit_home_dsp/src/eq32.cpp:152-240 | low-pass, high-pass, band-pass, notch and all-pass share the denominator (1 + alpha, -2 cs, 1 - alpha); the low-pass and high-pass numerators are symmetric with b1 = ±2 b0; band-pass has b1 = 0 and b2 = -b0; the notch has zeros (1, a1, 1); the all-pass numerator is the reversed denominator; the peaking section has b1 = a1 = -2 cs and b0 + b2 = a0 + a2 = 2 |
| EqDesign.CookbookSection | startkit_home_dsp/src/eq32.cpp:141-250 | the gain type and unknown types (the branches that do not read omega) give a section with a0 = 1, a1 = a2 = 0, b1 = b2 = 0 and b0 >= 0: a plain non-negative scale factor whose normalisation never divides by zero |
| EqDesign.ToFixed | startkit_home_dsp/src/eq32.cpp:264 | the Q8.24 value is d * 2^24 truncated toward zero: within one unit below it for d >= 0 and within one unit above it for d < 0 |
| EqDesign.Normalize | startkit_home_dsp/src/eq32.cpp:252-256 | the five handed-over values times a0 are b0, b1, b2, -a1 and -a2 |
| EqDesign.Quantize | startkit_home_dsp/src/eq32.cpp:263-264 | each Q8.24 coefficient is v * 2^24 truncated toward zero, and the set is five 32-bit words |
| EqDesign.DesignCoefficients | startkit_home_dsp/src/eq32.cpp:126-264 | a design that fits the fixed-point format yields a set of five 32-bit coefficients |
| EqDesign.DesignSeesFlooredQ | startkit_home_dsp/src/eq32.cpp:136-139 | the design reads Q only through its floor, so storing the floored Q back does not change the designed set |
| EqDesign.UnitIsFixedOne | startkit_home_dsp/src/eq32.cpp:264 | 1.0 converts to fixed_one and 0.0 to 0 |
| EqDesign.UnknownTypeStagesIdentity | startkit_home_dsp/src/eq32.cpp:242-258 | a type outside the enumeration can always be designed, and it stages exactly (fixed_one, 0, 0, 0, 0) |
| EqDesign.GainTypeAtZeroDbStagesIdentity | startkit_home_dsp/src/eq32.cpp:143-150 | the gain type at 0 dB stages the identity set when pow(10, 0) is 1 |
| EqDesign.PeakingSectionAtUnitAmplitude | startkit_home_dsp/src/eq32.cpp:188-195 | at A = 1 the peaking section's numerator equals its denominator |
| EqDesign.MatchedSectionNormalizes | startkit_home_dsp/src/eq32.cpp:252-256 | a section with numerator equal to denominator normalises to (1, x1, x2, -x1, -x2) |
| EqDesign.ToFixedIsOdd | startkit_home_dsp/src/eq32.cpp:264 | the Q8.24 conversion commutes with negation |
| EqDesign.MatchedSectionQuantizesSymmetric | startkit_home_dsp/src/eq32.cpp:252-264 | such a section quantises to b0 = fixed_one with recursive coefficients that negate the non-recursive ones |
| EqDesign.PeakingAtZeroDbIsSymmetric | startkit_home_dsp/src/eq32.cpp:126-264 | a peaking design at 0 dB yields such a symmetric set, which is then transparent by the Biquad lemmas above |
| Equalizer.ClampFrequency | startkit_home_dsp/src/eq32.cpp:71-75 | f0 is clamped to [0, fs/2] using the fs current at the call: unchanged inside the range, 0 below it, fs/2 above it |
| Equalizer.ClampGain | startkit_home_dsp/src/eq32.cpp:93-97 | the gain is clamped to [-24, 24] dB, unchanged inside the range |
| Equalizer.ClampQ | startkit_home_dsp/src/eq32.cpp:107-111 | Q is clamped to [0, 30], unchanged inside the range |
| Equalizer.EQ32.Default | startkit_home_dsp/src/eq32.cpp:29-43 | a peaking 0 dB filter at 1 kHz, 48 kHz, Q 0.7071, active set (fixed_one, 0, 0, 0, 0), flag down, all state words zero |
| Equalizer.EQ32.constructor | startkit_home_dsp/src/eq32.cpp:45-55 | the parameters are stored unclamped, the design is staged with the flag raised and Q floored, and the state words are zero |
| Equalizer.EQ32.SetType | startkit_home_dsp/src/eq32.cpp:61-67 | the type is stored and the other parameters are kept; with update_coeffs the design is staged, otherwise Q, the flag and the pending set are unchanged |
| Equalizer.EQ32.SetCenterFrequency | startkit_home_dsp/src/eq32.cpp:69-81 | f0 becomes ClampFrequency(f0, fs) and the other parameters are kept; the design is staged or nothing else changes, according to update_coeffs |
| Equalizer.EQ32.SetSamplingFrequency | startkit_home_dsp/src/eq32.cpp:83-89 | fs is stored unclamped and the other parameters are kept; the design is staged or nothing else changes |
| Equalizer.EQ32.SetGain | startkit_home_dsp/src/eq32.cpp:91-103 | the gain becomes ClampGain(gain) and the other parameters are kept; the design is staged or nothing else changes |
| Equalizer.EQ32.SetQfactor | startkit_home_dsp/src/eq32.cpp:105-117 | Q becomes ClampQ(Q); with update_coeffs the design then floors it at 0.1 and stages the set; otherwise the flag and the pending set are unchanged |
| Equalizer.EQ32.ResetStates | startkit_home_dsp/src/eq32.cpp:119-124 | every state word of every channel becomes 0; only the state array may change |
| Equalizer.EQ32.DesignEQ | startkit_home_dsp/src/eq32.cpp:126-259 | Q is stored floored at 0.1, the flag is raised, and the pending set is the designed set; the active set and the state words are outside its frame |
| Equalizer.EQ32.SetCoefficients | startkit_home_dsp/src/eq32.cpp:261-266 | the pending set becomes the truncating Q8.24 conversion of the five values, and the flag is raised |
| Equalizer.EQ32.Process | startkit_home_dsp/src/eq32.h:95-133 | the object's new state and the frame in place are exactly Biquad.Process of the old state and frame |
| Equalizer.EQ32.HandOff | startkit_home_dsp/src/eq32.h:101-104 | the active array becomes the pending set when the flag is raised, and is kept otherwise |
| Equalizer.EQ32.FilterFrame | startkit_home_dsp/src/eq32.h:106-132 | every channel's output and new state words are the per-channel step on its old values; samples beyond the channels are untouched |
| Equalizer.EQ32.FilterChannel | startkit_home_dsp/src/eq32.h:118-131 | the history words shift, the quantised output overwrites the input, and the error word is stored; no other channel or sample changes |
| Equalizer.EQ32.Accumulate | startkit_home_dsp/src/eq32.h:109-117 | the 64-bit accumulator equals the exact multiply-accumulate of the channel, and fits in 64 bits |
| LimiterModel.SmoothingCoefficient | startkit_home_dsp/src/limiter32.cpp:57-59 | `(int32_t)(1/(t fs) * 0x7FFFFFFF)` lies in [0, 0x7FFFFFFF] |
| LimiterModel.SampleCount | startkit_home_dsp/src/limiter32.cpp:61-62 | `(int32_t)(t * fs)` is a 32-bit count, the floor of t fs when that is non-negative |
| LimiterModel.LookaheadGivesCoefficient | startkit_home_dsp/src/limiter32.cpp:57-62 | a look-ahead of at least one sample makes the attack coefficient well defined and in range |
| LimiterModel.LinearThreshold | startkit_home_dsp/src/limiter32.cpp:71-74 | a threshold >= 0 dBFS gives 0x7FFFFFFF; otherwise 10^(t/20) of full scale truncated, so at most that product and within one unit of it; always in [0, 0x7FFFFFFF] |
| LimiterModel.ClampChannels | startkit_home_dsp/src/limiter32.cpp:54-55 | the channel count is cut down to MAX_LIMITER_CHANS and otherwise kept |
| LimiterModel.SilentBuffers | startkit_home_dsp/src/limiter32.cpp:64-69 | one buffer per channel, each of the given length and all zero |
| LimiterModel.Initial | startkit_home_dsp/src/limiter32.cpp:54-79 | the built limiter is well formed and fresh: zero buffers, cursor 0, holdCnt = nHoldSamps, gain = relState = 0x7FFFFFFF, and a + b = 0x7FFFFFFF for both poles |
| LimiterModel.Create | startkit_home_dsp/src/limiter32.cpp:51-80 | the full constructor gives a fresh limiter with the clamped channel count, a look-ahead of floor(tAtt fs) samples and the linear threshold |
| LimiterModel.CreateDefault | startkit_home_dsp/src/limiter32.cpp:22-49 | the default constructor gives a fresh limiter with bAtt 22369621, bRel 44739, hold 480, look-ahead 96 and threshold 0x40000000 |
| LimiterModel.Abs | startkit_home_dsp/src/limiter32.cpp:18 | the magnitude is non-negative and is x or -x |
| LimiterModel.Peak | startkit_home_dsp/src/limiter32.cpp:102-104 | the peak bounds every active channel's magnitude and is one of them, or 0 with no channel |
| LimiterModel.MaskPeak | startkit_home_dsp/src/limiter32.cpp:107 | `& 0xFFFF0000` rounds the peak down to a multiple of 2^16 that is within 2^16 of it |
| LimiterModel.InstantGain | startkit_home_dsp/src/limiter32.cpp:106-111 | the instantaneous gain is in [0, 0x7FFFFFFF]; it is 0x7FFFFFFF when the masked peak is within the threshold, and otherwise it brings the masked peak down to at most the threshold |
| LimiterModel.InstantGainBounds | startkit_home_dsp/src/limiter32.cpp:107-109 | division safety: the divisor `maxVal >> 16` is at least 1, and the shifted quotient fits in 31 bits |
| LimiterModel.Attenuate | startkit_home_dsp/src/limiter32.cpp:132 | a Q31 gain in [0, 1] never amplifies and keeps the sign |
| LimiterModel.Smooth | startkit_home_dsp/src/limiter32.cpp:113 | the one-pole smoother with a + b = 0x7FFFFFFF stays in [0, max(target, previous)] |
| LimiterModel.SmoothBounds | startkit_home_dsp/src/limiter32.cpp:128 | the sum of the two shifted products lies in [0, max(x, y)], so the gain never leaves [0, 0x7FFFFFFF] |
| LimiterModel.Clamp | startkit_home_dsp/src/limiter32.cpp:134 | max(min(v, thr), -thr) is in [-thr, thr], equals v inside, and thr or -thr outside |
| LimiterModel.Release | startkit_home_dsp/src/limiter32.cpp:113-126 | on an attack, relState becomes the frame's gain and holdCnt is reloaded to nHoldSamps; otherwise, with holdCnt > 0, holdCnt counts down by one and relState is kept; otherwise relState becomes the smoother's value and holdCnt is kept. relState stays in [0, 1], and holdCnt stays in [0, nHoldSamps] or at its reload value |
| LimiterModel.SmoothLowerBound | startkit_home_dsp/src/limiter32.cpp:113 | the smoother's two floored products never fall more than two units below the lower of its target and its previous value |
| LimiterModel.FrameGain | startkit_home_dsp/src/limiter32.cpp:102-111 | the gain a frame asks for is in [0, 0x7FFFFFFF]; it is 0x7FFFFFFF when the masked peak of the active channels is within the threshold, and otherwise it brings that masked peak down to at most the threshold |
| LimiterModel.NextCursor | startkit_home_dsp/src/limiter32.cpp:137-139 | the cursor advances by one modulo nLookaheadSamps and stays in [0, nLookaheadSamps) |
| LimiterModel.DelayedOutputs | startkit_home_dsp/src/limiter32.cpp:130-135 | every active output lies in [-thresholdLin, thresholdLin]; inactive entries are untouched |
| LimiterModel.StoreFrame | startkit_home_dsp/src/limiter32.cpp:130-133 | storing the frame keeps every buffer's length and its 32-bit contents |
| LimiterModel.Process | startkit_home_dsp/src/limiter32.cpp:98-142 | one call keeps the limiter well formed with the same settings, returns the new gain, clips every active output to ±thresholdLin and moves the cursor by one modulo L |
| LimiterModel.StepFromParts | startkit_home_dsp/src/limiter32.cpp:98-142 | the step is fully determined by its parts: stored frame, advanced cursor, envelope, attack smoothing and emitted frame |
| LimiterModel.SetThreshold | startkit_home_dsp/src/limiter32.cpp:90-96 | only thresholdLin changes, to the linear threshold of the new level |
| LimiterModel.QuietFrameNeedsNoReduction | startkit_home_dsp/src/limiter32.cpp:102-111 | a frame within the threshold on every active channel asks for unity gain |
| LimiterModel.SlotReadThenWritten | startkit_home_dsp/src/limiter32.cpp:130-139 | the slot under the cursor is read for the output, then holds the new input; every other slot is unchanged |
| LimiterModel.SilentStepStaysSilent | startkit_home_dsp/src/limiter32.cpp:98-142 | zero input into silent buffers gives zero output and keeps the buffers silent |
| LimiterModel.DelayLine | startkit_home_dsp/src/limiter32.cpp:130-139 | if the buffers remember a history, the output is the input of exactly L frames earlier, scaled and clipped, and the buffers then remember the extended history |
| LimiterModel.Run | startkit_home_dsp/src/limiter32.cpp:98-142 | successive calls keep the settings and give one frame and one gain in [0, 1] per call |
| LimiterModel.HoldKeepsRelease | startkit_home_dsp/src/limiter32.cpp:115-126 | for up to holdCnt frames in a row without an attack, relState does not move and holdCnt falls by exactly one per frame |
| LimiterModel.AttackThenHold | startkit_home_dsp/src/limiter32.cpp:115-126 | after an attack frame followed by k <= nHoldSamps frames without an attack, relState is still the attack frame's gain and holdCnt is nHoldSamps - k |
| LimiterModel.ReleaseAfterHold | startkit_home_dsp/src/limiter32.cpp:113-126 | at holdCnt 0, a frame without an attack moves relState to the smoother's value, which is at most the frame's gain and at least the lower of that gain and the old relState minus two; holdCnt stays 0 |
| LimiterModel.RunDelays | startkit_home_dsp/src/limiter32.cpp:130-139 | over a stream, output t is the input L frames earlier, scaled by step t's gain and clipped |
| LimiterModel.FreshRemembersNothing | startkit_home_dsp/src/limiter32.cpp:64-69 | zeroed buffers are the memory of an empty history |
| LimiterModel.FreshRunDelays | startkit_home_dsp/src/limiter32.cpp:130-139 | from a fresh limiter, output t is the input of frame t - L, with 0 before the stream begins |
| LimiterModel.FreshOutputAt | startkit_home_dsp/src/limiter32.cpp:130-139 | from a fresh limiter, the output of channel i at frame t is 0 for t < L and otherwise frame t - L scaled and clipped |
| LimiterModel.FreshLimiterDelays | startkit_home_dsp/src/limiter32.cpp:130-139 | the first L outputs after construction are 0, and output t is input t - L scaled by its gain and clipped |
| PeakLimiter.Limiter32.constructor | startkit_home_dsp/src/limiter32.cpp:51-80 | the object's state is LimiterModel.Create of the arguments |
| PeakLimiter.Limiter32.Default | startkit_home_dsp/src/limiter32.cpp:22-49 | the object's state is LimiterModel.CreateDefault of the channel count |
| PeakLimiter.Limiter32.ClearBuffers | startkit_home_dsp/src/limiter32.cpp:64-69 | every buffer slot of every channel becomes 0 |
| PeakLimiter.Limiter32.SetThreshold | startkit_home_dsp/src/limiter32.cpp:90-96 | the object's new state is LimiterModel.SetThreshold of its old state |
| PeakLimiter.Limiter32.Process | startkit_home_dsp/src/limiter32.cpp:98-142 | the new state, the frame in place and the returned gain are exactly LimiterModel.Process of the old state and frame |
| PeakLimiter.Limiter32.GainFor | startkit_home_dsp/src/limiter32.cpp:106-111 | the masked, guarded division returns the instantaneous gain of the peak |
| PeakLimiter.Limiter32.UpdateEnvelope | startkit_home_dsp/src/limiter32.cpp:113-128 | relState and holdCnt follow the attack/hold/release branches, and the gain is the attack smoother of the new relState |
| PeakLimiter.Limiter32.PeakOf | startkit_home_dsp/src/limiter32.cpp:102-104 | the loop returns the largest magnitude over the active channels |
| PeakLimiter.Limiter32.ShiftIn | startkit_home_dsp/src/limiter32.cpp:130-135 | the buffers store the frame under the cursor, and the frame becomes the delayed, scaled and clipped samples |
| PipelineModel.Headroom | startkit_home_dsp/src/cppdsp.cpp:24 | `x >>= 4` is floor(x / 16): 16 r <= x < 16 r + 16, within ±2^27 for 32-bit x |
| PipelineModel.MakeUp | startkit_home_dsp/src/cppdsp.cpp:39 | `x <<= 5` gives a 32-bit value equal to 32 x whenever that fits |
| PipelineModel.MakeUpOnGrid | startkit_home_dsp/src/cppdsp.cpp:37-40 | a limited sample shifted left by 5 is a multiple of 32 within 32 thresholdLin, when that bound fits |
| PipelineModel.HeadroomFrame | startkit_home_dsp/src/cppdsp.cpp:22-25 | every sample of the frame is shifted right by 4 |
| PipelineModel.MakeUpFrame | startkit_home_dsp/src/cppdsp.cpp:38-40 | every sample of the frame is shifted left by 5 |
| PipelineModel.Cascade | startkit_home_dsp/src/cppdsp.cpp:28-32 | the sections run in list order, each on the previous one's output; the states stay well formed and the frame keeps its length |
| PipelineModel.CascadeUnfold | startkit_home_dsp/src/cppdsp.cpp:28-32 | the first section runs on the frame and the rest on its output |
| PipelineModel.CascadeOfFive | startkit_home_dsp/src/cppdsp.cpp:28-32 | the five-section cascade is pEQ1, pEQ2, hiPass1, hiPass2, hiShelv in turn, each on the previous output and each within its accumulator |
| PipelineModel.ZeroFrameFits | startkit_home_dsp/src/eq32.h:109-117 | a zero frame on zero state words never overflows the 64-bit accumulator |
| PipelineModel.SilentCascade | startkit_home_dsp/src/cppdsp.cpp:28-32 | a zero frame through silent sections fits, comes out zero and leaves them silent |
| PipelineModel.ProcessEq | startkit_home_dsp/src/cppdsp.cpp:20-41 | a call keeps the components well formed and the threshold unchanged; every output sample is a multiple of 32 within ±32 thresholdLin when that bound fits |
| PipelineModel.SilentStep | startkit_home_dsp/src/cppdsp.cpp:20-41 | a zero frame into silent components is accepted, comes out zero and keeps them silent |
| PipelineModel.Run | startkit_home_dsp/src/cppdsp.cpp:20-41 | a stream of calls gives one NUM_CHANS frame per input and keeps the threshold |
| PipelineModel.RunUnfold | startkit_home_dsp/src/cppdsp.cpp:20-41 | a stream is its first call followed by the rest from the state that call leaves |
| PipelineModel.RunOutputBound | startkit_home_dsp/src/cppdsp.cpp:20-41 | every output of a stream is a multiple of 32 within ±32 thresholdLin |
| PipelineModel.SilentRun | startkit_home_dsp/src/cppdsp.cpp:20-41 | from silent components, zero frames are accepted, give zero frames and keep the components silent |
| PipelineModel.StaticLimiterSettingsFit | startkit_home_dsp/src/cppdsp.cpp:18 | postprocLim's 1 ms attack, 100 ms hold and 1 s release at 48 kHz are valid settings |
| PipelineModel.StaticLimiter | startkit_home_dsp/src/cppdsp.cpp:18 | postprocLim is fresh, serves 2 channels with a 48-sample look-ahead, and 32 thresholdLin fits in 32 bits |
| PipelineModel.ThresholdLeavesMakeUpHeadroom | startkit_home_dsp/src/cppdsp.cpp:18 | a -30.2 dBFS threshold leaves room for the shift left by 5 |
| PipelineModel.StaticConfigSilence | startkit_home_dsp/src/cppdsp.cpp:12-41 | from the static objects, a stream of zero frames is processed without overflow and gives zero frames |
| PipelineModel.StaticConfigOutputBound | startkit_home_dsp/src/cppdsp.cpp:12-41 | from the static objects, every output is a multiple of 32 within ±32 thresholdLin, and the make-up shift never wraps |
| CppDspPipeline.CppDsp.constructor | startkit_home_dsp/src/cppdsp.cpp:12-18 | the five sections and the limiter are built with their static arguments on disjoint storage (PipelineModel.IsStaticConfig) |
| CppDspPipeline.CppDsp.ProcessEq | startkit_home_dsp/src/cppdsp.cpp:20-41 | the components' new state and the frame in place are exactly PipelineModel.ProcessEq of the old state and frame |
| CppDspPipeline.CppDsp.EqualizeFrame | startkit_home_dsp/src/cppdsp.cpp:22-32 | the headroom shift and the cascade, with the limiter unchanged |
| CppDspPipeline.CppDsp.LimitFrame | startkit_home_dsp/src/cppdsp.cpp:35-40 | the limiter step (its gain dropped) and the make-up shift, with the sections unchanged |
| CppDspPipeline.EqualizeSections | startkit_home_dsp/src/cppdsp.cpp:22-32 | the five sections' new states and the frame are the cascade of the headroom-shifted frame |
| CppDspPipeline.LimitAndMakeUp | startkit_home_dsp/src/cppdsp.cpp:35-40 | the limiter's new state is LimiterModel.Process, and the frame is its output shifted left by 5 |
| CppDspPipeline.ApplyHeadroom | startkit_home_dsp/src/cppdsp.cpp:22-25 | the frame in place becomes HeadroomFrame of the old frame |
| CppDspPipeline.ApplyMakeUp | startkit_home_dsp/src/cppdsp.cpp:38-40 | the frame in place becomes MakeUpFrame of the old frame |
| CppDspPipeline.NewSection | startkit_home_dsp/src/cppdsp.cpp:12-16 | static section k holds its staged design with the flag raised and zero states |
| CppDspPipeline.NewSections | startkit_home_dsp/src/cppdsp.cpp:12-16 | the five static sections in order, valid and on disjoint storage |
| CppDspPipeline.NewComponents | startkit_home_dsp/src/cppdsp.cpp:12-18 | the static sections and limiter together form the static configuration |
| CppDspPipeline.SectionPair | startkit_home_dsp/src/cppdsp.cpp:28-29 | two consecutive `process` calls compose as Biquad.Process on the intermediate frame |
| CppDspPipeline.SectionTriple | startkit_home_dsp/src/cppdsp.cpp:30-32 | three consecutive `process` calls compose likewise |

## Left out

- Floating-point rounding. `designEQ` and the limiter constructors compute on reals. The transcendental functions come from a `MathLib` parameter, and a design is required to fit the fixed-point format (`Designable`, `SettingsFit`, `ThresholdFits`). NaN and infinities are not modelled.
- `getCoefficients` and `getNewCoefficients`. They only convert the coefficients back to doubles.
- The destructors. The arrays are garbage collected.
- `process_audio.h` and `cs4270.h`. These are hardware I/O tasks, the UI and codec set-up, with no algorithm.
- `cppdsp_init_eq`. It has no body in the repository.
- Concurrency between the audio and control tasks. The model is single-threaded.
- Undefined behaviour is excluded by preconditions, not modelled:
  - `abs(INT32_MIN)` in the limiter;
  - an int64 accumulator overflow in `process`;
  - an out-of-range double-to-int32 conversion.
- Equalizer.EQ32.constructor: the source leaves the active coefficient array uninitialised. The model fills it with zeros but promises nothing about it. The first `process` call replaces it, because the flag is raised.
- `ERROR_FEEDBACK` is a constructor argument, not a build switch.
- The `update_coeffs` integer argument is a boolean.
- The limiter's `lookaheadMem` array of row pointers is a two-dimensional array with one row per active channel. A negative channel count gives no rows.
- CppDspPipeline.CppDsp: the file-scope static objects are the constant fields of one object. C++ static initialisation order is not modelled.
- Some helper methods split one source function, without changing its effect: `EqualizeSections`, `SectionPair`, `SectionTriple`, `LimitAndMakeUp`, `NewComponents`, `NewSections` and `NewSection` in the pipeline; `HandOff`, `FilterFrame`, `FilterChannel` and `Accumulate` in EQ32; `PeakOf`, `GainFor`, `UpdateEnvelope` and `ShiftIn` in Limiter32.
- CppDspPipeline.ApplyHeadroom and CppDspPipeline.ApplyMakeUp loop over the whole array. `ProcessEq` requires an array of exactly NUM_CHANS samples, so this is the source's loop bound.
- PipelineModel.MakeUp: `inSamps[i] <<= 5` is modelled with the C++20 meaning, the 32-bit two's-complement wrap of x * 32. Before C++20, a left shift of a negative value, or one that overflows, is undefined behaviour.
- LimiterModel.SmoothingCoefficient and LimiterModel.LinearThreshold: the truncated double values are required to fit 32 bits. Only the static look-ahead length (48 samples) is stated concretely. The value of `pow(10, -30.2/20)` is an assumption about `MathLib`: it is taken to lie in [0.0309, 0.031].
