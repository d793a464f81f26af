/** The Limiter32 object: its settings, the per-channel look-ahead ring
    buffers, the cursor, the hold counter and the two envelope states,
    updated in place by `process` and `setThreshold`. Each method is proved
    against the value model of module LimiterModel. */
module PeakLimiter {
  import opened FixedPoint
  import opened LimiterModel

  class Limiter32 {
    const nChans: int
    const aAtt: int
    const bAtt: int
    const aRel: int
    const bRel: int
    const nHoldSamps: int
    const nLookaheadSamps: int
    var thresholdLin: int
    /** Row `i` is channel `i`'s look-ahead buffer. */
    const lookaheadMem: array2<int>
    var lookaheadCnt: int
    var holdCnt: int
    var gain: int
    var relState: int
    ghost const Repr: set<object>

    /** The settings are well formed, every buffered sample is a 32-bit
        word, the cursor is inside the ring, and the gains are in [0, 1]. */
    ghost predicate Valid()
      reads this, lookaheadMem
    {
      && Repr == {this, lookaheadMem}
      && nChans <= MaxLimiterChans
      && IsPolePair(aAtt, bAtt)
      && IsPolePair(aRel, bRel)
      && IsInt32(nHoldSamps)
      && 1 <= nLookaheadSamps <= Int32Max
      && 0 <= thresholdLin <= FullScale
      && lookaheadMem.Length0 == ActiveChans(nChans)
      && lookaheadMem.Length1 == nLookaheadSamps
      && (forall i, j :: 0 <= i < lookaheadMem.Length0 && 0 <= j < lookaheadMem.Length1 ==>
            IsInt32(lookaheadMem[i, j]))
      && 0 <= lookaheadCnt < nLookaheadSamps
      && HoldInRange(holdCnt, nHoldSamps)
      && 0 <= gain <= FullScale
      && 0 <= relState <= FullScale
    }

    ghost function Row(i: int): (r: seq<int>)
      reads lookaheadMem
      requires 0 <= i < lookaheadMem.Length0
      ensures |r| == lookaheadMem.Length1
      ensures forall j :: 0 <= j < lookaheadMem.Length1 ==> r[j] == lookaheadMem[i, j]
    {
      seq(lookaheadMem.Length1, j requires 0 <= j < lookaheadMem.Length1 reads lookaheadMem => lookaheadMem[i, j])
    }

    ghost function Buffers(): (mem: seq<seq<int>>)
      reads lookaheadMem
      ensures |mem| == lookaheadMem.Length0
      ensures forall i :: 0 <= i < lookaheadMem.Length0 ==> mem[i] == Row(i)
    {
      seq(lookaheadMem.Length0, i requires 0 <= i < lookaheadMem.Length0 reads lookaheadMem => Row(i))
    }

    /** The object as a value of the limiter model. */
    ghost function Model(): (l: Limiter)
      reads this, lookaheadMem
      ensures Valid() ==> LimiterModel.Valid(l)
    {
      Limiter(nChans, aAtt, bAtt, aRel, bRel, nHoldSamps, nLookaheadSamps, thresholdLin,
              Buffers(), lookaheadCnt, holdCnt, gain, relState)
    }

    /** `Limiter32(threshold, tAtt, tHold, tRel, channnels, fs)`. */
    constructor (threshold: real, tAtt: real, tHold: real, tRel: real, channels: int, fs: int, m: MathLib)
      requires SettingsFit(tAtt, tHold, tRel, fs) && ThresholdFits(threshold, m)
      ensures Valid() && fresh(Repr)
      ensures Model() == Create(threshold, tAtt, tHold, tRel, channels, fs, m)
    {
      var n := channels;
      if n > MaxLimiterChans {
        n := MaxLimiterChans;
      }
      nChans := n;
      LookaheadGivesCoefficient(tAtt, fs);
      var b := SmoothingCoefficient(tAtt, fs);
      bAtt := b;
      aAtt := FullScale - b;
      b := SmoothingCoefficient(tRel, fs);
      bRel := b;
      aRel := FullScale - b;
      nHoldSamps := SampleCount(tHold, fs);
      var len := SampleCount(tAtt, fs);
      nLookaheadSamps := len;
      lookaheadMem := new int[ActiveChans(n), len];
      Repr := {this, lookaheadMem};
      new;
      assert fresh(Repr);
      ClearBuffers();
      if threshold >= 0.0 {
        thresholdLin := FullScale;
      } else {
        thresholdLin := TruncToInt(m.pow(10.0, threshold / 20.0) * FullScale as real);
      }
      lookaheadCnt := 0;
      holdCnt := nHoldSamps;
      gain := FullScale;
      relState := FullScale;
      ghost var silent := SilentBuffers(ActiveChans(n), len);
      forall i | 0 <= i < ActiveChans(n)
        ensures Row(i) == silent[i]
      {
      }
      assert Buffers() == silent;
    }

    /** `Limiter32(channnels)`: the defaults of 2 ms attack and look-ahead,
        10 ms hold, 1 s release at 48 kHz and a -6 dBFS threshold. */
    constructor Default(channels: int)
      ensures Valid() && fresh(Repr)
      ensures Model() == CreateDefault(channels)
    {
      var tAtt, tHold, tRel, fs := 0.002, 0.01, 1.0, 48000;
      assert tAtt * fs as real == 96.0 && tHold * fs as real == 480.0 && tRel * fs as real == 48000.0;
      LookaheadGivesCoefficient(tAtt, fs);
      var b := SmoothingCoefficient(tAtt, fs);
      bAtt := b;
      aAtt := FullScale - b;
      b := SmoothingCoefficient(tRel, fs);
      bRel := b;
      aRel := FullScale - b;
      nHoldSamps := SampleCount(tHold, fs);
      var len := SampleCount(tAtt, fs);
      nLookaheadSamps := len;
      var n := channels;
      if n > MaxLimiterChans {
        n := MaxLimiterChans;
      }
      nChans := n;
      lookaheadMem := new int[ActiveChans(n), len];
      Repr := {this, lookaheadMem};
      new;
      assert fresh(Repr);
      ClearBuffers();
      thresholdLin := 0x4000_0000;
      lookaheadCnt := 0;
      holdCnt := nHoldSamps;
      gain := FullScale;
      relState := FullScale;
      ghost var silent := SilentBuffers(ActiveChans(n), len);
      forall i | 0 <= i < ActiveChans(n)
        ensures Row(i) == silent[i]
      {
      }
      assert Buffers() == silent;
    }

    /** The allocation loop's zero fill of every channel's buffer. */
    method ClearBuffers()
      modifies lookaheadMem
      ensures forall i, j :: 0 <= i < lookaheadMem.Length0 && 0 <= j < lookaheadMem.Length1 ==>
        lookaheadMem[i, j] == 0
    {
      for i := 0 to lookaheadMem.Length0
        invariant forall k, j :: 0 <= k < i && 0 <= j < lookaheadMem.Length1 ==> lookaheadMem[k, j] == 0
      {
        for j := 0 to lookaheadMem.Length1
          invariant forall k, j' :: 0 <= k < i && 0 <= j' < lookaheadMem.Length1 ==> lookaheadMem[k, j'] == 0
          invariant forall j' :: 0 <= j' < j ==> lookaheadMem[i, j'] == 0
        {
          lookaheadMem[i, j] := 0;
        }
      }
    }

    /** `setThreshold`: a new linear threshold, nothing else changes. */
    method SetThreshold(threshold: real, m: MathLib)
      requires Valid() && ThresholdFits(threshold, m)
      modifies this`thresholdLin
      ensures Valid()
      ensures Model() == LimiterModel.SetThreshold(old(Model()), threshold, m)
    {
      if threshold >= 0.0 {
        thresholdLin := FullScale;
      } else {
        thresholdLin := TruncToInt(m.pow(10.0, threshold / 20.0) * FullScale as real);
      }
    }

    /** `process`: limits one frame in place and returns the gain applied. */
    method Process(inSamps: array<int>) returns (g: int)
      requires Valid() && IsLimiterInput(nChans, inSamps[..])
      modifies this, lookaheadMem, inSamps
      ensures Valid()
      ensures Model() == LimiterModel.Process(old(Model()), old(inSamps[..])).limiter
      ensures inSamps[..] == LimiterModel.Process(old(Model()), old(inSamps[..])).samples
      ensures g == LimiterModel.Process(old(Model()), old(inSamps[..])).gain
    {
      ghost var l, x := Model(), inSamps[..];
      var maxVal := PeakOf(inSamps);
      var gainTmp := GainFor(maxVal);
      UpdateEnvelope(gainTmp, l);
      ShiftIn(inSamps, l);
      lookaheadCnt := lookaheadCnt + 1;
      if lookaheadCnt >= nLookaheadSamps {
        lookaheadCnt := 0;
      }
      g := gain;
      StepFromParts(l, x, Model(), inSamps[..]);
    }

    /** The instantaneous gain for a frame peak: `maxVal & 0xFFFF0000`,
        then the threshold divided by the masked peak when it is above the
        threshold, unity otherwise. */
    method GainFor(maxVal: int) returns (gainTmp: int)
      requires Valid() && 0 <= maxVal
      ensures gainTmp == InstantGain(MaskPeak(maxVal), thresholdLin)
    {
      var masked := maxVal - maxVal % PeakQuantum;
      if masked > thresholdLin {
        InstantGainBounds(masked, thresholdLin);
        gainTmp := (thresholdLin / (masked / PeakQuantum)) * 0x8000;
      } else {
        gainTmp := FullScale;
      }
    }

    /** The envelope update of `process`: the release state and the hold
        counter react to the frame's instantaneous gain, then the output
        gain moves towards the release state. `l` is the limiter as the
        step found it. */
    method UpdateEnvelope(gainTmp: int, ghost l: Limiter)
      requires Valid() && l == Model() && 0 <= gainTmp <= FullScale
      modifies this`relState, this`holdCnt, this`gain
      ensures Valid()
      ensures relState == Release(l, gainTmp).relState && holdCnt == Release(l, gainTmp).holdCnt
      ensures gain == Smooth(relState, l.gain, l.bAtt, l.aAtt)
    {
      var tmp32 := gainTmp * bRel / Q31 + relState * aRel / Q31;
      assert tmp32 == Smooth(gainTmp, l.relState, l.bRel, l.aRel);
      if gainTmp < tmp32 {
        relState := gainTmp;
        holdCnt := nHoldSamps;
      } else {
        if holdCnt > 0 {
          holdCnt := holdCnt - 1;
        } else {
          relState := tmp32;
        }
      }
      gain := relState * bAtt / Q31 + gain * aAtt / Q31;
      assert gain == Smooth(relState, l.gain, l.bAtt, l.aAtt);
    }

    /** The peak loop: the largest magnitude over the active channels. */
    method PeakOf(inSamps: array<int>) returns (maxVal: int)
      requires Valid() && IsLimiterInput(nChans, inSamps[..])
      ensures maxVal == Peak(inSamps[..], ActiveChans(nChans))
    {
      maxVal := 0;
      for i := 0 to ActiveChans(nChans)
        invariant maxVal == Peak(inSamps[..], i)
      {
        maxVal := Max(Abs(inSamps[i]), maxVal);
      }
    }

    /** The channel loop: each active channel's delayed sample leaves
        scaled by the gain and clipped, and the incoming sample takes its
        slot under the cursor. `l` is the limiter as the step found it. */
    method ShiftIn(inSamps: array<int>, ghost l: Limiter)
      requires Valid() && LimiterModel.Valid(l) && IsLimiterInput(nChans, inSamps[..])
      requires l.lookaheadMem == Buffers() && l.lookaheadCnt == lookaheadCnt
      requires l.nChans == nChans && l.thresholdLin == thresholdLin
      modifies lookaheadMem, inSamps
      ensures Valid()
      ensures Buffers() == StoreFrame(l, old(inSamps[..]))
      ensures inSamps[..] == DelayedOutputs(l, gain, old(inSamps[..]))
    {
      var n := ActiveChans(nChans);
      for i := 0 to n
        invariant Valid()
        invariant forall k, j :: 0 <= k < n && 0 <= j < lookaheadMem.Length1 ==>
          lookaheadMem[k, j] == if j == lookaheadCnt && k < i then old(inSamps[k]) else old(lookaheadMem[k, j])
        invariant forall k :: 0 <= k < inSamps.Length ==>
          inSamps[k] == if k < i
            then Clamp(Attenuate(gain, old(lookaheadMem[k, lookaheadCnt])), thresholdLin)
            else old(inSamps[k])
      {
        var tmp32 := gain * lookaheadMem[i, lookaheadCnt] / Q31;
        lookaheadMem[i, lookaheadCnt] := inSamps[i];
        inSamps[i] := Clamp(tmp32, thresholdLin);
      }
      ghost var stored := StoreFrame(l, old(inSamps[..]));
      forall i | 0 <= i < n
        ensures Row(i) == stored[i]
      {
      }
      assert inSamps[..] == DelayedOutputs(l, gain, old(inSamps[..]));
    }
  }
}
