/** Channel__BlockTemplate of opl/dbopl.c for the two- and four-operator modes: the loop over samples,
    and the fast path that leaves a channel out when its audible operators are silent. */
module OplChannel {
  import opened OplEnvelope
  import opened OplSynth
  import opened OplOperator

  /** If the first operator is too quiet to be heard now, its last sample is zero. */
  predicate IsSettled(c: ChannelState) { Silent(c.op0.totalLevel + c.op0.env.volume) ==> c.old1 == 0 }

  /** A block that is not empty leaves the channel settled. */
  lemma SettledByBlock(c: ChannelState, mode: SynthMode, tremoloValue: nat, frequency: Increments, n: nat)
    ensures n > 0 || IsSettled(c) ==> IsSettled(c.Ready(mode, tremoloValue, frequency).After(mode, n))
  {
    hide OpState.After, OpState.Sound, ShiftRight;
    if n > 0 {
      TooQuiet(c.op0, tremoloValue, frequency.first, n);
      LastSample(c.Ready(mode, tremoloValue, frequency), n);
    } else {
      NoSampleYet(c.Ready(mode, tremoloValue, frequency), mode);
    }
  }

  lemma LastSample(c: ChannelState, n: nat)
    requires n > 0
    ensures c.First(n + 1) == c.op0.After(n).Sound(ShiftRight(c.First(n - 1) + c.First(n), c.feedback))
  {
    hide OpState.After, OpState.Sound, ShiftRight;
  }

  /** An operator that is too quiet to be heard gives a zero. */
  lemma TooQuiet(s: OpState, tremoloValue: nat, frequency: nat, n: nat)
    ensures var t := s.Ready(tremoloValue, frequency).After(n);
            Silent(t.totalLevel + t.env.volume) ==> forall modulation :: t.Sound(modulation) == 0
  {}

  lemma EnvelopesAfter(c: ChannelState, mode: SynthMode, tremoloValue: nat, frequency: Increments, n: nat)
    ensures var d := c.Ready(mode, tremoloValue, frequency).After(mode, n);
            && d.op0.env == Steps(c.op0.env, c.op0.rates, n) && d.op1.env == Steps(c.op1.env, c.op1.rates, n)
            && d.op2.env == Steps(c.op2.env, c.op2.rates, if FourOp(mode) then n else 0)
            && d.op3.env == Steps(c.op3.env, c.op3.rates, if FourOp(mode) then n else 0)
  {}

  class Channel {
    /** The two operators of this channel, then the two of the next one. */
    const op0: Operator
    const op1: Operator
    const op2: Operator
    const op3: Operator
    var old0: int
    var old1: int
    var feedback: nat
    var maskLeft: bool
    var maskRight: bool

    ghost predicate Valid()
      reads op0, op1, op2, op3
    {
      && op0 != op1 && op0 != op2 && op0 != op3 && op1 != op2 && op1 != op3 && op2 != op3
      && op0.Valid() && op1.Valid() && op2.Valid() && op3.Valid()
    }

    constructor (op0: Operator, op1: Operator, op2: Operator, op3: Operator)
      requires op0 != op1 && op0 != op2 && op0 != op3 && op1 != op2 && op1 != op3 && op2 != op3
      requires op0.Valid() && op1.Valid() && op2.Valid() && op3.Valid()
      ensures Valid() && old0 == 0 && old1 == 0 && maskLeft && maskRight && this.op0 == op0 && this.op1 == op1
      ensures this.op2 == op2 && this.op3 == op3
      ensures Settled()
    {
      this.op0, this.op1, this.op2, this.op3 := op0, op1, op2, op3;
      old0, old1, feedback, maskLeft, maskRight := 0, 0, 31, true, true;
    }

    ghost function Now(): ChannelState
      reads this, op0, op1, op2, op3
    {
      ChannelState(op0.Now(), op1.Now(), op2.Now(), op3.Now(), old0, old1, feedback)
    }

    lemma NowValid()
      requires Valid()
      ensures Now().Valid()
    {}

    /** If the first operator is too quiet to be heard, its delayed sample is not heard either. */
    ghost predicate Settled()
      reads this, op0
    {
      OplEnvelope.Silent(op0.totalLevel + op0.volume) ==> old1 == 0
    }

    /** The arms that compute sample from the delayed first operator. */
    method CarrierSample(mode: SynthMode, out0: int) returns (sample: int)
      requires Valid()
      modifies op1`state, op1`volume, op1`rateIndex, op1`waveIndex
      modifies op2`state, op2`volume, op2`rateIndex, op2`waveIndex
      modifies op3`state, op3`volume, op3`rateIndex, op3`waveIndex
      ensures Valid() && op1.Now() == old(op1.Now()).After(1)
      ensures op2.Now() == if FourOp(mode) then old(op2.Now()).After(1) else old(op2.Now())
      ensures op3.Now() == if FourOp(mode) then old(op3.Now()).After(1) else old(op3.Now())
      ensures sample == Combined(mode, out0, op1.Now(), op2.Now(), op3.Now())
    {
      hide Operator.Valid, Operator.Env, Operator.RatesNow, OpState.After, OpState.Sound;
      if mode.Sm2AM? || mode.Sm3AM? {
        sample := op1.GetSample(0);
        sample := out0 + sample;
      } else if mode.Sm2FM? || mode.Sm3FM? {
        sample := op1.GetSample(out0);
      } else {
        sample := FourOpSample(mode, out0);
      }
    }

    method FourOpSample(mode: SynthMode, out0: int) returns (sample: int)
      requires Valid() && FourOp(mode)
      modifies op1`state, op1`volume, op1`rateIndex, op1`waveIndex
      modifies op2`state, op2`volume, op2`rateIndex, op2`waveIndex
      modifies op3`state, op3`volume, op3`rateIndex, op3`waveIndex
      ensures Valid() && op1.Now() == old(op1.Now()).After(1)
      ensures op2.Now() == old(op2.Now()).After(1) && op3.Now() == old(op3.Now()).After(1)
      ensures sample == Combined(mode, out0, op1.Now(), op2.Now(), op3.Now())
    {
      hide Operator.Valid, Operator.Env, Operator.RatesNow, OpState.After, OpState.Sound;
      var next;
      match mode {
        case Sm3FMFM =>
          next := op1.GetSample(out0);
          next := op2.GetSample(next);
          sample := op3.GetSample(next);
        case Sm3AMFM =>
          sample := out0;
          next := op1.GetSample(0);
          next := op2.GetSample(next);
          next := op3.GetSample(next);
          sample := sample + next;
        case Sm3FMAM =>
          sample := op1.GetSample(out0);
          next := op2.GetSample(0);
          next := op3.GetSample(next);
          sample := sample + next;
        case Sm3AMAM =>
          sample := out0;
          next := op1.GetSample(0);
          next := op2.GetSample(next);
          sample := sample + next;
          next := op3.GetSample(0);
          sample := sample + next;
      }
    }

    /** output[i] += sample, masked per side in the stereo modes. */
    method MixSample(mode: SynthMode, output: array<int>, at: nat, sample: int)
      requires at + Width(mode) <= output.Length
      modifies output
      ensures output[..] == Mixed(old(output[..]), mode, at, sample, maskLeft, maskRight)
    {
      if !Stereo(mode) {
        output[at] := output[at] + sample;
      } else {
        output[at] := output[at] + if maskLeft then sample else 0;
        output[at + 1] := output[at + 1] + if maskRight then sample else 0;
      }
    }

    /** The body of the loop over samples. */
    method PlayOne(mode: SynthMode, output: array<int>, at: nat)
      requires Valid() && at + Width(mode) <= output.Length
      modifies this`old0, this`old1, op0`state, op0`volume, op0`rateIndex, op0`waveIndex
      modifies op1`state, op1`volume, op1`rateIndex, op1`waveIndex
      modifies op2`state, op2`volume, op2`rateIndex, op2`waveIndex
      modifies op3`state, op3`volume, op3`rateIndex, op3`waveIndex, output
      ensures Valid() && Now() == old(Now()).After(mode, 1)
      ensures output[..] == Mixed(old(output[..]), mode, at, old(Now()).Heard(mode, 0), maskLeft, maskRight)
    {
      hide Operator.Valid, Operator.Env, Operator.RatesNow, OpState.After, OpState.Sound, Mixed, ShiftRight, Combined;
      ghost var before := Now();
      FirstSamples(before);
      if !FourOp(mode) {
        TwoOpsHeard(mode, before.op2.After(1), before.op3.After(1), before.op2, before.op3);
      }
      var mod := ShiftRight(old0 + old1, feedback);
      old0 := old1;
      old1 := op0.GetSample(mod);
      var sample := CarrierSample(mode, old0);
      MixSample(mode, output, at, sample);
    }

    /** The other modes do not hear the operators of the next channel. */
    lemma TwoOpsHeard(mode: SynthMode, s2: OpState, s3: OpState, t2: OpState, t3: OpState)
      requires !FourOp(mode)
      ensures forall delayed, s1 {:trigger Combined(mode, delayed, s1, s2, s3)} ::
                Combined(mode, delayed, s1, s2, s3) == Combined(mode, delayed, s1, t2, t3)
    {}

    lemma FirstSamples(c: ChannelState)
      ensures c.First(1) == c.old1 && c.First(2) == c.op0.After(1).Sound(ShiftRight(c.old0 + c.old1, c.feedback))
    {
      hide ShiftRight;
      assert c.First(0) == c.old0 && c.First(1) == c.old1;
    }

    /** Operator__Prepare on the operators that the mode uses. */
    method PrepareAll(mode: SynthMode, tremoloValue: nat, frequency: Increments)
      requires Valid()
      modifies op0`waveCurrent, op0`currentLevel, op1`waveCurrent, op1`currentLevel
      modifies op2`waveCurrent, op2`currentLevel, op3`waveCurrent, op3`currentLevel
      ensures Valid() && Now() == old(Now()).Ready(mode, tremoloValue, frequency)
    {
      hide Operator.Valid, Operator.Env, Operator.RatesNow, OpState.Ready;
      op0.Prepare(tremoloValue, frequency.first);
      op1.Prepare(tremoloValue, frequency.second);
      if FourOp(mode) {
        op2.Prepare(tremoloValue, frequency.third);
        op3.Prepare(tremoloValue, frequency.fourth);
      }
    }

    /** The Prepare calls and the loop over samples: the operators and the two samples that are kept are those after so
        many samples, and slot i of the buffer gets exactly sample i. */
    method SampleLoop(mode: SynthMode, samples: nat, output: array<int>, start: nat, tremoloValue: nat,
                      frequency: Increments)
      requires Valid()
      requires start + Width(mode) * samples <= output.Length
      modifies this`old0, this`old1, op0`state, op0`volume, op0`rateIndex, op0`waveIndex, op0`waveCurrent,
               op0`currentLevel
      modifies op1`state, op1`volume, op1`rateIndex, op1`waveIndex, op1`waveCurrent, op1`currentLevel
      modifies op2`state, op2`volume, op2`rateIndex, op2`waveIndex, op2`waveCurrent, op2`currentLevel
      modifies op3`state, op3`volume, op3`rateIndex, op3`waveIndex, op3`waveCurrent, op3`currentLevel, output
      ensures Valid() && Now() == old(Now()).Ready(mode, tremoloValue, frequency).After(mode, samples)
      ensures PlayedInto(old(Now()).Ready(mode, tremoloValue, frequency), mode, old(output[..]), output[..], start,
                samples, maskLeft, maskRight)
    {
      hide Channel.Valid, Channel.Now, PlayedInto, Mixed, ChannelState.Ready, ChannelState.After, ChannelState.Heard;
      PrepareAll(mode, tremoloValue, frequency);
      ghost var c, out := Now(), output[..];
      NoSampleYet(c, mode);
      Fits(mode, samples, 0);
      NothingPlayed(c, mode, out, start, maskLeft, maskRight);
      for i := 0 to samples
        invariant Valid() && Now() == c.After(mode, i)
        invariant PlayedInto(c, mode, out, output[..], start, i, maskLeft, maskRight)
      {
        Fits(mode, samples, i);
        NextSample(c, mode, i);
        OneMorePlayed(c, mode, out, output[..], start, i, maskLeft, maskRight);
        PlayOne(mode, output, start + Width(mode) * i);
      }
    }

    lemma Fits(mode: SynthMode, samples: nat, i: nat)
      requires i <= samples
      ensures 0 <= Width(mode) * i <= Width(mode) * samples
      ensures i < samples ==> Width(mode) * (i + 1) == Width(mode) * i + Width(mode) <= Width(mode) * samples
    {}

    /** Are the operators of the fast path Silent, by the test the source makes? */
    ghost predicate CarriersSilent(mode: SynthMode)
      reads op0, op1, op2, op3
    {
      match mode
      case Sm2AM => op0.IsSilent() && op1.IsSilent()
      case Sm3AM => op0.IsSilent() && op1.IsSilent()
      case Sm2FM => op1.IsSilent()
      case Sm3FM => op1.IsSilent()
      case Sm3FMFM => op3.IsSilent()
      case Sm3AMFM => op0.IsSilent() && op3.IsSilent()
      case Sm3FMAM => op1.IsSilent() && op3.IsSilent()
      case Sm3AMAM => op0.IsSilent() && op2.IsSilent() && op3.IsSilent()
    }

    method TestCarriers(mode: SynthMode) returns (silent: bool)
      requires Valid()
      ensures silent <==> CarriersSilent(mode)
    {
      var s0 := op0.Silent();
      var s1 := op1.Silent();
      var s2 := op2.Silent();
      var s3 := op3.Silent();
      match mode {
        case Sm2AM => silent := s0 && s1;
        case Sm3AM => silent := s0 && s1;
        case Sm2FM => silent := s1;
        case Sm3FM => silent := s1;
        case Sm3FMFM => silent := s3;
        case Sm3AMFM => silent := s0 && s3;
        case Sm3FMAM => silent := s1 && s3;
        case Sm3AMAM => silent := s0 && s2 && s3;
      }
    }

    lemma SilentCarriersAreQuiet(mode: SynthMode)
      requires Valid() && CarriersSilent(mode)
      ensures Now().Valid() && Now().CarriersQuiet(mode)
    {
      NowValid();
      if op0.IsSilent() { op0.SilentIsQuiet(); }
      if op1.IsSilent() { op1.SilentIsQuiet(); }
      if op2.IsSilent() { op2.SilentIsQuiet(); }
      if op3.IsSilent() { op3.SilentIsQuiet(); }
      hide Operator.Valid;
    }

    /** Channel__BlockTemplate: skips the whole loop when the tested operators are silent, and otherwise adds exactly the
        samples of the block to the buffer. */
    method BlockTemplate(mode: SynthMode, samples: nat, output: array<int>, start: nat, tremoloValue: nat,
                         frequency: Increments)
        returns (channels: nat)
      requires Valid()
      requires start + Width(mode) * samples <= output.Length
      modifies this`old0, this`old1, op0`state, op0`volume, op0`rateIndex, op0`waveIndex, op0`waveCurrent,
               op0`currentLevel
      modifies op1`state, op1`volume, op1`rateIndex, op1`waveIndex, op1`waveCurrent, op1`currentLevel
      modifies op2`state, op2`volume, op2`rateIndex, op2`waveIndex, op2`waveCurrent, op2`currentLevel
      modifies op3`state, op3`volume, op3`rateIndex, op3`waveIndex, op3`waveCurrent, op3`currentLevel, output
      ensures Valid() && channels == if FourOp(mode) then 2 else 1
      ensures samples > 0 || old(Settled()) ==> Settled()
      ensures !old(CarriersSilent(mode)) ==>
                var ready := old(Now()).Ready(mode, tremoloValue, frequency);
                && Now() == ready.After(mode, samples)
                && PlayedInto(ready, mode, old(output[..]), output[..], start, samples, maskLeft, maskRight)
      ensures old(CarriersSilent(mode)) ==>
                output[..] == old(output[..]) && Now() == old(Now()).(old0 := 0, old1 := 0) && CarriersSilent(mode)
    {
      hide Channel.Valid, Operator.Env, Operator.RatesNow, PlayedInto, ChannelState.After, ChannelState.Ready;
      channels := if FourOp(mode) then 2 else 1;
      var silent := TestCarriers(mode);
      if silent {
        old0, old1 := 0, 0;
        return;
      }
      ghost var c := Now();
      SettledNow(c);
      SampleLoop(mode, samples, output, start, tremoloValue, frequency);
      SettledByBlock(c, mode, tremoloValue, frequency, samples);
      SettledNow(Now());
    }

    lemma SettledNow(c: ChannelState)
      ensures c == Now() ==> (Settled() <==> IsSettled(c))
    {}

    /** Unless the first operator has become silent since the last sample was played, the skip is exact in every mode. */
    lemma SettledIsExact(mode: SynthMode)
      requires CarriersSilent(mode) && Settled()
      ensures !AddsFirst(mode) || old1 == 0
    {}

    /** What the loop would have done to a block that the fast path skips. The skip is exact if and only
        if no delayed sample of the first operator would have been heard: always in the FM-output modes,
        and with an empty block, a zero in old[1] or both sides masked in the modes that add it. */
    method SkippedBlock(mode: SynthMode, samples: nat, output: array<int>, start: nat, tremoloValue: nat,
                        frequency: Increments)
      requires Valid() && CarriersSilent(mode)
      requires start + Width(mode) * samples <= output.Length
      modifies this`old0, this`old1, op0, op1, op2, op3, output
      ensures old(Settled()) ==> output[..] == old(output[..])
      ensures output[..] == old(output[..]) <==>
                !AddsFirst(mode) || samples == 0 || old(old1) == 0 || (Stereo(mode) && !old(maskLeft) && !old(maskRight))
    {
      SilentCarriersAreQuiet(mode);
      if Settled() {
        SettledIsExact(mode);
      }
      if samples > 0 {
        MixedUnchanged(output[..], mode, start, old1, maskLeft, maskRight);
      }
      hide Channel.CarriersSilent, ChannelState.CarriersQuiet, ChannelState.Ready, Channel.Valid, Mixed, PlayedInto,
           Operator.Env, Operator.RatesNow;
      ghost var c, out := Now(), output[..];
      SampleLoop(mode, samples, output, start, tremoloValue, frequency);
      QuietPlayed(c, mode, tremoloValue, frequency, out, output[..], start, samples, maskLeft, maskRight);
    }
  }
}
