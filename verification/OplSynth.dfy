/** What the channels of opl/dbopl.c sound like, as functions on values: the samples of one operator, how the eight
    modes of Channel__BlockTemplate put them together, and where they go in the output buffer. */
module OplSynth {
  import opened OplEnvelope

  const UINT_RANGE := 0x1_0000_0000
  const WAVE_SH := 0x40_0000

  // ---------- One operator ----------

  /** An operator between register writes: its envelope and rates, its levels, the phase counter with the increment of
      the present block, and the waveform, which gets a phase and a volume. */
  datatype OpState = OpState(env: Envelope, rates: Rates, totalLevel: int, tremolo: bool, level: int, index: nat,
                             increment: nat, wave: (int, int) -> int)
  {
    predicate Valid() { env.Valid() && rates.Valid() && totalLevel >= 0 }

    /** Ready for a block: the level and the increment are those of the present tremolo and frequency. */
    function Ready(tremoloValue: nat, frequency: nat): OpState {
      this.(level := totalLevel + if tremolo then tremoloValue else 0, increment := frequency)
    }

    /** After n samples. */
    function After(n: nat): OpState {
      if n == 0 then this else this.(env := Steps(env, rates, n), index := (index + n * increment) % UINT_RANGE)
    }

    /** What the operator sounds like now. */
    function Sound(modulation: int): int {
      var vol := level + env.volume;
      if Silent(vol) then 0 else wave(index / WAVE_SH + modulation, vol)
    }

    /** Inaudible until the next register write or key event. */
    predicate Quiet() { OplEnvelope.Quiet(env, rates, totalLevel) }
  }

  lemma OneStep(e: Envelope, r: Rates)
    ensures Steps(e, r, 1) == Step(e, r) && Steps(e, r, 0) == e
  {
    assert Steps(e, r, 0) == e;
  }

  lemma CounterAdds(index: nat, increment: nat, n: nat)
    ensures ((index + n * increment) % UINT_RANGE + increment) % UINT_RANGE == (index + (n + 1) * increment) % UINT_RANGE
  {
    assert (n + 1) * increment == n * increment + increment;
  }

  lemma OneMoreSample(s: OpState, n: nat)
    ensures s.After(n).After(1) == s.After(n + 1)
    ensures s.After(1) == s.(env := Step(s.env, s.rates), index := (s.index + s.increment) % UINT_RANGE)
  {
    hide Step;
    OneStep(s.env, s.rates);
    OneStep(s.After(n).env, s.rates);
    if n > 0 {
      CounterAdds(s.index, s.increment, n);
    }
  }

  /** A quiet operator stays quiet and gives zeros, however it is modulated. */
  lemma {:induction false} QuietSamples(s: OpState, n: nat)
    requires s.Valid() && s.Quiet()
    ensures s.After(n).Valid() && s.After(n).Quiet()
    ensures s.level >= s.totalLevel ==> forall modulation :: s.After(n).Sound(modulation) == 0
  {
    if n > 0 {
      QuietSamples(s, n - 1);
      OneMoreSample(s, n - 1);
      OneMoreSample(s.After(n - 1), 0);
      QuietStays(s.After(n - 1).env, s.rates, s.totalLevel);
      StepKeepsRange(s.After(n - 1).env, s.rates);
    }
  }

  // ---------- The modes ----------

  datatype SynthMode = Sm2AM | Sm2FM | Sm3AM | Sm3FM | Sm3FMFM | Sm3AMFM | Sm3FMAM | Sm3AMAM

  predicate Stereo(mode: SynthMode) { !mode.Sm2AM? && !mode.Sm2FM? }

  predicate FourOp(mode: SynthMode) { mode.Sm3FMFM? || mode.Sm3AMFM? || mode.Sm3FMAM? || mode.Sm3AMAM? }

  /** The modes that add the first operator's delayed sample to the output. */
  predicate AddsFirst(mode: SynthMode) { mode.Sm2AM? || mode.Sm3AM? || mode.Sm3AMFM? || mode.Sm3AMAM? }

  /** How many numbers of the output buffer one sample takes. */
  function Width(mode: SynthMode): nat { if Stereo(mode) then 2 else 1 }

  /** What is heard of a channel: the delayed sample of the first operator is added, or modulates the second one, and so
      on. */
  function Combined(mode: SynthMode, delayed: int, op1: OpState, op2: OpState, op3: OpState): int {
    match mode
    case Sm2AM => delayed + op1.Sound(0)
    case Sm3AM => delayed + op1.Sound(0)
    case Sm2FM => op1.Sound(delayed)
    case Sm3FM => op1.Sound(delayed)
    case Sm3FMFM => op3.Sound(op2.Sound(op1.Sound(delayed)))
    case Sm3AMFM => delayed + op3.Sound(op2.Sound(op1.Sound(0)))
    case Sm3FMAM => op1.Sound(delayed) + op3.Sound(op2.Sound(0))
    case Sm3AMAM => delayed + op2.Sound(op1.Sound(0)) + op3.Sound(0)
  }

  function Power(n: nat): (r: nat)
    ensures r > 0
  {
    if n == 0 then 1 else 2 * Power(n - 1)
  }

  /** (Bit32u) x >> n, stored in a signed word again. */
  function ShiftRight(x: int, n: nat): int {
    var r := x % 0x1_0000_0000 / Power(n);
    if r >= 0x8000_0000 then r - 0x1_0000_0000 else r
  }

  /** A shift divides a word that is not negative. */
  lemma ShiftDivides(x: int, n: nat)
    requires 0 <= x < 0x8000_0000
    ensures ShiftRight(x, n) * Power(n) <= x < (ShiftRight(x, n) + 1) * Power(n)
  {
    Quotient(x, Power(n));
    assert ShiftRight(x, n) == x / Power(n);
    hide Power;
  }

  /** The shift by 31 that stands for no feedback leaves only the sign. */
  lemma NoFeedback(x: int)
    requires -0x8000_0000 <= x < 0x8000_0000
    ensures ShiftRight(x, 31) == if x < 0 then 1 else 0
  {
    PowerOfTwo();
  }

  lemma PowerOfTwo()
    ensures Power(31) == 0x8000_0000
  {
    assert Power(4) == 16;
    assert Power(8) == 16 * Power(4);
    assert Power(12) == 16 * Power(8);
    assert Power(16) == 16 * Power(12);
    assert Power(20) == 16 * Power(16);
    assert Power(24) == 16 * Power(20);
    assert Power(28) == 16 * Power(24);
    assert Power(31) == 8 * Power(28);
  }

  lemma Quotient(x: nat, p: nat)
    requires p > 0
    ensures 0 <= x / p <= x && x / p * p <= x < (x / p + 1) * p
  {
    var q, r := x / p, x % p;
    assert x == q * p + r;
    NoSmaller(q, p);
    assert (q + 1) * p == q * p + p;
  }

  lemma NoSmaller(q: nat, p: nat)
    requires p > 0
    ensures q * p >= q
  {
    assert q * p == q + q * (p - 1);
    assert q * (p - 1) >= 0;
  }

  // ---------- A channel ----------

  /** The phase increments of the four operators, after vibrato. */
  datatype Increments = Increments(first: nat, second: nat, third: nat, fourth: nat)

  /** The two operators of the channel and the two of the next one, and the last two samples of the first operator. */
  datatype ChannelState = ChannelState(op0: OpState, op1: OpState, op2: OpState, op3: OpState, old0: int, old1: int,
                                       feedback: nat)
  {
    predicate Valid() { op0.Valid() && op1.Valid() && op2.Valid() && op3.Valid() }

    function Ready(mode: SynthMode, tremoloValue: nat, frequency: Increments): ChannelState {
      ChannelState(op0.Ready(tremoloValue, frequency.first), op1.Ready(tremoloValue, frequency.second),
                   if FourOp(mode) then op2.Ready(tremoloValue, frequency.third) else op2,
                   if FourOp(mode) then op3.Ready(tremoloValue, frequency.fourth) else op3, old0, old1, feedback)
    }

    /** The samples of the first operator, beginning with the two that are kept: each is modulated by the two before it. */
    function First(n: nat): int {
      if n == 0 then old0
      else if n == 1 then old1
      else op0.After(n - 1).Sound(ShiftRight(First(n - 2) + First(n - 1), feedback))
    }

    /** After n samples. */
    function After(mode: SynthMode, n: nat): ChannelState {
      ChannelState(op0.After(n), op1.After(n), if FourOp(mode) then op2.After(n) else op2,
                   if FourOp(mode) then op3.After(n) else op3, First(n), First(n + 1), feedback)
    }

    /** What is heard at sample i. */
    function Heard(mode: SynthMode, i: nat): int {
      Combined(mode, First(i + 1), op1.After(i + 1), op2.After(i + 1), op3.After(i + 1))
    }

    /** The operators that the fast path of the mode tests, all quiet. */
    predicate CarriersQuiet(mode: SynthMode) {
      match mode
      case Sm2AM => op0.Quiet() && op1.Quiet()
      case Sm3AM => op0.Quiet() && op1.Quiet()
      case Sm2FM => op1.Quiet()
      case Sm3FM => op1.Quiet()
      case Sm3FMFM => op3.Quiet()
      case Sm3AMFM => op0.Quiet() && op3.Quiet()
      case Sm3FMAM => op1.Quiet() && op3.Quiet()
      case Sm3AMAM => op0.Quiet() && op2.Quiet() && op3.Quiet()
    }
  }

  lemma NoSampleYet(c: ChannelState, mode: SynthMode)
    ensures c.After(mode, 0) == c
  {}

  /** A sample after n samples is the next sample. */
  lemma NextSample(c: ChannelState, mode: SynthMode, n: nat)
    ensures c.After(mode, n).After(mode, 1) == c.After(mode, n + 1)
    ensures c.After(mode, n).Heard(mode, 0) == c.Heard(mode, n)
  {
    hide OpState.After, OpState.Sound, ShiftRight;
    OneMoreSample(c.op0, n);
    OneMoreSample(c.op1, n);
    OneMoreSample(c.op2, n);
    OneMoreSample(c.op3, n);
    var d := c.After(mode, n);
    assert d.First(0) == c.First(n) && d.First(1) == c.First(n + 1);
    assert d.First(2) == c.First(n + 2);
  }

  /** What is heard of a channel whose carriers are quiet: in the modes that add it, the delayed sample of the first
      operator that is kept, once; and nothing else. */
  lemma QuietHeard(c: ChannelState, mode: SynthMode, tremoloValue: nat, frequency: Increments, i: nat)
    requires c.Valid() && c.CarriersQuiet(mode)
    ensures c.Ready(mode, tremoloValue, frequency).Heard(mode, i) == if AddsFirst(mode) && i == 0 then c.old1 else 0
  {
    hide OpState.After, OpState.Sound, OpState.Quiet, OpState.Valid;
    var d := c.Ready(mode, tremoloValue, frequency);
    QuietReady(c.op0, tremoloValue, frequency.first, i);
    QuietReady(c.op0, tremoloValue, frequency.first, i + 1);
    QuietReady(c.op1, tremoloValue, frequency.second, i + 1);
    QuietReady(c.op2, tremoloValue, frequency.third, i + 1);
    QuietReady(c.op3, tremoloValue, frequency.fourth, i + 1);
  }

  lemma QuietReady(s: OpState, tremoloValue: nat, frequency: nat, n: nat)
    requires s.Valid()
    ensures s.Quiet() ==> forall modulation :: s.Ready(tremoloValue, frequency).After(n).Sound(modulation) == 0
  {
    if s.Quiet() {
      QuietSamples(s.Ready(tremoloValue, frequency), n);
    }
  }

  // ---------- The output buffer ----------

  /** The output buffer after the sample in slot i has been added on the enabled sides. */
  function Mixed(out: seq<int>, mode: SynthMode, at: nat, sample: int, left: bool, right: bool): (r: seq<int>)
    requires at + Width(mode) <= |out|
  {
    if Stereo(mode) then
      var l := out[at := out[at] + if left then sample else 0];
      l[at + 1 := l[at + 1] + if right then sample else 0]
    else out[at := out[at] + sample]
  }

  lemma MixedUnchanged(out: seq<int>, mode: SynthMode, at: nat, sample: int, left: bool, right: bool)
    requires at + Width(mode) <= |out|
    ensures Mixed(out, mode, at, sample, left, right) == out <==> sample == 0 || (Stereo(mode) && !left && !right)
  {
    var r := Mixed(out, mode, at, sample, left, right);
    assert r == out ==> r[at] == out[at] && (Stereo(mode) ==> r[at + 1] == out[at + 1]);
    assert sample == 0 || (Stereo(mode) && !left && !right) ==> r == out;
  }

  /** What the channel adds to entry k of its part of the buffer: its samples one after the other, or left and right in
      turn, where the side is enabled. */
  function Share(c: ChannelState, mode: SynthMode, k: nat, left: bool, right: bool): int {
    if !Stereo(mode) then c.Heard(mode, k)
    else if (if k % 2 == 0 then left else right) then c.Heard(mode, k / 2) else 0
  }

  /** The n samples of the channel have been added to the buffer from start on, each once and on the enabled sides, and
      the rest of the buffer is as it was. */
  ghost predicate PlayedInto(c: ChannelState, mode: SynthMode, before: seq<int>, after: seq<int>, start: nat, n: nat,
                             left: bool, right: bool) {
    && |after| == |before| && start + Width(mode) * n <= |before|
    && forall j | 0 <= j < |before| ::
         after[j] == before[j] + if start <= j < start + Width(mode) * n then Share(c, mode, j - start, left, right) else 0
  }

  lemma NothingPlayed(c: ChannelState, mode: SynthMode, before: seq<int>, start: nat, left: bool, right: bool)
    requires start <= |before|
    ensures PlayedInto(c, mode, before, before, start, 0, left, right)
  {}

  lemma OneMorePlayed(c: ChannelState, mode: SynthMode, before: seq<int>, mid: seq<int>, start: nat, n: nat, left: bool,
                      right: bool)
    requires PlayedInto(c, mode, before, mid, start, n, left, right) && start + Width(mode) * (n + 1) <= |before|
    ensures start + Width(mode) * n + Width(mode) <= |mid|
    ensures PlayedInto(c, mode, before, Mixed(mid, mode, start + Width(mode) * n, c.Heard(mode, n), left, right),
                       start, n + 1, left, right)
  {
    hide ChannelState.Heard;
    var end := start + Width(mode) * n;
    if Stereo(mode) {
      assert Width(mode) == 2;
    } else {
      assert Width(mode) == 1;
    }
    MixedAdds(mid, mode, end, c.Heard(mode, n), left, right);
    ShareAt(c, mode, n, left, right);
    hide Share, Mixed;
  }

  lemma ShareAt(c: ChannelState, mode: SynthMode, n: nat, left: bool, right: bool)
    ensures Share(c, mode, Width(mode) * n, left, right) == if !Stereo(mode) || left then c.Heard(mode, n) else 0
    ensures Stereo(mode) ==> Share(c, mode, Width(mode) * n + 1, left, right) == if right then c.Heard(mode, n) else 0
  {
    hide ChannelState.Heard;
  }

  lemma MixedAdds(mid: seq<int>, mode: SynthMode, at: nat, sample: int, left: bool, right: bool)
    requires at + Width(mode) <= |mid|
    ensures var r := Mixed(mid, mode, at, sample, left, right);
            && |r| == |mid| && r[at] == mid[at] + (if !Stereo(mode) || left then sample else 0)
            && (Stereo(mode) ==> r[at + 1] == mid[at + 1] + if right then sample else 0)
            && forall j | 0 <= j < |mid| && !(at <= j < at + Width(mode)) :: r[j] == mid[j]
  {}

  /** When the carriers are quiet, at most the first slot changes. */
  lemma QuietPlayed(c: ChannelState, mode: SynthMode, tremoloValue: nat, frequency: Increments, before: seq<int>,
                    after: seq<int>, start: nat, n: nat, left: bool, right: bool)
    requires c.Valid() && c.CarriersQuiet(mode)
    requires PlayedInto(c.Ready(mode, tremoloValue, frequency), mode, before, after, start, n, left, right)
    ensures n == 0 || !AddsFirst(mode) ==> after == before
    ensures n > 0 && AddsFirst(mode) ==>
              start + Width(mode) <= |before| && after == Mixed(before, mode, start, c.old1, left, right)
  {
    hide ChannelState.Heard, ChannelState.CarriersQuiet, ChannelState.Ready;
    var d := c.Ready(mode, tremoloValue, frequency);
    forall i: nat
      ensures d.Heard(mode, i) == if AddsFirst(mode) && i == 0 then c.old1 else 0
    {
      QuietHeard(c, mode, tremoloValue, frequency, i);
    }
    if n > 0 {
      assert Width(mode) * n >= Width(mode);
      var wanted := if AddsFirst(mode) then Mixed(before, mode, start, c.old1, left, right) else before;
      forall j | 0 <= j < |before|
        ensures after[j] == wanted[j]
      {}
    }
  }
}
