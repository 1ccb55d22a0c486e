/** Whole runs of one operator of opl/dbopl.c: any sequence of register writes, key events and blocks of
    samples, starting from the constructor. */
module OplHistory {
  import opened OplEnvelope
  import opened OplSynth
  import opened OplOperator
  import opened OplChannel

  datatype Block = Block(tremoloValue: nat, frequency: nat, modulations: seq<int>)

  datatype Event =
    | Reg20(val: Byte) | Reg40(val: Byte) | Reg60(val: Byte) | Reg80(val: Byte)
    | Data(data: ChanData)
    | On(mask: Byte, waveStart: nat) | Off(mask: Byte)
    | Play(block: Block)

  predicate ValidEvent(e: Event) { e.Data? ==> e.data.Valid() }

  /** One block as the channel loop plays it: Prepare, then one GetSample per modulation input. */
  method PlayBlock(op: Operator, block: Block) returns (out: seq<int>)
    requires op.Valid()
    modifies op`state, op`volume, op`rateIndex, op`waveIndex, op`waveCurrent, op`currentLevel
    ensures op.Valid() && |out| == |block.modulations|
    ensures var ready := old(op.Now()).Ready(block.tremoloValue, block.frequency);
            && op.Now() == ready.After(|out|)
            && forall i | 0 <= i < |out| :: out[i] == ready.After(i + 1).Sound(block.modulations[i])
  {
    hide Operator.Valid, OpState.After, OpState.Ready, OpState.Sound, Operator.Env, Operator.RatesNow;
    out := [];
    op.Prepare(block.tremoloValue, block.frequency);
    ghost var ready := op.Now();
    NoneYet(ready);
    for i := 0 to |block.modulations|
      invariant op.Valid() && |out| == i && op.Now() == ready.After(i)
      invariant forall j | 0 <= j < i :: out[j] == ready.After(j + 1).Sound(block.modulations[j])
    {
      OneMoreSample(ready, i);
      var sample := op.GetSample(block.modulations[i]);
      out := out + [sample];
    }
  }

  lemma NoneYet(s: OpState)
    ensures s.After(0) == s
  {}

  /** A block of a quiet operator is all zeros, and the operator is quiet after it. */
  lemma QuietBlock(s: OpState, block: Block, out: seq<int>)
    requires s.Valid() && s.Quiet() && |out| == |block.modulations|
    requires forall i | 0 <= i < |out| ::
              out[i] == s.Ready(block.tremoloValue, block.frequency).After(i + 1).Sound(block.modulations[i])
    ensures s.Ready(block.tremoloValue, block.frequency).After(|out|).Quiet()
    ensures forall i | 0 <= i < |out| :: out[i] == 0
  {
    hide OpState.After, OpState.Sound;
    var ready := s.Ready(block.tremoloValue, block.frequency);
    QuietSamples(ready, |out|);
    forall i | 0 <= i < |out|
      ensures out[i] == 0
    {
      QuietSamples(ready, i + 1);
    }
  }

  /** The event leaves the level at which the operator sounds alone. */
  predicate KeepsLevel(e: Event) { !e.Reg40? && !e.Data? && !e.Play? }

  /** The registers of an operator, the data of its channel, and the keys that are pressed. */
  datatype Registers = Registers(reg20: Byte, reg40: Byte, reg60: Byte, reg80: Byte, data: ChanData, keys: set<Byte>)
  {
    function Write(e: Event): Registers {
      match e
      case Reg20(val) => this.(reg20 := val)
      case Reg40(val) => this.(reg40 := val)
      case Reg60(val) => this.(reg60 := val)
      case Reg80(val) => this.(reg80 := val)
      case Data(data) => this.(data := data)
      case On(mask, _) => this.(keys := keys + {mask})
      case Off(mask) => this.(keys := keys - {mask})
      case Play(_) => this
    }
  }

  /** What was written last. */
  function Written(start: Registers, events: seq<Event>): Registers {
    if events == [] then start else Written(start, events[..|events| - 1]).Write(events[|events| - 1])
  }

  ghost function RegistersOf(op: Operator): Registers
    reads op
  {
    Registers(op.reg20, op.reg40, op.reg60, op.reg80, op.chanData, op.keyOn)
  }

  /** What an event does to the envelope: a first key starts the attack, the last key to go starts the release, and a
      block plays its samples. Writes to registers change no more than the rates. */
  ghost predicate Sounds(e: Event, before: OpState, keys: set<Byte>, after: OpState) {
    match e
    case On(_, waveStart) =>
      after == if keys == {} then before.(env := Envelope(ATTACK, before.env.volume, 0), index := waveStart) else before
    case Off(mask) =>
      after == if keys <= {mask} && before.env.phase != OFF then before.(env := before.env.(phase := RELEASE)) else before
    case Play(block) => after == before.Ready(block.tremoloValue, block.frequency).After(|block.modulations|)
    case _ => after.env == before.env && after.index == before.index && after.level == before.level
  }

  predicate IsWrite(e: Event) { e.Reg20? || e.Reg40? || e.Reg60? || e.Reg80? || e.Data? }

  method WriteRegister(op: Operator, chip: RateTables, e: Event)
    requires op.Valid() && chip.Valid() && ValidEvent(e) && IsWrite(e)
    modifies op
    ensures op.Valid()
    ensures old(op.Coherent(chip)) && chip.Moving() ==> op.Coherent(chip)
    ensures KeepsLevel(e) ==> op.totalLevel == old(op.totalLevel)
    ensures RegistersOf(op) == old(RegistersOf(op)).Write(e)
    ensures op.Env() == old(op.Env()) && op.waveIndex == old(op.waveIndex) && op.currentLevel == old(op.currentLevel)
  {
    hide Operator.Valid, Operator.AttackOk, Operator.DecayOk, Operator.ReleaseOk, Operator.SustainOk, KsrFlag,
         SustainFlag, TremoloFlag, TotalLevelOf, SustainLevelOf;
    match e {
      case Reg20(val) => op.Write20(chip, val);
      case Reg40(val) => op.Write40(val);
      case Reg60(val) => op.Write60(chip, val);
      case Reg80(val) => op.Write80(chip, val);
      case Data(data) => op.SetChanData(chip, data);
    }
  }

  method Perform(op: Operator, chip: RateTables, e: Event)
    requires op.Valid() && chip.Valid() && ValidEvent(e)
    modifies op
    ensures op.Valid()
    ensures old(op.Coherent(chip)) && chip.Moving() ==> op.Coherent(chip)
    ensures KeepsLevel(e) ==> op.volume == old(op.volume) && op.totalLevel == old(op.totalLevel)
    ensures RegistersOf(op) == old(RegistersOf(op)).Write(e) && Sounds(e, old(op.Now()), old(op.keyOn), op.Now())
  {
    hide Operator.Valid, Operator.AttackOk, Operator.DecayOk, Operator.ReleaseOk, Operator.SustainOk, KsrFlag,
         SustainFlag, TremoloFlag, TotalLevelOf, SustainLevelOf, OpState.After, OpState.Ready;
    match e {
      case On(mask, waveStart) => op.KeyOn(mask, waveStart);
      case Off(mask) => op.KeyOff(mask);
      case Play(block) => var out := PlayBlock(op, block);
      case _ => WriteRegister(op, chip, e);
    }
  }

  /** Any history from the constructor keeps the operator valid; from reset registers on, whatever
      writes were skipped, the registers are those written last, and the derived fields are the ones they determine. */
  method History(chip: RateTables, waveForm: (int, int) -> int, attackAdd: nat, decayAdd: nat, events: seq<Event>)
    returns (op: Operator)
    requires chip.Moving() && attackAdd < RATE_LIMIT && decayAdd < RATE_LIMIT
    requires forall i | 0 <= i < |events| :: ValidEvent(events[i])
    ensures fresh(op) && op.Valid() && op.Coherent(chip)
    ensures RegistersOf(op) == Written(Registers(0, 0, 0, 0, ChanData(0, 0), {}), events)
  {
    hide Operator.Valid, Operator.Coherent, RateTables.Valid, Sounds, KsrOf;
    op := new Operator(waveForm, attackAdd, decayAdd);
    op.ResetRegisters(chip);
    for i := 0 to |events|
      invariant fresh(op) && op.Valid() && op.Coherent(chip)
      invariant RegistersOf(op) == Written(Registers(0, 0, 0, 0, ChanData(0, 0), {}), events[..i])
    {
      Perform(op, chip, events[i]);
      assert events[..i + 1][..i] == events[..i];
    }
    assert events[..|events|] == events;
  }

  /** The fast path is sound: after any history, if the silence test holds, every further sample of every
      further block is 0 as long as no register is written and no key event happens. */
  method SilentAfterHistory(chip: RateTables, waveForm: (int, int) -> int, attackAdd: nat, decayAdd: nat,
                            events: seq<Event>, blocks: seq<Block>)
    returns (silent: bool, out: seq<seq<int>>)
    requires chip.Moving() && attackAdd < RATE_LIMIT && decayAdd < RATE_LIMIT
    requires forall i | 0 <= i < |events| :: ValidEvent(events[i])
    ensures |out| == |blocks|
    ensures forall i | 0 <= i < |out| :: |out[i]| == |blocks[i].modulations|
    ensures silent ==> forall i, j | 0 <= i < |out| && 0 <= j < |out[i]| :: out[i][j] == 0
  {
    var op := History(chip, waveForm, attackAdd, decayAdd, events);
    silent := op.Silent();
    out := PlayBlocks(op, blocks);
  }

  /** Blocks one after the other. If the operator passes the test of the fast path before them, every sample is 0. */
  method PlayBlocks(op: Operator, blocks: seq<Block>) returns (out: seq<seq<int>>)
    requires op.Valid()
    modifies op`state, op`volume, op`rateIndex, op`waveIndex, op`waveCurrent, op`currentLevel
    ensures op.Valid() && |out| == |blocks|
    ensures forall i | 0 <= i < |out| :: |out[i]| == |blocks[i].modulations|
    ensures old(op.IsSilent()) ==> forall i, j | 0 <= i < |out| && 0 <= j < |out[i]| :: out[i][j] == 0
  {
    ghost var silent := op.IsSilent();
    if silent {
      op.SilentIsQuiet();
    }
    out := [];
    for i := 0 to |blocks|
      invariant op.Valid() && (silent ==> op.Quiet())
      invariant |out| == i && forall k | 0 <= k < i :: |out[k]| == |blocks[k].modulations|
      invariant silent ==> forall k, j | 0 <= k < i && 0 <= j < |out[k]| :: out[k][j] == 0
    {
      hide Operator.Valid, OpState.After, OpState.Sound, OpState.Ready;
      op.NowValid();
      ghost var before := op.Now();
      var samples := PlayBlock(op, blocks[i]);
      if silent {
        QuietBlock(before, blocks[i], samples);
      }
      out := out + [samples];
    }
  }

  /** A key-off that releases the operator is followed by silence after the number of samples given by
      SamplesToOff for its release rate, and not before. */
  method ReleasedNoteEnds(op: Operator, mask: Byte, block: Block)
    requires op.Valid() && op.keyOn <= {mask} && op.state != OFF && op.releaseAdd > 0
    modifies op
    ensures op.state == OFF <==>
              |block.modulations| >= SamplesToOff(Envelope(RELEASE, old(op.volume), old(op.rateIndex)), old(op.releaseAdd))
  {
    op.KeyOff(mask);
    ReleaseReachesOff(op.Env(), op.RatesNow(), |block.modulations|);
    var out := PlayBlock(op, block);
  }

  // ---------- Channels ----------

  /** A register write or key event for one of the four operators, a block that another channel plays on one of them (in
      a four-operator mode a channel plays the operators of the next one), or a block of samples for the channel. */
  datatype ChannelEvent =
    | OnOperator(index: nat, event: Event)
    | ChannelBlock(mode: SynthMode, output: array<int>, start: nat, samples: nat, tremoloValue: nat,
                    frequency: Increments)

  predicate ValidChannelEvent(e: ChannelEvent) {
    match e
    case OnOperator(index, event) => index < 4 && ValidEvent(event)
    case ChannelBlock(mode, output, start, samples, _, _) => start + Width(mode) * samples <= output.Length
  }

  /** Is the delayed sample of the first operator settled after these events? A write to its level or frequency registers
      and a block that another channel plays on it can unsettle it, and the next block of this channel that is not
      empty settles it again. */
  function SettledAfter(events: seq<ChannelEvent>): bool {
    if events == [] then true
    else
      match events[|events| - 1]
      case OnOperator(index, event) => (index != 0 || KeepsLevel(event)) && SettledAfter(events[..|events| - 1])
      case ChannelBlock(_, _, _, samples, _, _) => samples > 0 || SettledAfter(events[..|events| - 1])
  }

  method PerformOnChannel(channel: Channel, chip: RateTables, e: ChannelEvent)
    requires channel.Valid() && chip.Valid() && ValidChannelEvent(e)
    modifies channel, channel.op0, channel.op1, channel.op2, channel.op3
    modifies if e.ChannelBlock? then {e.output} else {}
    ensures channel.Valid()
    ensures old(channel.Settled()) && (e.OnOperator? ==> e.index != 0 || KeepsLevel(e.event)) ==> channel.Settled()
    ensures e.ChannelBlock? && e.samples > 0 ==> channel.Settled()
  {
    hide Operator.Valid, Operator.Coherent, OpState.After, Channel.Now, Operator.Now, PlayedInto;
    match e {
      case OnOperator(index, event) =>
        if index == 0 {
          Perform(channel.op0, chip, event);
        } else if index == 1 {
          Perform(channel.op1, chip, event);
        } else if index == 2 {
          Perform(channel.op2, chip, event);
        } else {
          Perform(channel.op3, chip, event);
        }
      case ChannelBlock(mode, output, start, samples, tremoloValue, frequency) =>
        var channels := channel.BlockTemplate(mode, samples, output, start, tremoloValue, frequency);
    }
  }

  /** Over every history of a channel: unless the level or frequency registers of the first operator have been written, or
      the operator has been played by the channel before, since the last block that was not empty, skipping the channel
      is exact in all eight modes. */
  method SkipIsExact(channel: Channel, chip: RateTables, events: seq<ChannelEvent>, mode: SynthMode)
    requires channel.Valid() && channel.Settled() && chip.Valid()
    requires forall i | 0 <= i < |events| :: ValidChannelEvent(events[i])
    modifies channel, channel.op0, channel.op1, channel.op2, channel.op3
    modifies set i | 0 <= i < |events| && events[i].ChannelBlock? :: events[i].output
    ensures channel.Valid()
    ensures SettledAfter(events) ==> channel.Settled()
    ensures SettledAfter(events) && channel.CarriersSilent(mode) ==> !AddsFirst(mode) || channel.old1 == 0
  {
    hide Channel.Valid, Channel.Settled, Channel.CarriersSilent;
    for i := 0 to |events|
      invariant channel.Valid() && (SettledAfter(events[..i]) ==> channel.Settled())
    {
      assert events[..i + 1][..i] == events[..i];
      PerformOnChannel(channel, chip, events[i]);
    }
    assert events[..|events|] == events;
    if channel.Settled() && channel.CarriersSilent(mode) {
      channel.SettledIsExact(mode);
    }
  }

  // ---------- Two channels that lose a sample ----------

  /** The last attack rates of the table, which reach full volume at once (dbopl.c:1406-1408). */
  ghost predicate InstantAttack(chip: RateTables) {
    chip.Valid() && forall i | 62 <= i < 76 :: chip.attackRates[i] == 8 * RATE_ONE
  }

  function Flat(index: int, vol: int): int { 1 }

  /** An operator as Chip__Setup leaves it, with a flat waveform. */
  ghost predicate IsNew(op: Operator, chip: RateTables)
    reads op
  {
    chip.Valid() && op.Valid() && IsReset(op, chip) && op.keyOn == {} && op.waveForm == Flat
  }

  method NewOperator(chip: RateTables) returns (op: Operator)
    requires chip.Moving()
    ensures fresh(op) && IsNew(op, chip)
  {
    op := new Operator(Flat, 0, 0);
    op.ResetRegisters(chip);
  }

  method NewChannel(op0: Operator, op1: Operator, op2: Operator, op3: Operator,
                    chip: RateTables) returns (channel: Channel)
    requires IsNew(op0, chip) && IsNew(op1, chip) && IsNew(op2, chip) && IsNew(op3, chip)
    requires op0 != op1 && op0 != op2 && op0 != op3 && op1 != op2 && op1 != op3 && op2 != op3
    ensures fresh(channel) && channel.Valid() && channel.op0 == op0 && channel.op1 == op1 && channel.op2 == op2
    ensures channel.op3 == op3
    ensures channel.maskLeft
  {
    hide Operator.Valid, IsReset;
    channel := new Channel(op0, op1, op2, op3);
  }

  lemma FastAttack(e: Envelope, r: Rates)
    requires e.Valid() && e.phase == ATTACK && e.rateIndex == 0 && r.attackAdd == 8 * RATE_ONE
    ensures Steps(e, r, 1) == Envelope(DECAY, ENV_MIN, 0)
  {
    assert Steps(e, r, 0) == e;
  }

  /** An operator whose registers are all zero. */
  ghost predicate IsReset(op: Operator, chip: RateTables)
    requires chip.Valid()
    reads op`ksr, op`attackAdd, op`decayAdd, op`releaseAdd, op`rateZero, op`reg20, op`reg40, op`reg60, op`reg80
    reads op`totalLevel, op`sustainLevel, op`chanData, op`tremolo
  {
    op.Coherent(chip) && op.reg20 == op.reg40 == op.reg60 == op.reg80 == 0
  }

  lemma ResetFacts(op: Operator, chip: RateTables)
    requires chip.Valid() && op.Valid() && IsReset(op, chip)
    ensures op.RatesOk(chip) && !op.tremolo && op.totalLevel == op.chanData.kslBase / 0x8000_0000
    ensures op.state in op.rateZero
    ensures op.ksr == op.chanData.keyCode / 4
    ensures op.reg20 == op.reg40 == op.reg60 == op.reg80 == 0
  {
    match op.state {
      case OFF =>
      case RELEASE =>
      case SUSTAIN =>
      case DECAY =>
      case ATTACK =>
    }
  }

  lemma RateFacts(op: Operator, chip: RateTables)
    requires chip.Valid() && op.AttackOk(chip) && op.DecayOk(chip) && op.reg60 == 0xf0
    ensures op.ksr < 16 && op.attackAdd == chip.attackRates[60 + op.ksr] && DECAY in op.rateZero
    ensures ATTACK !in op.rateZero
  {}

  /** Sets an operator to the fastest attack, no decay and a high note, and keys it on. */
  method StartNote(op: Operator, chip: RateTables)
    requires chip.Moving() && InstantAttack(chip) && op.Valid() && IsReset(op, chip) && op.keyOn == {}
    modifies op
    ensures op.Valid() && op.state == ATTACK && op.rateIndex == 0 && op.attackAdd == 8 * RATE_ONE
    ensures DECAY in op.rateZero && ATTACK !in op.rateZero && op.RatesOk(chip) && op.reg80 == 0 && op.keyOn == {1}
    ensures op.totalLevel == 0 && op.reg40 == 0 && !op.tremolo && op.chanData == ChanData(224, 15)
  {
    hide Operator.Valid, Operator.Coherent, Operator.AttackOk, Operator.DecayOk, Operator.ReleaseOk, Operator.SustainOk;
    ResetFacts(op, chip);
    op.SetChanData(chip, ChanData(224, 15));
    ResetFacts(op, chip);
    op.Write60(chip, 0xf0);
    RateFacts(op, chip);
    op.KeyOn(1, 0);
  }

  /** The quietest level of a high note is silent by itself. */
  method Mute(op: Operator)
    requires op.Valid() && op.chanData == ChanData(224, 15) && op.reg40 == 0 && op.state in op.rateZero
    modifies op`reg40, op`totalLevel
    ensures op.Valid() && op.IsSilent()
  {
    op.Write40(0xff);
  }

  /** The same for an operator that was never given a rate. */
  method MuteUnused(op: Operator, chip: RateTables)
    requires chip.Moving() && op.Valid() && IsReset(op, chip)
    modifies op`chanData, op`totalLevel, op`ksr, op`attackAdd, op`decayAdd, op`releaseAdd, op`rateZero, op`reg40
    ensures op.Valid() && op.IsSilent()
  {
    hide Operator.Valid, Operator.Coherent, Operator.IsSilent;
    ResetFacts(op, chip);
    op.SetChanData(chip, ChanData(224, 15));
    ResetFacts(op, chip);
    Mute(op);
  }

  lemma FastSample(c: ChannelState, mode: SynthMode)
    requires c.op0.env.Valid() && c.op0.env.phase == ATTACK && c.op0.env.rateIndex == 0 && c.op0.wave == Flat
    requires c.op0.rates.attackAdd == 8 * RATE_ONE && c.op0.totalLevel == 0 && !c.op0.tremolo
    ensures var d := c.Ready(mode, 0, Increments(0, 0, 0, 0)).After(mode, 1);
            d.old1 == 1 && d.op0.env.phase == DECAY
  {
    FastAttack(c.op0.env, c.op0.rates);
    LastSample(c.Ready(mode, 0, Increments(0, 0, 0, 0)), 1);
    hide Steps, ShiftRight, ChannelState.First;
  }

  /** One sample of a note at full volume whose attack takes no time. */
  method OneSample(channel: Channel, mode: SynthMode)
    requires channel.Valid() && channel.op0.waveForm == Flat && !FourOp(mode)
    requires channel.op0.state == ATTACK && channel.op0.rateIndex == 0 && channel.op0.attackAdd == 8 * RATE_ONE
    requires channel.op0.totalLevel == 0 && !channel.op0.tremolo && !channel.CarriersSilent(mode)
    modifies channel`old0, channel`old1, channel.op0`state, channel.op0`volume, channel.op0`rateIndex,
             channel.op0`waveIndex
    modifies channel.op0`waveCurrent, channel.op0`currentLevel, channel.op1`state, channel.op1`volume,
             channel.op1`rateIndex
    modifies channel.op1`waveIndex, channel.op1`waveCurrent, channel.op1`currentLevel, channel.op2`state,
             channel.op2`volume
    modifies channel.op2`rateIndex, channel.op2`waveIndex, channel.op2`waveCurrent, channel.op2`currentLevel
    modifies channel.op3`state, channel.op3`volume, channel.op3`rateIndex, channel.op3`waveIndex,
             channel.op3`waveCurrent
    modifies channel.op3`currentLevel
    ensures channel.Valid() && channel.old1 == 1 && channel.op0.state == DECAY
  {
    hide Operator.Valid, Channel.CarriersSilent, Channel.Settled, PlayedInto, ChannelState.After, ChannelState.Ready;
    RangesHold(channel.op0);
    var output := new int[2];
    FastSample(channel.Now(), mode);
    var channels := channel.BlockTemplate(mode, 1, output, 0, 0, Increments(0, 0, 0, 0));
  }

  method PlayThenMute(channel: Channel, chip: RateTables)
    requires channel.Valid() && chip.Moving() && InstantAttack(chip) && IsNew(channel.op0, chip)
    requires IsNew(channel.op1, chip)
    modifies channel, channel.op0, channel.op1, channel.op2, channel.op3
    ensures channel.Valid() && channel.CarriersSilent(Sm2AM) && channel.old1 == 1
  {
    hide Operator.Valid, IsReset, RateTables.Valid, InstantAttack;
    StartNote(channel.op0, chip);
    OneSample(channel, Sm2AM);
    hide Operator.IsSilent;
    Mute(channel.op0);
    MuteUnused(channel.op1, chip);
  }

  /** A note plays one sample, and then its operator is muted: the channel is skipped although the sample is still to be
      heard, so the skip is not exact. */
  method DroppedSample(chip: RateTables) returns (channel: Channel)
    requires chip.Moving() && InstantAttack(chip)
    ensures fresh(channel) && channel.Valid() && channel.CarriersSilent(Sm2AM) && channel.old1 == 1
  {
    hide IsNew, Channel.Valid, Channel.CarriersSilent, RateTables.Moving, InstantAttack;
    var op0 := NewOperator(chip);
    var op1 := NewOperator(chip);
    var op2 := NewOperator(chip);
    var op3 := NewOperator(chip);
    channel := NewChannel(op0, op1, op2, op3, chip);
    PlayThenMute(channel, chip);
  }

  /** A note in the mode that adds both operators, of which only the first one sounds. */
  method PlayOneSample(channel: Channel, chip: RateTables)
    requires channel.Valid() && chip.Moving() && InstantAttack(chip) && IsNew(channel.op0, chip)
    requires IsNew(channel.op1, chip)
    modifies channel, channel.op0, channel.op1, channel.op2, channel.op3
    ensures channel.Valid() && channel.old1 == 1 && channel.maskLeft == old(channel.maskLeft)
    ensures channel.op0.RatesOk(chip) && channel.op1.RatesOk(chip) && channel.op0.reg80 == channel.op1.reg80 == 0
    ensures channel.op0.keyOn == {1} && channel.op1.keyOn == {} && channel.op0.state == DECAY
  {
    hide Operator.Valid, RateTables.Valid, InstantAttack, Operator.AttackOk, Operator.DecayOk, Operator.ReleaseOk,
         Operator.Coherent;
    ResetFacts(channel.op1, chip);
    StartNote(channel.op0, chip);
    OneSample(channel, Sm3AM);
  }

  lemma SilentPair(channel: Channel)
    requires channel.op0.IsSilent() && channel.op1.IsSilent()
    ensures channel.CarriersSilent(Sm3AM)
  {}

  /** Sets a release rate and lets go of the key, which was pressed or is pressed first. */
  method ReleaseKey(op: Operator, chip: RateTables)
    requires op.Valid() && chip.Moving() && op.RatesOk(chip) && op.reg80 == 0 && op.keyOn <= {1}
    requires (op.keyOn == {} || op.state != OFF)
    modifies op
    ensures op.Valid() && op.state == RELEASE && op.releaseAdd > 0 && RELEASE !in op.rateZero
  {
    hide Operator.AttackOk, Operator.DecayOk, Operator.SustainOk, SustainFlag;
    op.Write80(chip, 0x0f);
    op.KeyOn(1, 0);
    op.KeyOff(1);
  }

  lemma OffIsSilent(op: Operator, before: Envelope, samples: nat)
    requires op.Valid() && before.Valid() && before.phase.RELEASE? && op.releaseAdd > 0
    requires op.Env() == Steps(before, op.RatesNow(), samples) && samples >= SamplesToOff(before, op.releaseAdd)
    ensures op.IsSilent()
  {
    ReleaseReachesOff(before, op.RatesNow(), samples);
    hide Steps;
  }

  function Max(a: nat, b: nat): nat { if a < b then b else a }

  /** In a four-operator mode the first channel plays the operators of the second one until both are off. */
  method PlayUntilOff(first: Channel, second: Channel)
    requires first.Valid() && second.Valid() && first != second
    requires second.op0 == first.op2 && second.op1 == first.op3
    requires second.op0.state == second.op1.state == RELEASE && second.op0.releaseAdd > 0 && second.op1.releaseAdd > 0
    requires RELEASE !in second.op1.rateZero
    modifies first, first.op0, first.op1, first.op2, first.op3
    ensures second.op0.Valid() && second.op1.Valid() && second.op0.IsSilent() && second.op1.IsSilent()
  {
    hide Operator.Valid, Steps, Channel.Settled, PlayedInto, ChannelState.After, ChannelState.Ready;
    RangesHold(second.op0);
    RangesHold(second.op1);
    ghost var before := first.Now();
    var samples := Max(SamplesToOff(Envelope(RELEASE, second.op0.volume, second.op0.rateIndex), second.op0.releaseAdd),
                       SamplesToOff(Envelope(RELEASE, second.op1.volume, second.op1.rateIndex), second.op1.releaseAdd));
    var output := new int[2 * samples];
    var channels := first.BlockTemplate(Sm3FMFM, samples, output, 0, 0, Increments(0, 0, 0, 0));
    EnvelopesAfter(before, Sm3FMFM, 0, Increments(0, 0, 0, 0), samples);
    OffIsSilent(second.op0, before.op2.env, samples);
    OffIsSilent(second.op1, before.op3.env, samples);
  }

  lemma RangesHold(op: Operator)
    requires op.Valid()
    ensures op.Env().Valid()
  {}

  method PlayThenFade(first: Channel, second: Channel, chip: RateTables)
    requires first.Valid() && second.Valid() && first != second && second.op0 == first.op2 && second.op1 == first.op3
    requires first.op0 !in {second.op2, second.op3} && first.op1 !in {second.op2, second.op3}
    requires chip.Moving() && InstantAttack(chip) && IsNew(second.op0, chip) && IsNew(second.op1, chip)
    modifies first, second, first.op0, first.op1, second.op0, second.op1, second.op2, second.op3
    ensures second.Valid() && second.CarriersSilent(Sm3AM) && second.old1 == 1
    ensures second.maskLeft == old(second.maskLeft)
  {
    hide Operator.Valid, IsReset, RateTables.Valid, InstantAttack, Channel.CarriersSilent, Operator.IsSilent,
         Operator.RatesOk;
    PlayOneSample(second, chip);
    ReleaseKey(second.op0, chip);
    ReleaseKey(second.op1, chip);
    PlayUntilOff(first, second);
    SilentPair(second);
  }

  /** The second channel plays one sample of a note; then both channels are put in a four-operator mode, whose notes are
      keyed off and fade out, and after that the second channel is on its own again: it is skipped although its sample is
      still to be heard. Neither the level nor the frequency of its first operator was written. */
  method DroppedByOtherChannel(chip: RateTables) returns (second: Channel)
    requires chip.Moving() && InstantAttack(chip)
    ensures fresh(second) && second.Valid() && second.CarriersSilent(Sm3AM) && second.old1 == 1 && second.maskLeft
  {
    hide IsNew, Channel.Valid, Channel.CarriersSilent, RateTables.Moving, InstantAttack;
    var op0 := NewOperator(chip);
    var op1 := NewOperator(chip);
    var op2 := NewOperator(chip);
    var op3 := NewOperator(chip);
    var op4 := NewOperator(chip);
    var op5 := NewOperator(chip);
    var first := NewChannel(op0, op1, op2, op3, chip);
    second := NewChannel(op2, op3, op4, op5, chip);
    PlayThenFade(first, second, chip);
  }
}
