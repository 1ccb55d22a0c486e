/** The registers each voice of src/i_oplmusic.c owns, and what its write-skipping caches promise about them. */
module OplRegisters {
  import opened Lists
  import opened OplVoiceLists

  const OPL_REGS_TREMOLO := 0x20
  const OPL_REGS_LEVEL := 0x40
  const OPL_REGS_ATTACK := 0x60
  const OPL_REGS_SUSTAIN := 0x80
  const OPL_REGS_FREQ_1 := 0xA0
  const OPL_REGS_FEEDBACK := 0xC0
  const OPL_REGS_WAVEFORM := 0xE0

  /** The value of reg_volume that forces the next volume write. */
  const UNKNOWN_VOLUME := 999

  /** genmidi_op_t, every field a byte. */
  datatype Operator = Operator(tremolo: nat, attack: nat, sustain: nat, waveform: nat, scale: nat, level: nat)

  /** genmidi_voice_t. */
  datatype Patch = Patch(modulator: Operator, feedback: nat, carrier: Operator, base_note_offset: int)

  /** genmidi_instr_t. */
  datatype Instrument = Instrument(fixed: bool, double_voice: bool, fine_tuning: nat, fixed_note: nat, first: Patch,
                      second: Patch)
  {
    function Voice(n: nat): Patch { if n == 0 then first else second }
  }

  // ---------- Level bytes ----------

  /** scale & 0xc0. */
  function TopBits(scale: nat): nat { scale / 64 % 4 * 64 }

  /** The level register LoadOperatorData writes. */
  function LoadedLevel(data: Operator, max_level: bool): nat {
    TopBits(data.scale) + if max_level then 0x3f else data.level % 64
  }

  /** The level register of the modulator once the carrier volume is car: it follows the volume only in additive mode. */
  function ModulatorLevel(patch: Patch, car: nat): nat {
    if patch.feedback % 2 == 0 then LoadedLevel(patch.modulator, false)
    else if patch.modulator.level == 0x3f then LoadedLevel(patch.modulator, true)
    else TopBits(patch.modulator.scale)
         + if 0 <= 0x3f - patch.modulator.level < car then 0x3f - patch.modulator.level else car
  }

  /** The level register of the carrier. */
  function CarrierLevel(patch: Patch, car: nat): nat {
    TopBits(patch.carrier.scale) + car
  }

  // ---------- Who owns which register ----------

  /** Some register of operator op; op includes the bank. */
  predicate IsOperatorRegister(op: nat, r: nat) {
    || r == OPL_REGS_TREMOLO + op || r == OPL_REGS_LEVEL + op || r == OPL_REGS_ATTACK + op
    || r == OPL_REGS_SUSTAIN + op || r == OPL_REGS_WAVEFORM + op
  }

  predicate Owns(v: Voice, r: nat) {
    || IsOperatorRegister(v.op1 + v.bank, r) || IsOperatorRegister(v.op2 + v.bank, r)
    || r == OPL_REGS_FREQ_1 + v.index + v.bank || r == KeyRegister(v) || r == OPL_REGS_FEEDBACK + v.index + v.bank
  }

  /** For each operator, the voice of its bank that uses it; two operators in eight do not exist. */
  const OPERATOR_SLOTS: seq<nat> := [0, 1, 2, 0, 1, 2, 9, 9, 3, 4, 5, 3, 4, 5, 9, 9, 6, 7, 8, 6, 7, 8]

  /** The voice of a bank that a register belongs to, read off its address. */
  function SlotOf(x: nat): nat {
    if 0xA0 <= x < 0xE0 then x % 0x10
    else if x % 0x20 < |OPERATOR_SLOTS| then OPERATOR_SLOTS[x % 0x20] else 9
  }

  function OwnerOf(r: nat): nat {
    r / 0x100 * OPL_NUM_VOICES + SlotOf(r % 0x100)
  }

  lemma OwnerInBank(x: nat, bank: nat)
    requires x < 0x100 && (bank == 0 || bank == 0x100)
    ensures OwnerOf(x + bank) == bank / 0x100 * OPL_NUM_VOICES + SlotOf(x)
  {
    assert (x + bank) % 0x100 == x && (x + bank) / 0x100 == bank / 0x100;
  }

  lemma OperatorsInSlots(k: nat)
    requires k < OPL_NUM_VOICES
    ensures VOICE_OPERATORS[0][k] < 0x16 && OPERATOR_SLOTS[VOICE_OPERATORS[0][k]] == k
    ensures VOICE_OPERATORS[1][k] < 0x16 && OPERATOR_SLOTS[VOICE_OPERATORS[1][k]] == k
  {}

  lemma OperatorBase(group: nat, op: nat)
    requires group < 8 && op < 0x20
    ensures (group * 0x20 + op) % 0x20 == op
  {}

  lemma OperatorSlot(op: nat, k: nat)
    requires k < OPL_NUM_VOICES && (op == VOICE_OPERATORS[0][k] || op == VOICE_OPERATORS[1][k])
    ensures op < 0x16
    ensures SlotOf(OPL_REGS_TREMOLO + op) == SlotOf(OPL_REGS_LEVEL + op) == SlotOf(OPL_REGS_ATTACK + op) == k
    ensures SlotOf(OPL_REGS_SUSTAIN + op) == SlotOf(OPL_REGS_WAVEFORM + op) == k
  {
    OperatorsInSlots(k);
    OperatorBase(1, op);
    OperatorBase(2, op);
    OperatorBase(3, op);
    OperatorBase(4, op);
    OperatorBase(7, op);
  }

  lemma IndexSlot(k: nat)
    requires k < OPL_NUM_VOICES
    ensures SlotOf(OPL_REGS_FREQ_1 + k) == SlotOf(OPL_REGS_FREQ_2 + k) == SlotOf(OPL_REGS_FEEDBACK + k) == k
  {}

  lemma OperatorOwner(op: nat, k: nat, bank: nat, r: nat)
    requires k < OPL_NUM_VOICES && (op == VOICE_OPERATORS[0][k] || op == VOICE_OPERATORS[1][k])
    requires (bank == 0 || bank == 0x100) && IsOperatorRegister(op + bank, r)
    ensures OwnerOf(r) == bank / 0x100 * OPL_NUM_VOICES + k && r < OPL_REGISTERS
  {
    hide SlotOf, OwnerOf;
    OperatorSlot(op, k);
    OwnerInBank(OPL_REGS_TREMOLO + op, bank);
    OwnerInBank(OPL_REGS_LEVEL + op, bank);
    OwnerInBank(OPL_REGS_ATTACK + op, bank);
    OwnerInBank(OPL_REGS_SUSTAIN + op, bank);
    OwnerInBank(OPL_REGS_WAVEFORM + op, bank);
  }

  lemma IndexOwner(k: nat, bank: nat)
    requires k < OPL_NUM_VOICES && (bank == 0 || bank == 0x100)
    ensures OwnerOf(OPL_REGS_FREQ_1 + k + bank) == OwnerOf(OPL_REGS_FREQ_2 + k + bank) == bank / 0x100 * OPL_NUM_VOICES + k
    ensures OwnerOf(OPL_REGS_FEEDBACK + k + bank) == bank / 0x100 * OPL_NUM_VOICES + k
  {
    hide OwnerOf, SlotOf;
    IndexSlot(k);
    OwnerInBank(OPL_REGS_FREQ_1 + k, bank);
    OwnerInBank(OPL_REGS_FREQ_2 + k, bank);
    OwnerInBank(OPL_REGS_FEEDBACK + k, bank);
  }

  lemma OwnerIsOwner(v: Voice, i: nat, r: nat)
    requires i < 2 * OPL_NUM_VOICES && Placed(v, i) && Owns(v, r)
    ensures OwnerOf(r) == i && r < OPL_REGISTERS
  {
    hide OwnerOf, IsOperatorRegister;
    var k := i % OPL_NUM_VOICES;
    IndexOwner(k, v.bank);
    if IsOperatorRegister(v.op1 + v.bank, r) {
      OperatorOwner(v.op1, k, v.bank, r);
    } else if IsOperatorRegister(v.op2 + v.bank, r) {
      OperatorOwner(v.op2, k, v.bank, r);
    }
  }

  /** No register belongs to two voices. */
  lemma OwnersApart(v: Voice, i: nat, w: Voice, j: nat, r: nat)
    requires i < 2 * OPL_NUM_VOICES && j < 2 * OPL_NUM_VOICES && Placed(v, i) && Placed(w, j) && i != j
    ensures !(Owns(v, r) && Owns(w, r))
  {
    if Owns(v, r) {
      OwnerIsOwner(v, i, r);
    }
    if Owns(w, r) {
      OwnerIsOwner(w, j, r);
    }
  }

  // ---------- What the registers of a voice hold ----------

  predicate Fits(v: Voice) {
    v.op1 < 0x16 && v.op2 < 0x16 && v.op1 != v.op2 && v.index < OPL_NUM_VOICES && (v.bank == 0 || v.bank == 0x100)
  }

  lemma PlacedFits(v: Voice, i: nat)
    requires i < 2 * OPL_NUM_VOICES && Placed(v, i)
    ensures Fits(v)
  {
    OperatorsInSlots(i % OPL_NUM_VOICES);
  }

  predicate OperatorHolds(chip: seq<nat>, op: nat, data: Operator)
    requires |chip| == OPL_REGISTERS && op < 0x116
  {
    && chip[OPL_REGS_TREMOLO + op] == data.tremolo && chip[OPL_REGS_ATTACK + op] == data.attack
    && chip[OPL_REGS_SUSTAIN + op] == data.sustain && chip[OPL_REGS_WAVEFORM + op] == data.waveform
  }

  /** The level registers agree with the cached volume, or the next volume write is forced. */
  predicate LevelsHold(v: Voice, patch: Patch, chip: seq<nat>)
    requires |chip| == OPL_REGISTERS && Fits(v)
  {
    if v.reg_volume == UNKNOWN_VOLUME then
      chip[OPL_REGS_LEVEL + v.op1 + v.bank] == LoadedLevel(patch.modulator, patch.feedback % 2 == 1)
    else
      && v.reg_volume == CarrierLevel(patch, v.reg_volume % 64)
      && chip[OPL_REGS_LEVEL + v.op2 + v.bank] == v.reg_volume
      && chip[OPL_REGS_LEVEL + v.op1 + v.bank] == ModulatorLevel(patch, v.reg_volume % 64)
  }

  /** The two operators are connected as the patch says, and the voice has the priority of the patch: the faster the
      carrier attacks and releases, the lower. */
  predicate ConnectionHolds(v: Voice, patch: Patch, chip: seq<nat>)
    requires |chip| == OPL_REGISTERS && Fits(v)
  {
    && chip[OPL_REGS_FEEDBACK + v.index + v.bank] == patch.feedback
    && v.priority == 30 - patch.carrier.attack / 16 - patch.carrier.sustain % 16
  }

  /** The frequency registers hold the cached frequency, whatever the key-on bit is. */
  predicate FrequencyHolds(v: Voice, chip: seq<nat>)
    requires |chip| == OPL_REGISTERS && Fits(v)
  {
    chip[OPL_REGS_FREQ_1 + v.index + v.bank] == v.freq % 256 && chip[KeyRegister(v)] % 32 == v.freq / 256
  }

  predicate Known(v: Voice, instruments: seq<Instrument>) {
    0 <= v.current_instr < |instruments| && v.current_instr_voice < 2
  }

  function PatchOf(v: Voice, instruments: seq<Instrument>): Patch
    requires Known(v, instruments)
  {
    instruments[v.current_instr].Voice(v.current_instr_voice)
  }

  /** The instrument caches of a voice are coherent with the chip. */
  predicate InstrumentCoherent(v: Voice, chip: seq<nat>, instruments: seq<Instrument>) {
    && |chip| == OPL_REGISTERS && Fits(v)
    && (v.current_instr != NONE ==>
          && Known(v, instruments)
          && OperatorHolds(chip, v.op2 + v.bank, PatchOf(v, instruments).carrier)
          && OperatorHolds(chip, v.op1 + v.bank, PatchOf(v, instruments).modulator)
          && LevelsHold(v, PatchOf(v, instruments), chip)
          && ConnectionHolds(v, PatchOf(v, instruments), chip))
  }

  /** All caches of a voice are coherent; the frequency matters while it has a channel. */
  predicate VoiceCoherent(v: Voice, chip: seq<nat>, instruments: seq<Instrument>) {
    && InstrumentCoherent(v, chip, instruments)
    && (v.channel != NONE ==> v.current_instr != NONE && FrequencyHolds(v, chip))
  }

  ghost predicate AllCoherent(voices: seq<Voice>, chip: seq<nat>, instruments: seq<Instrument>, n: nat)
    requires n <= |voices|
  {
    forall i: nat | i < n :: VoiceCoherent(voices[i], chip, instruments)
  }

  /** The two chips agree on every register of the voice. */
  ghost predicate SameRegisters(v: Voice, chip0: seq<nat>, chip1: seq<nat>) {
    |chip0| == |chip1| == OPL_REGISTERS && forall r: nat | r < OPL_REGISTERS && Owns(v, r) :: chip0[r] == chip1[r]
  }

  lemma SameRegistersCoherent(v: Voice, chip0: seq<nat>, chip1: seq<nat>, instruments: seq<Instrument>)
    requires VoiceCoherent(v, chip0, instruments) && SameRegisters(v, chip0, chip1)
    ensures VoiceCoherent(v, chip1, instruments)
  {
    SameOperator(v, v.op1, chip0, chip1);
    SameOperator(v, v.op2, chip0, chip1);
    assert Owns(v, OPL_REGS_FREQ_1 + v.index + v.bank) && Owns(v, KeyRegister(v));
    assert Owns(v, OPL_REGS_FEEDBACK + v.index + v.bank);
    hide Owns;
  }

  lemma SameOperator(v: Voice, op: nat, chip0: seq<nat>, chip1: seq<nat>)
    requires SameRegisters(v, chip0, chip1) && Fits(v) && (op == v.op1 || op == v.op2)
    ensures chip0[OPL_REGS_LEVEL + op + v.bank] == chip1[OPL_REGS_LEVEL + op + v.bank]
    ensures chip0[OPL_REGS_TREMOLO + op + v.bank] == chip1[OPL_REGS_TREMOLO + op + v.bank]
    ensures chip0[OPL_REGS_ATTACK + op + v.bank] == chip1[OPL_REGS_ATTACK + op + v.bank]
    ensures chip0[OPL_REGS_SUSTAIN + op + v.bank] == chip1[OPL_REGS_SUSTAIN + op + v.bank]
    ensures chip0[OPL_REGS_WAVEFORM + op + v.bank] == chip1[OPL_REGS_WAVEFORM + op + v.bank]
  {
    assert IsOperatorRegister(op + v.bank, OPL_REGS_LEVEL + op + v.bank);
    assert IsOperatorRegister(op + v.bank, OPL_REGS_TREMOLO + op + v.bank);
    assert IsOperatorRegister(op + v.bank, OPL_REGS_ATTACK + op + v.bank);
    assert IsOperatorRegister(op + v.bank, OPL_REGS_SUSTAIN + op + v.bank);
    assert IsOperatorRegister(op + v.bank, OPL_REGS_WAVEFORM + op + v.bank);
    assert Owns(v, OPL_REGS_LEVEL + op + v.bank) && Owns(v, OPL_REGS_TREMOLO + op + v.bank) && Owns(v, OPL_REGS_ATTACK + op + v.bank)
           && Owns(v, OPL_REGS_SUSTAIN + op + v.bank) && Owns(v, OPL_REGS_WAVEFORM + op + v.bank);
    hide Owns;
  }

  // ---------- Keying off and releasing ----------

  /** Keying off and releasing a run of voices keeps all caches coherent. */
  lemma FreedCoherent(t0: Table, t1: Table, run: seq<nat>, instruments: seq<Instrument>, n: nat)
    requires AllPlaced(t0.voices, n) && Within(run, n) && |t0.chip| == OPL_REGISTERS && Freed(t0, t1, run)
    requires AllCoherent(t0.voices, t0.chip, instruments, n)
    ensures |t1.voices| == |t0.voices| && AllCoherent(t1.voices, t1.chip, instruments, n)
  {
    hide VoiceCoherent, SameRegisters, KeyedOff, Silenced, Run, InRange;
    forall i: nat | i < n
      ensures VoiceCoherent(t1.voices[i], t1.chip, instruments)
    {
      SilencedAt(t0.voices, run, i);
      assert VoiceCoherent(t0.voices[i], t0.chip, instruments);
      FreedRegisters(t0, t1, run, i, n);
      var key := KeyRegister(t0.voices[i]);
      if i in run {
        SilentCoherent(t0.voices[i], t0.chip, t1.chip[key], instruments);
        SameRegistersCoherent(Silent(t0.voices[i]), t0.chip[key := t1.chip[key]], t1.chip, instruments);
      } else {
        assert t0.chip[key := t1.chip[key]] == t0.chip;
        SameRegistersCoherent(t0.voices[i], t0.chip, t1.chip, instruments);
      }
    }
  }

  lemma SilentCoherent(v: Voice, chip: seq<nat>, value: nat, instruments: seq<Instrument>)
    requires VoiceCoherent(v, chip, instruments) && KeyRegister(v) < OPL_REGISTERS
    ensures VoiceCoherent(Silent(v), chip[KeyRegister(v) := value], instruments)
  {
    KeyRegisterApart(v);
  }

  lemma KeyRegisterApart(v: Voice)
    requires Fits(v)
    ensures !IsOperatorRegister(v.op1 + v.bank, KeyRegister(v)) && !IsOperatorRegister(v.op2 + v.bank, KeyRegister(v))
    ensures KeyRegister(v) < OPL_REGISTERS && KeyRegister(v) != OPL_REGS_FREQ_1 + v.index + v.bank
  {}

  lemma FreedRegisters(t0: Table, t1: Table, run: seq<nat>, i: nat, n: nat)
    requires AllPlaced(t0.voices, n) && Within(run, n) && |t0.chip| == OPL_REGISTERS && Freed(t0, t1, run) && i < n
    ensures KeyRegister(t0.voices[i]) < OPL_REGISTERS
    ensures |t1.chip| == OPL_REGISTERS
    ensures SameRegisters(t0.voices[i], t0.chip[KeyRegister(t0.voices[i]) := t1.chip[KeyRegister(t0.voices[i])]], t1.chip)
    ensures SameRegisters(Silent(t0.voices[i]), t0.chip[KeyRegister(t0.voices[i]) := t1.chip[KeyRegister(t0.voices[i])]], t1.chip)
    ensures i !in run ==> t0.chip[KeyRegister(t0.voices[i])] == t1.chip[KeyRegister(t0.voices[i])]
  {
    KeyedOffAt(t0.chip, t0.voices, run, n, i);
    var v := t0.voices[i];
    forall r: nat | r < OPL_REGISTERS && Owns(v, r) && r != KeyRegister(v)
      ensures t0.chip[r] == t1.chip[r]
    {
      forall k | 0 <= k < |run|
        ensures KeyRegister(t0.voices[run[k]]) != r
      {
        var w := t0.voices[run[k]];
        assert Placed(v, i) && Placed(w, run[k]);
        if run[k] != i {
          OwnersApart(v, i, w, run[k], r);
        }
      }
      KeyedOffElsewhere(t0.chip, t0.voices, run, r);
    }
  }

  // ---------- Programming an instrument ----------

  /** The five writes of LoadOperatorData. */
  function LoadOperator(chip: seq<nat>, op: nat, data: Operator, max_level: bool): (r: seq<nat>)
    requires |chip| == OPL_REGISTERS && op < 0x116
    ensures |r| == OPL_REGISTERS
  {
    chip[OPL_REGS_LEVEL + op := LoadedLevel(data, max_level)][OPL_REGS_TREMOLO + op := data.tremolo]
        [OPL_REGS_ATTACK + op := data.attack][OPL_REGS_SUSTAIN + op := data.sustain][OPL_REGS_WAVEFORM + op := data.waveform]
  }

  /** The writes of SetVoiceInstrument, carrier first. */
  function LoadPatch(chip: seq<nat>, v: Voice, patch: Patch): (r: seq<nat>)
    requires |chip| == OPL_REGISTERS && Fits(v)
    ensures |r| == OPL_REGISTERS
  {
    var chip1 := LoadOperator(chip, v.op2 + v.bank, patch.carrier, true);
    var chip2 := LoadOperator(chip1, v.op1 + v.bank, patch.modulator, patch.feedback % 2 == 1);
    chip2[OPL_REGS_FEEDBACK + v.index + v.bank := patch.feedback]
  }

  lemma LoadOperatorAt(chip: seq<nat>, op: nat, data: Operator, max_level: bool)
    requires |chip| == OPL_REGISTERS && op < 0x116
    ensures var r := LoadOperator(chip, op, data, max_level);
            && OperatorHolds(r, op, data) && r[OPL_REGS_LEVEL + op] == LoadedLevel(data, max_level)
            && forall a: nat | a < OPL_REGISTERS && !IsOperatorRegister(op, a) :: r[a] == chip[a]
  {}

  predicate IsOperator(op: nat) { op < 0x16 || 0x100 <= op < 0x116 }

  lemma LoadKeepsOther(chip: seq<nat>, op: nat, data: Operator, max_level: bool, other: nat, held: Operator)
    requires |chip| == OPL_REGISTERS && IsOperator(op) && IsOperator(other) && op != other
    requires OperatorHolds(chip, other, held)
    ensures OperatorHolds(LoadOperator(chip, op, data, max_level), other, held)
  {}

  lemma LoadKeepsIndexed(chip: seq<nat>, op: nat, data: Operator, max_level: bool, v: Voice)
    requires |chip| == OPL_REGISTERS && IsOperator(op) && Fits(v)
    ensures var r := LoadOperator(chip, op, data, max_level);
            && r[OPL_REGS_FREQ_1 + v.index + v.bank] == chip[OPL_REGS_FREQ_1 + v.index + v.bank]
            && r[KeyRegister(v)] == chip[KeyRegister(v)]
  {}

  lemma FeedbackKeeps(chip: seq<nat>, v: Voice, op: nat, held: Operator, value: nat)
    requires |chip| == OPL_REGISTERS && Fits(v) && IsOperator(op) && OperatorHolds(chip, op, held)
    ensures var r := chip[OPL_REGS_FEEDBACK + v.index + v.bank := value];
            && OperatorHolds(r, op, held) && r[OPL_REGS_LEVEL + op] == chip[OPL_REGS_LEVEL + op]
            && r[OPL_REGS_FREQ_1 + v.index + v.bank] == chip[OPL_REGS_FREQ_1 + v.index + v.bank]
            && r[KeyRegister(v)] == chip[KeyRegister(v)]
  {}

  /** After programming, both operators hold the patch and the level registers are as after a fresh load. */
  lemma LoadPatchHolds(chip: seq<nat>, v: Voice, patch: Patch)
    requires |chip| == OPL_REGISTERS && Fits(v)
    ensures var r := LoadPatch(chip, v, patch);
            && OperatorHolds(r, v.op2 + v.bank, patch.carrier) && OperatorHolds(r, v.op1 + v.bank, patch.modulator)
            && r[OPL_REGS_LEVEL + v.op1 + v.bank] == LoadedLevel(patch.modulator, patch.feedback % 2 == 1)
            && r[OPL_REGS_FEEDBACK + v.index + v.bank] == patch.feedback
            && r[OPL_REGS_FREQ_1 + v.index + v.bank] == chip[OPL_REGS_FREQ_1 + v.index + v.bank]
            && r[KeyRegister(v)] == chip[KeyRegister(v)]
  {
    hide LoadOperator, OperatorHolds, IsOperatorRegister, LoadedLevel;
    var additive := patch.feedback % 2 == 1;
    var chip1 := LoadOperator(chip, v.op2 + v.bank, patch.carrier, true);
    var chip2 := LoadOperator(chip1, v.op1 + v.bank, patch.modulator, additive);
    LoadOperatorAt(chip, v.op2 + v.bank, patch.carrier, true);
    LoadOperatorAt(chip1, v.op1 + v.bank, patch.modulator, additive);
    hide Owns;
    LoadKeepsOther(chip1, v.op1 + v.bank, patch.modulator, additive, v.op2 + v.bank, patch.carrier);
    LoadKeepsIndexed(chip, v.op2 + v.bank, patch.carrier, true, v);
    LoadKeepsIndexed(chip1, v.op1 + v.bank, patch.modulator, additive, v);
    FeedbackKeeps(chip2, v, v.op2 + v.bank, patch.carrier, patch.feedback);
    FeedbackKeeps(chip2, v, v.op1 + v.bank, patch.modulator, patch.feedback);
  }

  lemma LoadPatchElsewhere(chip: seq<nat>, v: Voice, patch: Patch)
    requires |chip| == OPL_REGISTERS && Fits(v)
    ensures forall a: nat | a < OPL_REGISTERS && !Owns(v, a) :: LoadPatch(chip, v, patch)[a] == chip[a]
  {
    hide LoadOperator, OperatorHolds, IsOperatorRegister, LoadedLevel;
    var chip1 := LoadOperator(chip, v.op2 + v.bank, patch.carrier, true);
    LoadOperatorAt(chip, v.op2 + v.bank, patch.carrier, true);
    LoadOperatorAt(chip1, v.op1 + v.bank, patch.modulator, patch.feedback % 2 == 1);
  }

  // ---------- Volume ----------

  /** The writes of SetVoiceVolume for the wanted carrier volume. */
  function SetLevels(chip: seq<nat>, v: Voice, patch: Patch, car: nat): (r: seq<nat>)
    requires |chip| == OPL_REGISTERS && Fits(v)
    ensures |r| == OPL_REGISTERS
  {
    if car == v.reg_volume then chip
    else
      var chip1 := chip[OPL_REGS_LEVEL + v.op2 + v.bank := CarrierLevel(patch, car)];
      if patch.feedback % 2 == 1 && patch.modulator.level != 0x3f
      then chip1[OPL_REGS_LEVEL + v.op1 + v.bank := ModulatorLevel(patch, car)] else chip1
  }

  function WithVolume(v: Voice, patch: Patch, volume: nat, car: nat): Voice {
    v.(note_volume := volume, reg_volume := if car == v.reg_volume then v.reg_volume else CarrierLevel(patch, car))
  }

  /** The low six bits of the level registers are attenuations, and the two bits above them are those of the patch. The
      carrier gets the wanted volume. The modulator is left as loaded, unless both operators are heard: then it is as
      quiet as the carrier, or 0x3f less its own level if that is louder. */
  lemma LevelBits(patch: Patch, car: nat)
    requires car < 64
    ensures var level := CarrierLevel(patch, car); level % 64 == car && level / 64 == patch.carrier.scale / 64 % 4
    ensures var level, own := ModulatorLevel(patch, car), patch.modulator.level;
            && level / 64 == patch.modulator.scale / 64 % 4
            && (patch.feedback % 2 == 0 ==> level % 64 == own % 64)
            && (patch.feedback % 2 == 1 && own == 0x3f ==> level % 64 == 0x3f)
            && (patch.feedback % 2 == 1 && own < 0x3f ==>
                  level % 64 <= car && level % 64 <= 0x3f - own && (level % 64 == car || level % 64 == 0x3f - own))
            && (patch.feedback % 2 == 1 && own > 0x3f ==> level % 64 == car)
  {}

  /** Although the write may be skipped, both level registers hold the wanted values afterwards. */
  lemma LevelsAreSet(chip: seq<nat>, v: Voice, instruments: seq<Instrument>, volume: nat, car: nat)
    requires InstrumentCoherent(v, chip, instruments) && v.current_instr != NONE && car < 64
    ensures var patch := PatchOf(v, instruments);
            var r, w := SetLevels(chip, v, patch, car), WithVolume(v, patch, volume, car);
            && r[OPL_REGS_LEVEL + v.op2 + v.bank] == CarrierLevel(patch, car)
            && r[OPL_REGS_LEVEL + v.op1 + v.bank] == ModulatorLevel(patch, car)
            && InstrumentCoherent(w, r, instruments)
            && KeyRegister(v) < OPL_REGISTERS && r[KeyRegister(v)] == chip[KeyRegister(v)]
            && r[OPL_REGS_FREQ_1 + v.index + v.bank] == chip[OPL_REGS_FREQ_1 + v.index + v.bank]
  {
    hide CarrierLevel, ModulatorLevel, LoadedLevel, OperatorHolds, Owns, KeyRegister, SetLevels;
    var patch := PatchOf(v, instruments);
    CarrierLevelSplits(patch, car);
    if car == v.reg_volume {
      CarrierLevelSplits(patch, v.reg_volume % 64);
      assert SetLevels(chip, v, patch, car) == chip by { SetLevelsCases(chip, v, patch, car); }
      LevelKeeps(chip, v, v.op1 + v.bank, v.op2 + v.bank, 0);
    } else {
      LevelsAreWritten(chip, v, patch, car);
    }
  }

  lemma SetLevelsCases(chip: seq<nat>, v: Voice, patch: Patch, car: nat)
    requires |chip| == OPL_REGISTERS && Fits(v)
    ensures car == v.reg_volume ==> SetLevels(chip, v, patch, car) == chip
  {}

  /** When the write is not skipped. */
  lemma LevelsAreWritten(chip: seq<nat>, v: Voice, patch: Patch, car: nat)
    requires |chip| == OPL_REGISTERS && Fits(v) && LevelsHold(v, patch, chip) && car != v.reg_volume && car < 64
    ensures var r := SetLevels(chip, v, patch, car);
            && r[OPL_REGS_LEVEL + v.op2 + v.bank] == CarrierLevel(patch, car)
            && r[OPL_REGS_LEVEL + v.op1 + v.bank] == ModulatorLevel(patch, car)
            && (OperatorHolds(chip, v.op1 + v.bank, patch.modulator) ==> OperatorHolds(r, v.op1 + v.bank, patch.modulator))
            && (OperatorHolds(chip, v.op2 + v.bank, patch.carrier) ==> OperatorHolds(r, v.op2 + v.bank, patch.carrier))
            && KeyRegister(v) < OPL_REGISTERS && r[KeyRegister(v)] == chip[KeyRegister(v)]
            && r[OPL_REGS_FEEDBACK + v.index + v.bank] == chip[OPL_REGS_FEEDBACK + v.index + v.bank]
            && r[OPL_REGS_FREQ_1 + v.index + v.bank] == chip[OPL_REGS_FREQ_1 + v.index + v.bank]
  {
    hide CarrierLevel, ModulatorLevel, LoadedLevel, OperatorHolds, Owns, KeyRegister;
    CarrierLevelSplits(patch, car);
    var chip1 := chip[OPL_REGS_LEVEL + v.op2 + v.bank := CarrierLevel(patch, car)];
    LevelKeeps(chip, v, v.op2 + v.bank, v.op1 + v.bank, CarrierLevel(patch, car));
    LevelKeeps(chip1, v, v.op1 + v.bank, v.op2 + v.bank, ModulatorLevel(patch, car));
  }

  lemma SetLevelsElsewhere(chip: seq<nat>, v: Voice, patch: Patch, car: nat)
    requires |chip| == OPL_REGISTERS && Fits(v)
    ensures forall a: nat | a < OPL_REGISTERS && !Owns(v, a) :: SetLevels(chip, v, patch, car)[a] == chip[a]
  {
    hide CarrierLevel, ModulatorLevel;
    LevelAddresses(v);
    hide Owns;
  }

  /** Writing a level register changes nothing else about the voice. */
  lemma LevelKeeps(chip: seq<nat>, v: Voice, op: nat, other: nat, value: nat)
    requires |chip| == OPL_REGISTERS && Fits(v) && IsOperator(op) && IsOperator(other) && op != other
    ensures var r := chip[OPL_REGS_LEVEL + op := value];
            && r[OPL_REGS_LEVEL + op] == value && r[OPL_REGS_LEVEL + other] == chip[OPL_REGS_LEVEL + other]
            && (forall data :: OperatorHolds(chip, op, data) ==> OperatorHolds(r, op, data))
            && (forall data :: OperatorHolds(chip, other, data) ==> OperatorHolds(r, other, data))
            && r[OPL_REGS_FEEDBACK + v.index + v.bank] == chip[OPL_REGS_FEEDBACK + v.index + v.bank]
            && r[OPL_REGS_FREQ_1 + v.index + v.bank] == chip[OPL_REGS_FREQ_1 + v.index + v.bank]
            && KeyRegister(v) < OPL_REGISTERS && r[KeyRegister(v)] == chip[KeyRegister(v)]
  {}

  lemma LevelAddresses(v: Voice)
    requires Fits(v)
    ensures Owns(v, OPL_REGS_LEVEL + v.op1 + v.bank) && Owns(v, OPL_REGS_LEVEL + v.op2 + v.bank)
  {}

  /** The two fields of a level register can be told apart, and none is the forcing value. */
  lemma CarrierLevelSplits(patch: Patch, car: nat)
    requires car < 64
    ensures CarrierLevel(patch, car) % 64 == car && CarrierLevel(patch, car) != UNKNOWN_VOLUME
    ensures CarrierLevel(patch, car) < 256
    ensures CarrierLevel(patch, car) < 64 ==> forall c: nat | c < 64 :: CarrierLevel(patch, c) == c
    ensures patch.feedback % 2 == 0 || patch.modulator.level == 0x3f ==>
              ModulatorLevel(patch, car) == LoadedLevel(patch.modulator, patch.feedback % 2 == 1)
    ensures patch.feedback % 2 == 0 || patch.modulator.level == 0x3f ==> forall c: nat ::
              ModulatorLevel(patch, c) == ModulatorLevel(patch, car)
  {}

  // ---------- Frequency ----------

  /** The two clamping loops: the same note of the scale, moved into 0..95 octave by octave. */
  function ClampedNote(note: int): (n: nat)
    ensures n <= 95 && (n - note) % 12 == 0 && (0 <= note <= 95 ==> n == note)
    ensures (note < 0 ==> n < 12) && (note > 95 ==> n >= 84)
  {
    if note < 0 then note % 12 else if note > 95 then 84 + note % 12 else note
  }

  /** The note with the offset of the instrument, unless its pitch is fixed. */
  function SoundedNote(v: Voice, instruments: seq<Instrument>): (note: int)
    requires Known(v, instruments)
  {
    v.note + if instruments[v.current_instr].fixed then 0 else PatchOf(v, instruments).base_note_offset
  }

  /** The index FrequencyForVoice computes before it looks at the curve. */
  function FrequencyIndex(v: Voice, instruments: seq<Instrument>, bend: int): (index: nat)
    requires Known(v, instruments)
  {
    var instr := instruments[v.current_instr];
    var note := ClampedNote(SoundedNote(v, instruments));
    var index := 64 + 32 * note + bend + if v.current_instr_voice != 0 then instr.fine_tuning / 2 - 64 else 0;
    if index < 0 then 0 else index
  }

  const CURVE_LENGTH := 668

  /** Where in the curve, and which octave. */
  function CurveIndex(index: nat): (i: nat)
    ensures i < CURVE_LENGTH
  {
    if index < 284 then index else (index - 284) % 384 + 284
  }

  function Octave(index: nat): (octave: nat)
    ensures octave <= 7
  {
    if index < 284 then 0 else if (index - 284) / 384 >= 7 then 7 else (index - 284) / 384
  }

  /** The curve values fit in the ten bits below the octave. */
  predicate IsCurve(curve: seq<nat>) {
    |curve| == CURVE_LENGTH && forall i | 0 <= i < |curve| :: 0 < curve[i] < 0x400
  }

  /** The register value of FrequencyForVoice: always inside the curve, never zero, never more than 13 bits. */
  function Frequency(v: Voice, instruments: seq<Instrument>, bend: int, curve: seq<nat>): (freq: nat)
    requires Known(v, instruments) && IsCurve(curve)
    ensures 0 < freq < 0x2000
  {
    var index := FrequencyIndex(v, instruments, bend);
    curve[CurveIndex(index)] + 0x400 * Octave(index)
  }

  /** The lowest note of a first voice is at the 64th entry of the curve, and a bend moves it along the curve, from the
      start of it up to its end. */
  lemma LowestNote(v: Voice, instruments: seq<Instrument>, bend: int, curve: seq<nat>)
    requires Known(v, instruments) && IsCurve(curve)
    requires SoundedNote(v, instruments) == 0 && v.current_instr_voice == 0 && bend < CURVE_LENGTH - 64
    ensures Frequency(v, instruments, bend, curve) == curve[if bend < -64 then 0 else 64 + bend]
  {}

  /** A semitone is as much as a bend of 32. */
  lemma SemitoneUp(v: Voice, instruments: seq<Instrument>, bend: int, curve: seq<nat>)
    requires Known(v, instruments) && IsCurve(curve) && 0 <= SoundedNote(v, instruments) < 95
    ensures Frequency(v.(note := v.note + 1), instruments, bend, curve) == Frequency(v, instruments, bend + 32, curve)
  {}

  /** An octave up is the same place on the curve and one octave more, up to the seventh. */
  lemma OctaveUp(v: Voice, instruments: seq<Instrument>, bend: int, curve: seq<nat>)
    requires Known(v, instruments) && IsCurve(curve) && 0 <= SoundedNote(v, instruments) <= 95 - 12
    requires var instr := instruments[v.current_instr];
             var tuning := if v.current_instr_voice != 0 then instr.fine_tuning / 2 - 64 else 0;
             284 <= 64 + 32 * SoundedNote(v, instruments) + bend + tuning < 284 + 7 * 12 * 32
    ensures Frequency(v.(note := v.note + 12), instruments, bend, curve) == Frequency(v, instruments, bend, curve) + 0x400
  {}

  /** Fine tuning bends the second voice of an instrument; a value of 128 leaves it where the first voice would be. */
  lemma FineTuningBends(v: Voice, instruments: seq<Instrument>, bend: int, curve: seq<nat>)
    requires v.current_instr_voice == 1 && Known(v, instruments) && IsCurve(curve)
    requires var instr := instruments[v.current_instr];
             instr.Voice(0).base_note_offset == instr.Voice(1).base_note_offset
    ensures Frequency(v, instruments, bend, curve) ==
            Frequency(v.(current_instr_voice := 0), instruments, bend + instruments[v.current_instr].fine_tuning / 2 - 64, curve)
  {}

  /** A note out of range sounds like the one in the lowest or the highest octave of the same name. */
  lemma OutOfRangeNote(v: Voice, w: Voice, instruments: seq<Instrument>, bend: int, curve: seq<nat>)
    requires Known(v, instruments) && IsCurve(curve) && w == v.(note := w.note)
    requires (SoundedNote(w, instruments) - SoundedNote(v, instruments)) % 12 == 0
    requires if SoundedNote(v, instruments) < 0 then 0 <= SoundedNote(w, instruments) < 12
             else SoundedNote(v, instruments) > 95 && 84 <= SoundedNote(w, instruments) <= 95
    ensures Frequency(v, instruments, bend, curve) == Frequency(w, instruments, bend, curve)
  {}

  /** The writes of UpdateVoiceFrequency, with the key-on bit. */
  function SetFrequency(chip: seq<nat>, v: Voice, freq: nat): (r: seq<nat>)
    requires |chip| == OPL_REGISTERS && Fits(v)
    ensures |r| == OPL_REGISTERS
  {
    if v.freq == freq then chip
    else chip[OPL_REGS_FREQ_1 + v.index + v.bank := freq % 256][KeyRegister(v) := freq / 256 + 0x20]
  }

  lemma FrequencyIsSet(chip: seq<nat>, v: Voice, instruments: seq<Instrument>, freq: nat)
    requires InstrumentCoherent(v, chip, instruments) && freq < 0x2000 && (v.freq == freq ==> FrequencyHolds(v, chip))
    ensures var r, w := SetFrequency(chip, v, freq), v.(freq := freq);
            && InstrumentCoherent(w, r, instruments) && FrequencyHolds(w, r)
            && (v.freq != freq ==> r[KeyRegister(v)] == 0x20 + freq / 256)
  {
    hide CarrierLevel, ModulatorLevel, LoadedLevel;
    KeyRegisterApart(v);
  }

  lemma SetFrequencyElsewhere(chip: seq<nat>, v: Voice, freq: nat)
    requires |chip| == OPL_REGISTERS && Fits(v)
    ensures forall a: nat | a < OPL_REGISTERS && !Owns(v, a) :: SetFrequency(chip, v, freq)[a] == chip[a]
  {}

  /** A change to one voice and its own registers leaves the other voices coherent. */
  lemma OthersCoherent(voices: seq<Voice>, chip0: seq<nat>, chip1: seq<nat>, instruments: seq<Instrument>, n: nat,
                      i: nat, j: nat)
    requires AllPlaced(voices, n) && i < n && j < n && i != j && |chip0| == |chip1| == OPL_REGISTERS
    requires VoiceCoherent(voices[j], chip0, instruments)
    requires forall a: nat | a < OPL_REGISTERS && !Owns(voices[i], a) :: chip1[a] == chip0[a]
    ensures VoiceCoherent(voices[j], chip1, instruments)
    ensures chip1[KeyRegister(voices[j])] == chip0[KeyRegister(voices[j])]
  {
    assert Placed(voices[i], i) && Placed(voices[j], j);
    forall r: nat | r < OPL_REGISTERS && Owns(voices[j], r)
      ensures chip0[r] == chip1[r]
    {
      OwnersApart(voices[i], i, voices[j], j, r);
    }
    SameRegistersCoherent(voices[j], chip0, chip1, instruments);
    assert Owns(voices[j], KeyRegister(voices[j]));
  }

  // ---------- Programming one voice ----------

  /** Only registers of the voice differ. */
  ghost predicate OnlyOwn(v: Voice, chip0: seq<nat>, chip1: seq<nat>) {
    |chip0| == |chip1| == OPL_REGISTERS && forall a: nat | a < OPL_REGISTERS && !Owns(v, a) :: chip1[a] == chip0[a]
  }

  /** Programming a voice does not move it in the table or change who it plays for. */
  predicate SamePlace(v: Voice, w: Voice) {
    w.index == v.index && w.op1 == v.op1 && w.op2 == v.op2 && w.bank == v.bank && w.channel == v.channel
  }

  /** Every voice but i is coherent. */
  ghost predicate CoherentBut(voices: seq<Voice>, chip: seq<nat>, instruments: seq<Instrument>, n: nat, i: nat)
    requires n <= |voices|
  {
    forall j: nat | j < n && j != i :: VoiceCoherent(voices[j], chip, instruments)
  }

  lemma ProgrammingKeeps(voices: seq<Voice>, chip0: seq<nat>, free: seq<nat>, instruments: seq<Instrument>, n: nat,
                         i: nat, w: Voice, chip1: seq<nat>)
    requires AllPlaced(voices, n) && InRange(voices, |chip0|) && Consistent(voices, chip0, free, n) && i < n
    requires i !in free
    requires SamePlace(voices[i], w) && w.freq < 0x2000 && OnlyOwn(voices[i], chip0, chip1)
    ensures var after := voices[i := w];
            AllPlaced(after, n) && InRange(after, |chip1|) && Consistent(after, chip1, free, n)
  {
    var after := voices[i := w];
    forall j: nat | j < n
      ensures Placed(after[j], j) && KeyRegister(after[j]) == KeyRegister(voices[j])
      ensures j != i ==> chip1[KeyRegister(voices[j])] == chip0[KeyRegister(voices[j])]
    {
      assert Placed(voices[j], j) && Placed(voices[i], i);
      if j != i {
        OwnersApart(voices[i], i, voices[j], j, KeyRegister(voices[j]));
      }
    }
    hide Placed;
    forall j: nat | j < n
      ensures VoiceConsistent(after, chip1, free, j)
    {
      assert VoiceConsistent(voices, chip0, free, j);
    }
  }

  lemma ProgrammingKeepsOthers(voices: seq<Voice>, chip0: seq<nat>, instruments: seq<Instrument>, n: nat,
                               i: nat, w: Voice, chip1: seq<nat>)
    requires AllPlaced(voices, n) && i < n && OnlyOwn(voices[i], chip0, chip1)
    requires CoherentBut(voices, chip0, instruments, n, i)
    ensures CoherentBut(voices[i := w], chip1, instruments, n, i)
    ensures forall j: nat | j < n && j != i :: KeyRegister(voices[j]) < OPL_REGISTERS
              && chip1[KeyRegister(voices[j])] == chip0[KeyRegister(voices[j])]
  {
    forall j: nat | j < n && j != i
      ensures VoiceCoherent(voices[j], chip1, instruments)
      ensures KeyRegister(voices[j]) < OPL_REGISTERS && chip1[KeyRegister(voices[j])] == chip0[KeyRegister(voices[j])]
    {
      KeyRegistersApart(voices, n, j, i);
      OthersCoherent(voices, chip0, chip1, instruments, n, i, j);
    }
  }

  lemma OnlyNothing(v: Voice, chip: seq<nat>)
    requires |chip| == OPL_REGISTERS
    ensures OnlyOwn(v, chip, chip)
  {}

  /** A voice just after SetVoiceInstrument wrote its instrument. */
  function WithInstrument(v: Voice, instruments: seq<Instrument>, instr: nat, n: nat): Voice
    requires instr < |instruments| && n < 2
  {
    var patch := instruments[instr].Voice(n);
    v.(current_instr := instr, current_instr_voice := n, reg_volume := UNKNOWN_VOLUME,
       priority := 0x0f - patch.carrier.attack / 16 + 0x0f - patch.carrier.sustain % 16)
  }

  lemma LoadPatchCoherent(chip: seq<nat>, v: Voice, instruments: seq<Instrument>, instr: nat, n: nat)
    requires |chip| == OPL_REGISTERS && Fits(v) && instr < |instruments| && n < 2
    ensures var r := LoadPatch(chip, v, instruments[instr].Voice(n));
            InstrumentCoherent(WithInstrument(v, instruments, instr, n), r, instruments) && OnlyOwn(v, chip, r)
  {
    hide LoadPatch, OperatorHolds, Owns, LoadedLevel;
    LoadPatchHolds(chip, v, instruments[instr].Voice(n));
    LoadPatchElsewhere(chip, v, instruments[instr].Voice(n));
  }

  lemma SetLevelsOnlyOwn(chip: seq<nat>, v: Voice, patch: Patch, car: nat)
    requires |chip| == OPL_REGISTERS && Fits(v)
    ensures OnlyOwn(v, chip, SetLevels(chip, v, patch, car))
  {
    SetLevelsElsewhere(chip, v, patch, car);
  }

  lemma SetFrequencyOnlyOwn(chip: seq<nat>, v: Voice, freq: nat)
    requires |chip| == OPL_REGISTERS && Fits(v)
    ensures OnlyOwn(v, chip, SetFrequency(chip, v, freq))
  {
    SetFrequencyElsewhere(chip, v, freq);
  }

  /** The level registers of a voice hold what its patch wants at carrier volume car. */
  predicate SoundsAt(v: Voice, chip: seq<nat>, instruments: seq<Instrument>, car: nat) {
    && |chip| == OPL_REGISTERS && Fits(v) && Known(v, instruments)
    && chip[OPL_REGS_LEVEL + v.op2 + v.bank] == CarrierLevel(PatchOf(v, instruments), car)
    && chip[OPL_REGS_LEVEL + v.op1 + v.bank] == ModulatorLevel(PatchOf(v, instruments), car)
  }

  lemma FrequencyKeepsSound(v: Voice, chip: seq<nat>, instruments: seq<Instrument>, car: nat, freq: nat)
    requires SoundsAt(v, chip, instruments, car)
    ensures SoundsAt(v.(freq := freq), SetFrequency(chip, v, freq), instruments, car)
  {
    hide CarrierLevel, ModulatorLevel;
  }
}
