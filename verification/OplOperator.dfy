/** struct Operator of opl/dbopl.c: register handlers, key events and samples. The envelope fields are
    state, volume and rateIndex; frequency and waveform arithmetic is reduced to the phase counter and an
    arbitrary waveform. */
module OplOperator {
  import opened OplEnvelope
  import opened OplSynth

  type Byte = b: int | 0 <= b < 256

  // The bits MASK_KSR, MASK_SUSTAIN and MASK_TREMOLO of register 20.

  predicate KsrFlag(value: Byte) { value / 0x10 % 2 == 1 }
  predicate SustainFlag(value: Byte) { value / 0x20 % 2 == 1 }
  predicate TremoloFlag(value: Byte) { value / 0x80 % 2 == 1 }

  /** The 32-bit chanData word: the frequency bits are not needed, the key code and key scale level are. */
  datatype ChanData = ChanData(kslBase: nat, keyCode: nat) {
    predicate Valid() { kslBase < 256 && keyCode < 16 }
  }

  /** The rate tables of the chip: arbitrary values in range. */
  datatype RateTables = RateTables(linearRates: seq<nat>, attackRates: seq<nat>) {
    ghost predicate Valid() {
      && |linearRates| == 76 && |attackRates| == 76
      && forall i | 0 <= i < 76 :: linearRates[i] < RATE_LIMIT && attackRates[i] < RATE_LIMIT
    }

    /** A nonzero decay or release rate moves the envelope. */
    ghost predicate Moving() {
      Valid() && forall i | 4 <= i < 76 :: linearRates[i] > 0
    }
  }

  /** KslShiftTable, as a divisor; a shift by 31 leaves nothing of a byte. */
  function KslShift(ksl: int): int
    requires 0 <= ksl < 4
  {
    if ksl == 0 then 0x8000_0000 else if ksl == 1 then 2 else if ksl == 2 then 4 else 1
  }

  // ---------- What the registers determine ----------

  function KsrOf(reg20: Byte, data: ChanData): nat {
    if KsrFlag(reg20) then data.keyCode else data.keyCode / 4
  }

  function TotalLevelOf(reg40: Byte, data: ChanData): int {
    reg40 % 64 * 4 + data.kslBase / KslShift(reg40 / 64)
  }

  function SustainLevelOf(reg80: Byte): int {
    if reg80 / 16 == 15 then 31 * 16 else reg80 / 16 * 16
  }

  /** A rate register nibble selects a table entry, shifted by the key scale rate; zero stops the phase. */
  function RateOf(table: seq<nat>, rate: int, ksr: nat): nat
    requires |table| == 76 && 0 <= rate < 16 && ksr < 16
  {
    if rate == 0 then 0 else table[rate * 4 + ksr]
  }

  /** Each step of the level register attenuates by four. Of the key scale level, the two bits above choose nothing, a
      half, a quarter or all of it. The sustain register has steps of 16, and its last step is 496. The key code counts
      in full with the key scale flag, and by octaves without it. */
  lemma RegisterBits(x: Byte, data: ChanData, high: nat, low: nat)
    requires x < 64 && data.Valid() && high < 16 && low < 16
    ensures TotalLevelOf(x, data) == 4 * x
    ensures TotalLevelOf(64 + x, data) == 4 * x + data.kslBase / 2
    ensures TotalLevelOf(128 + x, data) == 4 * x + data.kslBase / 4
    ensures TotalLevelOf(192 + x, data) == 4 * x + data.kslBase
    ensures SustainLevelOf(16 * high + low) == if high < 15 then 16 * high else 496
    ensures KsrOf(16 * high + low, data) == if high % 2 == 1 then data.keyCode else data.keyCode / 4
  {
    assert (16 * high + low) / 16 == high;
  }

  lemma SameKsl(reg40: Byte, previous: ChanData, data: ChanData)
    requires previous.Valid() && data.Valid()
    ensures previous.kslBase == data.kslBase ==> TotalLevelOf(reg40, previous) == TotalLevelOf(reg40, data)
    ensures previous.keyCode == data.keyCode ==> forall reg20 :: KsrOf(reg20, previous) == KsrOf(reg20, data)
  {}

  class Operator {
    const waveForm: (int, int) -> int

    var state: Phase
    var volume: int
    var rateIndex: int
    var sustainLevel: int
    var totalLevel: int
    var currentLevel: int
    var attackAdd: nat
    var decayAdd: nat
    var releaseAdd: nat
    /** The phases whose bit is set in the source's rateZero mask. */
    var rateZero: set<Phase>
    /** The mask bits of the source's keyOn byte. */
    var keyOn: set<Byte>
    var reg20: Byte
    var reg40: Byte
    var reg60: Byte
    var reg80: Byte
    var tremolo: bool
    var ksr: nat
    var chanData: ChanData
    var waveIndex: nat
    var waveCurrent: nat

    ghost function Env(): Envelope
      reads this`state, this`volume, this`rateIndex
    {
      Envelope(state, volume, rateIndex)
    }

    ghost function RatesNow(): Rates
      reads this`attackAdd, this`decayAdd, this`releaseAdd, this`sustainLevel, this`reg20
    {
      Rates(attackAdd, decayAdd, releaseAdd, sustainLevel, SustainFlag(reg20))
    }

    ghost function Now(): OpState
      reads this
    {
      OpState(Env(), RatesNow(), totalLevel, tremolo, currentLevel, waveIndex, waveCurrent, waveForm)
    }

    lemma NowValid()
      requires Valid()
      ensures Now().Valid()
    {}

    /** What holds between any two calls. A set rateZero bit means that the phase does not change the
        volume; for SUSTAIN this also needs the sustain flag or a zero release rate. */
    ghost predicate Valid()
      reads this`state, this`volume, this`rateIndex, this`attackAdd, this`decayAdd, this`releaseAdd, this`sustainLevel
      reads this`reg20, this`totalLevel, this`currentLevel, this`ksr, this`chanData, this`rateZero
    {
      && RangesValid()
      && (SUSTAIN in rateZero ==> SustainFlag(reg20) || releaseAdd == 0)
    }

    ghost predicate RangesValid()
      reads this`state, this`volume, this`rateIndex, this`attackAdd, this`decayAdd, this`releaseAdd, this`sustainLevel
      reads this`reg20, this`totalLevel, this`currentLevel, this`ksr, this`chanData, this`rateZero
    {
      && Env().Valid() && RatesNow().Valid()
      && 0 <= totalLevel && 0 <= currentLevel && ksr < 16 && chanData.Valid()
      && OFF in rateZero
      && (ATTACK in rateZero ==> attackAdd == 0)
      && (DECAY in rateZero ==> decayAdd == 0)
      && (RELEASE in rateZero ==> releaseAdd == 0)
    }

    // The derived fields agree with the registers.

    ghost predicate AttackOk(chip: RateTables)
      requires chip.Valid()
      reads this`ksr, this`attackAdd, this`reg60, this`rateZero
    {
      && ksr < 16 && attackAdd == RateOf(chip.attackRates, reg60 / 16, ksr)
      && (ATTACK in rateZero <==> reg60 / 16 == 0)
    }

    ghost predicate DecayOk(chip: RateTables)
      requires chip.Valid()
      reads this`ksr, this`decayAdd, this`reg60, this`rateZero
    {
      && ksr < 16 && decayAdd == RateOf(chip.linearRates, reg60 % 16, ksr)
      && (DECAY in rateZero <==> reg60 % 16 == 0)
    }

    ghost predicate ReleaseOk(chip: RateTables)
      requires chip.Valid()
      reads this`ksr, this`releaseAdd, this`reg80, this`rateZero
    {
      && ksr < 16 && releaseAdd == RateOf(chip.linearRates, reg80 % 16, ksr)
      && (RELEASE in rateZero <==> reg80 % 16 == 0)
    }

    ghost predicate RatesOk(chip: RateTables)
      requires chip.Valid()
      reads this`ksr, this`attackAdd, this`decayAdd, this`releaseAdd, this`reg60, this`reg80, this`rateZero
    {
      AttackOk(chip) && DecayOk(chip) && ReleaseOk(chip)
    }

    ghost predicate SustainOk()
      reads this`rateZero, this`reg20, this`releaseAdd
    {
      SUSTAIN in rateZero <==> SustainFlag(reg20) || releaseAdd == 0
    }

    ghost predicate LevelsOk()
      reads this`totalLevel, this`reg40, this`chanData, this`sustainLevel, this`reg80
    {
      totalLevel == TotalLevelOf(reg40, chanData) && sustainLevel == SustainLevelOf(reg80)
    }

    /** Every derived field is what its registers say, although the handlers skip writes that change nothing. */
    ghost predicate Coherent(chip: RateTables)
      requires chip.Valid()
      reads this`ksr, this`attackAdd, this`decayAdd, this`releaseAdd, this`rateZero, this`reg20, this`reg40,
            this`reg60, this`reg80
      reads this`totalLevel, this`sustainLevel, this`chanData, this`tremolo
    {
      && RatesOk(chip) && SustainOk() && LevelsOk()
      && ksr == KsrOf(reg20, chanData) && tremolo == TremoloFlag(reg20)
    }

    /** Operator__Operator. The rate increments the source leaves unset are given arbitrary values. */
    constructor (waveForm: (int, int) -> int, attackAdd: nat, decayAdd: nat)
      requires attackAdd < RATE_LIMIT && decayAdd < RATE_LIMIT
      ensures Valid() && state == OFF && keyOn == {} && chanData == ChanData(0, 0) && ksr == KsrOf(reg20, chanData)
      ensures this.waveForm == waveForm
    {
      this.waveForm := waveForm;
      state, volume, rateIndex := OFF, ENV_MAX, 0;
      sustainLevel, totalLevel, currentLevel := ENV_MAX, ENV_MAX, ENV_MAX;
      this.attackAdd, this.decayAdd, releaseAdd := attackAdd, decayAdd, 0;
      rateZero, keyOn := {OFF}, {};
      reg20, reg40, reg60, reg80 := 0, 0, 0, 0;
      tremolo, ksr, chanData := false, 0, ChanData(0, 0);
      waveIndex, waveCurrent := 0, 0;
    }

    // ---------- Register handlers ----------

    method UpdateAttack(chip: RateTables)
      requires RangesValid() && chip.Valid()
      modifies this`attackAdd, this`rateZero
      ensures RangesValid() && AttackOk(chip)
      ensures old(DecayOk(chip)) ==> DecayOk(chip)
      ensures old(ReleaseOk(chip)) ==> ReleaseOk(chip)
      ensures SUSTAIN in rateZero <==> SUSTAIN in old(rateZero)
    {
      var rate := reg60 / 16;
      if rate != 0 {
        attackAdd := chip.attackRates[rate * 4 + ksr];
        rateZero := rateZero - {ATTACK};
      } else {
        attackAdd := 0;
        rateZero := rateZero + {ATTACK};
      }
    }

    method UpdateDecay(chip: RateTables)
      requires RangesValid() && chip.Valid()
      modifies this`decayAdd, this`rateZero
      ensures RangesValid() && DecayOk(chip)
      ensures old(AttackOk(chip)) ==> AttackOk(chip)
      ensures old(ReleaseOk(chip)) ==> ReleaseOk(chip)
      ensures SUSTAIN in rateZero <==> SUSTAIN in old(rateZero)
    {
      var rate := reg60 % 16;
      if rate != 0 {
        decayAdd := chip.linearRates[rate * 4 + ksr];
        rateZero := rateZero - {DECAY};
      } else {
        decayAdd := 0;
        rateZero := rateZero + {DECAY};
      }
    }

    /** Without the sustain flag this settles the SUSTAIN bit too; with it the bit is left alone. */
    method UpdateRelease(chip: RateTables)
      requires RangesValid() && chip.Valid()
      modifies this`releaseAdd, this`rateZero
      ensures RangesValid() && ReleaseOk(chip)
      ensures old(AttackOk(chip)) ==> AttackOk(chip)
      ensures old(DecayOk(chip)) ==> DecayOk(chip)
      ensures old(Valid()) ==> Valid()
      ensures old(SustainOk()) && chip.Moving() ==> SustainOk()
    {
      hide SustainFlag;
      var rate := reg80 % 16;
      if rate != 0 {
        releaseAdd := chip.linearRates[rate * 4 + ksr];
        rateZero := rateZero - {RELEASE};
        if !SustainFlag(reg20) {
          rateZero := rateZero - {SUSTAIN};
        }
      } else {
        rateZero := rateZero + {RELEASE};
        releaseAdd := 0;
        if !SustainFlag(reg20) {
          rateZero := rateZero + {SUSTAIN};
        }
      }
    }

    /** Operator__UpdateAttenuation. */
    method UpdateAttenuation()
      requires chanData.Valid()
      modifies this`totalLevel
      ensures 0 <= totalLevel == TotalLevelOf(reg40, chanData)
    {
      totalLevel := reg40 % 64 * 4;
      totalLevel := totalLevel + chanData.kslBase / KslShift(reg40 / 64);
    }

    /** Operator__UpdateRates: nothing to do when the key scale rate is the same. */
    method UpdateRates(chip: RateTables)
      requires RangesValid() && chip.Valid()
      modifies this`ksr, this`attackAdd, this`decayAdd, this`releaseAdd, this`rateZero
      ensures RangesValid() && ksr == KsrOf(reg20, chanData)
      ensures old(RatesOk(chip)) ==> RatesOk(chip)
      ensures old(Valid()) ==> Valid()
      ensures old(SustainOk() && RatesOk(chip)) && chip.Moving() ==> SustainOk()
    {
      hide SustainFlag, KsrFlag, AttackOk, DecayOk, ReleaseOk;
      var newKsr := chanData.keyCode;
      if !KsrFlag(reg20) {
        newKsr := newKsr / 4;
      }
      if ksr == newKsr {
        return;
      }
      ksr := newKsr;
      UpdateAttack(chip);
      UpdateDecay(chip);
      UpdateRelease(chip);
    }

    method Write20(chip: RateTables, val: Byte)
      requires Valid() && chip.Valid()
      modifies this`reg20, this`tremolo, this`ksr, this`attackAdd, this`decayAdd, this`releaseAdd, this`rateZero
      ensures Valid() && reg20 == val
      ensures old(reg20) != val ==> tremolo == TremoloFlag(val) && SustainOk()
      ensures old(ksr == KsrOf(reg20, chanData)) ==> ksr == KsrOf(reg20, chanData)
      ensures old(RatesOk(chip)) ==> RatesOk(chip)
      ensures old(Coherent(chip)) ==> Coherent(chip)
    {
      hide SustainFlag, KsrFlag, TremoloFlag, AttackOk, DecayOk, ReleaseOk, SustainOk;
      var old20 := reg20;
      if reg20 == val {
        return;
      }
      reg20 := val;
      tremolo := TremoloFlag(val);
      if KsrFlag(old20) != KsrFlag(val) {
        UpdateRates(chip);
      }
      SettleSustain(chip);
    }

    /** The last but one statement of Operator__Write20. */
    method SettleSustain(ghost chip: RateTables)
      requires RangesValid() && chip.Valid()
      modifies this`rateZero
      ensures Valid() && SustainOk()
      ensures old(RatesOk(chip)) ==> RatesOk(chip)
    {
      hide SustainFlag;
      if SustainFlag(reg20) || releaseAdd == 0 {
        rateZero := rateZero + {SUSTAIN};
      } else {
        rateZero := rateZero - {SUSTAIN};
      }
    }

    method Write40(val: Byte)
      requires Valid()
      modifies this`reg40, this`totalLevel
      ensures Valid() && reg40 == val
      ensures old(reg40) != val || old(totalLevel == TotalLevelOf(reg40, chanData)) ==> totalLevel == TotalLevelOf(reg40, chanData)
    {
      if reg40 == val {
        return;
      }
      reg40 := val;
      UpdateAttenuation();
    }

    method Write60(chip: RateTables, val: Byte)
      requires Valid() && chip.Valid()
      modifies this`reg60, this`attackAdd, this`decayAdd, this`rateZero
      ensures Valid() && reg60 == val
      ensures old(reg60) / 16 != val / 16 || old(AttackOk(chip)) ==> AttackOk(chip)
      ensures old(reg60) % 16 != val % 16 || old(DecayOk(chip)) ==> DecayOk(chip)
      ensures old(ReleaseOk(chip)) ==> ReleaseOk(chip)
      ensures old(SustainOk()) ==> SustainOk()
    {
      hide RateOf, SustainFlag;
      var old60 := reg60;
      reg60 := val;
      if old60 % 16 != val % 16 {
        UpdateDecay(chip);
      }
      if old60 / 16 != val / 16 {
        UpdateAttack(chip);
      }
    }

    method Write80(chip: RateTables, val: Byte)
      requires Valid() && chip.Valid()
      modifies this`reg80, this`sustainLevel, this`releaseAdd, this`rateZero
      ensures Valid() && reg80 == val
      ensures old(reg80) != val || old(sustainLevel == SustainLevelOf(reg80)) ==> sustainLevel == SustainLevelOf(reg80)
      ensures old(reg80) % 16 != val % 16 || old(ReleaseOk(chip)) ==> ReleaseOk(chip)
      ensures old(AttackOk(chip)) ==> AttackOk(chip)
      ensures old(DecayOk(chip)) ==> DecayOk(chip)
      ensures old(SustainOk()) && chip.Moving() ==> SustainOk()
    {
      hide SustainFlag;
      var old80 := reg80;
      if old80 == val {
        return;
      }
      reg80 := val;
      var sustain := val / 16;
      // Turn 0xf into 0x1f.
      if sustain == 15 {
        sustain := 31;
      }
      sustainLevel := sustain * 16;
      if old80 % 16 != val % 16 {
        UpdateRelease(chip);
      }
    }

    /** The operator's share of Channel__SetChanData; frequency is left out. */
    method SetChanData(chip: RateTables, data: ChanData)
      requires Valid() && chip.Valid() && data.Valid()
      modifies this`chanData, this`totalLevel, this`ksr, this`attackAdd, this`decayAdd, this`releaseAdd, this`rateZero
      ensures Valid() && chanData == data
      ensures old(Coherent(chip)) && chip.Moving() ==> Coherent(chip)
    {
      hide SustainFlag, KsrFlag, TremoloFlag, TotalLevelOf, SustainLevelOf, RateOf;
      var previous := chanData;
      chanData := data;
      SameKsl(reg40, previous, data);
      if previous.kslBase != data.kslBase {
        UpdateAttenuation();
      }
      if previous.keyCode != data.keyCode {
        UpdateRates(chip);
      }
    }

    /** What Chip__Setup does to each operator: every register written with 0xff and then with 0. This
        makes the derived fields coherent whatever the constructor left in them. */
    method ResetRegisters(chip: RateTables)
      requires Valid() && chip.Moving() && ksr == KsrOf(reg20, chanData)
      modifies this`reg20, this`tremolo, this`ksr, this`attackAdd, this`decayAdd, this`releaseAdd, this`rateZero,
               this`reg40, this`totalLevel, this`reg60, this`reg80, this`sustainLevel
      ensures Valid() && Coherent(chip) && reg20 == reg40 == reg60 == reg80 == 0
    {
      hide Operator.Valid, SustainFlag, KsrFlag, TremoloFlag, TotalLevelOf, SustainLevelOf, AttackOk, DecayOk,
           ReleaseOk, SustainOk;
      Write20(chip, 0xff);
      Write20(chip, 0);
      Write40(0xff);
      Write40(0);
      ResetEnvelope(chip);
    }

    method ResetEnvelope(chip: RateTables)
      requires Valid() && chip.Moving() && SustainOk()
      modifies this`reg60, this`attackAdd, this`decayAdd, this`reg80, this`sustainLevel, this`releaseAdd, this`rateZero
      ensures Valid() && RatesOk(chip) && SustainOk() && sustainLevel == SustainLevelOf(reg80) && reg60 == reg80 == 0
    {
      hide SustainFlag, SustainLevelOf, AttackOk, DecayOk, ReleaseOk, SustainOk;
      Write60(chip, 0xff);
      Write60(chip, 0);
      Write80(chip, 0xff);
      Write80(chip, 0);
    }

    // ---------- Key events ----------

    method KeyOn(mask: Byte, waveStart: nat)
      requires Valid()
      modifies this`keyOn, this`waveIndex, this`rateIndex, this`state
      ensures Valid() && keyOn == old(keyOn) + {mask} && volume == old(volume) && totalLevel == old(totalLevel)
      ensures Env() == if old(keyOn) == {} then Envelope(ATTACK, old(volume), 0) else old(Env())
      ensures waveIndex == if old(keyOn) == {} then waveStart else old(waveIndex)
      ensures RatesNow() == old(RatesNow())
    {
      if keyOn == {} {
        waveIndex := waveStart;
        rateIndex := 0;
        state := ATTACK;
      }
      keyOn := keyOn + {mask};
    }

    method KeyOff(mask: Byte)
      requires Valid()
      modifies this`keyOn, this`state
      ensures Valid() && keyOn == old(keyOn) - {mask} && totalLevel == old(totalLevel)
      ensures Env() == if keyOn == {} && old(state) != OFF then old(Env()).(phase := RELEASE) else old(Env())
      ensures RatesNow() == old(RatesNow())
    {
      keyOn := keyOn - {mask};
      if keyOn == {} {
        if state != OFF {
          state := RELEASE;
        }
      }
    }

    // ---------- Samples ----------

    /** Operator__RateForward. */
    method RateForward(add: nat) returns (ret: int)
      requires 0 <= rateIndex < RATE_ONE
      modifies this`rateIndex
      ensures ret == RateSteps(old(rateIndex), add) && rateIndex == RateRest(old(rateIndex), add)
    {
      rateIndex := rateIndex + add;
      ret := rateIndex / RATE_ONE;
      rateIndex := rateIndex % RATE_ONE;
    }

    // The arms of the switch in Operator__TemplateVolume.

    method AttackVolume() returns (vol: int)
      requires Valid() && state == ATTACK
      modifies this`state, this`volume, this`rateIndex
      ensures Valid() && Env() == Step(old(Env()), RatesNow()) && vol == volume
    {
      StepKeepsRange(Env(), RatesNow());
      vol := volume;
      var change := RateForward(attackAdd);
      if change == 0 {
        return;
      }
      vol := vol + (-(vol + 1) * change) / 8;
      if vol < ENV_MIN {
        volume := ENV_MIN;
        rateIndex := 0;
        state := DECAY;
        return ENV_MIN;
      }
      volume := vol;
    }

    method DecayVolume() returns (vol: int)
      requires Valid() && state == DECAY
      modifies this`state, this`volume, this`rateIndex
      ensures Valid() && Env() == Step(old(Env()), RatesNow()) && vol == volume
    {
      StepKeepsRange(Env(), RatesNow());
      vol := RateForward(decayAdd);
      vol := volume + vol;
      if vol >= sustainLevel {
        if vol >= ENV_MAX {
          volume := ENV_MAX;
          state := OFF;
          return ENV_MAX;
        }
        rateIndex := 0;
        state := SUSTAIN;
      }
      volume := vol;
    }

    method ReleaseVolume() returns (vol: int)
      requires Valid() && (state == RELEASE || (state == SUSTAIN && !SustainFlag(reg20)))
      modifies this`state, this`volume, this`rateIndex
      ensures Valid() && Env() == Step(old(Env()), RatesNow()) && vol == volume
    {
      StepKeepsRange(Env(), RatesNow());
      vol := RateForward(releaseAdd);
      vol := volume + vol;
      if vol >= ENV_MAX {
        volume := ENV_MAX;
        state := OFF;
        return ENV_MAX;
      }
      volume := vol;
    }

    /** Operator__TemplateVolume, called through the handler of the current phase. */
    method TemplateVolume() returns (vol: int)
      requires Valid()
      modifies this`state, this`volume, this`rateIndex
      ensures Valid() && Env() == Step(old(Env()), RatesNow()) && vol == volume
    {
      if state == OFF {
        vol := ENV_MAX;
      } else if state == ATTACK {
        vol := AttackVolume();
      } else if state == DECAY {
        vol := DecayVolume();
      } else if state == SUSTAIN && SustainFlag(reg20) {
        vol := volume;
      } else {
        vol := ReleaseVolume();
      }
    }

    /** The test of Operator__Silent. */
    ghost predicate IsSilent()
      reads this`totalLevel, this`volume, this`state, this`rateZero
    {
      OplEnvelope.Silent(totalLevel + volume) && state in rateZero
    }

    method Silent() returns (silent: bool)
      requires Valid()
      ensures silent <==> IsSilent()
    {
      silent := totalLevel + volume >= ENV_LIMIT && state in rateZero;
    }

    /** Inaudible until the next register write or key event. */
    ghost predicate Quiet()
      reads this`state, this`volume, this`rateIndex, this`attackAdd, this`decayAdd, this`releaseAdd, this`sustainLevel,
            this`reg20, this`totalLevel
    {
      OplEnvelope.Quiet(Env(), RatesNow(), totalLevel)
    }

    /** The test of the fast path is sound: it implies Quiet in every valid state. */
    lemma SilentIsQuiet()
      requires Valid() && IsSilent()
      ensures Quiet()
    {}

    /** Operator__Prepare; frequency is the phase increment after vibrato. */
    method Prepare(tremoloValue: nat, frequency: nat)
      requires Valid()
      modifies this`currentLevel, this`waveCurrent
      ensures Valid() && totalLevel <= currentLevel == totalLevel + if tremolo then tremoloValue else 0
      ensures Now() == old(Now()).Ready(tremoloValue, frequency)
    {
      currentLevel := totalLevel + if tremolo then tremoloValue else 0;
      waveCurrent := frequency;
    }

    /** Operator__GetSample. */
    method GetSample(modulation: int) returns (sample: int)
      requires Valid()
      modifies this`state, this`volume, this`rateIndex, this`waveIndex
      ensures Valid() && Now() == old(Now()).After(1) && sample == Now().Sound(modulation)
    {
      ghost var before := Now();
      OneMoreSample(before, 0);
      hide Step;
      var vol := TemplateVolume();
      vol := currentLevel + vol;
      waveIndex := (waveIndex + waveCurrent) % UINT_RANGE;
      if vol >= ENV_LIMIT {
        sample := 0;
      } else {
        sample := waveForm(waveIndex / WAVE_SH + modulation, vol);
      }
    }
  }
}
