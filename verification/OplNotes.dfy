/** The note player of src/i_oplmusic.c: what the MIDI events of a song do to the voices and to the chip. */
module OplNotes {
  import opened Lists
  import opened OplVoiceLists
  import opened OplVoices
  import opened OplRegisters

  const GENMIDI_NUM_INSTRS := 128
  const GENMIDI_NUM_PERCUSSION := 47

  /** opl_channel_data_t without pan. */
  datatype ChannelData = ChannelData(instrument: nat, volume: nat, volume_base: nat, bend: int)

  /** The tables compiled into the player or read from the GENMIDI lump. */
  datatype Tables = Tables(instruments: seq<Instrument>, curve: seq<nat>, volume_map: seq<nat>)
  {
    predicate Valid() {
      && |instruments| == GENMIDI_NUM_INSTRS + GENMIDI_NUM_PERCUSSION && IsCurve(curve)
      && |volume_map| == 128 && forall i | 0 <= i < 128 :: volume_map[i] <= 127
    }

    /** The carrier volume of SetVoiceVolume: louder is smaller. */
    function CarrierVolume(note_volume: nat, channel_volume: nat): (car: nat)
      requires Valid() && note_volume <= 127 && channel_volume <= 127
      ensures car < 64
    {
      VolumeBound(volume_map[note_volume], volume_map[channel_volume]);
      0x3f - volume_map[note_volume] * (2 * (volume_map[channel_volume] + 1)) / 512
    }
  }

  lemma VolumeBound(a: nat, b: nat)
    requires a <= 127 && b <= 127
    ensures 0 <= a * (2 * (b + 1)) / 512 <= 63
  {
    assert a * (2 * (b + 1)) <= 127 * (2 * (b + 1)) <= 127 * 256;
  }

  /** A louder note or a louder channel never gets a larger register value. Silence gets the largest one, and on a
      channel at full volume half of what the table gives for the note is taken off it. */
  lemma LouderIsSmaller(t: Tables, note0: nat, note1: nat, channel0: nat, channel1: nat)
    requires t.Valid() && note0 <= 127 && note1 <= 127 && channel0 <= 127 && channel1 <= 127
    requires t.volume_map[note0] <= t.volume_map[note1] && t.volume_map[channel0] <= t.volume_map[channel1]
    ensures t.CarrierVolume(note1, channel1) <= t.CarrierVolume(note0, channel0)
    ensures t.volume_map[note0] == 0 || t.volume_map[channel0] == 0 ==> t.CarrierVolume(note0, channel0) == 0x3f
    ensures t.volume_map[channel0] == 127 ==> t.CarrierVolume(note0, channel0) == 0x3f - t.volume_map[note0] / 2
    ensures t.volume_map[note0] == 127 && t.volume_map[channel0] == 127 ==> t.CarrierVolume(note0, channel0) == 0
  {
    FullVolume(t.volume_map[note0], t.volume_map[note1], t.volume_map[channel0], t.volume_map[channel1]);
  }

  lemma FullVolume(a0: nat, a1: nat, b0: nat, b1: nat)
    requires a0 <= a1 <= 127 && b0 <= b1 <= 127
    ensures a0 * (2 * (b0 + 1)) / 512 <= a1 * (2 * (b1 + 1)) / 512
    ensures a0 == 0 || b0 == 0 ==> a0 * (2 * (b0 + 1)) / 512 == 0
    ensures b0 == 127 ==> a0 * (2 * (b0 + 1)) / 512 == a0 / 2
  {
    if b0 == 0 {
      assert a0 * (2 * (b0 + 1)) == a0 * 2;
    }
    Products(a0, a1, 2 * (b0 + 1), 2 * (b1 + 1));
  }

  lemma Products(a0: nat, a1: nat, c0: nat, c1: nat)
    requires a0 <= a1 && c0 <= c1
    ensures a0 * c0 <= a1 * c1
  {
    assert a0 * c0 <= a1 * c0 <= a1 * c1;
  }

  /** Channel and volume bounds of every voice; the first driver without OPL3 never plays a second voice. */
  ghost predicate VoicesBounded(voices: seq<Voice>, n: nat, channels: nat, single: bool)
    requires n <= |voices|
  {
    forall i: nat | i < n ::
      voices[i].channel < channels && voices[i].note_volume <= 127 && (single ==> voices[i].current_instr_voice == 0)
  }

  ghost predicate ChannelsBounded(channels: seq<ChannelData>) {
    forall c | 0 <= c < |channels| :: channels[c].instrument < GENMIDI_NUM_INSTRS + GENMIDI_NUM_PERCUSSION
        && channels[c].volume <= 127
  }

  /** How many voices a note gets. */
  function VoicesStarted(double_voice: bool, ver: DriverVersion, opl3: bool, free: nat): nat {
    if !double_voice then 1
    else if ver == Doom2_1_666 || (ver == Doom1_1_666 && opl3) || free >= 2 then 2
    else 1
  }

  /** Which voice of the instrument each of them plays. The older drivers take the second one first; the first driver
      without OPL3 puts the first one in its place. */
  function PlayedVoices(double_voice: bool, ver: DriverVersion, opl3: bool, free: nat): seq<nat> {
    if VoicesStarted(double_voice, ver, opl3, free) == 1 then [0]
    else if ver == Doom_1_9 then [0, 1]
    else if ver == Doom1_1_666 && !opl3 then [0, 0]
    else [1, 0]
  }

  /** The first voice of the instrument is always played; the second one exactly by the second 1.666 driver, the first
      one in OPL3 mode, and the 1.9 driver if two voices were free. */
  lemma BothVoicesPlay(double_voice: bool, ver: DriverVersion, opl3: bool, free: nat)
    ensures |PlayedVoices(double_voice, ver, opl3, free)| == VoicesStarted(double_voice, ver, opl3, free)
    ensures 0 in PlayedVoices(double_voice, ver, opl3, free)
    ensures 1 in PlayedVoices(double_voice, ver, opl3, free) <==>
            double_voice && (ver == Doom2_1_666 || (ver == Doom1_1_666 && opl3) || (ver == Doom_1_9 && free >= 2))
  {}

  /** What a note asks of a voice. */
  datatype NoteStart = NoteStart(channel: nat, key: nat, note: nat, instr: nat, volume: nat)

  /** c is the channel of the song, among the sixteen of the track, that stands for a channel number: 9 and 15 change
      places, and any other number stands for itself. */
  predicate IsSongChannel(track: nat, number: nat, c: nat) {
    && 16 * track <= c < 16 * track + 16
    && (number == 9 ==> c == 16 * track + 15) && (number == 15 ==> c == 16 * track + 9)
    && (number != 9 && number != 15 ==> c == 16 * track + number)
  }

  /** MIDI and MUS disagree about the percussion channel. */
  function TrackChannel(track: nat, channel: nat): (c: nat)
    requires channel < 16
    ensures IsSongChannel(track, channel, c)
  {
    track * 16 + if channel == 9 then 15 else if channel == 15 then 9 else channel
  }

  lemma InitialCoherent(voices: seq<Voice>, chip: seq<nat>, instruments: seq<Instrument>, n: nat, channels: nat,
                      single: bool)
    requires n <= |voices| == 2 * OPL_NUM_VOICES && |chip| == OPL_REGISTERS
    requires forall i | 0 <= i < n :: voices[i] == Initial(i)
    ensures AllCoherent(voices, chip, instruments, n) && VoicesBounded(voices, n, channels, single)
  {
    forall i: nat | i < n
      ensures VoiceCoherent(voices[i], chip, instruments)
    {
      PlacedFits(Initial(i), i);
    }
  }

  /** The voices other than i, and the registers with their key-on bits, are the same in both states. */
  ghost predicate OthersSound(voices0: seq<Voice>, chip0: seq<nat>, voices1: seq<Voice>, chip1: seq<nat>, n: nat,
                      i: nat) {
    && n <= |voices0| == |voices1| && |chip0| == |chip1| == OPL_REGISTERS
    && forall j: nat | j < n && j != i ::
         && voices1[j] == voices0[j] && KeyRegister(voices0[j]) < OPL_REGISTERS
         && chip1[KeyRegister(voices0[j])] == chip0[KeyRegister(voices0[j])]
  }

  lemma OthersStillSound(voices: seq<Voice>, chip0: seq<nat>, instruments: seq<Instrument>, n: nat, i: nat, w: Voice,
                      chip1: seq<nat>)
    requires AllPlaced(voices, n) && i < n && OnlyOwn(voices[i], chip0, chip1)
    requires CoherentBut(voices, chip0, instruments, n, i)
    ensures OthersSound(voices, chip0, voices[i := w], chip1, n, i)
  {
    ProgrammingKeepsOthers(voices, chip0, instruments, n, i, w, chip1);
  }

  /** The frequency registers of the voice are the same on both chips. */
  predicate SameFrequencyRegisters(v: Voice, chip0: seq<nat>, chip1: seq<nat>) {
    && |chip0| == |chip1| == OPL_REGISTERS && Fits(v)
    && chip1[OPL_REGS_FREQ_1 + v.index + v.bank] == chip0[OPL_REGS_FREQ_1 + v.index + v.bank]
    && KeyRegister(v) < OPL_REGISTERS && chip1[KeyRegister(v)] == chip0[KeyRegister(v)]
  }

  lemma VolumeFacts(chip: seq<nat>, v: Voice, instruments: seq<Instrument>, volume: nat, car: nat)
    requires InstrumentCoherent(v, chip, instruments) && v.current_instr != NONE && car < 64
    ensures |chip| == OPL_REGISTERS && Fits(v) && Known(v, instruments)
    ensures var patch := PatchOf(v, instruments);
            var r, w := SetLevels(chip, v, patch, car), WithVolume(v, patch, volume, car);
            && InstrumentCoherent(w, r, instruments) && SoundsAt(w, r, instruments, car) && OnlyOwn(v, chip, r)
            && SameFrequencyRegisters(w, chip, r) && Known(w, instruments) && w.reg_volume == CarrierLevel(patch, car)
  {
    hide SetLevels, CarrierLevel, ModulatorLevel, OnlyOwn;
    CarrierLevelSplits(PatchOf(v, instruments), car);
    LevelsAreSet(chip, v, instruments, volume, car);
    SetLevelsOnlyOwn(chip, v, PatchOf(v, instruments), car);
  }

  /** Bit 0x20 of the key register. */
  predicate KeyIsOn(v: Voice, chip: seq<nat>) {
    KeyRegister(v) < |chip| && chip[KeyRegister(v)] / 0x20 % 2 == 1
  }

  lemma KnownFacts(chip: seq<nat>, v: Voice, instruments: seq<Instrument>)
    requires InstrumentCoherent(v, chip, instruments) && v.current_instr != NONE
    ensures |chip| == OPL_REGISTERS && Fits(v) && Known(v, instruments)
  {}

  lemma FrequencyFacts(chip: seq<nat>, v: Voice, instruments: seq<Instrument>, freq: nat)
    requires InstrumentCoherent(v, chip, instruments) && v.current_instr != NONE && 0 < freq < 0x2000
    requires Fits(v) && |chip| == OPL_REGISTERS && (v.freq == 0 || FrequencyHolds(v, chip))
    ensures var r, w := SetFrequency(chip, v, freq), v.(freq := freq);
            && InstrumentCoherent(w, r, instruments) && FrequencyHolds(w, r) && OnlyOwn(v, chip, r)
            && (v.freq == 0 ==> KeyIsOn(w, r)) && (v.freq == freq ==> r == chip && w == v)
  {
    hide InstrumentCoherent, OnlyOwn;
    FrequencyIsSet(chip, v, instruments, freq);
    SetFrequencyOnlyOwn(chip, v, freq);
    KeyRegisterApart(v);
  }

  lemma FrequencyIgnoresFreq(v: Voice, instruments: seq<Instrument>, bend: int, curve: seq<nat>, freq: nat)
    requires Known(v, instruments) && IsCurve(curve)
    ensures Frequency(v.(freq := freq), instruments, bend, curve) == Frequency(v, instruments, bend, curve)
  {}

  lemma TakenCoherent(voices: seq<Voice>, chip: seq<nat>, instruments: seq<Instrument>, n: nat, i: nat,
                      channel: nat, key: nat, note: nat, channels: nat, single: bool)
    requires n <= |voices| && AllCoherent(voices, chip, instruments, n) && AllPlaced(voices, n) && i < n
    requires |chip| == OPL_REGISTERS
    requires VoicesBounded(voices, n, channels, single) && channel < channels
    ensures var w := voices[i].(channel := channel, key := key, note := note);
            && CoherentBut(voices[i := w], chip, instruments, n, i) && InstrumentCoherent(w, chip, instruments)
            && VoicesBounded(voices[i := w], n, channels, single)
            && OthersSound(voices, chip, voices[i := w], chip, n, i)
  {
    assert VoiceCoherent(voices[i], chip, instruments);
    BoundedAt(voices, n, channels, single, i);
    hide Run;
    forall j: nat | j < n
      ensures KeyRegister(voices[j]) < OPL_REGISTERS
    {
      KeyRegistersApart(voices, n, j, j);
    }
  }

  lemma OthersSoundTwice(voices0: seq<Voice>, chip0: seq<nat>, voices1: seq<Voice>, chip1: seq<nat>,
                         voices2: seq<Voice>, chip2: seq<nat>, n: nat, i: nat)
    requires OthersSound(voices0, chip0, voices1, chip1, n, i) && OthersSound(voices1, chip1, voices2, chip2, n, i)
    ensures OthersSound(voices0, chip0, voices2, chip2, n, i)
  {}

  lemma SilentFrequency(v: Voice, chip: seq<nat>, instruments: seq<Instrument>)
    requires InstrumentCoherent(v, chip, instruments)
    ensures InstrumentCoherent(v.(freq := 0), chip, instruments)
  {}

  lemma SoundIgnoresFreq(v: Voice, chip: seq<nat>, instruments: seq<Instrument>, car: nat, freq: nat)
    requires SoundsAt(v, chip, instruments, car)
    ensures SoundsAt(v.(freq := freq), chip, instruments, car)
  {}

  lemma FreedWithin(t0: Table, t1: Table, run: seq<nat>, alloced: seq<nat>, n: nat)
    requires Freed(t0, t1, run) && Partition(t1.free, alloced, n)
    ensures Within(run, n)
  {
    PartitionFacts(t1.free, alloced, n);
    forall k | 0 <= k < |run|
      ensures run[k] < n
    {
      assert t1.free[|t0.free| + k] == run[k] && run[k] in t1.free;
    }
  }

  lemma FreedBounded(t0: Table, t1: Table, run: seq<nat>, n: nat, channels: nat, single: bool)
    requires n <= |t0.voices| && Freed(t0, t1, run) && VoicesBounded(t0.voices, n, channels, single)
    ensures |t1.voices| == |t0.voices| && VoicesBounded(t1.voices, n, channels, single)
  {
    forall i: nat | i < n
      ensures t1.voices[i].channel < channels && t1.voices[i].note_volume <= 127
      ensures (single ==> t1.voices[i].current_instr_voice == 0)
    {
      SilencedAt(t0.voices, run, i);
    }
  }

  lemma NoChannels(voices: seq<Voice>, n: nat, channels: nat, single: bool)
    requires n <= |voices| && VoicesBounded(voices, n, channels, single)
    requires forall i | 0 <= i < n :: voices[i].channel == NONE
    ensures VoicesBounded(voices, n, 0, single) && ChannelsBounded([])
  {}

  lemma FreeAreOff(voices: seq<Voice>, chip: seq<nat>, free: seq<nat>, n: nat)
    requires n <= |voices| && InRange(voices, |chip|) && Consistent(voices, chip, free, n)
    ensures forall i: nat | i < n :: (i in free <==> voices[i].channel == NONE) && (i in free ==> !KeyIsOn(voices[i], chip))
  {
    forall i: nat | i < n
      ensures (i in free <==> voices[i].channel == NONE) && (i in free ==> !KeyIsOn(voices[i], chip))
    {
      assert VoiceConsistent(voices, chip, free, i);
    }
  }

  lemma FreedCount(t0: Table, t1: Table, run: seq<nat>)
    requires Freed(t0, t1, run)
    ensures |t1.free| == |t0.free| + |run|
  {}

  /** Without second voices, or in the last driver, a run is a single voice. */
  lemma RunIsSingle(voices: seq<Voice>, rest: seq<nat>, ver: DriverVersion)
    requires rest != [] && Within(rest, |voices|) && (voices[rest[0]].current_instr_voice == 0 || ver == Doom_1_9)
    ensures Run(voices, rest, ver) == [rest[0]]
  {}

  lemma TableSizes(t: Tables)
    requires t.Valid()
    ensures |t.instruments| == GENMIDI_NUM_INSTRS + GENMIDI_NUM_PERCUSSION
  {}

  /** The carrier volume cached for a voice is the one its channel wants. */
  predicate IsCurrent(v: Voice, tables: Tables, channels: seq<ChannelData>) {
    && tables.Valid() && Known(v, tables.instruments)
    && 0 <= v.channel < |channels| && channels[v.channel].volume <= 127 && v.note_volume <= 127
    && v.reg_volume == CarrierLevel(PatchOf(v, tables.instruments), tables.CarrierVolume(v.note_volume, channels[v.channel].volume))
  }

  predicate IsTuned(v: Voice, tables: Tables, channels: seq<ChannelData>) {
    && IsCurve(tables.curve) && Known(v, tables.instruments) && 0 <= v.channel < |channels|
    && v.freq == Frequency(v, tables.instruments, channels[v.channel].bend, tables.curve)
  }

  /** The voice is set up for this note. */
  predicate IsFor(v: Voice, w: NoteStart, instr_voice: nat) {
    && v.channel == w.channel && v.key == w.key && v.note == w.note && v.note_volume == w.volume
    && v.current_instr == w.instr && v.current_instr_voice == instr_voice
  }

  /** Voice i is allocated to this note, keyed on, and has the volume and frequency it should have. */
  predicate KeyedFor(voices: seq<Voice>, chip: seq<nat>, free: seq<nat>, n: nat, i: nat, w: NoteStart, instr_voice: nat,
                     tables: Tables, channels: seq<ChannelData>) {
    && i < n <= |voices| && i !in free && IsFor(voices[i], w, instr_voice) && KeyIsOn(voices[i], chip)
    && IsCurrent(voices[i], tables, channels) && IsTuned(voices[i], tables, channels)
  }

  /** Programming another voice, the first free one, does not disturb a playing voice. */
  lemma StillKeyed(voices0: seq<Voice>, chip0: seq<nat>, free: seq<nat>, voices1: seq<Voice>, chip1: seq<nat>, n: nat,
                   i: nat, j: nat, w: NoteStart, instr_voice: nat, tables: Tables, channels: seq<ChannelData>)
    requires KeyedFor(voices0, chip0, free, n, i, w, instr_voice, tables, channels) && free != [] && j == free[0]
    requires OthersSound(voices0, chip0, voices1, chip1, n, j)
    ensures KeyedFor(voices1, chip1, free[1..], n, i, w, instr_voice, tables, channels) && i != j
  {
    hide IsFor, IsCurrent, IsTuned;
    assert j in free;
    assert i != j;
  }

  /** Different voices, each keyed on for the note with its voice of the instrument. */
  ghost predicate AllKeyed(voices: seq<Voice>, chip: seq<nat>, free: seq<nat>, n: nat, started: seq<nat>, w: NoteStart,
                           played: seq<nat>, tables: Tables, channels: seq<ChannelData>) {
    && |started| == |played| && NoDup(started)
    && forall k | 0 <= k < |started| :: KeyedFor(voices, chip, free, n, started[k], w, played[k], tables, channels)
  }

  lemma OneMoreKeyed(voices0: seq<Voice>, chip0: seq<nat>, free: seq<nat>, voices1: seq<Voice>, chip1: seq<nat>, n: nat,
                     started: seq<nat>, w: NoteStart, played: seq<nat>, instr_voice: nat, tables: Tables, channels: seq<ChannelData>)
    requires AllKeyed(voices0, chip0, free, n, started, w, played, tables, channels) && free != []
    requires OthersSound(voices0, chip0, voices1, chip1, n, free[0])
    requires KeyedFor(voices1, chip1, free[1..], n, free[0], w, instr_voice, tables, channels)
    ensures AllKeyed(voices1, chip1, free[1..], n, started + [free[0]], w, played + [instr_voice], tables, channels)
  {
    hide KeyedFor, OthersSound;
    var now, all := started + [free[0]], played + [instr_voice];
    forall k | 0 <= k < |now|
      ensures KeyedFor(voices1, chip1, free[1..], n, now[k], w, all[k], tables, channels)
      ensures (k < |started| ==> now[k] != free[0])
    {
      if k < |started| {
        StillKeyed(voices0, chip0, free, voices1, chip1, n, started[k], free[0], w, played[k], tables, channels);
      }
    }
  }

  /** Since t0 the voices of started were taken from the free list, in this order, and no other voice changed. */
  ghost predicate TookFree(t0: Table, t1: Table, n: nat, started: seq<nat>) {
    && OthersStay(t0, t1, n, started) && t0.free == started + t1.free && t1.alloced == t0.alloced + started
  }

  lemma OneMoreTaken(t0: Table, t1: Table, t2: Table, n: nat, started: seq<nat>)
    requires TookFree(t0, t1, n, started) && t1.free != []
    requires t2.free == t1.free[1..] && t2.alloced == t1.alloced + [t1.free[0]]
    requires OthersSound(t1.voices, t1.chip, t2.voices, t2.chip, n, t1.free[0])
    ensures TookFree(t0, t2, n, started + [t1.free[0]])
  {
    var now := started + [t1.free[0]];
    forall i: nat | i < n && i !in now
      ensures && t2.voices[i] == t0.voices[i] && KeyRegister(t0.voices[i]) < |t0.chip|
              && t2.chip[KeyRegister(t0.voices[i])] == t0.chip[KeyRegister(t0.voices[i])]
    {
      assert i !in started && i != t1.free[0];
    }
    hide KeyRegister;
  }

  lemma NoneTaken(t: Table, n: nat)
    requires n <= |t.voices| && InRange(t.voices, |t.chip|)
    ensures TookFree(t, t, n, [])
  {
    assert t.free == [] + t.free;
    hide KeyRegister;
  }

  // ---------- Voices in step with their channels ----------

  /** Every allocated voice has the volume and the frequency that its channel wants. */
  ghost predicate AllInStep(voices: seq<Voice>, tables: Tables, channels: seq<ChannelData>, n: nat)
    requires n <= |voices|
  {
    forall i: nat | i < n ::
      voices[i].channel != NONE ==> IsCurrent(voices[i], tables, channels) && IsTuned(voices[i], tables, channels)
  }

  lemma FreedInStep(t0: Table, t1: Table, run: seq<nat>, tables: Tables, channels: seq<ChannelData>, n: nat)
    requires n <= |t0.voices| && Freed(t0, t1, run) && AllInStep(t0.voices, tables, channels, n)
    ensures |t1.voices| == |t0.voices| && AllInStep(t1.voices, tables, channels, n)
  {
    hide IsCurrent, IsTuned;
    forall i: nat | i < n && t1.voices[i].channel != NONE
      ensures IsCurrent(t1.voices[i], tables, channels) && IsTuned(t1.voices[i], tables, channels)
    {
      SilencedAt(t0.voices, run, i);
    }
  }

  /** A voice that is in step, among others that stay as they are. */
  lemma StartedInStep(voices0: seq<Voice>, chip0: seq<nat>, voices1: seq<Voice>, chip1: seq<nat>, tables: Tables,
                      channels: seq<ChannelData>, n: nat, i: nat)
    requires OthersSound(voices0, chip0, voices1, chip1, n, i) && AllInStep(voices0, tables, channels, n) && i < n
    requires IsCurrent(voices1[i], tables, channels) && IsTuned(voices1[i], tables, channels)
    ensures AllInStep(voices1, tables, channels, n)
  {
    hide IsCurrent, IsTuned;
  }

  /** The volume of one channel changed, and its voices were updated. */
  lemma VolumeInStep(voices0: seq<Voice>, voices1: seq<Voice>, tables: Tables, channels0: seq<ChannelData>,
                     channels1: seq<ChannelData>, c: nat, n: nat)
    requires n <= |voices0| == |voices1| && c < |channels0| && AllInStep(voices0, tables, channels0, n)
    requires |channels1| == |channels0| && channels1 == channels0[c := channels1[c]]
    requires channels1[c].bend == channels0[c].bend
    requires forall j | 0 <= j < n ::
               && voices1[j] == voices0[j].(reg_volume := voices1[j].reg_volume)
               && (voices1[j].channel != c ==> voices1[j] == voices0[j])
    requires AllCurrent(voices1, tables, channels1, c, c + 1, n)
    ensures AllInStep(voices1, tables, channels1, n)
  {
    hide Tables.CarrierVolume, CarrierLevel;
    forall i: nat | i < n && voices1[i].channel != NONE
      ensures IsCurrent(voices1[i], tables, channels1) && IsTuned(voices1[i], tables, channels1)
    {
      assert voices0[i].channel != NONE;
      assert IsCurrent(voices0[i], tables, channels0) && IsTuned(voices0[i], tables, channels0);
    }
  }

  /** The bend of one channel changed, and its voices were updated. */
  lemma BendInStep(voices0: seq<Voice>, voices1: seq<Voice>, tables: Tables, channels0: seq<ChannelData>,
                   channels1: seq<ChannelData>, c: nat, n: nat)
    requires n <= |voices0| == |voices1| && c < |channels0| && AllInStep(voices0, tables, channels0, n)
    requires |channels1| == |channels0| && channels1 == channels0[c := channels1[c]]
    requires channels1[c].volume == channels0[c].volume
    requires forall j | 0 <= j < n ::
               && voices1[j] == voices0[j].(freq := voices1[j].freq)
               && (voices1[j].channel != c ==> voices1[j] == voices0[j])
               && (voices1[j].channel == c ==> IsTuned(voices1[j], tables, channels1))
    ensures AllInStep(voices1, tables, channels1, n)
  {
    hide Tables.CarrierVolume, CarrierLevel, Frequency;
    forall i: nat | i < n && voices1[i].channel != NONE
      ensures IsCurrent(voices1[i], tables, channels1) && IsTuned(voices1[i], tables, channels1)
    {
      assert voices0[i].channel != NONE;
      assert IsCurrent(voices0[i], tables, channels0) && IsTuned(voices0[i], tables, channels0);
    }
  }

  /** Playing voices do not care which instrument their channel will use next. */
  lemma InstrumentInStep(voices: seq<Voice>, tables: Tables, channels0: seq<ChannelData>, channels1: seq<ChannelData>,
                      n: nat)
    requires n <= |voices| && |channels1| == |channels0| && AllInStep(voices, tables, channels0, n)
    requires forall c | 0 <= c < |channels0| :: channels1[c].volume == channels0[c].volume && channels1[c].bend == channels0[c].bend
    ensures AllInStep(voices, tables, channels1, n)
  {
    hide Tables.CarrierVolume, CarrierLevel, Frequency;
  }

  /** With channel data d in place of c the voice would be played as loud and as high as before. */
  predicate SoundsTheSame(v: Voice, tables: Tables, c: ChannelData, d: ChannelData)
    requires tables.Valid() && Known(v, tables.instruments) && v.note_volume <= 127 && c.volume <= 127
    requires d.volume <= 127
  {
    && tables.CarrierVolume(v.note_volume, d.volume) == tables.CarrierVolume(v.note_volume, c.volume)
    && Frequency(v, tables.instruments, d.bend, tables.curve) == Frequency(v, tables.instruments, c.bend, tables.curve)
  }

  /** Every playing voice would sound the same if its channel had the data of a new one. */
  ghost predicate AllSoundTheSame(voices: seq<Voice>, tables: Tables, channels: seq<ChannelData>, n: nat,
                      fresh_data: ChannelData)
    requires n <= |voices| && AllInStep(voices, tables, channels, n) && fresh_data.volume <= 127
  {
    forall i: nat | i < n && voices[i].channel != NONE ::
      SoundsTheSame(voices[i], tables, channels[voices[i].channel], fresh_data)
  }

  lemma ResetVoice(v: Voice, tables: Tables, channels0: seq<ChannelData>, channels1: seq<ChannelData>,
                   fresh_data: ChannelData)
    requires IsCurrent(v, tables, channels0) && IsTuned(v, tables, channels0) && fresh_data.volume <= 127
    requires |channels1| == |channels0| && channels1[v.channel] == fresh_data
    ensures IsCurrent(v, tables, channels1) && IsTuned(v, tables, channels1) <==>
            SoundsTheSame(v, tables, channels0[v.channel], fresh_data)
  {
    hide Tables.CarrierVolume, Frequency;
  }

  /** Resetting all channels leaves the playing voices in step if and only if they would sound the same. */
  lemma ResetInStep(voices: seq<Voice>, tables: Tables, channels0: seq<ChannelData>, channels1: seq<ChannelData>,
                    n: nat,
                    fresh_data: ChannelData)
    requires n <= |voices| && AllInStep(voices, tables, channels0, n) && fresh_data.volume <= 127
    requires |channels1| == |channels0| && forall c | 0 <= c < |channels1| :: channels1[c] == fresh_data
    ensures AllInStep(voices, tables, channels1, n) <==> AllSoundTheSame(voices, tables, channels0, n, fresh_data)
  {
    hide SoundsTheSame;
    forall i: nat | i < n && voices[i].channel != NONE
      ensures IsCurrent(voices[i], tables, channels1) && IsTuned(voices[i], tables, channels1) <==>
              SoundsTheSame(voices[i], tables, channels0[voices[i].channel], fresh_data)
    {
      ResetVoice(voices[i], tables, channels0, channels1, fresh_data);
    }
  }

  lemma CurrentIgnoresFreq(v: Voice, tables: Tables, channels: seq<ChannelData>, freq: nat)
    requires IsCurrent(v, tables, channels)
    ensures IsCurrent(v.(freq := freq), tables, channels)
  {}

  predicate Pauses(v: Voice) { v.channel != NONE && v.current_instr < GENMIDI_NUM_INSTRS }

  /** Keying off a voice that stays allocated keeps the table and the caches coherent. */
  lemma KeyOffKeeps(voices: seq<Voice>, chip: seq<nat>, free: seq<nat>, instruments: seq<Instrument>, n: nat, i: nat)
    requires AllPlaced(voices, n) && InRange(voices, |chip|) && Consistent(voices, chip, free, n)
    requires AllCoherent(voices, chip, instruments, n)
    requires i < n && voices[i].channel != NONE && |chip| == OPL_REGISTERS
    ensures KeyRegister(voices[i]) < |chip|
    ensures var after := chip[KeyRegister(voices[i]) := voices[i].freq / 256];
            && Consistent(voices, after, free, n) && AllCoherent(voices, after, instruments, n) && !KeyIsOn(voices[i], after)
            && forall j: nat | j < n && j != i :: KeyIsOn(voices[j], after) == KeyIsOn(voices[j], chip)
  {
    hide VoiceCoherent, Owns, OnlyOwn, KeyIsOn, Placed;
    var after := chip[KeyRegister(voices[i]) := voices[i].freq / 256];
    assert VoiceConsistent(voices, chip, free, i) && VoiceCoherent(voices[i], chip, instruments);
    KeyOffCoherent(voices[i], chip, instruments);
    ProgrammingKeeps(voices, chip, free, instruments, n, i, voices[i], after);
    assert voices[i := voices[i]] == voices;
    forall j: nat | j < n && j != i
      ensures VoiceCoherent(voices[j], after, instruments) && KeyIsOn(voices[j], after) == KeyIsOn(voices[j], chip)
    {
      assert VoiceCoherent(voices[j], chip, instruments);
      OthersOn(voices, chip, after, instruments, n, i, j);
    }
  }

  lemma OthersOn(voices: seq<Voice>, chip0: seq<nat>, chip1: seq<nat>, instruments: seq<Instrument>, n: nat, i: nat,
                 j: nat)
    requires AllPlaced(voices, n) && i < n && j < n && i != j && OnlyOwn(voices[i], chip0, chip1)
    requires VoiceCoherent(voices[j], chip0, instruments)
    ensures VoiceCoherent(voices[j], chip1, instruments) && KeyIsOn(voices[j], chip1) == KeyIsOn(voices[j], chip0)
  {
    OthersCoherent(voices, chip0, chip1, instruments, n, i, j);
    hide VoiceCoherent;
  }

  lemma KeyOffCoherent(v: Voice, chip: seq<nat>, instruments: seq<Instrument>)
    requires VoiceCoherent(v, chip, instruments) && v.channel != NONE && v.freq < 0x2000
    ensures KeyRegister(v) < |chip|
    ensures var after := chip[KeyRegister(v) := v.freq / 256];
            OnlyOwn(v, chip, after) && VoiceCoherent(v, after, instruments) && !KeyIsOn(v, after)
  {
    KeyRegisterApart(v);
    SilentCoherent(v, chip, v.freq / 256, instruments);
  }

  ghost predicate AllCurrent(voices: seq<Voice>, tables: Tables, channels: seq<ChannelData>, c0: nat, c1: nat, n: nat)
    requires n <= |voices|
  {
    forall i: nat | i < n :: c0 <= voices[i].channel < c1 ==> IsCurrent(voices[i], tables, channels)
  }

  lemma SameFrequencyHolds(v: Voice, w: Voice, chip0: seq<nat>, chip1: seq<nat>, instruments: seq<Instrument>)
    requires InstrumentCoherent(v, chip0, instruments) && FrequencyHolds(v, chip0)
    requires SameFrequencyRegisters(w, chip0, chip1)
    requires w.index == v.index && w.bank == v.bank && w.freq == v.freq
    ensures FrequencyHolds(w, chip1)
  {}

  lemma BoundedStill(voices: seq<Voice>, n: nat, channels: nat, single: bool, i: nat, w: Voice)
    requires n <= |voices| && VoicesBounded(voices, n, channels, single) && i < n
    requires w.channel < channels && w.note_volume <= 127 && (single ==> w.current_instr_voice == 0)
    ensures VoicesBounded(voices[i := w], n, channels, single)
  {}

  lemma BoundedAt(voices: seq<Voice>, n: nat, channels: nat, single: bool, i: nat)
    requires n <= |voices| && VoicesBounded(voices, n, channels, single) && i < n
    ensures voices[i].channel < channels && voices[i].note_volume <= 127
    ensures (single ==> voices[i].current_instr_voice == 0)
  {}

  const MIDI_CHANNELS_PER_TRACK := 16

  datatype MidiEvent =
    | NoteOff(channel: nat, key: nat)
    | NoteOn(channel: nat, key: nat, volume: nat)
    | MainVolume(channel: nat, volume: nat)
    | AllNotesOffEvent(channel: nat)
    | ProgramChange(channel: nat, instrument: nat)
    | PitchBend(channel: nat, value: nat)

  /** Channel numbers have four bits; note volumes and instruments index tables without a check. */
  predicate EventOk(e: MidiEvent) {
    && e.channel < 16 && (e.NoteOn? ==> e.volume < 128)
    && (e.ProgramChange? ==> e.instrument < GENMIDI_NUM_INSTRS + GENMIDI_NUM_PERCUSSION)
  }

  lemma TrackFits(track: nat, num_tracks: nat)
    requires track < num_tracks
    ensures track * MIDI_CHANNELS_PER_TRACK + MIDI_CHANNELS_PER_TRACK <= num_tracks * MIDI_CHANNELS_PER_TRACK
  {}

  /** InitChannel: the music volume, but no more than the base volume of 100. */
  function NewChannel(music_volume: nat): ChannelData {
    ChannelData(0, if music_volume > 100 then 100 else music_volume, 100, 0)
  }

  function Repeat(c: ChannelData, n: nat): (channels: seq<ChannelData>)
    ensures |channels| == n && forall i | 0 <= i < n :: channels[i] == c
  {
    if n == 0 then [] else Repeat(c, n - 1) + [c]
  }

  /** The state of the song outside the voices. */
  datatype Song = Song(channels: seq<ChannelData>, music_volume: nat, start_volume: nat)

  /** What an event changes in the data of its own channel. */
  predicate ChannelChanges(event: MidiEvent, before: ChannelData, after: ChannelData, music_volume: nat,
                      start_volume: nat) {
    match event
    case MainVolume(_, volume) =>
      && after == before.(volume_base := volume, volume := after.volume)
      && after.volume <= volume && after.volume <= music_volume && after.volume <= start_volume
      && (after.volume == volume || after.volume == music_volume || after.volume == start_volume)
    case ProgramChange(_, instrument) => after == before.(instrument := instrument)
    case PitchBend(_, value) => after == before.(bend := value - 64)
    case _ => after == before
  }

  /** What a new music volume changes in channel c: the base volume only on the last channel of each track. */
  predicate VolumeChanges(c: nat, volume: nat, before: ChannelData, after: ChannelData) {
    var base := if c % 16 == 15 then volume else before.volume_base;
    after == before.(volume_base := base, volume := if base < volume then base else volume)
  }

  /** What a step changes outside the voices. */
  ghost predicate Changes(step: PlayerStep, before: Song, after: Song) {
    match step
    case TrackEvent(track, event) =>
      && after == before.(channels := after.channels) && |after.channels| == |before.channels|
      && forall c | 0 <= c < |after.channels| ::
           if IsSongChannel(track, event.channel, c)
           then ChannelChanges(event, before.channels[c], after.channels[c], before.music_volume, before.start_volume)
           else after.channels[c] == before.channels[c]
    case MusicVolume(volume) =>
      && after == Song(after.channels, volume, before.start_volume) && |after.channels| == |before.channels|
      && (volume == before.music_volume ==> after == before)
      && (volume != before.music_volume ==>
            forall c: nat | c < |after.channels| :: VolumeChanges(c, volume, before.channels[c], after.channels[c]))
    case Restart =>
      && after == Song(after.channels, before.music_volume, before.music_volume)
      && |after.channels| == |before.channels| && AllNew(after.channels, before.music_volume)
    case Stop => after == before.(channels := [])
    case Start(num_tracks) =>
      && after == Song(after.channels, before.music_volume, before.music_volume)
      && |after.channels| == num_tracks * MIDI_CHANNELS_PER_TRACK && AllNew(after.channels, before.music_volume)
    case _ => after == before
  }

  /** Channels that start afresh: the first instrument, the music volume up to 100, and no bend. */
  ghost predicate AllNew(channels: seq<ChannelData>, music_volume: nat) {
    forall c | 0 <= c < |channels| ::
      && channels[c].instrument == 0 && channels[c].bend == 0 && channels[c].volume_base == 100
      && (music_volume <= 100 ==> channels[c].volume == music_volume) && (music_volume > 100 ==> channels[c].volume == 100)
  }

  /** What the music module is asked to do, and what the callbacks of its song do. */
  datatype PlayerStep =
    | TrackEvent(track: nat, event: MidiEvent)
    | Pause | Resume | MusicVolume(volume: nat)
    | Restart | Stop | Start(num_tracks: nat)

  /** Events belong to a track of the song, and a song is stopped before the next one starts. */
  predicate StepOk(step: PlayerStep, tracks: nat) {
    match step
    case TrackEvent(track, event) => track < tracks && EventOk(event)
    case MusicVolume(volume) => volume <= 127
    case Start(_) => tracks == 0
    case _ => true
  }

  function TracksAfter(step: PlayerStep, tracks: nat): nat {
    match step
    case Stop => 0
    case Start(num_tracks) => num_tracks
    case _ => tracks
  }

  predicate StepsOk(steps: seq<PlayerStep>, tracks: nat)
    decreases |steps|
  {
    steps == [] || (StepOk(steps[0], tracks) && StepsOk(steps[1..], TracksAfter(steps[0], tracks)))
  }

  /** No restart since the song was started. */
  predicate StaysInStep(steps: seq<PlayerStep>) {
    if steps == [] then true
    else
      var step := steps[|steps| - 1];
      step.Start? || step.Stop? || (!step.Restart? && StaysInStep(steps[..|steps| - 1]))
  }

  class NotePlayer {
    const table: VoiceTable
    const opl3mode: bool
    const tables: Tables
    var channels: seq<ChannelData>
    var current_music_volume: nat
    var start_music_volume: nat

    /** I_OPL_InitMusic with an OPL3 chip and the -opl3 option, or without. */
    constructor (ver: DriverVersion, opl3: bool, t: Tables)
      requires t.Valid()
      ensures Valid() && tables == t && opl3mode == opl3 && table.opl_drv_ver == ver && table.alloced == []
      ensures channels == []
      ensures current_music_volume == 127
      ensures fresh(table) && fresh(table.next) && fresh(table.voices) && fresh(table.chip)
    {
      hide VoiceTable.Valid, AllCoherent, VoicesBounded, Indices;
      table := new VoiceTable(ver, opl3);
      opl3mode, tables := opl3, t;
      channels, current_music_volume, start_music_volume := [], 127, 127;
      new;
      table.ValidLists();
      InitialCoherent(table.voices[..], table.chip[..], tables.instruments, table.num_opl_voices, |channels|, Single());
    }

    ghost predicate Single() {
      !opl3mode && table.opl_drv_ver == Doom1_1_666
    }

    ghost predicate Base()
      reads this, table, table.next, table.voices, table.chip
    {
      && table.Valid() && tables.Valid() && ChannelsBounded(channels)
      && current_music_volume <= 127 && start_music_volume <= 127
      && table.num_opl_voices == (if opl3mode then 2 * OPL_NUM_VOICES else OPL_NUM_VOICES)
      && table.num_opl_voices <= table.voices.Length
      && VoicesBounded(table.voices[..], table.num_opl_voices, |channels|, Single())
    }

    /** Between events: every cache of every voice is coherent with the chip. */
    ghost predicate Valid()
      reads this, table, table.next, table.voices, table.chip
    {
      Base() && AllCoherent(table.voices[..], table.chip[..], tables.instruments, table.num_opl_voices)
    }

    /** While an allocated voice is being programmed. */
    ghost predicate Programming(i: nat)
      reads this, table, table.next, table.voices, table.chip
    {
      && Base() && i < table.num_opl_voices && i !in table.free && table.voices[i].channel >= 0
      && CoherentBut(table.voices[..], table.chip[..], tables.instruments, table.num_opl_voices, i)
      && InstrumentCoherent(table.voices[i], table.chip[..], tables.instruments)
    }

    lemma StartProgramming(i: nat)
      requires Valid() && i < table.num_opl_voices && table.voices[i].channel >= 0
      ensures Programming(i) && table.voices[i].current_instr != NONE && FrequencyHolds(table.voices[i], table.chip[..])
    {
      hide VoicesBounded, ChannelsBounded, AllPlaced, InRange, VoiceTable.Lists, OperatorHolds, LevelsHold;
      assert VoiceConsistent(table.voices[..], table.chip[..], table.free, i);
      assert VoiceCoherent(table.voices[..][i], table.chip[..], tables.instruments);
    }

    lemma StopProgramming(i: nat)
      requires Programming(i) && table.voices[i].current_instr != NONE
      requires FrequencyHolds(table.voices[i], table.chip[..])
      ensures Valid()
    {
      assert VoiceCoherent(table.voices[..][i], table.chip[..], tables.instruments);
    }

    /** Everything that stays true when voice i and its registers change from the given state. */
    lemma Programmed(voices0: seq<Voice>, chip0: seq<nat>, i: nat)
      requires AllPlaced(voices0, table.num_opl_voices) && InRange(voices0, |chip0|)
      requires Consistent(voices0, chip0, table.free, table.num_opl_voices)
      requires CoherentBut(voices0, chip0, tables.instruments, table.num_opl_voices, i)
      requires |chip0| == table.chip.Length == OPL_REGISTERS
      requires table.Lists() && tables.Valid() && ChannelsBounded(channels)
      requires current_music_volume <= 127 && start_music_volume <= 127
      requires table.num_opl_voices == (if opl3mode then 2 * OPL_NUM_VOICES else OPL_NUM_VOICES)
      requires i < table.num_opl_voices <= |voices0| == table.voices.Length && i !in table.free
      requires table.voices[..] == voices0[i := table.voices[i]] && SamePlace(voices0[i], table.voices[i])
      requires OnlyOwn(voices0[i], chip0, table.chip[..]) && table.voices[i].freq < 0x2000
      requires 0 <= table.voices[i].channel < |channels|
      requires VoicesBounded(voices0, table.num_opl_voices, |channels|, Single())
      requires table.voices[i].note_volume <= 127 && (Single() ==> table.voices[i].current_instr_voice == 0)
      requires InstrumentCoherent(table.voices[i], table.chip[..], tables.instruments)
      ensures Programming(i)
      ensures OthersSound(voices0, chip0, table.voices[..], table.chip[..], table.num_opl_voices, i)
    {
      hide AllPlaced, InRange, Consistent, CoherentBut, InstrumentCoherent, OnlyOwn, VoicesBounded, VoiceTable.Lists,
           ChannelsBounded, OthersSound;
      ProgrammingKeeps(voices0, chip0, table.free, tables.instruments, table.num_opl_voices, i, table.voices[i],
                       table.chip[..]);
      ProgrammingKeepsOthers(voices0, chip0, tables.instruments, table.num_opl_voices, i, table.voices[i],
                             table.chip[..]);
      OthersStillSound(voices0, chip0, tables.instruments, table.num_opl_voices, i, table.voices[i], table.chip[..]);
      BoundedStill(voices0, table.num_opl_voices, |channels|, Single(), i, table.voices[i]);
    }

    /** What programming a voice starts from, as facts about the arrays. */
    lemma ProgrammingFacts(i: nat)
      requires Programming(i)
      ensures AllPlaced(table.voices[..], table.num_opl_voices) && InRange(table.voices[..], |table.chip[..]|)
      ensures Consistent(table.voices[..], table.chip[..], table.free, table.num_opl_voices)
      ensures CoherentBut(table.voices[..], table.chip[..], tables.instruments, table.num_opl_voices, i)
      ensures table.chip.Length == OPL_REGISTERS
      ensures i < table.num_opl_voices <= table.voices.Length <= 2 * OPL_NUM_VOICES
      ensures table.Lists() && tables.Valid() && ChannelsBounded(channels)
      ensures current_music_volume <= 127 && start_music_volume <= 127
      ensures table.num_opl_voices == (if opl3mode then 2 * OPL_NUM_VOICES else OPL_NUM_VOICES) && i !in table.free
      ensures VoicesBounded(table.voices[..], table.num_opl_voices, |channels|, Single())
      ensures InstrumentCoherent(table.voices[i], table.chip[..], tables.instruments)
      ensures Fits(table.voices[i]) && table.voices[i].freq < 0x2000 && 0 <= table.voices[i].channel < |channels|
      ensures table.voices[i].note_volume <= 127 && (Single() ==> table.voices[i].current_instr_voice == 0)
      ensures channels[table.voices[i].channel].volume <= 127
    {
      hide InRange, CoherentBut, VoiceTable.Lists, Placed;
      table.ValidLists();
      assert VoiceConsistent(table.voices[..], table.chip[..], table.free, i);
      BoundedAt(table.voices[..], table.num_opl_voices, |channels|, Single(), i);
    }

    lemma ProgrammingIndex(i: nat)
      requires Programming(i)
      ensures i < table.num_opl_voices <= table.voices.Length && table.chip.Length == OPL_REGISTERS
      ensures tables.Valid() && table.voices[i].channel >= 0 && Fits(table.voices[i])
    {
      hide VoiceTable.Valid, Tables.Valid, ChannelsBounded, CoherentBut, VoicesBounded;
    }

    /** LoadOperatorData; op includes the bank. */
    method LoadOperatorData(op: nat, data: Operator, max_level: bool)
      requires table.chip.Length == OPL_REGISTERS && op < 0x116
      modifies table.chip
      ensures table.chip[..] == LoadOperator(old(table.chip[..]), op, data, max_level)
    {
      var level := TopBits(data.scale) + if max_level then 0x3f else data.level % 64;
      table.chip[OPL_REGS_LEVEL + op] := level;
      table.chip[OPL_REGS_TREMOLO + op] := data.tremolo;
      table.chip[OPL_REGS_ATTACK + op] := data.attack;
      table.chip[OPL_REGS_SUSTAIN + op] := data.sustain;
      table.chip[OPL_REGS_WAVEFORM + op] := data.waveform;
    }

    /** The part of SetVoiceInstrument that is skipped if the voice already has the instrument. */
    method WriteInstrument(i: nat, instr: nat, instr_voice: nat)
      requires i < table.voices.Length && Fits(table.voices[i]) && table.chip.Length == OPL_REGISTERS
      requires instr < |tables.instruments| && instr_voice < 2
      modifies table.voices, table.chip
      ensures table.voices[..] == old(table.voices[..])[i := WithInstrument(old(table.voices[i]), tables.instruments,
                instr, instr_voice)]
      ensures table.chip[..] == LoadPatch(old(table.chip[..]), old(table.voices[i]), tables.instruments[instr].Voice(instr_voice))
    {
      hide LoadOperator, TopBits;
      var v := table.voices[i];
      var data := tables.instruments[instr].Voice(instr_voice);
      var modulating := data.feedback % 2 == 0;
      table.voices[i] := v.(current_instr := instr, current_instr_voice := instr_voice);
      LoadOperatorData(v.op2 + v.bank, data.carrier, true);
      LoadOperatorData(v.op1 + v.bank, data.modulator, !modulating);
      table.chip[OPL_REGS_FEEDBACK + v.index + v.bank] := data.feedback;
      table.voices[i] := table.voices[i].(reg_volume := UNKNOWN_VOLUME,
                                          priority := 0x0f - data.carrier.attack / 16 + 0x0f - data.carrier.sustain % 16);
    }

    /** Programs the instrument, unless the voice already has it. */
    method SetVoiceInstrument(i: nat, instr: nat, instr_voice: nat)
      requires Programming(i) && instr < |tables.instruments| && instr_voice < 2 && (Single() ==> instr_voice == 0)
      modifies table.voices, table.chip
      ensures Programming(i)
      ensures OthersSound(old(table.voices[..]), old(table.chip[..]), table.voices[..], table.chip[..], table.num_opl_voices, i)
      ensures table.voices[i].current_instr == instr && table.voices[i].current_instr_voice == instr_voice
      ensures table.voices[i] == old(table.voices[i]).(current_instr := instr, current_instr_voice := instr_voice,
                                 reg_volume := table.voices[i].reg_volume, priority := table.voices[i].priority)
    {
      hide Programming, OthersSound, AllPlaced, InRange, Consistent, CoherentBut, VoicesBounded, VoiceTable.Lists,
           ChannelsBounded,
           InstrumentCoherent, OnlyOwn, LoadPatch;
      ProgrammingFacts(i);
      ghost var voices0, chip0, v := table.voices[..], table.chip[..], table.voices[i];
      OnlyNothing(v, chip0);
      if table.voices[i].current_instr != instr || table.voices[i].current_instr_voice != instr_voice {
        WriteInstrument(i, instr, instr_voice);
        LoadPatchCoherent(chip0, v, tables.instruments, instr, instr_voice);
      }
      Programmed(voices0, chip0, i);
    }

    /** The carrier volume a voice should have. */
    ghost function WantedVolume(i: nat, volume: nat): (car: nat)
      requires tables.Valid() && i < table.voices.Length && 0 <= table.voices[i].channel < |channels|
      requires volume <= 127 && channels[table.voices[i].channel].volume <= 127
      reads this`channels, table.voices
    {
      tables.CarrierVolume(volume, channels[table.voices[i].channel].volume)
    }

    /** Note volume times channel volume, as a register value: louder is smaller. */
    method MixVolume(note_volume: nat, channel_volume: nat) returns (car_volume: nat)
      requires tables.Valid() && note_volume <= 127 && channel_volume <= 127
      ensures car_volume == tables.CarrierVolume(note_volume, channel_volume)
    {
      var midi_volume := 2 * (tables.volume_map[channel_volume] + 1);
      var full_volume := tables.volume_map[note_volume] * midi_volume / 512;
      VolumeBound(tables.volume_map[note_volume], tables.volume_map[channel_volume]);
      car_volume := 0x3f - full_volume;
    }

    /** The writes of SetVoiceVolume, skipped when the cached value says so. */
    method WriteVolume(i: nat, volume: nat)
      requires tables.Valid() && i < table.voices.Length && Fits(table.voices[i]) && table.chip.Length == OPL_REGISTERS
      requires Known(table.voices[i], tables.instruments) && 0 <= table.voices[i].channel < |channels|
      requires volume <= 127 && channels[table.voices[i].channel].volume <= 127
      modifies table.voices, table.chip
      ensures var v, car := old(table.voices[i]), old(WantedVolume(i, volume));
              var patch := PatchOf(v, tables.instruments);
              && table.voices[..] == old(table.voices[..])[i := WithVolume(v, patch, volume, car)]
              && table.chip[..] == SetLevels(old(table.chip[..]), v, patch, car)
    {
      hide Tables.CarrierVolume, TopBits, Tables.Valid;
      table.voices[i] := table.voices[i].(note_volume := volume);
      var v := table.voices[i];
      var opl_voice := PatchOf(v, tables.instruments);
      var car_volume := MixVolume(v.note_volume, channels[v.channel].volume);
      if car_volume != v.reg_volume {
        table.voices[i] := v.(reg_volume := TopBits(opl_voice.carrier.scale) + car_volume);
        table.chip[OPL_REGS_LEVEL + v.op2 + v.bank] := table.voices[i].reg_volume;
        if opl_voice.feedback % 2 == 1 && opl_voice.modulator.level != 0x3f {
          var mod_volume := 0x3f - opl_voice.modulator.level;
          // Unsigned in the source: a level above 0x3f wraps to a large value.
          if mod_volume < 0 || mod_volume >= car_volume {
            mod_volume := car_volume;
          }
          table.chip[OPL_REGS_LEVEL + v.op1 + v.bank] := TopBits(opl_voice.modulator.scale) + mod_volume;
        }
      }
    }

    /** After SetVoiceVolume the level registers hold the wanted values, although the write may be skipped. */
    method SetVoiceVolume(i: nat, volume: nat)
      requires Programming(i) && table.voices[i].current_instr != NONE && volume <= 127
      modifies table.voices, table.chip
      ensures Programming(i) && 0 <= table.voices[i].channel < |channels|
      ensures channels[table.voices[i].channel].volume <= 127
      ensures SoundsAt(table.voices[i], table.chip[..], tables.instruments, WantedVolume(i, volume))
      ensures OthersSound(old(table.voices[..]), old(table.chip[..]), table.voices[..], table.chip[..], table.num_opl_voices, i)
      ensures Known(table.voices[i], tables.instruments)
      ensures table.voices[i] == old(table.voices[i]).(note_volume := volume,
                                 reg_volume := CarrierLevel(PatchOf(table.voices[i], tables.instruments), WantedVolume(i, volume)))
      ensures SameFrequencyRegisters(table.voices[i], old(table.chip[..]), table.chip[..])
    {
      hide Programming, OthersSound, AllPlaced, InRange, Consistent, CoherentBut, VoicesBounded, VoiceTable.Lists,
           ChannelsBounded,
           InstrumentCoherent, OnlyOwn, SetLevels, SoundsAt, Tables.Valid, Tables.CarrierVolume, Fits, Known;
      ProgrammingFacts(i);
      ghost var voices0, chip0, v := table.voices[..], table.chip[..], table.voices[i];
      ghost var car := WantedVolume(i, volume);
      VolumeFacts(chip0, v, tables.instruments, volume, car);
      WriteVolume(i, volume);
      Programmed(voices0, chip0, i);
    }

    /** Reads the curve, always inside it. */
    method FrequencyForVoice(i: nat) returns (freq: nat)
      requires tables.Valid() && i < table.voices.Length && Known(table.voices[i], tables.instruments)
      requires 0 <= table.voices[i].channel < |channels|
      ensures freq == Frequency(table.voices[i], tables.instruments, channels[table.voices[i].channel].bend, tables.curve)
    {
      var v := table.voices[i];
      var instr := tables.instruments[v.current_instr];
      var gm_voice := instr.Voice(v.current_instr_voice);
      var note: int := v.note;
      if !instr.fixed {
        note := note + gm_voice.base_note_offset;
      }
      note := MoveIntoRange(note);
      var freq_index := 64 + 32 * note + channels[v.channel].bend;
      if v.current_instr_voice != 0 {
        freq_index := freq_index + instr.fine_tuning / 2 - 64;
      }
      if freq_index < 0 {
        freq_index := 0;
      }
      if freq_index < 284 {
        return tables.curve[freq_index];
      }
      var sub_index := (freq_index - 284) % (12 * 32);
      var octave := (freq_index - 284) / (12 * 32);
      if octave >= 7 {
        octave := 7;
      }
      freq := tables.curve[sub_index + 284] + octave * 0x400;
    }

    /** The two loops that avoid an overflow due to the base note offset. */
    method MoveIntoRange(offset: int) returns (note: int)
      ensures note == ClampedNote(offset)
    {
      note := offset;
      while note < 0
        invariant (note - offset) % 12 == 0 && note >= offset && (note < 12 || note == offset)
        decreases -note
      {
        note := note + 12;
      }
      while note > 95
        invariant (note - offset) % 12 == 0 && note >= 0 && (offset < 0 ==> note < 12)
        invariant (offset >= 0 ==> note <= offset)
        invariant offset > 95 ==> note >= 84
        invariant 0 <= offset <= 95 ==> note == offset
      {
        note := note - 12;
      }
    }

    /** Keys the voice on with the frequency it should have; a voice that already has it is left alone. */
    method UpdateVoiceFrequency(i: nat)
      requires Programming(i) && table.voices[i].current_instr != NONE
      requires table.voices[i].freq == 0 || FrequencyHolds(table.voices[i], table.chip[..])
      modifies table.voices, table.chip
      ensures Programming(i) && FrequencyHolds(table.voices[i], table.chip[..])
      ensures old(table.voices[i]).freq == 0 ==> KeyIsOn(table.voices[i], table.chip[..])
      ensures 0 <= table.voices[i].channel < |channels| && Known(table.voices[i], tables.instruments)
      ensures IsCurve(tables.curve)
      ensures table.voices[i].freq == Frequency(table.voices[i], tables.instruments,
                channels[table.voices[i].channel].bend, tables.curve)
      ensures table.voices[i] == old(table.voices[i]).(freq := table.voices[i].freq)
      ensures table.chip[..] == SetFrequency(old(table.chip[..]), old(table.voices[i]), table.voices[i].freq)
      ensures OthersSound(old(table.voices[..]), old(table.chip[..]), table.voices[..], table.chip[..], table.num_opl_voices, i)
    {
      hide Programming, OthersSound, AllPlaced, InRange, Consistent, CoherentBut, VoicesBounded, VoiceTable.Lists,
           ChannelsBounded,
           InstrumentCoherent, OnlyOwn, Frequency;
      ProgrammingFacts(i);
      ghost var voices0, chip0, v := table.voices[..], table.chip[..], table.voices[i];
      KnownFacts(chip0, v, tables.instruments);
      var freq := FrequencyForVoice(i);
      FrequencyFacts(chip0, v, tables.instruments, freq);
      FrequencyIgnoresFreq(v, tables.instruments, channels[v.channel].bend, tables.curve, freq);
      if table.voices[i].freq != freq {
        WriteFrequency(i, freq);
      }
      Programmed(voices0, chip0, i);
    }

    method WriteFrequency(i: nat, freq: nat)
      requires i < table.voices.Length && Fits(table.voices[i]) && table.chip.Length == OPL_REGISTERS
      requires table.voices[i].freq != freq
      modifies table.voices, table.chip
      ensures table.voices[..] == old(table.voices[..])[i := old(table.voices[i]).(freq := freq)]
      ensures table.chip[..] == SetFrequency(old(table.chip[..]), old(table.voices[i]), freq)
    {
      var v := table.voices[i];
      table.chip[OPL_REGS_FREQ_1 + v.index + v.bank] := freq % 256;
      table.chip[OPL_REGS_FREQ_2 + v.index + v.bank] := freq / 256 + 0x20;
      table.voices[i] := v.(freq := freq);
    }

    /** A free voice with its channel and key stored, about to be programmed. */
    method StartVoice(channel: nat, key: nat, note: nat) returns (voice: int)
      requires Valid() && channel < |channels|
      modifies table, table.next, table.voices
      ensures voice == NONE <==> old(table.free) == []
      ensures voice == NONE ==> Valid() && table.Snapshot() == old(table.Snapshot())
      ensures voice != NONE ==>
                && voice == old(table.free)[0] && table.free == old(table.free)[1..] && Programming(voice)
                && table.alloced == old(table.alloced) + [old(table.free)[0]]
                && table.voices[voice].channel == channel && table.voices[voice].key == key && table.voices[voice].note == note
                && OthersSound(old(table.voices[..]), old(table.chip[..]), table.voices[..], table.chip[..],
                    table.num_opl_voices, voice)
    {
      hide AllPlaced, InRange, Consistent, CoherentBut, AllCoherent, VoicesBounded, VoiceTable.Lists, ChannelsBounded,
           VoiceTable.Valid,
           InstrumentCoherent, OthersSound, Linked, Partition, Tables.Valid;
      table.ValidLists();
      table.ValidArrays();
      ghost var voices0, chip0 := table.voices[..], table.chip[..];
      voice := table.TakeVoice(channel, key, note);
      if voice != NONE {
        TakenCoherent(voices0, chip0, tables.instruments, table.num_opl_voices, voice, channel, key, note, |channels|,
                      Single());
      }
    }

    method ClearFrequency(i: nat)
      requires Programming(i)
      modifies table.voices
      ensures Programming(i) && table.voices[i] == old(table.voices[i]).(freq := 0)
      ensures OthersSound(old(table.voices[..]), old(table.chip[..]), table.voices[..], table.chip[..], table.num_opl_voices, i)
    {
      hide Programming, OthersSound, AllPlaced, InRange, Consistent, CoherentBut, VoicesBounded, VoiceTable.Lists,
           ChannelsBounded,
           InstrumentCoherent, OnlyOwn;
      ProgrammingFacts(i);
      ghost var voices0, chip0 := table.voices[..], table.chip[..];
      OnlyNothing(table.voices[i], chip0);
      SilentFrequency(table.voices[i], chip0, tables.instruments);
      table.voices[i] := table.voices[i].(freq := 0);
      Programmed(voices0, chip0, i);
    }

    /** SetVoiceInstrument and SetVoiceVolume. */
    method ProgramSound(i: nat, instr: nat, instr_voice: nat, volume: nat)
      requires Programming(i) && instr < |tables.instruments| && instr_voice < 2 && volume <= 127
      requires (Single() ==> instr_voice == 0)
      modifies table.voices, table.chip
      ensures Programming(i) && 0 <= table.voices[i].channel < |channels|
      ensures channels[table.voices[i].channel].volume <= 127
      ensures table.voices[i].channel == old(table.voices[i]).channel && table.voices[i].key == old(table.voices[i]).key
      ensures table.voices[i].note == old(table.voices[i]).note && table.voices[i].note_volume == volume
      ensures table.voices[i].current_instr == instr && table.voices[i].current_instr_voice == instr_voice
      ensures IsCurrent(table.voices[i], tables, channels)
      ensures SoundsAt(table.voices[i], table.chip[..], tables.instruments, WantedVolume(i, volume))
      ensures OthersSound(old(table.voices[..]), old(table.chip[..]), table.voices[..], table.chip[..], table.num_opl_voices, i)
    {
      hide Programming, OthersSound, SoundsAt, Tables.Valid, Fits, Known, Tables.CarrierVolume;
      ghost var voices0, chip0 := table.voices[..], table.chip[..];
      SetVoiceInstrument(i, instr, instr_voice);
      ghost var voices1, chip1 := table.voices[..], table.chip[..];
      SetVoiceVolume(i, volume);
      IsNowCurrent(i, volume);
      OthersSoundTwice(voices0, chip0, voices1, chip1, table.voices[..], table.chip[..], table.num_opl_voices, i);
    }

    lemma IsNowCurrent(i: nat, volume: nat)
      requires Programming(i) && Known(table.voices[i], tables.instruments) && volume <= 127
      requires table.voices[i].note_volume == volume
      requires 0 <= table.voices[i].channel < |channels| && channels[table.voices[i].channel].volume <= 127
      requires table.voices[i].reg_volume == CarrierLevel(PatchOf(table.voices[i], tables.instruments), WantedVolume(i, volume))
      ensures IsCurrent(table.voices[i], tables, channels)
    {}

    /** voice->freq = 0 and UpdateVoiceFrequency: the note starts. */
    method StartFrequency(i: nat, ghost car: nat)
      requires Programming(i) && table.voices[i].current_instr != NONE
      requires SoundsAt(table.voices[i], table.chip[..], tables.instruments, car)
      requires IsCurrent(table.voices[i], tables, channels)
      modifies table.voices, table.chip
      ensures IsCurrent(table.voices[i], tables, channels) && IsTuned(table.voices[i], tables, channels)
      ensures Programming(i) && FrequencyHolds(table.voices[i], table.chip[..])
      ensures KeyIsOn(table.voices[i], table.chip[..])
      ensures 0 <= table.voices[i].channel < |channels| && Known(table.voices[i], tables.instruments)
      ensures IsCurve(tables.curve)
      ensures table.voices[i].freq == Frequency(table.voices[i], tables.instruments,
                channels[table.voices[i].channel].bend, tables.curve)
      ensures table.voices[i] == old(table.voices[i]).(freq := table.voices[i].freq)
      ensures SoundsAt(table.voices[i], table.chip[..], tables.instruments, car)
      ensures OthersSound(old(table.voices[..]), old(table.chip[..]), table.voices[..], table.chip[..], table.num_opl_voices, i)
    {
      hide Programming, OthersSound, SoundsAt, KeyIsOn, FrequencyHolds, Frequency, SetFrequency, Fits, Known, IsCurve,
           IsCurrent;
      ProgrammingIndex(i);
      CurrentIgnoresFreq(table.voices[i], tables, channels, 0);
      ghost var voices0, chip0 := table.voices[..], table.chip[..];
      SoundIgnoresFreq(table.voices[i], table.chip[..], tables.instruments, car, 0);
      ClearFrequency(i);
      ghost var v1, voices1, chip1 := table.voices[i], table.voices[..], table.chip[..];
      UpdateVoiceFrequency(i);
      CurrentIgnoresFreq(v1, tables, channels, table.voices[i].freq);
      FrequencyKeepsSound(v1, chip1, tables.instruments, car, table.voices[i].freq);
      OthersSoundTwice(voices0, chip0, voices1, chip1, table.voices[..], table.chip[..], table.num_opl_voices, i);
    }

    /** The rest of VoiceKeyOn. */
    method ProgramVoice(i: nat, instr: nat, instr_voice: nat, volume: nat)
      requires Programming(i) && instr < |tables.instruments| && instr_voice < 2 && volume <= 127
      requires (Single() ==> instr_voice == 0)
      modifies table.voices, table.chip
      ensures Valid() && old(table.voices[i]).channel >= 0
      ensures Plays(i, NoteStart(old(table.voices[i]).channel, old(table.voices[i]).key, old(table.voices[i]).note,
                instr, volume), instr_voice)
      ensures OthersSound(old(table.voices[..]), old(table.chip[..]), table.voices[..], table.chip[..], table.num_opl_voices, i)
    {
      hide Programming, OthersSound, SoundsAt, KeyIsOn, FrequencyHolds, Tables.Valid, Frequency, Valid, Fits, Known,
           IsCurve,
           Tables.CarrierVolume, IsCurrent, IsTuned, Plays;
      ProgrammingIndex(i);
      ghost var voices0, chip0, v := table.voices[..], table.chip[..], table.voices[i];
      ProgramSound(i, instr, instr_voice, volume);
      ProgrammingIndex(i);
      ghost var voices1, chip1, car := table.voices[..], table.chip[..], WantedVolume(i, volume);
      StartFrequency(i, car);
      OthersSoundTwice(voices0, chip0, voices1, chip1, table.voices[..], table.chip[..], table.num_opl_voices, i);
      ProgrammingIndex(i);
      PlaysNow(i, NoteStart(v.channel, v.key, v.note, instr, volume), instr_voice, car);
    }

    lemma PlaysNow(i: nat, w: NoteStart, instr_voice: nat, car: nat)
      requires Programming(i) && IsFor(table.voices[i], w, instr_voice) && table.chip.Length == OPL_REGISTERS
      requires Fits(table.voices[i]) && FrequencyHolds(table.voices[i], table.chip[..])
      requires KeyIsOn(table.voices[i], table.chip[..])
      requires IsCurrent(table.voices[i], tables, channels) && IsTuned(table.voices[i], tables, channels)
      requires tables.Valid() && w.channel < |channels| && w.volume <= 127 && channels[w.channel].volume <= 127
      requires car == tables.CarrierVolume(w.volume, channels[w.channel].volume)
      requires SoundsAt(table.voices[i], table.chip[..], tables.instruments, car)
      ensures Valid() && Plays(i, w, instr_voice)
    {
      hide KeyIsOn, FrequencyHolds, Tables.CarrierVolume, SoundsAt, VoiceTable.Valid, Frequency, CarrierLevel;
      ProgrammingFacts(i);
      StopProgramming(i);
    }

    /** Programs a free voice for the note, if there is one. */
    method VoiceKeyOn(channel: nat, instr: nat, instr_voice: nat, note: nat, key: nat, volume: nat) returns (voice: int)
      requires Valid() && channel < |channels| && instr < |tables.instruments| && instr_voice < 2 && volume <= 127
      modifies table, table.next, table.voices, table.chip
      ensures Valid()
      ensures voice == NONE <==> old(table.free) == []
      ensures voice == NONE ==> table.Snapshot() == old(table.Snapshot())
      ensures voice != NONE ==>
                && voice == old(table.free)[0] && table.free == old(table.free)[1..]
                && table.alloced == old(table.alloced) + [old(table.free)[0]]
                && Plays(voice, NoteStart(channel, key, NoteOf(instr, note), instr, volume), if Single() then 0 else instr_voice)
                && OthersSound(old(table.voices[..]), old(table.chip[..]), table.voices[..], table.chip[..],
                    table.num_opl_voices, voice)
    {
      hide Programming, OthersSound, SoundsAt, KeyIsOn, FrequencyHolds, Tables.Valid, Frequency, InstrumentCoherent,
           VoiceTable.Valid;
      var used_voice := instr_voice;
      if !opl3mode && table.opl_drv_ver == Doom1_1_666 {
        used_voice := 0;
      }
      ghost var voices0, chip0 := table.voices[..], table.chip[..];
      voice := StartVoice(channel, key, if tables.instruments[instr].fixed then tables.instruments[instr].fixed_note else note);
      if voice == NONE {
        return;
      }
      ghost var voices1 := table.voices[..];
      ProgramVoice(voice, instr, used_voice, volume);
      OthersSoundTwice(voices0, chip0, voices1, chip0, table.voices[..], table.chip[..], table.num_opl_voices, voice);
    }

    /** The note of a fixed-pitch instrument is its own. */
    ghost function NoteOf(instr: nat, note: nat): nat
      requires instr < |tables.instruments|
    {
      if tables.instruments[instr].fixed then tables.instruments[instr].fixed_note else note
    }

    /** Voice i plays this note: it is allocated to it and keyed on, and the chip has the level and the frequency that
        the note, the instrument and the channel ask for. */
    ghost predicate Plays(i: nat, w: NoteStart, instr_voice: nat)
      reads this, table, table.voices, table.chip
    {
      && tables.Valid() && i < table.num_opl_voices <= table.voices.Length
      && var v := table.voices[i];
         && IsFor(v, w, instr_voice) && w.channel < |channels| && IsCurrent(v, tables, channels) && IsTuned(v, tables, channels)
         && Known(v, tables.instruments) && w.volume <= 127 && channels[w.channel].volume <= 127
         && KeyIsOn(v, table.chip[..]) && |table.chip[..]| == OPL_REGISTERS && Fits(v) && FrequencyHolds(v, table.chip[..])
         && SoundsAt(v, table.chip[..], tables.instruments, tables.CarrierVolume(w.volume, channels[w.channel].volume))
    }

    /** Every playing voice has the volume and the frequency that its channel wants. */
    ghost predicate InStep()
      reads this`channels, table, table.voices
    {
      table.num_opl_voices <= table.voices.Length && AllInStep(table.voices[..], tables, channels, table.num_opl_voices)
    }

    // ---------- Keying off ----------

    /** Releasing voices keeps everything coherent. */
    lemma StillValid(t0: Table, run: seq<nat>)
      requires AllPlaced(t0.voices, table.num_opl_voices) && |t0.chip| == OPL_REGISTERS
      requires AllCoherent(t0.voices, t0.chip, tables.instruments, table.num_opl_voices)
      requires VoicesBounded(t0.voices, table.num_opl_voices, |channels|, Single())
      requires table.Valid() && Freed(t0, table.Snapshot(), run)
      requires tables.Valid() && ChannelsBounded(channels) && current_music_volume <= 127 && start_music_volume <= 127
      requires table.num_opl_voices == (if opl3mode then 2 * OPL_NUM_VOICES else OPL_NUM_VOICES) <= table.voices.Length
      ensures Valid()
      ensures table.num_opl_voices <= |t0.voices|
      ensures (AllInStep(t0.voices, tables, channels, table.num_opl_voices) ==> InStep())
    {
      hide AllPlaced, AllCoherent, VoicesBounded, Tables.Valid, ChannelsBounded, VoiceTable.Valid, Linked, Partition,
           Freed, AllInStep;
      table.ValidLists();
      FreedWithin(t0, table.Snapshot(), run, table.alloced, table.num_opl_voices);
      FreedCoherent(t0, table.Snapshot(), run, tables.instruments, table.num_opl_voices);
      if AllInStep(t0.voices, tables, channels, table.num_opl_voices) {
        FreedInStep(t0, table.Snapshot(), run, tables, channels, table.num_opl_voices);
      }
      FreedBounded(t0, table.Snapshot(), run, table.num_opl_voices, |channels|, Single());
    }

    lemma ValidFacts()
      requires Valid()
      ensures table.Valid() && table.chip.Length == OPL_REGISTERS && AllPlaced(table.voices[..], table.num_opl_voices)
      ensures AllCoherent(table.voices[..], table.chip[..], tables.instruments, table.num_opl_voices)
      ensures VoicesBounded(table.voices[..], table.num_opl_voices, |channels|, Single())
      ensures tables.Valid() && ChannelsBounded(channels) && current_music_volume <= 127 && start_music_volume <= 127
      ensures table.num_opl_voices == (if opl3mode then 2 * OPL_NUM_VOICES else OPL_NUM_VOICES) <= table.voices.Length
    {
      hide AllCoherent, VoicesBounded, ChannelsBounded;
      table.ValidArrays();
    }

    /** KeyOffEvent: no voice of the note stays allocated. */
    method KeyOffEvent(channel: nat, key: nat) returns (ghost dropped: seq<nat>)
      requires Valid()
      modifies table, table.next, table.voices, table.chip
      ensures Valid() && Freed(old(table.Snapshot()), table.Snapshot(), dropped) && (old(InStep()) ==> InStep())
      ensures SoFar(old(table.voices[..]), old(table.alloced), Note(channel, key), table.opl_drv_ver, table.alloced, [], dropped)
      ensures NoteIsOff(channel, key)
    {
      hide AllPlaced, AllCoherent, VoicesBounded, Tables.Valid, ChannelsBounded, VoiceTable.Valid, Valid, Freed, SoFar,
           AllInStep, InRange, Consistent, Partition;
      ValidFacts();
      table.ValidArrays();
      table.ValidLists();
      ghost var t0 := table.Snapshot();
      dropped := table.ReleaseWhere(Note(channel, key));
      StillValid(t0, dropped);
      ValidFacts();
      ReleasedAreGone(t0, table.Snapshot(), Note(channel, key), table.opl_drv_ver, dropped, table.num_opl_voices);
    }

    /** No voice belongs to this note. */
    ghost predicate NoteIsOff(channel: nat, key: nat)
      reads table, table.voices
    {
      && table.num_opl_voices <= table.voices.Length
      && forall i: nat | i < table.num_opl_voices && table.voices[i].channel == channel :: table.voices[i].key != key
    }

    /** No voice belongs to this channel. */
    ghost predicate ChannelIsOff(channel: nat)
      reads table, table.voices
    {
      && table.num_opl_voices <= table.voices.Length
      && forall i: nat | i < table.num_opl_voices :: table.voices[i].channel != channel
    }

    method AllNotesOff(channel: nat) returns (ghost dropped: seq<nat>)
      requires Valid()
      modifies table, table.next, table.voices, table.chip
      ensures Valid() && Freed(old(table.Snapshot()), table.Snapshot(), dropped) && (old(InStep()) ==> InStep())
      ensures SoFar(old(table.voices[..]), old(table.alloced), Channel(channel), table.opl_drv_ver, table.alloced, [], dropped)
      ensures ChannelIsOff(channel)
    {
      hide AllPlaced, AllCoherent, VoicesBounded, Tables.Valid, ChannelsBounded, VoiceTable.Valid, Valid, Freed, SoFar,
           AllInStep, InRange, Consistent, Partition;
      ValidFacts();
      table.ValidArrays();
      table.ValidLists();
      ghost var t0 := table.Snapshot();
      dropped := table.ReleaseWhere(Channel(channel));
      StillValid(t0, dropped);
      ValidFacts();
      ReleasedAreGone(t0, table.Snapshot(), Channel(channel), table.opl_drv_ver, dropped, table.num_opl_voices);
    }

    /** I_OPL_StopSong: every voice is free, and every key-on bit is clear. */
    method StopSong()
      requires Valid()
      modifies this`channels, table, table.next, table.voices, table.chip
      ensures Valid() && table.alloced == [] && channels == [] && InStep()
      ensures forall i: nat | i < table.num_opl_voices :: i in table.free && !KeyIsOn(table.voices[i], table.chip[..])
    {
      hide AllPlaced, AllCoherent, VoicesBounded, Tables.Valid, ChannelsBounded, VoiceTable.Valid, Freed;
      ValidFacts();
      ghost var t0 := table.Snapshot();
      ghost var dropped := table.ReleaseAll();
      StillValid(t0, dropped);
      ValidFacts();
      NoChannels(table.voices[..], table.num_opl_voices, |channels|, Single());
      channels := [];
      FreeVoicesAreOff();
    }

    /** No note sticks: every free voice has its key-on bit clear. */
    lemma FreeVoicesAreOff()
      requires table.Valid()
      ensures table.num_opl_voices <= table.voices.Length
      ensures forall i: nat | i < table.num_opl_voices ::
                (i in table.free <==> table.voices[i].channel == NONE)
                    && (i in table.free ==> !KeyIsOn(table.voices[i], table.chip[..]))
    {
      hide VoiceTable.Valid, AllPlaced, InRange, Consistent, KeyIsOn, Linked, Partition;
      table.ValidArrays();
      table.ValidLists();
      FreeAreOff(table.voices[..], table.chip[..], table.free, table.num_opl_voices);
    }

    // ---------- Keying on ----------

    lemma Counts()
      requires table.Valid()
      ensures |table.free| + |table.alloced| == table.num_opl_voices >= OPL_NUM_VOICES
      ensures table.voice_alloced_num == |table.alloced| && (table.voice_free_list == NONE <==> table.free == [])
    {
      PartitionFacts(table.free, table.alloced, table.num_opl_voices);
    }

    /** What giving up one voice comes to: at least one more is free, and exactly one if no run is released. */
    lemma OneReplaced(t0: Table, r: nat)
      requires AllPlaced(t0.voices, table.num_opl_voices) && |t0.chip| == OPL_REGISTERS
      requires AllCoherent(t0.voices, t0.chip, tables.instruments, table.num_opl_voices)
      requires VoicesBounded(t0.voices, table.num_opl_voices, |channels|, Single())
      requires table.Replaced(t0, r)
      requires tables.Valid() && ChannelsBounded(channels) && current_music_volume <= 127 && start_music_volume <= 127
      requires table.num_opl_voices == (if opl3mode then 2 * OPL_NUM_VOICES else OPL_NUM_VOICES) <= table.voices.Length
      requires Within(t0.alloced, table.num_opl_voices) && |t0.voices| == table.voices.Length
      ensures Valid() && |table.free| > |t0.free|
      ensures table.num_opl_voices <= |t0.voices|
      ensures (AllInStep(t0.voices, tables, channels, table.num_opl_voices) ==> InStep())
      ensures Single() || table.opl_drv_ver == Doom_1_9 ==> |table.free| == |t0.free| + 1
    {
      hide AllPlaced, AllCoherent, Tables.Valid, ChannelsBounded, VoiceTable.Valid, Freed, Run, AllInStep;
      var rest := t0.alloced[r..];
      var run := Run(t0.voices, rest, table.opl_drv_ver);
      StillValid(t0, run);
      FreedCount(t0, table.Snapshot(), run);
      if AllInStep(t0.voices, tables, channels, table.num_opl_voices) {
        FreedInStep(t0, table.Snapshot(), run, tables, channels, table.num_opl_voices);
      }
      assert rest[0] == t0.alloced[r];
      assert rest[0] < table.num_opl_voices;
      BoundedAt(t0.voices, table.num_opl_voices, |channels|, Single(), rest[0]);
      if Single() || table.opl_drv_ver == Doom_1_9 {
        RunIsSingle(t0.voices, rest, table.opl_drv_ver);
      }
    }

    lemma AllocedWithin()
      requires table.Valid()
      ensures Within(table.alloced, table.num_opl_voices)
    {
      hide VoiceTable.Valid, Partition, Linked;
      table.ValidLists();
      AllocedFacts(table.free, table.alloced, table.num_opl_voices, [], table.alloced);
    }

    method GiveUpVoice(channel: nat)
      requires Valid() && table.alloced != []
      modifies table, table.next, table.voices, table.chip
      ensures Valid() && |table.free| > |old(table.free)| && (old(InStep()) ==> InStep())
      ensures Single() || table.opl_drv_ver == Doom_1_9 ==> |table.free| == |old(table.free)| + 1
      ensures GivesUp(old(table.Snapshot()), table.Snapshot(), table.opl_drv_ver, channel)
    {
      hide AllPlaced, AllCoherent, VoicesBounded, Tables.Valid, ChannelsBounded, VoiceTable.Valid, Valid,
           VoiceTable.Replaced, Within,
           LastAfterSecond, FirstHighest, FirstLowest, AllInStep, GivesUp;
      ValidFacts();
      AllocedWithin();
      ghost var t0 := table.Snapshot();
      ghost var r: nat;
      match table.opl_drv_ver {
        case Doom1_1_666 =>
          r := table.ReplaceExistingVoiceDoom1();
        case Doom2_1_666 =>
          r := table.ReplaceExistingVoiceDoom2(channel);
        case Doom_1_9 =>
          ghost var s;
          r, s := table.ReplaceExistingVoice();
      }
      OneReplaced(t0, r);
      IsGivenUp(t0, channel, r);
    }

    lemma IsGivenUp(t0: Table, channel: nat, r: nat)
      requires table.Replaced(t0, r) && Chosen(t0, table.opl_drv_ver, channel, r)
      ensures GivesUp(t0, table.Snapshot(), table.opl_drv_ver, channel)
    {
      hide VoiceTable.Valid, Freed, Run, Chosen;
      assert GivesUpAt(t0, table.Snapshot(), table.opl_drv_ver, r);
    }

    /** How many free voices the driver wants before it starts a note. */
    ghost function Wanted(double_voice: bool): nat {
      if double_voice && (table.opl_drv_ver == Doom2_1_666 || (table.opl_drv_ver == Doom1_1_666 && opl3mode)) then 2 else 1
    }

    /** The part of KeyOnEvent before the voices are programmed, for each driver version. */
    method MakeRoom(channel: nat, double_voice: bool) returns (ghost states: seq<Table>)
      requires Valid()
      modifies table, table.next, table.voices, table.chip
      ensures Valid() && table.free != [] && (old(InStep()) ==> InStep())
      ensures double_voice ==> (|table.free| >= 2 <==> VoicesStarted(true, table.opl_drv_ver, opl3mode, |old(table.free)|) == 2)
      ensures table.opl_drv_ver == Doom_1_9 ==> |table.free| == if old(table.free) == [] then 1 else |old(table.free)|
      ensures MakesRoom(states, table.opl_drv_ver, channel, Wanted(double_voice))
      ensures |table.free| >= Wanted(double_voice)
      ensures states[0] == old(table.Snapshot()) && states[|states| - 1] == table.Snapshot()
    {
      hide Valid, VoiceTable.Valid, InStep, MakesRoom, GivesUp;
      ValidFacts();
      Counts();
      states := [table.Snapshot()];
      NoneGivenUp(table.Snapshot(), channel, Wanted(double_voice));
      match table.opl_drv_ver {
        case Doom1_1_666 =>
          var voicenum := if double_voice then 2 else 1;
          if !opl3mode {
            voicenum := 1;
          }
          while table.voice_alloced_num > table.num_opl_voices - voicenum
            invariant Valid() && table.Valid() && (old(InStep()) ==> InStep())
            invariant table.voice_alloced_num == |table.alloced|
            invariant |table.free| + |table.alloced| == table.num_opl_voices
            invariant |table.free| >= |old(table.free)|
            invariant Single() ==> |table.free| == |old(table.free)| || (old(table.free) == [] && |table.free| == 1)
            invariant |states| > 0 && states[0] == old(table.Snapshot()) && states[|states| - 1] == table.Snapshot()
            invariant MakesRoom(states, table.opl_drv_ver, channel, Wanted(double_voice))
            decreases |table.alloced|
          {
            GiveUpVoice(channel);
            OneMoreGivenUp(states, table.Snapshot(), table.opl_drv_ver, channel, Wanted(double_voice));
            states := states + [table.Snapshot()];
            ValidFacts();
            Counts();
          }
        case Doom2_1_666 =>
          if table.voice_alloced_num == table.num_opl_voices {
            GiveUpVoice(channel);
            OneMoreGivenUp(states, table.Snapshot(), table.opl_drv_ver, channel, Wanted(double_voice));
            states := states + [table.Snapshot()];
            ValidFacts();
            Counts();
          }
          if table.voice_alloced_num == table.num_opl_voices - 1 && double_voice {
            GiveUpVoice(channel);
            OneMoreGivenUp(states, table.Snapshot(), table.opl_drv_ver, channel, Wanted(double_voice));
            states := states + [table.Snapshot()];
          }
        case Doom_1_9 =>
          if table.voice_free_list == NONE {
            GiveUpVoice(channel);
            OneMoreGivenUp(states, table.Snapshot(), table.opl_drv_ver, channel, Wanted(double_voice));
            states := states + [table.Snapshot()];
          }
      }
    }

    lemma NoneGivenUp(t: Table, channel: nat, wanted: nat)
      ensures MakesRoom([t], table.opl_drv_ver, channel, wanted)
    {}

    /** Notes below and above these keys are not percussion instruments. */
    predicate Ignored(percussion: bool, key: nat) { percussion && !(35 <= key <= 81) }

    /** Since the given moment voices were given up until there was room, and then the voices of started were taken from
        the free list; no other voice changed. */
    ghost predicate Starts(before: Table, channel: nat, double_voice: bool, states: seq<Table>, started: seq<nat>)
      reads this, table, table.voices, table.chip
    {
      && MakesRoom(states, table.opl_drv_ver, channel, Wanted(double_voice)) && states[0] == before
      && |states[|states| - 1].free| >= Wanted(double_voice)
      && TookFree(states[|states| - 1], table.Snapshot(), table.num_opl_voices, started)
    }

    /** The voices of started play the note, each its voice of the instrument: the one of the channel, or of the
        percussion key. */
    ghost predicate PlaysNote(before: Table, channel: nat, percussion: bool, key: nat, volume: nat, started: seq<nat>)
      requires !Ignored(percussion, key)
      reads this, table, table.voices, table.chip
    {
      && channel < |channels|
      && var instr := if percussion then GENMIDI_NUM_INSTRS + key - 35 else channels[channel].instrument;
         && instr < |tables.instruments|
         && var double_voice := tables.instruments[instr].double_voice;
            var played := PlayedVoices(double_voice, table.opl_drv_ver, opl3mode, |before.free|);
            && |started| == |played| && NoDup(started)
            && (forall k | 0 <= k < |started| ::
                  Plays(started[k], NoteStart(channel, key, NoteOf(instr, if percussion then 60 else key), instr, volume), played[k]))
            && exists states :: Starts(before, channel, double_voice, states, started)
    }

    /** A note: it always plays the first voice of its instrument, and the second one exactly when BothVoicesPlay says
        so, each on a voice of its own that is programmed and keyed on. */
    method KeyOnEvent(channel: nat, percussion: bool, key: nat, volume: nat) returns (ghost started: seq<nat>)
      requires Valid() && channel < |channels| && volume <= 127
      modifies table, table.next, table.voices, table.chip
      ensures Valid() && (old(InStep()) ==> InStep())
      ensures volume == 0 || Ignored(percussion, key) ==> started == []
      ensures volume > 0 && !Ignored(percussion, key) ==>
                PlaysNote(old(table.Snapshot()), channel, percussion, key, volume, started)
      ensures volume > 0 && !Ignored(percussion, key) && table.opl_drv_ver == Doom_1_9 ==>
                |table.free| == (if old(table.free) == [] then 1 else |old(table.free)|) - |started|
      ensures volume == 0 ==> exists dropped ::
                && Freed(old(table.Snapshot()), table.Snapshot(), dropped)
                && SoFar(old(table.voices[..]), old(table.alloced), Note(channel, key), table.opl_drv_ver, table.alloced, [], dropped)
      ensures volume > 0 && Ignored(percussion, key) ==> table.Snapshot() == old(table.Snapshot())
      ensures volume == 0 ==> NoteIsOff(channel, key)
    {
      hide Valid, VoiceTable.Valid, AllPlaced, AllCoherent, VoicesBounded, Tables.Valid, Freed, SoFar, Started, Plays,
           InStep, NoteIsOff, TookFree, GivesUp;
      started := [];
      if volume <= 0 {
        ghost var dropped := KeyOffEvent(channel, key);
        return;
      }
      ValidFacts();
      var instr := channels[channel].instrument;
      var note := key;
      if percussion {
        if key < 35 || key > 81 {
          return;
        }
        instr := GENMIDI_NUM_INSTRS + key - 35;
        note := 60;
      }
      TableSizes(tables);
      var double_voice := tables.instruments[instr].double_voice;
      ghost var states := MakeRoom(channel, double_voice);
      ghost var played;
      started, played := StartVoices(channel, instr, double_voice, note, key, volume);
      assert Starts(states[0], channel, double_voice, states, started);
      AllPlay(started, NoteStart(channel, key, NoteOf(instr, note), instr, volume), played);
    }

    /** These voices have been started for the note. */
    ghost predicate Started(started: seq<nat>, w: NoteStart, played: seq<nat>)
      reads this, table, table.voices, table.chip
    {
      AllKeyed(table.voices[..], table.chip[..], table.free, table.num_opl_voices, started, w, played, tables, channels)
    }

    lemma AllPlay(started: seq<nat>, w: NoteStart, played: seq<nat>)
      requires Valid() && Started(started, w, played) && w.volume <= 127
      ensures |started| == |played| && NoDup(started)
      ensures forall k | 0 <= k < |started| :: Plays(started[k], w, played[k])
    {
      hide Valid, Plays, KeyedFor;
      forall k | 0 <= k < |started|
        ensures Plays(started[k], w, played[k])
      {
        KeyedPlays(started[k], w, played[k]);
      }
    }

    /** Coherent caches that are current mean that the chip is, too. */
    lemma KeyedPlays(i: nat, w: NoteStart, instr_voice: nat)
      requires Valid() && w.volume <= 127
      requires KeyedFor(table.voices[..], table.chip[..], table.free, table.num_opl_voices, i, w, instr_voice, tables, channels)
      ensures Plays(i, w, instr_voice)
    {
      hide AllPlaced, VoicesBounded, VoiceTable.Valid, SoundsAt, KeyIsOn, CarrierLevel, Frequency, LevelsHold,
           OperatorHolds;
      assert VoiceCoherent(table.voices[..][i], table.chip[..], tables.instruments);
      CurrentSounds(i);
    }

    /** One call of VoiceKeyOn from KeyOnEvent. */
    method StartOne(channel: nat, instr: nat, instr_voice: nat, note: nat, key: nat, volume: nat,
                    ghost t0: Table, ghost started: seq<nat>, ghost played: seq<nat>)
        returns (ghost now: seq<nat>, ghost all: seq<nat>)
      requires Valid() && channel < |channels| && instr < |tables.instruments| && instr_voice < 2 && volume <= 127
      requires Started(started, NoteStart(channel, key, NoteOf(instr, note), instr, volume), played)
      modifies table, table.next, table.voices, table.chip
      ensures Valid() && (old(InStep()) ==> InStep())
      ensures Started(now, NoteStart(channel, key, NoteOf(instr, note), instr, volume), all)
      ensures |table.free| == |old(table.free)| - if old(table.free) == [] then 0 else 1
      ensures all == if old(table.free) == [] then played else played + [if Single() then 0 else instr_voice]
      ensures old(TookFree(t0, table.Snapshot(), table.num_opl_voices, started)) ==>
                TookFree(t0, table.Snapshot(), table.num_opl_voices, now)
    {
      hide Valid, VoiceTable.Valid, KeyedFor, OthersSound, AllInStep, Plays, AllKeyed, TookFree;
      ghost var t1 := table.Snapshot();
      ghost var voices0, chip0, free0 := table.voices[..], table.chip[..], table.free;
      ghost var w := NoteStart(channel, key, NoteOf(instr, note), instr, volume);
      SizesStay();
      var voice := VoiceKeyOn(channel, instr, instr_voice, note, key, volume);
      SizesStay();
      now, all := started, played;
      if voice != NONE {
        ghost var used := if Single() then 0 else instr_voice;
        now, all := started + [voice], played + [used];
        PlaysKeyed(voice, w, used);
        if TookFree(t0, t1, table.num_opl_voices, started) {
          OneMoreTaken(t0, t1, table.Snapshot(), table.num_opl_voices, started);
        }
        OneMoreKeyed(voices0, chip0, free0, table.voices[..], table.chip[..], table.num_opl_voices, started, w, played,
                     used, tables, channels);
        if AllInStep(voices0, tables, channels, table.num_opl_voices) {
          StartedInStep(voices0, chip0, table.voices[..], table.chip[..], tables, channels, table.num_opl_voices,
                        voice);
        }
      }
    }

    lemma SizesStay()
      requires Valid()
      ensures table.num_opl_voices <= table.voices.Length
    {}

    lemma PlaysKeyed(i: nat, w: NoteStart, instr_voice: nat)
      requires Valid() && Plays(i, w, instr_voice) && i in table.alloced
      ensures KeyedFor(table.voices[..], table.chip[..], table.free, table.num_opl_voices, i, w, instr_voice, tables, channels)
      ensures i < table.num_opl_voices <= table.voices.Length && IsCurrent(table.voices[i], tables, channels)
      ensures IsTuned(table.voices[i], tables, channels)
    {
      hide IsCurrent, IsTuned, SoundsAt, FrequencyHolds;
      PartitionFacts(table.free, table.alloced, table.num_opl_voices);
    }

    /** One or two calls of VoiceKeyOn; the older drivers take the second voice of the instrument first. */
    method StartVoices(channel: nat, instr: nat, double_voice: bool, note: nat, key: nat, volume: nat)
        returns (ghost started: seq<nat>, ghost played: seq<nat>)
      requires Valid() && channel < |channels| && instr < |tables.instruments| && volume <= 127 && table.free != []
      modifies table, table.next, table.voices, table.chip
      ensures Valid() && (old(InStep()) ==> InStep())
      ensures Started(started, NoteStart(channel, key, NoteOf(instr, note), instr, volume), played)
      ensures TookFree(old(table.Snapshot()), table.Snapshot(), table.num_opl_voices, started)
      ensures |started| == |played| && |table.free| == |old(table.free)| - |started|
      ensures var second, both := if Single() then 0 else 1, double_voice && |old(table.free)| >= 2;
              played == if table.opl_drv_ver == Doom_1_9 then (if both then [0, second] else [0])
                        else if both then [second, 0]
                        else if double_voice then [second] else [0]
    {
      hide Valid, AllKeyed, InStep, TookFree, InRange;
      ghost var t0 := table.Snapshot();
      RangeFacts();
      NoneTaken(t0, table.num_opl_voices);
      started, played := [], [];
      NothingStarted(NoteStart(channel, key, NoteOf(instr, note), instr, volume));
      if table.opl_drv_ver == Doom_1_9 {
        started, played := StartOne(channel, instr, 0, note, key, volume, t0, started, played);
        if double_voice {
          started, played := StartOne(channel, instr, 1, note, key, volume, t0, started, played);
        }
      } else {
        if double_voice {
          started, played := StartOne(channel, instr, 1, note, key, volume, t0, started, played);
        }
        started, played := StartOne(channel, instr, 0, note, key, volume, t0, started, played);
      }
      SameCount(started, NoteStart(channel, key, NoteOf(instr, note), instr, volume), played);
    }

    lemma RangeFacts()
      requires Valid()
      ensures table.num_opl_voices <= table.voices.Length && InRange(table.voices[..], |table.chip[..]|)
    {
      hide VoiceTable.Lists, AllCoherent, AllPlaced, InRange;
      table.ValidArrays();
    }

    lemma NothingStarted(w: NoteStart)
      ensures Started([], w, [])
    {}

    lemma SameCount(started: seq<nat>, w: NoteStart, played: seq<nat>)
      requires Started(started, w, played)
      ensures |started| == |played|
    {}

    // ---------- Controllers ----------

    /** Channel data may change at any time; the caches do not depend on it. */
    lemma ChannelsMayChange(before: seq<ChannelData>)
      requires table.Valid() && tables.Valid() && ChannelsBounded(channels) && |channels| == |before|
      requires current_music_volume <= 127 && start_music_volume <= 127
      requires table.num_opl_voices == (if opl3mode then 2 * OPL_NUM_VOICES else OPL_NUM_VOICES) <= table.voices.Length
      requires VoicesBounded(table.voices[..], table.num_opl_voices, |before|, Single())
      requires AllCoherent(table.voices[..], table.chip[..], tables.instruments, table.num_opl_voices)
      ensures Valid()
    {}

    method ProgramChangeEvent(channel: nat, instrument: nat)
      requires Valid() && channel < |channels| && instrument < GENMIDI_NUM_INSTRS + GENMIDI_NUM_PERCUSSION
      modifies this`channels
      ensures Valid() && channels == old(channels)[channel := old(channels)[channel].(instrument := instrument)]
      ensures old(InStep()) ==> InStep()
    {
      hide AllPlaced, AllCoherent, VoicesBounded, Tables.Valid, VoiceTable.Valid, Valid, AllInStep;
      ValidFacts();
      ghost var before := channels;
      channels := channels[channel := channels[channel].(instrument := instrument)];
      ChannelsMayChange(before);
      if AllInStep(table.voices[..], tables, before, table.num_opl_voices) {
        InstrumentInStep(table.voices[..], tables, before, channels, table.num_opl_voices);
      }
    }

    /** A coherent cache that is current means that the chip is, too. */
    lemma CurrentSounds(i: nat)
      requires Valid() && i < table.num_opl_voices <= table.voices.Length
      requires IsCurrent(table.voices[i], tables, channels)
      ensures SoundsAt(table.voices[i], table.chip[..], tables.instruments, WantedVolume(i, table.voices[i].note_volume))
    {
      assert VoiceCoherent(table.voices[..][i], table.chip[..], tables.instruments);
      CarrierLevelSplits(PatchOf(table.voices[i], tables.instruments), WantedVolume(i, table.voices[i].note_volume));
    }

    /** One voice of SetChannelVolume's loop. */
    method UpdateVolume(i: nat)
      requires Valid() && i < table.num_opl_voices && table.voices[i].channel >= 0
      modifies table.voices, table.chip
      ensures Valid() && IsCurrent(table.voices[i], tables, channels)
      ensures table.voices[i] == old(table.voices[i]).(reg_volume := table.voices[i].reg_volume)
      ensures forall j | 0 <= j < table.num_opl_voices && j != i :: table.voices[j] == old(table.voices[j])
    {
      hide Programming, Tables.Valid, Fits, Tables.CarrierVolume, CarrierLevel, FrequencyHolds, Valid, KeyRegister,
           AllPlaced, InRange, Consistent, CoherentBut, VoicesBounded, ChannelsBounded, InstrumentCoherent, SoundsAt,
               Known, SameFrequencyRegisters;
      StartProgramming(i);
      ProgrammingFacts(i);
      ghost var v0, chip0 := table.voices[i], table.chip[..];
      SetVoiceVolume(i, table.voices[i].note_volume);
      ProgrammingFacts(i);
      SameFrequencyHolds(v0, table.voices[i], chip0, table.chip[..], tables.instruments);
      StopProgramming(i);
    }

    /** Every playing voice of the channels c0 up to c1, among the first n voices, has a current volume. */
    ghost predicate VolumesCurrent(c0: nat, c1: nat, n: nat)
      requires n <= table.voices.Length
      reads this`channels, table.voices
    {
      AllCurrent(table.voices[..], tables, channels, c0, c1, n)
    }

    ghost function Clipped(volume: nat, clip_start: bool): (r: nat)
      reads this`current_music_volume, this`start_music_volume
      ensures r <= volume && r <= current_music_volume && (clip_start ==> r <= start_music_volume)
      ensures r == volume || r == current_music_volume || (clip_start && r == start_music_volume)
    {
      var r := if volume > current_music_volume then current_music_volume else volume;
      if clip_start && r > start_music_volume then start_music_volume else r
    }

    /** Clips the volume, then updates every voice of the channel: afterwards each has the volume it should have. */
    method SetChannelVolume(channel: nat, volume: nat, clip_start: bool)
      requires Valid() && channel < |channels|
      modifies this`channels, table.voices, table.chip
      ensures Valid() && (old(InStep()) ==> InStep())
      ensures channels == old(channels)[channel := old(channels)[channel].(volume_base := volume,
                volume := Clipped(volume, clip_start))]
      ensures table.num_opl_voices <= table.voices.Length && VolumesCurrent(channel, channel + 1, table.num_opl_voices)
      ensures forall i | 0 <= i < table.num_opl_voices ::
                && table.voices[i] == old(table.voices[i]).(reg_volume := table.voices[i].reg_volume)
                && (table.voices[i].channel != channel ==> table.voices[i] == old(table.voices[i]))
    {
      hide AllPlaced, AllCoherent, VoicesBounded, Tables.Valid, VoiceTable.Valid, Valid, IsCurrent, AllInStep,
           AllCurrent;
      ValidFacts();
      ghost var before, voices0 := channels, table.voices[..];
      var clipped := volume;
      if clipped > current_music_volume {
        clipped := current_music_volume;
      }
      if clip_start && clipped > start_music_volume {
        clipped := start_music_volume;
      }
      channels := channels[channel := channels[channel].(volume_base := volume, volume := clipped)];
      ChannelsMayChange(before);
      NoneYet(channel);
      for i := 0 to table.num_opl_voices
        invariant Valid() && VolumesCurrent(channel, channel + 1, i)
        invariant forall j | 0 <= j < table.num_opl_voices ::
                    && table.voices[j] == old(table.voices[j]).(reg_volume := table.voices[j].reg_volume)
                    && (table.voices[j].channel != channel ==> table.voices[j] == old(table.voices[j]))
        modifies table.voices, table.chip
      {
        ghost var voices1 := table.voices[..];
        if table.voices[i].channel == channel {
          UpdateVolume(i);
        }
        OneMoreCurrent(voices1, channel, i);
      }
      if AllInStep(voices0, tables, before, table.num_opl_voices) {
        VolumeInStep(voices0, table.voices[..], tables, before, channels, channel, table.num_opl_voices);
      }
    }

    lemma NoneYet(channel: nat)
      requires table.num_opl_voices <= table.voices.Length
      ensures VolumesCurrent(channel, channel + 1, 0)
    {}

    lemma OneMoreCurrent(voices0: seq<Voice>, channel: nat, i: nat)
      requires i < table.voices.Length == |voices0| && AllCurrent(voices0, tables, channels, channel, channel + 1, i)
      requires forall j | 0 <= j < i :: table.voices[j] == voices0[j]
      requires table.voices[i].channel == channel ==> IsCurrent(table.voices[i], tables, channels)
      ensures VolumesCurrent(channel, channel + 1, i + 1)
    {}

    /** Every voice of the channel among the first n has the frequency it should have. */
    ghost predicate FrequenciesCurrent(channel: nat, n: nat)
      requires n <= table.voices.Length
      reads this`channels, table.voices
    {
      forall i: nat | i < n :: table.voices[i].channel == channel ==> IsTuned(table.voices[i], tables, channels)
    }

    method UpdateFrequency(i: nat)
      requires Valid() && i < table.num_opl_voices && table.voices[i].channel >= 0
      modifies table.voices, table.chip
      ensures Valid() && IsTuned(table.voices[i], tables, channels)
      ensures table.voices[i] == old(table.voices[i]).(freq := table.voices[i].freq)
      ensures forall j | 0 <= j < table.num_opl_voices && j != i :: table.voices[j] == old(table.voices[j])
    {
      hide Programming, Tables.Valid, Fits, FrequencyHolds, Valid, KeyRegister, Frequency, Known, IsCurve, KeyIsOn,
           SetFrequency,
           AllPlaced, InRange, Consistent, CoherentBut, VoicesBounded, ChannelsBounded, InstrumentCoherent;
      StartProgramming(i);
      ProgrammingFacts(i);
      UpdateVoiceFrequency(i);
      ProgrammingFacts(i);
      StopProgramming(i);
    }

    /** The new bend reaches every voice of the channel. */
    method PitchBendEvent(channel: nat, value: nat)
      requires Valid() && channel < |channels|
      modifies this`channels, table.voices, table.chip
      ensures Valid() && channels == old(channels)[channel := old(channels)[channel].(bend := value - 64)]
      ensures table.num_opl_voices <= table.voices.Length && FrequenciesCurrent(channel, table.num_opl_voices)
      ensures old(InStep()) ==> InStep()
    {
      hide AllPlaced, AllCoherent, VoicesBounded, Tables.Valid, VoiceTable.Valid, Valid, IsTuned, AllInStep;
      ValidFacts();
      ghost var before, voices0 := channels, table.voices[..];
      channels := channels[channel := channels[channel].(bend := value - 64)];
      ChannelsMayChange(before);
      for i := 0 to table.num_opl_voices
        invariant Valid() && FrequenciesCurrent(channel, i)
        invariant forall j | 0 <= j < table.num_opl_voices ::
                    && table.voices[j] == old(table.voices[j]).(freq := table.voices[j].freq)
                    && (table.voices[j].channel != channel ==> table.voices[j] == old(table.voices[j]))
        modifies table.voices, table.chip
      {
        if table.voices[i].channel == channel {
          UpdateFrequency(i);
        }
      }
      if AllInStep(voices0, tables, before, table.num_opl_voices) {
        BendInStep(voices0, table.voices[..], tables, before, channels, channel, table.num_opl_voices);
      }
    }

    /** SetMusicVolume: the new volume clips every channel and reaches every playing voice. */
    method SetMusicVolume(volume: nat)
      requires Valid() && volume <= 127
      modifies this`channels, this`current_music_volume, table.voices, table.chip
      ensures Valid() && current_music_volume == volume && |channels| == |old(channels)|
      ensures old(InStep()) ==> InStep()
      ensures volume != old(current_music_volume) ==>
                && table.num_opl_voices <= table.voices.Length && VolumesCurrent(0, |channels|, table.num_opl_voices)
                && forall c: nat | c < |channels| :: VolumeChanges(c, volume, old(channels)[c], channels[c])
      ensures volume == old(current_music_volume) ==> channels == old(channels)
    {
      hide AllPlaced, AllCoherent, VoicesBounded, Tables.Valid, VoiceTable.Valid, Valid, AllCurrent, InStep;
      if current_music_volume == volume {
        return;
      }
      ValidFacts();
      current_music_volume := volume;
      ChannelsMayChange(channels);
      CurrentStart();
      for c := 0 to |channels|
        invariant Valid() && |channels| == |old(channels)| && VolumesCurrent(0, c, table.num_opl_voices)
        invariant old(InStep()) ==> InStep()
        invariant forall d | c <= d < |channels| :: channels[d] == old(channels)[d]
        invariant forall d: nat | d < c :: VolumeChanges(d, volume, old(channels)[d], channels[d])
        modifies this`channels, table.voices, table.chip
      {
        ghost var voices0, channels0 := table.voices[..], channels;
        SetChannelVolume(c, if c % 16 == 15 then volume else channels[c].volume_base, false);
        CurrentMore(voices0, channels0, c);
      }
    }

    lemma CurrentStart()
      requires table.num_opl_voices <= table.voices.Length
      ensures VolumesCurrent(0, 0, table.num_opl_voices)
    {}

    /** Updating one channel leaves the voices of the channels before it current. */
    lemma CurrentMore(voices0: seq<Voice>, channels0: seq<ChannelData>, c: nat)
      requires table.num_opl_voices <= table.voices.Length == |voices0| && c < |channels| == |channels0|
      requires channels == channels0[c := channels[c]] && VolumesCurrent(c, c + 1, table.num_opl_voices)
      requires AllCurrent(voices0, tables, channels0, 0, c, table.num_opl_voices)
      requires forall i | 0 <= i < table.num_opl_voices ::
                 && table.voices[i].channel == voices0[i].channel
                 && (table.voices[i].channel != c ==> table.voices[i] == voices0[i])
      ensures VolumesCurrent(0, c + 1, table.num_opl_voices)
    {
      forall i: nat | i < table.num_opl_voices && 0 <= table.voices[i].channel < c + 1
        ensures IsCurrent(table.voices[i], tables, channels)
      {
        if table.voices[i].channel < c {
          assert IsCurrent(voices0[i], tables, channels0);
        }
      }
    }

    /** I_OPL_PauseSong: playing voices of the main instruments fall silent but stay allocated. */
    method PauseSong()
      requires Valid()
      modifies table.chip
      ensures Valid() && table.num_opl_voices <= table.voices.Length
      ensures forall i: nat | i < table.num_opl_voices ::
                KeyIsOn(table.voices[i], table.chip[..]) ==
                (!Pauses(table.voices[i]) && KeyIsOn(table.voices[i], old(table.chip[..])))
    {
      hide AllPlaced, AllCoherent, VoicesBounded, Tables.Valid, VoiceTable.Valid, Valid, KeyIsOn, ChannelsBounded;
      ValidFacts();
      for i := 0 to table.num_opl_voices
        invariant Valid()
        invariant forall j: nat | j < table.num_opl_voices ::
                    KeyIsOn(table.voices[j], table.chip[..]) ==
                    ((j >= i || !Pauses(table.voices[j])) && KeyIsOn(table.voices[j], old(table.chip[..])))
      {
        if Pauses(table.voices[i]) {
          PauseVoice(i);
        }
      }
    }

    method PauseVoice(i: nat)
      requires Valid() && i < table.num_opl_voices <= table.voices.Length && Pauses(table.voices[i])
      modifies table.chip
      ensures Valid() && !KeyIsOn(table.voices[i], table.chip[..])
      ensures forall j: nat | j < table.num_opl_voices && j != i ::
                KeyIsOn(table.voices[j], table.chip[..]) == KeyIsOn(table.voices[j], old(table.chip[..]))
    {
      hide AllPlaced, AllCoherent, VoicesBounded, Tables.Valid, ChannelsBounded, KeyIsOn, InRange, Consistent,
           VoiceTable.Lists;
      ValidFacts();
      table.ValidArrays();
      ghost var chip0 := table.chip[..];
      KeyOffKeeps(table.voices[..], chip0, table.free, tables.instruments, table.num_opl_voices, i);
      table.VoiceKeyOff(i);
    }

    // ---------- Runs ----------

    /** InitChannel for every channel of every track. */
    method InitChannels(num_tracks: nat)
      requires Valid() && (|channels| == num_tracks * MIDI_CHANNELS_PER_TRACK || table.alloced == [])
      modifies this`channels
      ensures Valid() && |channels| == num_tracks * MIDI_CHANNELS_PER_TRACK
      ensures forall c | 0 <= c < |channels| :: channels[c] == NewChannel(current_music_volume)
      ensures table.alloced == [] ==> InStep()
    {
      hide AllPlaced, AllCoherent, VoicesBounded, Tables.Valid, VoiceTable.Valid, Valid, InStep;
      ValidFacts();
      ghost var before := channels;
      channels := Repeat(NewChannel(current_music_volume), num_tracks * MIDI_CHANNELS_PER_TRACK);
      if |channels| != |before| {
        NothingPlaying(|before|);
      }
      ChannelsMayChange(channels);
      if table.alloced == [] {
        NothingOutOfStep();
      }
    }

    lemma FreeAtStart()
      requires Valid() && table.alloced == []
      ensures |table.free| == table.num_opl_voices == if opl3mode then 2 * OPL_NUM_VOICES else OPL_NUM_VOICES
    {
      hide AllCoherent, VoicesBounded;
      ValidFacts();
      Counts();
    }

    lemma NothingOutOfStep()
      requires table.Valid() && table.alloced == []
      ensures InStep()
    {
      hide VoiceTable.Valid, Linked;
      FreeVoicesAreOff();
      table.ValidLists();
      PartitionFacts(table.free, table.alloced, table.num_opl_voices);
    }

    lemma NothingPlaying(bound: nat)
      requires table.Valid() && table.alloced == [] && table.num_opl_voices <= table.voices.Length
      requires VoicesBounded(table.voices[..], table.num_opl_voices, bound, Single())
      ensures VoicesBounded(table.voices[..], table.num_opl_voices, |channels|, Single())
    {
      hide VoiceTable.Valid, Linked;
      FreeVoicesAreOff();
      table.ValidLists();
      PartitionFacts(table.free, table.alloced, table.num_opl_voices);
    }

    /** I_OPL_PlaySong, when no song is playing. */
    method PlaySong(num_tracks: nat)
      requires Valid() && channels == []
      modifies this`channels, this`start_music_volume
      ensures Valid() && |channels| == num_tracks * MIDI_CHANNELS_PER_TRACK && InStep()
      ensures forall c | 0 <= c < |channels| :: channels[c] == NewChannel(current_music_volume)
      ensures start_music_volume == current_music_volume
    {
      hide AllPlaced, AllCoherent, VoicesBounded, Tables.Valid, VoiceTable.Valid, Valid, InStep;
      ValidFacts();
      NoVoicePlays();
      start_music_volume := current_music_volume;
      ChannelsMayChange(channels);
      InitChannels(num_tracks);
    }

    lemma NoVoicePlays()
      requires Valid() && channels == []
      ensures table.alloced == []
    {
      hide VoiceTable.Valid, AllCoherent, AllPlaced, InRange;
      ValidFacts();
      table.ValidArrays();
      forall i: nat | i < table.num_opl_voices
        ensures table.voices[i].channel == NONE
      {
        assert VoiceConsistent(table.voices[..], table.chip[..], table.free, i);
      }
      table.NobodyPlays();
    }

    /** Every playing voice is in step, and would sound the same on a channel with the data of a new one. */
    ghost predicate UnmovedByRestart()
      reads this`channels, this`current_music_volume, table, table.voices
    {
      InStep() && AllSoundTheSame(table.voices[..], tables, channels, table.num_opl_voices, NewChannel(current_music_volume))
    }

    /** RestartSong: the channels start afresh, but voices that still play do not follow. They stay in step if and only if
        they would sound the same on new channels. */
    method RestartSong()
      requires Valid() && |channels| % MIDI_CHANNELS_PER_TRACK == 0
      modifies this`channels, this`start_music_volume
      ensures Valid() && |channels| == |old(channels)| && (table.alloced == [] ==> InStep())
      ensures forall c | 0 <= c < |channels| :: channels[c] == NewChannel(current_music_volume)
      ensures old(InStep()) ==> (InStep() <==> old(UnmovedByRestart()))
      ensures start_music_volume == current_music_volume
    {
      hide AllPlaced, AllCoherent, VoicesBounded, Tables.Valid, VoiceTable.Valid, Valid, AllInStep, AllSoundTheSame;
      ghost var before := channels;
      ValidFacts();
      start_music_volume := current_music_volume;
      ChannelsMayChange(channels);
      InitChannels(|channels| / MIDI_CHANNELS_PER_TRACK);
      if AllInStep(table.voices[..], tables, before, table.num_opl_voices) {
        ResetInStep(table.voices[..], tables, before, channels, table.num_opl_voices, NewChannel(current_music_volume));
      }
    }

    /** The song as it is now. */
    ghost function TheSong(): Song
      reads this`channels, this`current_music_volume, this`start_music_volume
    {
      Song(channels, current_music_volume, start_music_volume)
    }

    /** What an event leaves behind on channel c of the song. A released note, or channel, has no voice; a note that
        starts is played by a voice. */
    ghost predicate Sounds(event: MidiEvent, c: nat)
      reads this, table, table.voices, table.chip
    {
      match event
      case NoteOff(_, key) => NoteIsOff(c, key)
      case NoteOn(number, key, volume) =>
        if volume == 0 then NoteIsOff(c, key)
        else Ignored(number == 9, key) || IsPlayed(c, key, number == 9, volume)
      case AllNotesOffEvent(_) => ChannelIsOff(c)
      case _ => true
    }

    ghost predicate SomeVoicePlays(w: NoteStart, instr_voice: nat)
      reads this, table, table.voices, table.chip
    {
      exists i: nat :: Plays(i, w, instr_voice)
    }

    /** Some voice plays the first voice of the instrument: the one of the channel, or of the percussion key. */
    ghost predicate IsPlayed(c: nat, key: nat, percussion: bool, volume: nat)
      requires !Ignored(percussion, key)
      reads this, table, table.voices, table.chip
    {
      && c < |channels|
      && var instr := if percussion then GENMIDI_NUM_INSTRS + key - 35 else channels[c].instrument;
         && instr < |tables.instruments|
         && SomeVoicePlays(NoteStart(c, key, NoteOf(instr, if percussion then 60 else key), instr, volume), 0)
    }

    lemma FirstIsPlayed(started: seq<nat>, w: NoteStart, played: seq<nat>)
      requires |started| == |played| && 0 in played
      requires forall k | 0 <= k < |started| :: Plays(started[k], w, played[k])
      ensures SomeVoicePlays(w, 0)
    {
      hide Plays;
      var k :| 0 <= k < |played| && played[k] == 0;
      assert Plays(started[k], w, 0);
    }

    /** The voices of a note, or of a channel, have been keyed off and freed, in this order. */
    ghost predicate Released(before: Table, sel: Selector, dropped: seq<nat>)
      requires Within(before.alloced, |before.voices|)
      reads table, table.voices, table.chip
    {
      && Freed(before, table.Snapshot(), dropped)
      && SoFar(before.voices, before.alloced, sel, table.opl_drv_ver, table.alloced, [], dropped)
    }

    /** KeyOnEvent, with what it leaves behind. */
    method NoteOnEvent(channel: nat, percussion: bool, key: nat, volume: nat) returns (ghost touched: seq<nat>)
      requires Valid() && channel < |channels| && volume <= 127
      modifies table, table.next, table.voices, table.chip
      ensures Valid() && (old(InStep()) ==> InStep()) && Within(old(table.alloced), table.voices.Length)
      ensures volume == 0 ==> NoteIsOff(channel, key) && Released(old(table.Snapshot()), Note(channel, key), touched)
      ensures volume > 0 && !Ignored(percussion, key) ==>
                && IsPlayed(channel, key, percussion, volume)
                && PlaysNote(old(table.Snapshot()), channel, percussion, key, volume, touched)
      ensures volume > 0 && Ignored(percussion, key) ==> table.Snapshot() == old(table.Snapshot())
    {
      hide Valid, VoiceTable.Valid, InStep, Plays, VoicesStarted, PlayedVoices, NoteIsOff, Freed, SoFar, Starts;
      ValidFacts();
      AllocedWithin();
      ghost var instr := if percussion then GENMIDI_NUM_INSTRS + key - 35 else channels[channel].instrument;
      ghost var free := |table.free|;
      ghost var before := table.Snapshot();
      touched := KeyOnEvent(channel, percussion, key, volume);
      if volume == 0 {
        touched :| Freed(before, table.Snapshot(), touched)
                   && SoFar(before.voices, before.alloced, Note(channel, key), table.opl_drv_ver, table.alloced, [], touched);
      } else if !Ignored(percussion, key) {
        ghost var double_voice := tables.instruments[instr].double_voice;
        BothVoicesPlay(double_voice, table.opl_drv_ver, opl3mode, free);
        FirstIsPlayed(touched, NoteStart(channel, key, NoteOf(instr, if percussion then 60 else key), instr, volume),
                      PlayedVoices(double_voice, table.opl_drv_ver, opl3mode, free));
      }
    }

    /** The event handlers of ProcessEvent. Touched are the voices that the event released or started. */
    method ProcessEvent(track: nat, event: MidiEvent) returns (ghost touched: seq<nat>)
      requires Valid() && EventOk(event) && track * MIDI_CHANNELS_PER_TRACK + MIDI_CHANNELS_PER_TRACK <= |channels|
      modifies this`channels, table, table.next, table.voices, table.chip
      ensures Valid() && |channels| == |old(channels)| && (old(InStep()) ==> InStep())
      ensures Within(old(table.alloced), table.voices.Length)
      ensures forall c: nat | IsSongChannel(track, event.channel, c) :: Sounds(event, c)
      ensures Changes(TrackEvent(track, event), old(TheSong()), TheSong())
      ensures event.MainVolume? || event.ProgramChange? || event.PitchBend? ==> table.alloced == old(table.alloced)
      ensures event.NoteOff? || (event.NoteOn? && event.volume == 0) ==>
                exists c: nat :: IsSongChannel(track, event.channel, c)
                    && Released(old(table.Snapshot()), Note(c, event.key), touched)
      ensures event.AllNotesOffEvent? ==>
                exists c: nat :: IsSongChannel(track, event.channel, c) && Released(old(table.Snapshot()), Channel(c), touched)
      ensures event.NoteOn? && event.volume > 0 && !Ignored(event.channel == 9, event.key) ==>
                exists c: nat :: IsSongChannel(track, event.channel, c)
                  && PlaysNote(old(table.Snapshot()), c, event.channel == 9, event.key, event.volume, touched)
      ensures event.NoteOn? && event.volume > 0 && Ignored(event.channel == 9, event.key) ==>
                table.Snapshot() == old(table.Snapshot())
    {
      hide Valid, VoiceTable.Valid, InStep, IsPlayed, PlaysNote, NoteIsOff, ChannelIsOff, Freed, SoFar,
           VolumesCurrent, FrequenciesCurrent;
      ValidFacts();
      AllocedWithin();
      touched := [];
      var channel := TrackChannel(track, event.channel);
      match event {
        case NoteOff(_, key) =>
          touched := KeyOffEvent(channel, key);
        case NoteOn(_, key, volume) =>
          touched := NoteOnEvent(channel, event.channel == 9, key, volume);
        case MainVolume(_, volume) =>
          SetChannelVolume(channel, volume, true);
        case AllNotesOffEvent(_) =>
          touched := AllNotesOff(channel);
        case ProgramChange(_, instrument) =>
          ProgramChangeEvent(channel, instrument);
        case PitchBend(_, value) =>
          PitchBendEvent(channel, value);
      }
    }

    /** What a step leaves behind. */
    ghost predicate HasEffect(step: PlayerStep)
      reads this, table, table.voices, table.chip
    {
      match step
      case TrackEvent(track, event) => forall c: nat | IsSongChannel(track, event.channel, c) :: Sounds(event, c)
      case Pause =>
        && table.num_opl_voices <= table.voices.Length
        && forall i: nat | i < table.num_opl_voices && Pauses(table.voices[i]) :: !KeyIsOn(table.voices[i], table.chip[..])
      case Stop => table.alloced == []
      case _ => true
    }

    method Perform(step: PlayerStep, ghost tracks: nat)
      requires Valid() && |channels| == tracks * MIDI_CHANNELS_PER_TRACK && StepOk(step, tracks)
      modifies this`channels, this`start_music_volume, this`current_music_volume, table, table.next, table.voices,
               table.chip
      ensures Valid() && |channels| == TracksAfter(step, tracks) * MIDI_CHANNELS_PER_TRACK
      ensures step.Start? || step.Stop? || (!step.Restart? && old(InStep())) ==> InStep()
      ensures HasEffect(step) && Changes(step, old(TheSong()), TheSong())
    {
      hide Valid, InStep, EventOk, KeyIsOn, Pauses, Sounds, VolumesCurrent, VolumeChanges, UnmovedByRestart,
           ChannelChanges, Released;
      match step {
        case TrackEvent(track, event) =>
          TrackFits(track, tracks);
          ghost var touched := ProcessEvent(track, event);
        case Pause =>
          PauseSong();
        case Resume =>
        case MusicVolume(volume) =>
          SetMusicVolume(volume);
        case Restart =>
          RestartSong();
        case Stop =>
          StopSong();
        case Start(num_tracks) =>
          PlaySong(num_tracks);
      }
    }

    /** Over every run of songs, with events of any tracks, pauses, volume changes, restarts and stops, in every driver
        version: the lists partition the voices, the caches agree with the chip, no free voice is left keyed on, and
        unless a restart has reset the channels under playing voices, each playing voice has the volume and the
        frequency that its channel wants. Every step changes the channels as it should, and the last one has its
        effect: a note that was released has no voice, and one that was started is played. */
    method Play(steps: seq<PlayerStep>, ghost tracks: nat) returns (ghost songs: seq<Song>)
      requires Valid() && InStep() && |channels| == tracks * MIDI_CHANNELS_PER_TRACK && StepsOk(steps, tracks)
      modifies this`channels, this`start_music_volume, this`current_music_volume, table, table.next, table.voices,
               table.chip
      ensures Valid() && (StaysInStep(steps) ==> InStep()) && table.num_opl_voices <= table.voices.Length
      ensures Partition(table.free, table.alloced, table.num_opl_voices) && table.voice_alloced_num == |table.alloced|
      ensures forall i: nat | i < table.num_opl_voices ::
                && (table.voices[i].channel != NONE <==> i in table.alloced)
                && (i !in table.alloced ==> !KeyIsOn(table.voices[i], table.chip[..]))
      ensures |songs| == |steps| + 1 && songs[0] == old(TheSong()) && songs[|steps|] == TheSong()
      ensures forall k | 0 <= k < |steps| :: Changes(steps[k], songs[k], songs[k + 1])
      ensures steps != [] ==> HasEffect(steps[|steps| - 1])
    {
      hide Valid, InStep, StepOk, TracksAfter, VoiceTable.Valid, KeyIsOn, Partition, HasEffect, Changes;
      ghost var now := tracks;
      songs := [TheSong()];
      assert steps[0..] == steps;
      for k := 0 to |steps|
        invariant Valid() && |channels| == now * MIDI_CHANNELS_PER_TRACK && StepsOk(steps[k..], now)
        invariant StaysInStep(steps[..k]) ==> InStep()
        invariant |songs| == k + 1 && songs[0] == old(TheSong()) && songs[k] == TheSong()
        invariant forall j | 0 <= j < k :: Changes(steps[j], songs[j], songs[j + 1])
        invariant k > 0 ==> HasEffect(steps[k - 1])
      {
        assert steps[k..][1..] == steps[k + 1..] && steps[..k + 1][..k] == steps[..k];
        Perform(steps[k], now);
        now := TracksAfter(steps[k], now);
        songs := songs + [TheSong()];
      }
      assert steps[..|steps|] == steps;
      ValidFacts();
      FreeVoicesAreOff();
      table.ValidLists();
      PartitionFacts(table.free, table.alloced, table.num_opl_voices);
    }
  }

  // ---------- What the older driver and a full table do to double instruments ----------

  /** A player with the first 1.666 driver and no OPL3 that gets a note of a double instrument while all voices are free:
      it plays the first voice of the instrument twice. */
  method FirstVoiceTwice(t: Tables) returns (player: NotePlayer, ghost started: seq<nat>)
    requires t.Valid() && t.instruments[0].double_voice
    ensures fresh(player) && player.Valid() && player.tables == t && |started| == 2
    ensures exists w :: player.Plays(started[0], w, 0) && player.Plays(started[1], w, 0)
  {
    hide NotePlayer.Valid, NotePlayer.Plays, NotePlayer.InStep, NotePlayer.Starts, Tables.Valid, Freed, SoFar;
    player := new NotePlayer(Doom1_1_666, false, t);
    player.PlaySong(1);
    player.SizesStay();
    player.FreeAtStart();
    started := player.KeyOnEvent(0, false, 60, 100);
    assert player.Plays(started[0], NoteStart(0, 60, player.NoteOf(0, 60), 0, 100), 0);
  }

  /** A player with the 1.9 driver whose nine voices all play: a double instrument gets one voice only. */
  method OneVoiceOnly(t: Tables) returns (player: NotePlayer, ghost started: seq<nat>)
    requires t.Valid() && t.instruments[0].double_voice && !t.instruments[1].double_voice
    ensures fresh(player) && player.Valid() && player.tables == t && |started| == 1
    ensures exists w :: player.Plays(started[0], w, 0)
  {
    hide NotePlayer.Valid, NotePlayer.Plays, NotePlayer.InStep, NotePlayer.Starts, Tables.Valid, Freed, SoFar;
    player := new NotePlayer(Doom_1_9, false, t);
    player.PlaySong(1);
    player.FreeAtStart();
    TableSizes(t);
    player.ProgramChangeEvent(0, 1);
    for k := 0 to OPL_NUM_VOICES
      invariant fresh(player) && fresh(player.table) && fresh(player.table.next) && fresh(player.table.voices)
      invariant fresh(player.table.chip)
      invariant player.Valid() && |player.channels| == 16 && player.channels[0].instrument == 1
      invariant |player.table.free| == OPL_NUM_VOICES - k
    {
      ghost var single := player.KeyOnEvent(0, false, 60 + k, 100);
    }
    player.ProgramChangeEvent(0, 0);
    started := player.KeyOnEvent(0, false, 50, 100);
    assert player.Plays(started[0], NoteStart(0, 50, player.NoteOf(0, 50), 0, 100), 0);
  }

  // ---------- What a restart does to voices that still play ----------

  lemma StaleVoice(v: Voice, t: Tables, channels0: seq<ChannelData>, channels1: seq<ChannelData>)
    requires t.Valid() && t.volume_map[0] == 0 && t.volume_map[100] == 114 && t.volume_map[127] == 127
    requires IsCurrent(v, t, channels0) && v.note_volume == 127 && channels0[v.channel].volume == 0
    requires |channels1| == |channels0| && channels1[v.channel].volume == 100
    ensures !IsCurrent(v, t, channels1)
  {
    assert t.CarrierVolume(127, 0) == 63 && t.CarrierVolume(127, 100) == 6;
  }

  lemma FirstPlays(player: NotePlayer, i: nat, w: NoteStart, instr_voice: nat)
    requires player.Plays(i, w, instr_voice)
    ensures i < player.table.num_opl_voices <= player.table.voices.Length
    ensures player.table.voices[i].channel == w.channel && player.table.voices[i].note_volume == w.volume
  {}

  lemma CurrentOf(player: NotePlayer, i: nat, channel: nat)
    requires player.table.num_opl_voices <= player.table.voices.Length && i < player.table.num_opl_voices
    requires player.VolumesCurrent(channel, channel + 1, player.table.num_opl_voices)
    requires player.table.voices[i].channel == channel
    ensures IsCurrent(player.table.voices[i], player.tables, player.channels)
  {}

  /** A note is played, its channel is turned down, and the song restarts: the channel has its volume back, but the note
      stays as quiet as it was. The three entries of the volume table are those of the source. */
  method StaleAfterRestart(ver: DriverVersion, opl3: bool, t: Tables) returns (player: NotePlayer, ghost voice: nat)
    requires t.Valid() && t.volume_map[0] == 0 && t.volume_map[100] == 114 && t.volume_map[127] == 127
    ensures fresh(player) && player.Valid() && player.tables == t
    ensures voice < player.table.num_opl_voices <= player.table.voices.Length
    ensures player.table.voices[voice].channel == 0 && !IsCurrent(player.table.voices[voice], t, player.channels)
  {
    hide NotePlayer.Valid, NotePlayer.Plays, NotePlayer.InStep, NotePlayer.VolumesCurrent, NotePlayer.UnmovedByRestart,
         NotePlayer.Starts, NotePlayer.NoteIsOff, Tables.Valid, IsCurrent, Freed, SoFar;
    player := new NotePlayer(ver, opl3, t);
    player.PlaySong(1);
    TableSizes(t);
    ghost var played := PlayedVoices(t.instruments[0].double_voice, ver, opl3, |player.table.free|);
    ghost var started := player.KeyOnEvent(0, false, 60, 127);
    voice := started[0];
    FirstPlays(player, voice, NoteStart(0, 60, player.NoteOf(0, 60), 0, 127), played[0]);
    player.SetChannelVolume(0, 0, false);
    CurrentOf(player, voice, 0);
    ghost var before := player.channels;
    player.RestartSong();
    StaleVoice(player.table.voices[voice], t, before, player.channels);
  }
}
