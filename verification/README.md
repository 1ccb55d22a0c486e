# Verified models of the Chocolate Doom engine layer

This project models the parts of the engine layer that carry state machines, allocators, caches and exact arithmetic,
and proves what they promise. `dafny verify dfyconfig.toml` checks all of it.

* **AES counter-mode generator** (`Aes*.dfy`). The table-driven cipher, its unrolled key schedules and the buffered word
  stream are proved equal to FIPS 197 written down as a simple specification (`AesSpec`). The S-box is an arbitrary
  256-entry function and the T-tables are given by formula from it, so the theorem holds for every S-box.
* **FM synthesizer** (`OplEnvelope`, `OplSynth`, `OplOperator`, `OplChannel`, `OplHistory`, `OplLfo`). The envelope under
  arbitrary register writes, the samples that a channel adds to the buffer in each of eight modes, the fast path that
  skips silent channels, and the chunked low-frequency oscillator against a one-sample-at-a-time reference. Rate tables are arbitrary bounded values; a waveform is an arbitrary function,
  cut off where the attenuation reaches its limit.
* **Callback queue and scheduler** (`OplQueue`, `OplScheduler`). A binary heap in an array as a bounded priority queue;
  the audio callback with its pausable clock, its two roundings and the song player whose callbacks schedule callbacks.
  Between two rounds of the audio callback the control thread may change the pause flag.
* **Locking** (`OplLocks`). Both drivers as one state machine of atomic steps of a worker and any number of control
  threads.
* **Music voices** (`OplVoiceLists`, `OplVoices`, `OplRegisters`, `OplNotes`). Two lists threaded through one table of
  voices, three replacement policies, and register caches that skip writes, for all three driver versions and both chip
  modes. Pointers are numbers, with `NONE` for null; the link of a voice is an array beside the voices. The frequency
  curve and the volume table are arbitrary tables with the bounds of the originals.
* **Dehacked strings** (`DehTable`, `DehFormat`). The open-addressing table, whose growth can nest, against a map with
  last write wins; and the check of replacement format strings.
* **Tic loop** (`TicLoop`). The ring of player commands against two unbounded logs, what was built and what was received.
  The outside world (network events, clocks, player input) is a finite sequence of inputs.
* **Sound cache** (`SoundCache`). The doubly linked list with use counts and a budget. Memory is a map from live blocks,
  so reading a freed block would not verify; whether an allocation succeeds is a parameter.

Methods follow the source functions step by step; loops and branches that are long in the source are separate methods
here. Where a method must not fail, the source's `I_Error` for that case is an assertion.

What turned out to differ from what one might expect, and is stated exactly:

* The early return for silent carriers can drop one delayed sample in the modes that add the first operator
  (`OplChannel.Channel.SkippedBlock` says exactly when). It takes a write to the level or frequency registers of the first
  operator after the last sample, or a four-operator block in which the channel before plays that operator
  (`OplHistory.SkipIsExact`; `OplHistory.DroppedSample` and `OplHistory.DroppedByOtherChannel` are examples).
* The first 1.666 driver without OPL3 mode never plays the second voice of a double instrument; with two free voices it
  plays the first one twice. The 1.9 driver plays the second one only if two voices were free
  (`OplNotes.BothVoicesPlay`, `OplNotes.NotePlayer.KeyOnEvent`; `OplNotes.FirstVoiceTwice` and `OplNotes.OneVoiceOnly`
  are examples).
* Clearing the callback queue while holding OPL_Lock does not stop a callback that was already taken out
  (`OplLocks.ClearUnderLock`, and `OplLocks.ClearTooLateHappens` for a run).
* A callback set while the timer thread sleeps through a counted pause can come up to 50 ms early
  (`OplLocks.EarlyCallback`, and `OplLocks.EarlyCallbackHappens` for a run).
* RestartSong resets the channels under voices that still play, which then keep their old volume and frequency
  (`OplNotes.NotePlayer.RestartSong` says when that matters, `OplNotes.StaleAfterRestart` is an example).
* I_SDL_StartSound leaves a reference to the unshifted sound behind for good when the wanted pitch is the normal one or
  is already being played on another channel (`SoundCache.Cache.StartSound`, and `SoundCache.LeftoverReference` for an
  example). An effect started at the normal pitch is therefore never freed again (`SoundCache.Cache.PlayAll`).
* The counter of the Dehacked table is never reset when the table grows, so it only bounds the number of used slots.

## Model

| member | source | states |
|---|---|---|
| AesMixColumns.XtimeIsConditional | src/aes_prng.c:648 | multiplication by x is the conditional form of section 4.2.1 of FIPS 197: shift, then xor 0x1b exactly when the top bit was set |
| AesMixColumns.MixColumnInverse | src/aes_prng.c:650-659 | MixColumns and InvMixColumns undo each other on every column, in both directions (section 5.3.3) |
| AesWords.UnpackPack | src/aes_prng.c:103-106 | packing a column into a little-endian word and reading its bytes gives the column back |
| AesWords.PackUnpack | src/aes_prng.c:103-106 | reading the bytes of a word and packing them gives the word back |
| AesWords.RorRotates | src/aes_prng.c:640-643 | aes_ror32 by 8, 16 or 24 rotates the bytes of a word |
| AesWords.FtSumIsMixColumn | src/aes_prng.c:813-818 | four forward-table entries xored with a key word are MixColumns of the substituted column plus the round key |
| AesWords.FlSumIsColumn | src/aes_prng.c:828-833 | four last-round-table entries xored with a key word are the substituted column plus the round key |
| AesImixCol.StarXOnBytes | src/aes_prng.c:648 | star_x doubles all four bytes of a word in the field at once |
| AesImixCol.ImixColIsInvMixColumn | src/aes_prng.c:650-659 | imix_col, built on packed doublings and rotations, is InvMixColumns of the column |
| AesCipher.LsBoxIsSubColumn | src/aes_prng.c:661-665 | ls_box substitutes each byte of a word |
| AesCipher.RcoIsRcon | src/aes_prng.c:667-708 | the ten round constants of the table are the powers of x of section 5.2 |
| AesCipher.FrnIsRoundColumn | src/aes_prng.c:813-818 | f_rn computes one column of a main round: SubBytes, ShiftRows, MixColumns, AddRoundKey |
| AesCipher.FrlIsRoundColumn | src/aes_prng.c:828-833 | f_rl computes one column of the final round, which has no MixColumns |
| AesCipher.AesContext.Loop4 | src/aes_prng.c:667-678 | extends the schedule of a 16-byte key by four words of KeyExpansion |
| AesCipher.AesContext.Loop6 | src/aes_prng.c:680-695 | extends the schedule of a 24-byte key by six words of KeyExpansion |
| AesCipher.AesContext.Loop8 | src/aes_prng.c:710-720 | extends the schedule of a 32-byte key by eight words of KeyExpansion, with the extra substitution |
| AesCipher.AesContext.ExpandRounds | src/aes_prng.c:752-775 | all rounds of all three key sizes stay inside the 60-word array and give every word of KeyExpansion |
| AesCipher.AesContext.FillDecryptionKey | src/aes_prng.c:777-790 | key_dec is the schedule read backwards by rounds, with InvMixColumns on the inner round keys (section 5.3.5) |
| AesCipher.AesContext.AES_ExpandKey | src/aes_prng.c:736-793 | accepts exactly 16, 24 and 32 bytes; then key_enc is KeyExpansion and key_dec the equivalent inverse schedule |
| AesCipher.AesContext.AES_SetKey | src/aes_prng.c:799-809 | the public entry gives both schedules in the same way; for other lengths it returns the error code and changes nothing |
| AesCipher.AesContext.FnRound | src/aes_prng.c:820-826 | f_nround maps one buffer to the next as one main round on the state |
| AesCipher.AesContext.FlRound | src/aes_prng.c:835-840 | f_lround maps the last buffer to the final round of the state |
| AesCipher.AesContext.MainRounds | src/aes_prng.c:862-875 | the alternating buffers b0 and b1 after all main rounds hold the state after all but the last round, for every key size |
| AesCipher.AesContext.AES_Encrypt | src/aes_prng.c:842-881 | for every block, key size and S-box the table implementation is the Cipher of section 5.1 of FIPS 197 |
| AesPrng.StreamAt | src/aes_prng.c:906-955 | random value n is little-endian word n mod 4 of the encryption of the block of counters 4q to 4q+3, q = n / 4, modulo 2^32 |
| AesPrng.StreamRepeats | src/aes_prng.c:885-955 | the stream has period 2^32 |
| AesPrng.Prng.PRNG_Start | src/aes_prng.c:891-897 | starts the stream of a key at its first value |
| AesPrng.Prng.PRNG_Stop | src/aes_prng.c:899-902 | disables the generator |
| AesPrng.Prng.PRNG_Generate | src/aes_prng.c:906-933 | fills the buffer with the next four words of the stream and advances the counter by four, modulo 2^32 |
| AesPrng.Prng.PRNG_Random | src/aes_prng.c:937-955 | returns the next value of the stream, or 0 when the generator is disabled |
| DehTable.StrHash | src/deh_str.c:41-53 | the loop computes the polynomial hash of the string modulo 2^32 |
| DehTable.SomeSlotEmpty | src/deh_str.c:145-166 | a table whose counter is below its length has an empty slot, although the counter is only an upper bound |
| DehTable.StoredKeyIsProbed | src/deh_str.c:55-75 | with no gap between a key and its home slot, probing from the home slot meets the key before an empty slot |
| DehTable.FillSlot | src/deh_str.c:157-165 | storing a key in the first empty slot of its probe sequence keeps every other key reachable |
| DehTable.ReplaceAll | src/deh_str.c:168-206 | after any sequence of replacements the table holds exactly the last text given for each string |
| DehTable.LastWriteWins | src/deh_str.c:168-206 | of the replacements for one string the last counts; a string that none names is as before, and no other appears |
| DehTable.StringTable.SubstitutionForString | src/deh_str.c:55-75 | ends for every string and finds its entry if and only if the table contains the string |
| DehTable.StringTable.String | src/deh_str.c:83-97 | DEH_String is the replacement if there is one and the string itself otherwise |
| DehTable.StringTable.InitHashTable | src/deh_str.c:99-110 | starts with an empty table |
| DehTable.StringTable.IncreaseHashtable | src/deh_str.c:112-143 | doubles the table, keeps its contents, and terminates even though re-inserting can start another increase |
| DehTable.StringTable.InsertAgain | src/deh_str.c:128-137 | re-inserting one entry during an increase adds it and loses nothing, whether or not the table grows again meanwhile |
| DehTable.StringTable.AddToHashtable | src/deh_str.c:145-166 | adds exactly one entry for a new string, growing first when needed, even if that grows the table several times; an empty slot remains |
| DehTable.StringTable.FindEmpty | src/deh_str.c:157-163 | the probe for an empty slot ends |
| DehTable.StringTable.AddStringReplacement | src/deh_str.c:168-206 | maps the string to the new text and leaves all other strings alone |
| DehFormat.NextFormatArgument | src/deh_str.c:254-301 | returns the type of the next conversion and leaves the rover just after it; at the end of the string the rover is null |
| DehFormat.ValidFormatReplacement | src/deh_str.c:329-367 | true if and only if the argument types of the replacement are a pointwise compatible prefix of those of the original |
| DehFormat.CompatibleIsReflexive | src/deh_str.c:329-367 | every format string is an acceptable replacement of itself |
| DehFormat.CompatibleIsTransitive | src/deh_str.c:303-367 | an acceptable replacement of an acceptable replacement is acceptable |
| DehFormat.FormatStringReplacement | src/deh_str.c:369-386 | uses the replacement if it is acceptable, otherwise the original |
| OplEnvelope.AttackLowers | opl/dbopl.c:418-447 | every attack step of a nonnegative volume that moves lowers it |
| OplEnvelope.AttackStepSize | opl/dbopl.c:418-434 | one attack step takes an eighth of the volume plus one off the volume for each unit of the rate counter, rounded up; if that is more than there is, the attack ends at full volume |
| OplEnvelope.DecayClosedForm | opl/dbopl.c:435-447 | k decay samples give v0 + floor((r0 + k * decayAdd) / 2^24) until that reaches the sustain level, which ends the phase |
| OplEnvelope.StepKeepsRange | opl/dbopl.c:410-477 | one sample keeps the volume in 0..511 and the rate counter below 2^24; only attack lowers the volume |
| OplEnvelope.StepsKeepRange | opl/dbopl.c:410-477 | the same after any number of samples |
| OplEnvelope.ReleaseClosedForm | opl/dbopl.c:410-466 | k release samples give min(511, v0 + floor((r0 + k * releaseAdd) / 2^24)) |
| OplEnvelope.CeilingReaches | opl/dbopl.c:410-416 | k steps reach a distance exactly from the rounded-up quotient on |
| OplEnvelope.ReleaseReachesOff | opl/dbopl.c:448-466 | a releasing envelope is OFF after k samples if and only if k is at least the computed bound |
| OplEnvelope.QuietStays | opl/dbopl.c:577-583 | an envelope at full attenuation that cannot come back stays there |
| OplOperator.RegisterBits | opl/dbopl.c:363-408 | what the fields of the level, sustain and key scaling registers mean: steps of four, none, half, a quarter or all of the key scale level, steps of 16 with 496 last, and the key code or its octave |
| OplOperator.Operator.UpdateAttack | opl/dbopl.c:323-332 | attackAdd and the attack bit of rateZero follow from the registers |
| OplOperator.Operator.UpdateDecay | opl/dbopl.c:334-343 | decayAdd and the decay bit follow from the registers |
| OplOperator.Operator.UpdateRelease | opl/dbopl.c:345-361 | releaseAdd, the release bit and, without sustain, the sustain bit follow from the registers |
| OplOperator.Operator.UpdateAttenuation | opl/dbopl.c:363-370 | totalLevel follows from the level register and the key scaling |
| OplOperator.Operator.UpdateRates | opl/dbopl.c:395-408 | after a change of key scaling all derived rates are current, although nothing is done when it is unchanged |
| OplOperator.Operator.Write20 | opl/dbopl.c:498-521 | keeps the operator valid and every derived field current, although updates are skipped for unchanged bits |
| OplOperator.Operator.Write40 | opl/dbopl.c:523-528 | the same for the level register |
| OplOperator.Operator.Write60 | opl/dbopl.c:530-539 | the same for attack and decay |
| OplOperator.Operator.Write80 | opl/dbopl.c:541-554 | the same for sustain and release |
| OplOperator.Operator.SetChanData | opl/dbopl.c:695-711 | the same for the channel data, operator by operator |
| OplOperator.Operator.KeyOn | opl/dbopl.c:598-610 | starts the attack with a zero counter, and the waveform from its beginning, only if no key mask was set |
| OplOperator.Operator.KeyOff | opl/dbopl.c:612-619 | releases only when the last key mask goes and the operator is not already off |
| OplOperator.Operator.RateForward | opl/dbopl.c:410-416 | adds to the counter, returns its carry and keeps the rest |
| OplOperator.Operator.TemplateVolume | opl/dbopl.c:418-472 | each state of the envelope steps as the specification says |
| OplOperator.Operator.SilentIsQuiet | opl/dbopl.c:577-583 | an operator that passes the test is quiet: nothing but a register write or key event can bring it back |
| OplOperator.Operator.Prepare | opl/dbopl.c:585-596 | leaves the envelope alone; the level of a block is the total level plus the tremolo value if the operator has tremolo, and the phase increment is the one given |
| OplOperator.Operator.GetSample | opl/dbopl.c:638-649 | steps the envelope and the phase once and returns what the operator then sounds like |
| OplSynth.OneMoreSample | opl/dbopl.c:418-496 | one sample at a time is n samples at once: the envelope steps n times, and the phase counter advances by n increments modulo 2^32 |
| OplSynth.QuietSamples | opl/dbopl.c:577-649 | a quiet operator stays quiet and gives zeros, however it is modulated |
| OplSynth.ShiftDivides | opl/dbopl.c:992 | the feedback shift divides a sum that is not negative |
| OplSynth.NoFeedback | opl/dbopl.c:992 | the shift by 31 that stands for no feedback leaves only the sign of the sum |
| OplSynth.NextSample | opl/dbopl.c:986-1030 | a sample after n samples is the next sample, in all eight modes |
| OplSynth.QuietHeard | opl/dbopl.c:914-960 | of a channel with quiet carriers nothing is heard but, in the modes that add it, the one delayed sample of the first operator |
| OplSynth.OneMorePlayed | opl/dbopl.c:1031-1048 | each sample is added to its own slot of the buffer, on the enabled sides, and to no other |
| OplSynth.QuietPlayed | opl/dbopl.c:914-1048 | with quiet carriers at most the first slot of the buffer changes, and only in the modes that add the first operator |
| OplChannel.SettledByBlock | opl/dbopl.c:986-993 | after a block that is not empty, a first operator too quiet to be heard has no delayed sample |
| OplChannel.Channel.PlayOne | opl/dbopl.c:986-1048 | one pass of the loop: the first operator gets the shifted sum of its last two samples, the others are chained as the mode says, each steps once, and the result is added to the slot of the buffer |
| OplChannel.Channel.SampleLoop | opl/dbopl.c:966-1048 | slot i of the buffer gets exactly sample i of the channel, in all eight modes; the operators and the two kept samples are those after so many samples, and the rest of the buffer is as it was |
| OplChannel.Channel.BlockTemplate | opl/dbopl.c:911-1069 | a channel with silent carriers is skipped: buffer and operators stay as they were; any other adds exactly its samples to the buffer |
| OplChannel.Channel.SettledIsExact | opl/dbopl.c:914-960 | a channel whose first operator was already too quiet at its last sample loses nothing by being skipped, in any of the eight modes |
| OplChannel.Channel.SkippedBlock | opl/dbopl.c:914-960 | the full loop would leave the buffer as it is if and only if the mode does not add the first operator, there are no samples, or its delayed output is zero or masked; always if that operator was already too quiet at its last sample |
| OplHistory.PlayBlock | opl/dbopl.c:638-649 | each sample of a block is what the operator sounds like after one more step of its envelope and its phase |
| OplHistory.QuietBlock | opl/dbopl.c:577-649 | a block of a quiet operator is all zeros, and the operator is quiet after it |
| OplHistory.Perform | opl/dbopl.c:498-619 | every event does what it should (a register write stores the value, a key starts or releases the note, a block plays its samples), keeps the operator valid and its derived fields current |
| OplHistory.History | opl/dbopl.c:498-619 | after any history the registers hold what was written last, and every derived field is what they determine, whatever writes were skipped |
| OplHistory.PlayBlocks | opl/dbopl.c:577-649 | if an operator passes the silence test, every sample of every block is 0 until a register is written or a key event comes |
| OplHistory.SilentAfterHistory | opl/dbopl.c:577-649 | after any history, if the silence test holds, every further sample of every further block is 0 |
| OplHistory.ReleasedNoteEnds | opl/dbopl.c:612-619 | a released note is off after a block if and only if the block has at least the computed number of samples |
| OplHistory.SkipIsExact | opl/dbopl.c:911-1059 | over every history of a channel: skipping is exact in all eight modes unless, since the last block of the channel that was not empty, the level or frequency registers of the first operator were written or the operator was played by the four-operator block of the channel before |
| OplHistory.DroppedSample | opl/dbopl.c:914-960 | after a write to its level register it may not be: a note plays one sample, its level register is written, and the skipped channel still has a sample to play |
| OplHistory.DroppedByOtherChannel | opl/dbopl.c:966-1050 | nor after a four-operator block of the channel before: a note plays one sample, both channels fade out in a four-operator mode, and the second one, on its own again, is skipped with a sample still to play |
| OplLfo.TicksAdd | opl/dbopl.c:1090-1117 | advancing a + b samples one at a time is advancing a, then b |
| OplLfo.TicksClosedForm | opl/dbopl.c:1090-1117 | after n samples the counter has wrapped around floor((c0 + n * lfoAdd) / 2^20) times, and the positions of vibrato and tremolo have moved on by as many, modulo 32 and 52 |
| OplLfo.TremoloTriangle | opl/dbopl.c:1537-1541 | the tremolo table is a triangle: it rises by one and falls as it rose |
| OplLfo.Jump | opl/dbopl.c:1090-1117 | one chunked step equals as many single samples |
| OplLfo.ChunkReference | opl/dbopl.c:1090-1117 | inside a chunk the modulation values are constant |
| OplLfo.ReferenceAdd | opl/dbopl.c:1277-1309 | the reference output of a + b samples is that of a followed by that of b |
| OplLfo.RunwayIsPositive | opl/dbopl.c:1098-1108 | a chunk is never empty |
| OplLfo.Chip.SetCurrent | opl/dbopl.c:1094-1097 | the current vibrato and tremolo values are those of the table position, which is in range |
| OplLfo.Chip.ForwardLFO | opl/dbopl.c:1090-1117 | returns a chunk of at least one and at most the requested samples and leaves the state that many single samples would |
| OplLfo.Chip.GenerateBlock | opl/dbopl.c:1277-1309 | the chunks sum to the requested total and give each sample the modulation of the one-at-a-time reference |
| OplQueue.RootIsMinimum | opl/opl_queue.c:65-112 | in a heap no entry is due before the first |
| OplQueue.SiftUp | opl/opl_queue.c:83-103 | moving a too-early entry up one level keeps the rest of the heap in order |
| OplQueue.SiftDown | opl/opl_queue.c:137-186 | moving a too-late entry down to its earlier child keeps the rest of the heap in order |
| OplQueue.StretchIsMonotone | opl/opl_queue.c:204-215 | scaling by a nonnegative factor never reorders two deadlines, however float arithmetic rounds |
| OplQueue.Drain | opl/opl_queue.c:246-279 | popping until the queue is empty yields what was pushed, sorted by time |
| OplQueue.CallbackQueue.Push | opl/opl_queue.c:65-112 | adds exactly one entry, or leaves a full queue unchanged; the heap stays ordered |
| OplQueue.CallbackQueue.Pop | opl/opl_queue.c:114-190 | removes one entry that is due first and nothing else; the heap stays ordered |
| OplQueue.CallbackQueue.Peek | opl/opl_queue.c:192-202 | returns the first deadline, or 0 for an empty queue |
| OplQueue.CallbackQueue.AdjustCallbacks | opl/opl_queue.c:204-215 | scales every deadline about the base time and keeps the heap ordered, when the factor is nonnegative and no entry is before the base |
| OplScheduler.RoundingsCompose | opl/opl_sdl.c:116-116 | waiting n samples lasts at least us microseconds if and only if n is at least the rounded-up number of samples |
| OplScheduler.OvershootBelowOneSample | opl/opl_sdl.c:231-232 | waiting the rounded-up number of samples overshoots by less than one sample |
| OplScheduler.DelayFacts | src/i_oplmusic.c:1470-1479 | a beat of ticks lasts a beat of time, any other delay is rounded down to a microsecond, and none is left at the end of a track |
| OplScheduler.ElapsedBounds | opl/opl_sdl.c:106-122 | the clock never runs ahead of the samples, and each chunk loses less than a microsecond to rounding |
| OplScheduler.EffectOutcome | src/i_oplmusic.c:1429-1468 | what a callback does never makes the rest of the song longer, except that one restart |
| OplScheduler.ReadingOneEvent | src/midifile.c:685-698 | reading an event leaves one event fewer |
| OplScheduler.AgreesPop | opl/opl_sdl.c:127-136 | taking an entry out of the queue takes exactly that callback out of the pending ones |
| OplScheduler.PoppedTimer | src/i_oplmusic.c:1429-1446 | a track whose timer fires still counts as running, so running_tracks never drops below zero |
| OplScheduler.FiringKeepsOrder | opl/opl_sdl.c:127-148 | invoking what is due first keeps all invocations in deadline order, none before its deadline |
| OplScheduler.RoundsAreBounded | opl/opl_sdl.c:127-151 | with tempo events that move all pending timers in any way, the number of callbacks one AdvanceTime invokes is bounded from the start, and at most one of them is a restart |
| OplScheduler.RoundKeepsAdvancing | opl/opl_sdl.c:127-148 | one round of the loop keeps: at most one restart altogether, every invocation at the present clock, and deadlines no earlier than the given bound or set just now |
| OplScheduler.MorePrompt | opl/opl_sdl.c:127-148 | what one call invokes is less than one sample late if the earliest deadline was |
| OplScheduler.Player.SetCallback | opl/opl_sdl.c:489-496 | schedules at the pausable clock plus the delay, or drops the callback when the queue is full |
| OplScheduler.Player.ClearCallbacks | opl/opl_sdl.c:498-503 | leaves nothing pending |
| OplScheduler.Player.ScheduleTrack | src/i_oplmusic.c:1470-1484 | schedules a track after the delay of its next event, or drops it when the queue is full |
| OplScheduler.Player.TrackTimerCallback | src/i_oplmusic.c:1429-1468 | reads one event; at the end of a track counts it out and, for the last track of a looping song, schedules one restart; otherwise schedules the track again (songs without tempo events) |
| OplScheduler.Player.RestartSongCallback | src/i_oplmusic.c:1407-1424 | rewinds every track and schedules each, as many as the queue can hold, at its first event from now |
| OplScheduler.Player.PlaySong | src/i_oplmusic.c:1505-1556 | afterwards the timer of every track, as many as the queue can hold, is pending at the delay of its first event from now, and nothing else |
| OplScheduler.Player.Invoke | opl/opl_sdl.c:144-148 | a callback does exactly what the song demands: the next event of its track, or a restart |
| OplScheduler.Player.InvokeNext | opl/opl_sdl.c:127-151 | takes out a callback that is due first, invokes it once, and that does exactly what the song demands |
| OplScheduler.Player.AdvanceTime | opl/opl_sdl.c:106-154 | for every song without tempo events: ends, even for a looping song without delays; at most one restart runs; everything due is invoked in deadline order, never early, and does exactly what the song demands; nothing due remains |
| OplScheduler.Player.ChunkLength | opl/opl_sdl.c:217-240 | the next chunk ends at the buffer end or when a callback is due, and the subtraction of times never wraps |
| OplScheduler.Player.FillBuffer | opl/opl_sdl.c:158-192 | writes exactly the next samples of the chip, in both channels |
| OplScheduler.Player.MixCallback | opl/opl_sdl.c:196-251 | fills the whole buffer with consecutive samples; the clock advances by the length of each chunk, or not at all while paused; every callback of a song without tempo events runs less than one sample after its deadline and does exactly what the song demands |
| OplLocks.StepKeepsInv | opl/opl_timer.c:61-162 | every step of every thread keeps: who owns a mutex is exactly who is in a section protected by it, and the next time lies ahead |
| OplLocks.RunKeepsInv | opl/opl_timer.c:61-162 | the same over every interleaving |
| OplLocks.CallbacksRunLocked | opl/opl_timer.c:120-126 | in every interleaving a callback runs only while the worker holds the callback mutex, no control thread is inside OPL_Lock, and it is never early |
| OplLocks.PollTakesFirst | opl/opl_timer.c:61-116 | the worker takes out a callback that is due first, and none only if nothing is due or the timer thread finds playback paused |
| OplLocks.SleepsUntilFirst | opl/opl_timer.c:61-90 | with nothing to do the timer thread sleeps until the first deadline, or for 50 ms |
| OplLocks.QueueOwnerMoves | opl/opl_timer.c:102-116 | the owner of the queue mutex never waits |
| OplLocks.WaitingChainsEnd | opl/opl_sdl.c:112-153 | no deadlock is reachable: from any waiting thread at most two links lead to a thread that can move |
| OplLocks.StepMovesClock | opl/opl_timer.c:61-90 | time never goes back; a completed update strictly advances it; a pause that was counted leaves the virtual clock where it was |
| OplLocks.ClockOverRuns | opl/opl_timer.c:132-162 | over every interleaving the virtual clock stands still unless the worker found playback running |
| OplLocks.TimerIteration | opl/opl_timer.c:132-162 | a whole iteration of the timer thread strictly advances current_time and, if it found playback paused, leaves current_time - pause_offset unchanged |
| OplLocks.NeverEarlier | opl/opl_timer.c:212-218 | in no interleaving does a callback come before the settled clock plus its delay, or before IDLE_TIME less than that if it was set while the thread slept through a counted pause |
| OplLocks.EarlyCallback | opl/opl_timer.c:61-116 | some interleaving brings a callback before its delay has passed on the settled clock if and only if it is set while the thread sleeps through a pause already counted, and the delay is not zero; if something else is due before it, no thread inside OPL_Lock may be about to clear or move the queue |
| OplLocks.EarlyCallbackHappens | opl/opl_timer.c:61-116 | this happens from a start with an empty queue, for every delay but zero; the run is given |
| OplLocks.ClearedStaysSilent | opl/opl_sdl.c:498-503 | once nothing is queued or in flight, no interleaving invokes a callback until one is set |
| OplLocks.ClearUnderLock | opl/opl_sdl.c:127-151 | after clearing the queue between OPL_Lock and OPL_Unlock no interleaving runs a callback until one is set, if and only if none had already been taken out of the queue |
| OplLocks.ClearTooLateHappens | opl/opl_sdl.c:127-151 | it happens: a run from the start to a callback that is invoked after the queue was cleared under OPL_Lock |
| OplVoiceLists.PartitionFacts | src/i_oplmusic.c:391-486 | what each voice exactly once means: no duplicates, no voice on both lists, none missing, and the lengths add up |
| OplVoiceLists.HookedLinks | src/i_oplmusic.c:412-420 | hooking a voice onto the end of a list gives a chain through exactly the longer list |
| OplVoiceLists.UnhookedLinks | src/i_oplmusic.c:427-449 | unhooking a voice gives a chain through exactly the rest, in order |
| OplVoiceLists.KeyRegistersApart | src/i_oplmusic.c:686-690 | no two voices share a key register |
| OplVoiceLists.RunIsPrefix | src/i_oplmusic.c:453-486 | what a release frees is a stretch of the allocated list beginning with the given voice |
| OplVoiceLists.KeyedOffAt | src/i_oplmusic.c:453-486 | keying off a run of voices clears exactly their key registers to their frequency bits |
| OplVoiceLists.ReleaseKeepsConsistent | src/i_oplmusic.c:453-486 | a voice has a channel if and only if it is allocated, and every free voice is keyed off, before and after releasing a run |
| OplVoiceLists.KeptIsSelected | src/i_oplmusic.c:714-760 | after a note is released no voice of it is allocated; in driver 1.9 exactly its voices are freed |
| OplVoiceLists.ReleasedAreGone | src/i_oplmusic.c:714-760 | after a note, or a channel, is released no voice of it is left, on either list |
| OplVoiceLists.KeptAndDropped | src/i_oplmusic.c:714-760 | releasing a note loses and invents no voice |
| OplVoiceLists.FreedTwice | src/i_oplmusic.c:453-486 | two releases in a row are one release of both runs |
| OplVoiceLists.TakenConsistent | src/i_oplmusic.c:391-421 | giving the first free voice a channel keeps the table consistent |
| OplVoices.VoiceTable.InitRegisters | opl/opl.c:342-415 | every key register is zero afterwards |
| OplVoices.VoiceTable.InitVoices | src/i_oplmusic.c:625-645 | every voice has its own operators and registers and is on the free list exactly once |
| OplVoices.VoiceTable.GetFreeVoice | src/i_oplmusic.c:391-421 | moves the first free voice to the end of the allocated list, or reports that there is none |
| OplVoices.VoiceTable.RemoveVoiceFromAllocedList | src/i_oplmusic.c:427-449 | takes out exactly the given voice, or leaves the list alone if it is not on it |
| OplVoices.VoiceTable.ReleaseVoice | src/i_oplmusic.c:453-486 | frees the voice and, in the older drivers, the voices after it for as long as a second voice was freed, keying those off |
| OplVoices.VoiceTable.FreeVoice | src/i_oplmusic.c:686-690 | keying off and releasing keeps the whole table valid |
| OplVoices.VoiceTable.ReleaseWhere | src/i_oplmusic.c:714-760 | removes from the allocated list what belongs to a note, although releasing one voice can remove several |
| OplVoices.VoiceTable.FindLastAfterSecond | src/i_oplmusic.c:768-794 | finds the last of the highest channels from the last second voice on |
| OplVoices.VoiceTable.FindFirstHighest | src/i_oplmusic.c:799-816 | finds the first of the highest channels |
| OplVoices.VoiceTable.FindFirstLowest | src/i_oplmusic.c:818-849 | finds the first of the lowest priorities among eligible voices, without running off the list |
| OplVoices.VoiceTable.ReplaceExistingVoice | src/i_oplmusic.c:768-794 | gives up that voice (driver 1.9) |
| OplVoices.VoiceTable.ReplaceExistingVoiceDoom1 | src/i_oplmusic.c:799-816 | gives up that voice (first driver) |
| OplVoices.VoiceTable.ReplaceExistingVoiceDoom2 | src/i_oplmusic.c:818-849 | gives up that voice (second driver) |
| OplVoices.VoiceTable.ReleaseAll | src/i_oplmusic.c:1609-1620 | every voice is free afterwards, although each release can free several |
| OplRegisters.OwnersApart | src/i_oplmusic.c:490-557 | no register belongs to two voices |
| OplRegisters.FreedCoherent | src/i_oplmusic.c:453-486 | keying off and releasing a run keeps every register cache of every voice coherent |
| OplRegisters.LoadPatchHolds | src/i_oplmusic.c:490-549 | after programming an instrument both operators and the feedback register hold it |
| OplRegisters.LevelsAreSet | src/i_oplmusic.c:563-610 | after a volume change both level registers hold the wanted values, although the write may have been skipped |
| OplRegisters.LevelBits | src/i_oplmusic.c:563-610 | the carrier register has the wanted volume below the scaling bits of the patch; the modulator is left as loaded unless both operators are heard, and then is as quiet as the carrier, or 0x3f less its own level if that is louder |
| OplRegisters.FrequencyIsSet | src/i_oplmusic.c:930-948 | after a frequency update the registers hold the wanted frequency, although the write may have been skipped |
| OplRegisters.ClampedNote | src/i_oplmusic.c:872-882 | the loops move a note into range by whole octaves |
| OplRegisters.CurveIndex | src/i_oplmusic.c:902-908 | the frequency curve is always indexed inside its 668 entries |
| OplRegisters.Frequency | src/i_oplmusic.c:852-926 | the register value is not zero and fits in 13 bits |
| OplRegisters.LowestNote | src/i_oplmusic.c:884-905 | the lowest note of a first voice is entry 64 of the frequency curve, and a bend moves it along the curve |
| OplRegisters.SemitoneUp | src/i_oplmusic.c:884 | a semitone is as much as a bend of 32 |
| OplRegisters.OctaveUp | src/i_oplmusic.c:902-925 | twelve notes up is the same place on the curve and one octave more, up to the seventh |
| OplRegisters.FineTuningBends | src/i_oplmusic.c:889-892 | fine tuning bends the second voice of an instrument; 128 leaves it where the first voice would be |
| OplRegisters.OutOfRangeNote | src/i_oplmusic.c:872-882 | a note out of range sounds like the one of the same name in the lowest or the highest octave |
| OplNotes.LouderIsSmaller | src/i_oplmusic.c:575-583 | a louder note or channel never gets a larger register value; silence gets the largest, a note at full volume on a channel at full volume zero |
| OplNotes.BothVoicesPlay | src/i_oplmusic.c:960-1120 | the first voice of an instrument is always played, the second voice of a double instrument exactly by the second 1.666 driver, the first in OPL3 mode, and the 1.9 driver if two voices were free; the first driver without OPL3 never plays it |
| OplNotes.FirstVoiceTwice | src/i_oplmusic.c:967-970 | a run of the first driver without OPL3 that plays the first voice of a double instrument twice, with all voices free before |
| OplNotes.OneVoiceOnly | src/i_oplmusic.c:1100-1118 | a run of the 1.9 driver in which a double instrument gets one voice because all nine play |
| OplNotes.TrackChannel | src/i_oplmusic.c:692-710 | 9 and 15 change places, any other channel number stands for itself, within the sixteen channels of the track |
| OplNotes.ResetInStep | src/i_oplmusic.c:1407-1424 | resetting the channels leaves the playing voices in step if and only if volume and frequency of each come out the same |
| OplNotes.StaleAfterRestart | src/i_oplmusic.c:1407-1424 | a run, in any driver version, after which a playing voice does not have the volume of its channel |
| OplNotes.NotePlayer.SetVoiceInstrument | src/i_oplmusic.c:514-557 | the voice has the instrument afterwards, and its caches agree with the chip, although programming may be skipped |
| OplNotes.NotePlayer.SetVoiceVolume | src/i_oplmusic.c:563-610 | both level registers hold what the patch, note and channel want |
| OplNotes.NotePlayer.MoveIntoRange | src/i_oplmusic.c:872-882 | the two loops compute the clamped note |
| OplNotes.NotePlayer.FrequencyForVoice | src/i_oplmusic.c:852-926 | computes the frequency of the voice from its note, bend and fine tuning |
| OplNotes.NotePlayer.UpdateVoiceFrequency | src/i_oplmusic.c:930-948 | the frequency registers hold the frequency of the voice; a voice whose cached frequency was cleared is keyed on |
| OplNotes.NotePlayer.VoiceKeyOn | src/i_oplmusic.c:954-1006 | programs the first free voice with the instrument, level and frequency of the note, keyed on, and disturbs no other voice; without a free voice nothing changes |
| OplNotes.NotePlayer.KeyOffEvent | src/i_oplmusic.c:714-760 | keys off and frees the voices of the note; none is left |
| OplNotes.NotePlayer.AllNotesOff | src/i_oplmusic.c:1211-1243 | keys off and frees the voices of the channel; none is left |
| OplNotes.NotePlayer.StopSong | src/i_oplmusic.c:1596-1635 | every voice is free and every key-on bit is clear |
| OplNotes.NotePlayer.FreeVoicesAreOff | src/i_oplmusic.c:686-690 | no note sticks: every voice on the free list has its key-on bit clear |
| OplNotes.NotePlayer.GiveUpVoice | src/i_oplmusic.c:768-849 | gives up the voice that the policy of the driver chooses, and in the older drivers the run behind it; no policy meets an empty list |
| OplNotes.NotePlayer.MakeRoom | src/i_oplmusic.c:1059-1108 | voices are given up one at a time, each only while fewer are free than the driver wants; then as many are free, in every driver version |
| OplNotes.NotePlayer.KeyOnEvent | src/i_oplmusic.c:1008-1120 | a note starts the voices of its instrument that BothVoicesPlay names, each on a free voice of its own that is keyed on with the level and frequency of the note, in every driver version; beyond making room no other voice changes |
| OplNotes.NotePlayer.SetChannelVolume | src/i_oplmusic.c:1137-1161 | clips the volume and brings every playing voice of the channel up to date; voices stay in step with their channels |
| OplNotes.NotePlayer.SetMusicVolume | src/i_oplmusic.c:654-684 | every channel has its base volume, or on the last channel of a track the new volume, clipped by the new volume, and every playing voice is up to date |
| OplNotes.NotePlayer.CurrentSounds | src/i_oplmusic.c:563-610 | a voice whose cached volume is current sounds at the volume its channel wants |
| OplNotes.NotePlayer.PitchBendEvent | src/i_oplmusic.c:1286-1304 | every playing voice of the channel has the frequency of the new bend; voices stay in step with their channels |
| OplNotes.NotePlayer.PauseSong | src/i_oplmusic.c:1560-1584 | exactly the playing voices of main instruments are keyed off, and all caches stay coherent |
| OplNotes.NotePlayer.PlaySong | src/i_oplmusic.c:1505-1556 | starts a song from silence with fresh channels |
| OplNotes.NotePlayer.RestartSong | src/i_oplmusic.c:1407-1424 | resets every channel; voices that still play stay in step with their channels if and only if they would sound the same on new channels |
| OplNotes.NotePlayer.ProcessEvent | src/i_oplmusic.c:1360-1404 | each event does what it should on its song channel: a released note, or channel, has no voice and just its voices were freed; a note that starts is played by the voices it should be; volume, instrument and bend change just the data of the channel, to the value given |
| OplNotes.NotePlayer.Play | src/i_oplmusic.c:1360-1635 | over every run of songs (events of any tracks, pauses, volume changes, restarts, stops), in every driver version: the lists partition the voices, the counter is the allocated length, a voice has a channel if and only if it is allocated, no free voice is keyed on, and unless a restart came in between every playing voice has the volume and frequency its channel wants; every step changes the channels as it should, and the last one has its effect: a released note has no voice, and a started one is played |
| TicLoop.SquashedTwice | src/d_loop.c:661-673 | squashing a tic twice is squashing it once |
| TicLoop.SquashedMoves | src/d_loop.c:661-673 | a squashed tic makes every player move as before, without chat and without a special command |
| TicLoop.SlotsApart | src/d_loop.c:192-193 | tics less than a ring apart have slots of their own |
| TicLoop.StoreMade | src/d_loop.c:192-195 | storing the next local command disturbs nothing that waits in the ring |
| TicLoop.StoreReceived | src/d_loop.c:290-302 | storing the next received set disturbs nothing that waits in the ring, our own commands included |
| TicLoop.SlotIsDone | src/d_loop.c:789-809 | whatever happens to the slot of a tic that has been run, later tics are in place |
| TicLoop.Loop.GroupsFollowLogs | src/d_loop.c:779-812 | group k starts with exactly the local command built as tic k and the remote set received as tic k, the other tics of the group are its squashed form, and gametic is a multiple of ticdup |
| TicLoop.Loop.BuildNewTic | src/d_loop.c:142-200 | builds the next command exactly when the player may run further ahead |
| TicLoop.Loop.ReceiveTic | src/d_loop.c:277-303 | stores everybody else's commands as the next received tic |
| TicLoop.Loop.Disconnected | src/d_loop.c:258-270 | the end of the connection is fatal exactly for a drone |
| TicLoop.Loop.RunNetwork | src/d_loop.c:277-303 | performs exactly the events of the network, and keeps the ring and the logs in step |
| TicLoop.Loop.NetUpdate | src/d_loop.c:209-256 | builds the commands of exactly the tics due while the player may run further ahead, receives the sets of the network, and keeps the ring and the logs in step |
| TicLoop.Loop.TicsDue | src/d_loop.c:233-247 | the tics due are those of the clock less those to be skipped |
| TicLoop.Loop.GetLowTic | src/d_loop.c:557-574 | never beyond what was built or, while connected, received |
| TicLoop.Loop.PlayersInGame | src/d_loop.c:631-654 | true without a drone; for a drone while connected and somebody is playing |
| TicLoop.Loop.TicdupSquash | src/d_loop.c:661-673 | the slot holds the squashed tic |
| TicLoop.Loop.SinglePlayerClear | src/d_loop.c:678-689 | nobody but the local player is in the game, commands are as they were |
| TicLoop.Loop.RunGroup | src/d_loop.c:789-809 | runs exactly one group as the logs demand; the check gametic > lowtic never fires |
| TicLoop.Loop.WaitForTics | src/d_loop.c:754-777 | when it is done waiting the groups asked for can be run, or the caller has given up; the check lowtic < gametic never fires |
| TicLoop.Loop.RunGroups | src/d_loop.c:779-812 | runs all the groups asked for, whatever is built and received in between, unless the program ends or nobody is left to play |
| TicLoop.Loop.TryRunTics | src/d_loop.c:695-813 | keeps the refinement and makes progress: runs exactly the groups it decided on when they are there, at least one whenever a tic beyond those run can be; the only way to end the program is a drone that was disconnected |
| SoundCache.HookFrontLinks | src/i_sdlsound.c:94-109 | linking at the head gives a consistent doubly linked list with the sound in front |
| SoundCache.UnhookLinks | src/i_sdlsound.c:113-132 | unlinking gives a consistent doubly linked list without the sound, in the same order |
| SoundCache.UnusedIff | src/i_sdlsound.c:264-274 | a sound has use count zero if and only if no channel plays it and no reference is left over; the count is never negative |
| SoundCache.ChannelAccounts | src/i_sdlsound.c:342-353 | handing a reference to a channel, or taking it back, keeps every use count exact |
| SoundCache.ShrunkTwice | src/i_sdlsound.c:177-198 | freeing sounds step by step never frees one in use and keeps the order of the rest |
| SoundCache.CachedIffPlayed | src/i_sdlsound.c:955-983 | a sound of a shifted pitch is cached if and only if a channel plays it |
| SoundCache.PinnedStays | src/i_sdlsound.c:861-875 | a reference to an unshifted sound that is left over stays, and so does its sound |
| SoundCache.LeftoverReference | src/i_sdlsound.c:934-1010 | one start and one stop in an empty cache leave a sound in use that no channel plays |
| SoundCache.Cache.PlayingIsCached | src/i_sdlsound.c:342-361 | a playing sound is allocated, on the list, and used at least once for each channel that plays it |
| SoundCache.Cache.AllocatedSoundLink | src/i_sdlsound.c:94-109 | puts the sound at the head of the list |
| SoundCache.Cache.AllocatedSoundUnlink | src/i_sdlsound.c:113-132 | takes exactly this sound out of the list |
| SoundCache.Cache.FreeAllocatedSound | src/i_sdlsound.c:134-145 | frees a sound nobody uses, which no channel plays, and the size is again the sum of the lengths |
| SoundCache.Cache.FindAndFreeSound | src/i_sdlsound.c:151-171 | frees the least recently used sound nobody uses, or reports that every sound is in use |
| SoundCache.Cache.ReserveCacheSpace | src/i_sdlsound.c:177-196 | frees least recently used sounds first and no more than needed; ends with the budget met or every sound in use; frees nothing without a limit |
| SoundCache.Cache.AllocateSound | src/i_sdlsound.c:200-242 | the new sound is at the head, nothing in use was freed even when the allocator fails repeatedly, least recently used sounds went first and no more than needed, and the budget is met or everything else is in use |
| SoundCache.Cache.LockAllocatedSound | src/i_sdlsound.c:247-259 | one more use, and the sound becomes the most recently used |
| SoundCache.Cache.UnlockAllocatedSound | src/i_sdlsound.c:264-274 | one use less; the error of releasing more often than locking is unreachable |
| SoundCache.Cache.GetAllocatedSoundBySfxInfoAndPitch | src/i_sdlsound.c:279-293 | finds the first sound of the effect and pitch, or there is none |
| SoundCache.Cache.PitchShift | src/i_sdlsound.c:298-336 | makes a sound of the new pitch if there is memory; the sound it copies from is never freed by making room for the copy |
| SoundCache.Cache.ShiftedSound | src/i_sdlsound.c:955-978 | with pitch shifting and memory the channel gets a shifted copy, without it the unshifted sound |
| SoundCache.Cache.ReleaseSoundOnChannel | src/i_sdlsound.c:342-361 | the channel is free; only a shifted sound that nobody else uses is freed |
| SoundCache.Cache.LockSound | src/i_sdlsound.c:861-875 | an effect that is cached, or valid and fits, is loaded and locked; otherwise nothing was locked |
| SoundCache.Cache.ChooseSound | src/i_sdlsound.c:955-983 | plays a sound of the wanted pitch if it is cached, else a shifted copy or the unshifted sound |
| SoundCache.Cache.StartSound | src/i_sdlsound.c:934-996 | the channel plays the effect, at the wanted pitch if pitch shifting is on and there is memory, and at its own otherwise; every reference taken is handed to the channel, except that one to the unshifted sound is left behind if and only if the wanted pitch is the normal one or another channel plays the effect at that pitch; a failed start leaves none |
| SoundCache.Cache.PlayAll | src/i_sdlsound.c:934-1044 | over every run of starts, stops and updates the cache stays consistent and each call does what it should, and an effect once started at the normal pitch is never freed again, whatever the size limit |
| SoundCache.Cache.StopSound | src/i_sdlsound.c:998-1010 | the channel is free and no reference is lost or left |
| SoundCache.Cache.UpdateSound | src/i_sdlsound.c:1028-1044 | exactly the channels whose sound has ended are freed |

## Left out

- S-box and T-table literals of the cipher, the 668 frequency values and the volume table: parameters with the bounds the proofs need.
- AES decryption: the source has a decryption schedule but no decryption; only the schedule is modelled.
- DehTable.StringTable.AddToHashtable: does not model overflow of the int product of the entry counter by ten.
- Zone memory of replacement texts: texts are values, and the old text of an overwritten entry is simply gone.
- Waveforms of the synthesizer (sine and exponential tables, waveform selection): a waveform is a function of phase and volume that a sample applies; the float search of Chip__Setup, the noise generator and the percussion modes are not modelled.
- OplOperator.Operator.Write20: the frequency multiplier, the vibrato bit and the frequency update are not modelled, because the phase increment is a parameter.
- OplOperator.Operator.SetChanData: the frequency update of the operators is not modelled, for the same reason.
- OplLfo.Chip.GenerateBlock: models the chunks and the modulation of each sample; clearing the buffer and the calls of the channels are not part of it, so that skipping changes nothing is stated channel by channel.
- OplOperator.Operator.Prepare: takes the phase increment as a parameter, so vibrato and frequency arithmetic are not modelled.
- OPL hardware timers (opl/opl_sdl.c:388-461) and all drivers other than SDL and the timer thread.
- OplQueue.CallbackQueue.AdjustCallbacks: claims order preservation only, for a nonnegative factor and no entry before the base time, because the source converts a negative product to an unsigned number.
- OplScheduler.Player.TrackTimerCallback: tempo events are not part of the song player, so the beat length is fixed while a song plays.
- OplScheduler.Player.AdvanceTime: deadline order is claimed for songs without tempo events, which move deadlines in the middle of the loop; that the loop ends and restarts at most once is also proved with them (RoundsAreBounded).
- OplScheduler.Player.MixCallback: promptness is claimed for songs without tempo events.
- OplScheduler.Player.SetCallback: asks that the same callback is not pending twice, which holds for the song player; other users of the queue (OPL_Delay) are not modelled.
- Times are unbounded integers: wrap-around of the 64-bit microsecond clock is not modelled.
- OplLocks.WaitingChainsEnd: the condition variable and mutex of OPL_Delay and starting and stopping the thread are not modelled; a heap operation under the queue mutex is one atomic step.
- OplNotes.NotePlayer.SetVoiceInstrument: pan is not modelled, neither the register bits nor SetChannelPan.
- OplNotes.NotePlayer.KeyOnEvent: needs a note volume below 128, because the source indexes the volume table without a check; the log of recent percussion notes is not modelled.
- OplVoices.VoiceTable.InitVoices: starts from a table in static storage; a second initialisation with stale links is not modelled.
- TicLoop.Loop.RunNetwork: stands for the network client, which is not part of this model; it delivers no set that would overtake the game by a whole ring, and nothing after the connection has ended.
- TicLoop.Loop.WaitForTics: ends when the given inputs end, where the source would keep waiting for the outside world.
- The server, the start of a net game, menus, rendering and I_Sleep.
- SoundCache.Cache.PitchShift: asks that the sound it copies from is in use, as its only caller ensures; models the allocation only; the resampled length is a parameter, and so is the length of an expanded effect.
- SDL, the mixer, WAD lumps, MIDI files and other input and output: parameters or absent.
- Small helpers without state (event ring, fixed-point multiplication, cheat codes, bounding boxes, game mode tables): they would only add easy members.
