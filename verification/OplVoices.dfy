/** The voice table of src/i_oplmusic.c: one array of voices threaded onto a free list and an allocated list.
    A pointer to a voice is its position in the array; the link field of the voices is an array of its own. */
module OplVoices {
  import opened Lists
  import opened OplVoiceLists

  class VoiceTable {
    const voices: array<Voice>
    const next: array<int>
    const chip: array<nat>
    const opl_drv_ver: DriverVersion
    const num_opl_voices: nat
    var voice_free_list: int
    var voice_alloced_list: int
    var voice_alloced_num: int
    ghost var free: seq<nat>
    ghost var alloced: seq<nat>

    /** The table in static storage, then the two initialisations of I_OPL_InitMusic. What the chip held before is unknown. */
    constructor (ver: DriverVersion, opl3: bool)
      ensures Valid() && opl_drv_ver == ver && num_opl_voices == (if opl3 then 2 * OPL_NUM_VOICES else OPL_NUM_VOICES)
      ensures alloced == [] && free == Indices(num_opl_voices)
      ensures voices.Length == 2 * OPL_NUM_VOICES && chip.Length == OPL_REGISTERS
      ensures forall i | 0 <= i < num_opl_voices :: voices[i] == Initial(i)
      ensures fresh(voices) && fresh(next) && fresh(chip)
    {
      voices := new Voice[2 * OPL_NUM_VOICES](_ => BLANK);
      next := new int[2 * OPL_NUM_VOICES](_ => NONE);
      chip := new nat[OPL_REGISTERS];
      opl_drv_ver, num_opl_voices := ver, if opl3 then 2 * OPL_NUM_VOICES else OPL_NUM_VOICES;
      voice_free_list, voice_alloced_list, voice_alloced_num := NONE, NONE, 0;
      free, alloced := [], [];
      new;
      InitRegisters(opl3);
      InitVoices();
    }

    /** OPL_InitRegisters (opl/opl.c:342-415): among others, every key register is zero afterwards. */
    method InitRegisters(opl3: bool)
      requires chip.Length == OPL_REGISTERS
      modifies chip
      ensures forall r | 0x60 <= r <= 0xF5 :: chip[r] == 0
      ensures opl3 ==> forall r | 0x160 <= r <= 0x1F5 :: chip[r] == 0
    {
      InitBank(0);
      if opl3 {
        chip[0x105] := 1;
        InitBank(0x100);
      }
      chip[8] := 0x40;
      if opl3 {
        chip[0x105] := 1;
      }
    }

    /** The three loops over one register bank, and the low registers of the first. */
    method InitBank(bank: nat)
      requires chip.Length == OPL_REGISTERS && (bank == 0 || bank == 0x100)
      modifies chip
      ensures forall r | bank + 0x60 <= r <= bank + 0xF5 :: chip[r] == 0
      ensures forall r | 0 <= r < OPL_REGISTERS && !(bank <= r <= bank + 0xF5) :: chip[r] == old(chip[r])
    {
      for r := bank + 0x40 to bank + 0x40 + 21 + 1
        invariant forall q | 0 <= q < OPL_REGISTERS && !(bank <= q <= bank + 0xF5) :: chip[q] == old(chip[q])
      {
        chip[r] := 0x3f;
      }
      for r := bank + 0x60 to bank + 0xE0 + 21 + 1
        invariant forall q | bank + 0x60 <= q < r :: chip[q] == 0
        invariant forall q | 0 <= q < OPL_REGISTERS && !(bank <= q <= bank + 0xF5) :: chip[q] == old(chip[q])
      {
        chip[r] := 0;
      }
      for r := bank + 1 to bank + 0x40
        invariant forall q | bank + 0x60 <= q <= bank + 0xF5 :: chip[q] == 0
        invariant forall q | 0 <= q < OPL_REGISTERS && !(bank <= q <= bank + 0xF5) :: chip[q] == old(chip[q])
      {
        chip[r] := 0;
      }
      if bank == 0 {
        chip[4] := 0x60;
        chip[4] := 0x80;
        chip[1] := 0x20;
      }
    }

    /** The loop body of InitVoices. */
    method PlaceVoice(i: nat)
      requires Apart() && alloced == [] && free == Indices(i) && InRange(voices[..], chip.Length)
      requires i < num_opl_voices && voices[i] == BLANK
      modifies this`voice_free_list, this`voice_alloced_list, this`voice_alloced_num, this`free, this`alloced
      modifies next, voices, chip
      ensures Apart() && alloced == [] && free == Indices(i + 1) && InRange(voices[..], chip.Length)
      ensures voices[..] == old(voices[..])[i := Initial(i)] && chip[..] == old(chip[..])
    {
      hide Linked, NoDup, Silenced, KeyedOff, Run, Within, InRange, Partition, Indices;
      ghost var before := voices[..];
      voices[i] := voices[i].(index := i % OPL_NUM_VOICES,
                              op1 := VOICE_OPERATORS[0][i % OPL_NUM_VOICES], op2 := VOICE_OPERATORS[1][i % OPL_NUM_VOICES],
                              bank := i / OPL_NUM_VOICES * 0x100, current_instr := NONE);
      InitialSilent(before, i, chip[..]);
      ghost var run := ReleaseVoice(i, [], []);
    }

    /** Places the voices in the table and releases each to the free list. */
    method InitVoices()
      requires voices.Length == next.Length == 2 * OPL_NUM_VOICES && chip.Length == OPL_REGISTERS
      requires num_opl_voices == OPL_NUM_VOICES || num_opl_voices == 2 * OPL_NUM_VOICES
      requires forall i | 0 <= i < voices.Length :: voices[i] == BLANK
      requires voice_alloced_list == NONE && voice_alloced_num == 0 && alloced == []
      requires forall r | 0x60 <= r <= 0xF5 :: chip[r] == 0
      requires num_opl_voices > OPL_NUM_VOICES ==> forall r | 0x160 <= r <= 0x1F5 :: chip[r] == 0
      modifies this`voice_free_list, this`voice_alloced_list, this`voice_alloced_num, this`free, this`alloced
      modifies next, voices, chip
      ensures Valid() && alloced == [] && free == Indices(num_opl_voices)
      ensures forall i | 0 <= i < num_opl_voices :: voices[i] == Initial(i)
    {
      hide Linked, NoDup, Silenced, KeyedOff, Run, Within, InRange, Partition, Indices, Initial;
      voice_free_list := NONE;
      free := [];
      EmptyLists(next[..], chip[..], voices[..]);
      for i := 0 to num_opl_voices
        invariant Apart() && alloced == [] && free == Indices(i) && InRange(voices[..], chip.Length)
        invariant forall j | 0 <= j < i :: voices[j] == Initial(j)
        invariant forall j | i <= j < voices.Length :: voices[j] == BLANK
        invariant chip[..] == old(chip[..])
      {
        PlaceVoice(i);
      }
      InitialTable(voices[..], chip[..], num_opl_voices);
    }

    /** The lists are acyclic and disjoint, and together hold each of the first n voices exactly once. */
    ghost predicate ListsOf(n: nat)
      reads this, next
    {
      && n <= num_opl_voices <= 2 * OPL_NUM_VOICES == voices.Length == next.Length
      && Linked(next[..], voice_free_list, free) && Linked(next[..], voice_alloced_list, alloced)
      && Partition(free, alloced, n) && voice_alloced_num == |alloced|
    }

    ghost predicate Lists()
      reads this, next
    {
      ListsOf(num_opl_voices)
    }

    /** The walk to the end of a list and the store that hooks a voice on there. */
    method Append(head: int, voice: nat, ghost list: seq<nat>) returns (new_head: int)
      requires Linked(next[..], head, list) && NoDup(list) && voice !in list && voice < next.Length
      modifies next
      ensures Linked(next[..], new_head, list + [voice])
      ensures var last := if list == [] then NONE else list[|list| - 1];
              last < next.Length && next[..] == Hooked(old(next[..]), last, voice)
    {
      var last := NONE;
      var rover := head;
      ghost var k: nat := 0;
      while rover != NONE
        invariant k <= |list| && rover == At(list, k)
        invariant last == if k == 0 then NONE else list[k - 1]
        decreases |list| - k
      {
        last := rover;
        rover := next[rover];
        k := k + 1;
      }
      HookedLinks(next[..], head, list, voice);
      new_head := head;
      if last == NONE {
        new_head := voice;
      } else {
        next[last] := voice;
      }
      next[voice] := NONE;
    }

    /** Moves the first free voice to the end of the allocated list. */
    method GetFreeVoice() returns (result: int)
      requires Lists()
      modifies this, next
      ensures Lists()
      ensures result == NONE <==> old(free) == []
      ensures result == NONE ==> free == old(free) && alloced == old(alloced)
      ensures result != NONE ==>
                result == old(free)[0] && free == old(free)[1..] && alloced == old(alloced) + [old(free)[0]]
    {
      if voice_free_list == NONE {
        return NONE;
      }
      MoveFirst(free, alloced, num_opl_voices);
      TailLinked(next[..], voice_free_list, free);
      hide Partition, Linked, NoDup, Hooked;
      result := voice_free_list;
      voice_free_list := next[voice_free_list];
      ghost var before := next[..];
      voice_alloced_list := Append(voice_alloced_list, result, alloced);
      ghost var last := if alloced == [] then NONE else alloced[|alloced| - 1];
      HookedElsewhere(before, voice_free_list, free[1..], last, result);
      voice_alloced_num := voice_alloced_num + 1;
      alloced := alloced + [free[0]];
      free := free[1..];
    }

    /** GetFreeVoice and what VoiceKeyOn stores into the voice first. */
    method TakeVoice(channel: int, key: nat, note: nat) returns (result: int)
      requires Valid() && channel >= 0
      modifies this, next, voices
      ensures Valid()
      ensures result == NONE <==> old(free) == []
      ensures result == NONE ==> Snapshot() == old(Snapshot())
      ensures result != NONE ==>
                && result == old(free)[0] && result < num_opl_voices && free == old(free)[1..]
                    && alloced == old(alloced) + [old(free)[0]]
                && voices[..] == old(voices[..])[result := old(voices[..])[result].(channel := channel, key := key, note := note)]
                && result !in free
    {
      hide Linked, Partition, NoDup, Consistent, AllPlaced, InRange;
      ValidLists();
      ghost var voices0, free0, alloced0 := voices[..], free, alloced;
      result := GetFreeVoice();
      if result != NONE {
        TakenConsistent(voices0, chip[..], free0, alloced0, num_opl_voices, channel, key, note);
        voices[result] := voices[result].(channel := channel, key := key, note := note);
      }
    }

    /** Takes a voice out of the allocated list; p is its position there. A voice not on the list is left alone. */
    method RemoveVoiceFromAllocedList(voice: nat, ghost p: nat)
      requires Linked(next[..], voice_alloced_list, alloced) && NoDup(alloced) && voice_alloced_num == |alloced|
      requires if voice in alloced then p < |alloced| && alloced[p] == voice else p == |alloced|
      modifies this`voice_alloced_list, this`voice_alloced_num, this`alloced, next
      ensures voice !in old(alloced) ==> next[..] == old(next[..]) && alloced == old(alloced)
      ensures voice in old(alloced) ==> alloced == Without(old(alloced), p)
                                        && next[..] == Unhooked(old(next[..]), old(alloced), p)
      ensures Linked(next[..], voice_alloced_list, alloced) && voice_alloced_num == |alloced|
    {
      var prev := NONE;
      var rover := voice_alloced_list;
      ghost var k: nat := 0;
      if voice in alloced {
        UnhookedLinks(next[..], voice_alloced_list, alloced, p);
      }
      hide Without, NoDup;
      while rover != NONE
        invariant k <= |alloced| && rover == At(alloced, k)
        invariant prev == if k == 0 then NONE else alloced[k - 1]
        invariant alloced == old(alloced) && next[..] == old(next[..]) && voice_alloced_list == old(voice_alloced_list)
        invariant voice_alloced_num == |alloced| && k <= p
        decreases |alloced| - k
      {
        if rover == voice {
          assert k == p;
          if prev == NONE {
            voice_alloced_list := next[voice];
          } else {
            next[prev] := next[voice];
          }
          next[voice] := NONE;
          voice_alloced_num := voice_alloced_num - 1;
          alloced := Without(alloced, p);
          return;
        }
        prev := rover;
        rover := next[rover];
        k := k + 1;
      }
    }

    /** Everything ReleaseVoice relies on about the lists: no voice twice, none on both. */
    ghost predicate Apart()
      reads this, next
    {
      && num_opl_voices <= 2 * OPL_NUM_VOICES == voices.Length == next.Length && chip.Length == OPL_REGISTERS
      && Linked(next[..], voice_free_list, free) && Linked(next[..], voice_alloced_list, alloced)
      && NoDup(free) && NoDup(alloced) && (forall v | v in free :: v !in alloced) && voice_alloced_num == |alloced|
    }

    method VoiceKeyOff(voice: nat)
      requires voice < voices.Length && KeyRegister(voices[voice]) < chip.Length
      modifies chip
      ensures chip[..] == old(chip[..])[KeyRegister(voices[voice]) := voices[voice].freq / 256]
    {
      chip[OPL_REGS_FREQ_2 + voices[voice].index + voices[voice].bank] := voices[voice].freq / 256;
    }

    /** Releases the first voice of rest, where the allocated list is before + rest, and the voices after it for as
        long as a second voice was released: the voices of run. A voice on neither list just goes to the free list. */
    method ReleaseVoice(voice: nat, ghost before: seq<nat>, ghost rest: seq<nat>) returns (ghost run: seq<nat>)
      requires Apart() && voice < voices.Length && voice !in free && alloced == before + rest
      requires Within(rest, voices.Length) && InRange(voices[..], chip.Length)
      requires if rest == [] then voice !in alloced && voices[voice].current_instr_voice == 0 else voice == rest[0]
      modifies this`voice_free_list, this`voice_alloced_list, this`voice_alloced_num, this`free, this`alloced
      modifies next, voices, chip
      ensures run == if rest == [] then [voice] else Run(old(voices[..]), rest, opl_drv_ver)
      ensures Apart() && free == old(free) + run && alloced == if rest == [] then before else before + rest[|run|..]
      ensures Within(run, voices.Length) && voices[..] == Silenced(old(voices[..]), run)
      ensures Within(run[1..], voices.Length)
      ensures InRange(voices[..], chip.Length)
      ensures chip[..] == KeyedOff(old(chip[..]), old(voices[..]), run[1..])
      decreases |rest|
    {
      ghost var voices0, chip0, free0 := voices[..], chip[..], free;
      ghost var voices1 := voices0[voice := Silent(voices0[voice])];
      ReleaseFirst(voices0, chip0, voice, before, rest, opl_drv_ver);
      hide Linked, NoDup, Silenced, KeyedOff, Run, Without, Within, InRange, Partition;
      voices[voice] := Silent(voices[voice]);
      var double_voice := voices[voice].current_instr_voice != 0;
      var following := Following(voice, before, rest);
      ReleaseOne(voice, |before|);
      run := [voice];
      if following != NONE && double_voice && opl_drv_ver != Doom_1_9 {
        VoiceKeyOff(following);
        ghost var more := ReleaseVoice(following, before, rest[1..]);
        run := [voice] + more;
        ReleaseRest(voices0, chip0, free0, voice, before, rest, more, opl_drv_ver);
      }
    }

    /** The voice after a given one on the allocated list. */
    method Following(voice: nat, ghost before: seq<nat>, ghost rest: seq<nat>) returns (following: int)
      requires Linked(next[..], voice_alloced_list, alloced) && alloced == before + rest && voice < next.Length
      requires rest != [] ==> voice == rest[0]
      ensures rest != [] ==> following == if |rest| > 1 then rest[1] else NONE
    {
      following := next[voice];
      if rest != [] {
        WithoutMiddle(before, rest);
        assert next[..][alloced[|before|]] == At(alloced, |before| + 1);
      }
    }

    /** The list part of ReleaseVoice: from the allocated list, if it is there, to the end of the free list. */
    method ReleaseOne(voice: nat, ghost p: nat)
      requires Apart() && voice < voices.Length && voice !in free
      requires if voice in alloced then p < |alloced| && alloced[p] == voice else p == |alloced|
      modifies this`voice_free_list, this`voice_alloced_list, this`voice_alloced_num, this`free, this`alloced, next
      ensures Apart() && free == old(free) + [voice]
      ensures alloced == if voice in old(alloced) then Without(old(alloced), p) else old(alloced)
    {
      LinkedBounds(next[..], voice_alloced_list, alloced);
      hide Linked, NoDup, Hooked, Unhooked, Without;
      ghost var next0, alloced0, head0 := next[..], alloced, voice_alloced_list;
      RemoveVoiceFromAllocedList(voice, p);
      if voice in alloced0 {
        UnhookedElsewhere(next0, voice_free_list, free, alloced0, p);
        WithoutApart(alloced0, p, free);
      }
      ghost var next1 := next[..];
      voice_free_list := Append(voice_free_list, voice, free);
      ghost var last := if free == [] then NONE else free[|free| - 1];
      HookedElsewhere(next1, voice_alloced_list, alloced, last, voice);
      AppendFacts(free, voice, alloced);
      free := free + [voice];
    }

    ghost function Snapshot(): Table
      reads this`free, this`alloced, voices, chip
    {
      Table(voices[..], chip[..], free, alloced)
    }

    ghost predicate Valid()
      reads this, next, voices, chip
    {
      && Lists() && chip.Length == OPL_REGISTERS && (num_opl_voices == OPL_NUM_VOICES || num_opl_voices == 2 * OPL_NUM_VOICES)
      && AllPlaced(voices[..], num_opl_voices) && InRange(voices[..], chip.Length)
      && Consistent(voices[..], chip[..], free, num_opl_voices)
    }

    lemma ValidLists()
      requires Valid()
      ensures Partition(free, alloced, num_opl_voices) && Linked(next[..], voice_alloced_list, alloced)
      ensures Linked(next[..], voice_free_list, free) && voice_alloced_num == |alloced| && next.Length == voices.Length
      ensures OPL_NUM_VOICES <= num_opl_voices <= voices.Length == 2 * OPL_NUM_VOICES
      ensures InRange(voices[..], chip.Length)
    {}

    lemma ValidArrays()
      requires Valid()
      ensures chip.Length == OPL_REGISTERS && AllPlaced(voices[..], num_opl_voices) && InRange(voices[..], chip.Length)
      ensures Consistent(voices[..], chip[..], free, num_opl_voices)
    {}

    /** VoiceKeyOff and ReleaseVoice, which always go together; the allocated list is before + rest. */
    method FreeVoice(voice: nat, ghost before: seq<nat>, ghost rest: seq<nat>) returns (ghost run: seq<nat>)
      requires Valid() && alloced == before + rest && rest != [] && rest[0] == voice
      modifies this`voice_free_list, this`voice_alloced_list, this`voice_alloced_num, this`free, this`alloced
      modifies next, voices, chip
      ensures Valid() && Within(rest, voices.Length) && run == Run(old(voices[..]), rest, opl_drv_ver)
      ensures Freed(old(Snapshot()), Snapshot(), run) && alloced == before + rest[|run|..]
    {
      ghost var voices0, chip0, free0 := voices[..], chip[..], free;
      FreeFacts(voices0, chip0, free0, before, rest, num_opl_voices, opl_drv_ver);
      hide Linked, NoDup, Silenced, Run, Within, InRange, Partition, Consistent, AllPlaced;
      VoiceKeyOff(voice);
      run := ReleaseVoice(voice, before, rest);
    }

    /** What the releasing loop keeps; t is the table as it was before. */
    ghost predicate Releasing(t: Table, sel: Selector, before: seq<nat>, rest: seq<nat>, dropped: seq<nat>)
      reads this, next, voices, chip
    {
      && Valid() && alloced == before + rest && Freed(t, Snapshot(), dropped)
      && SoFar(t.voices, t.alloced, sel, opl_drv_ver, before, rest, dropped)
    }

    lemma ReleasingFacts(t: Table, sel: Selector, before: seq<nat>, rest: seq<nat>, dropped: seq<nat>)
      requires Releasing(t, sel, before, rest, dropped)
      ensures Partition(t.free + dropped, before + rest, num_opl_voices)
      ensures num_opl_voices <= |t.voices| == voices.Length
      ensures Within(dropped, |t.voices|) && Within(rest, |t.voices|) && voices[..] == Silenced(t.voices, dropped)
    {}

    /** The loop meets a selected voice. */
    method ReleaseNext(ghost t: Table, sel: Selector, ghost before: seq<nat>, ghost rest: seq<nat>,
                       ghost dropped: seq<nat>,
                       rover: nat)
        returns (ghost run: seq<nat>)
      requires Releasing(t, sel, before, rest, dropped)
      requires rest != [] && rover == rest[0] && rover < voices.Length && Selects(sel, voices[rover])
      modifies this`voice_free_list, this`voice_alloced_list, this`voice_alloced_num, this`free, this`alloced
      modifies next, voices, chip
      ensures 0 < |run| <= |rest| && Releasing(t, sel, before, rest[|run|..], dropped + run)
    {
      hide SoFar, Silenced, Run, Within, Valid, Partition, Linked, Freed;
      ReleasingFacts(t, sel, before, rest, dropped);
      StillTheSame(t.voices, t.free, dropped, before, rest, num_opl_voices, opl_drv_ver);
      NextSoFar(t.voices, t.alloced, sel, opl_drv_ver, before, rest, dropped);
      ghost var t1 := Snapshot();
      run := FreeVoice(rover, before, rest);
      FreedTwice(t, t1, Snapshot(), dropped, run);
    }

    /** The loop meets a voice that stays. */
    lemma SkipNext(t: Table, sel: Selector, before: seq<nat>, rest: seq<nat>, dropped: seq<nat>)
      requires Releasing(t, sel, before, rest, dropped) && rest != [] && rest[0] < voices.Length
      requires !Selects(sel, voices[rest[0]])
      ensures Releasing(t, sel, before + [rest[0]], rest[1..], dropped)
    {
      hide Valid, SoFar, Silenced, Run, Within, Partition, Linked, Freed;
      ReleasingFacts(t, sel, before, rest, dropped);
      StillTheSame(t.voices, t.free, dropped, before, rest, num_opl_voices, opl_drv_ver);
      NextSoFar(t.voices, t.alloced, sel, opl_drv_ver, before, rest, dropped);
      Shift(before, rest);
    }

    lemma StartReleasing(sel: Selector)
      requires Valid()
      ensures Releasing(Snapshot(), sel, [], alloced, []) && Cursor([], alloced, voice_alloced_list, NONE)
    {
      hide Valid, SoFar, Silenced, Run, Within, Partition, Freed, InRange;
      ValidLists();
      StartSoFar(voices[..], free, alloced, sel, opl_drv_ver, num_opl_voices);
      FreedNothing(Snapshot());
    }

    /** Where the pointers of the loop point. */
    ghost predicate Cursor(before: seq<nat>, rest: seq<nat>, rover: int, prev: int) {
      rover == At(rest, 0) && prev == if before == [] then NONE else before[|before| - 1]
    }

    lemma CursorOnVoice(t: Table, sel: Selector, before: seq<nat>, rest: seq<nat>, dropped: seq<nat>, rover: int,
                        prev: int)
      requires Releasing(t, sel, before, rest, dropped) && Cursor(before, rest, rover, prev) && rover != NONE
      ensures rest != [] && rover == rest[0] && 0 <= rover < voices.Length == next.Length
    {
      ValidLists();
      AllocedFacts(free, alloced, num_opl_voices, before, rest);
    }

    lemma CursorAfterRelease(t: Table, sel: Selector, before: seq<nat>, rest: seq<nat>, dropped: seq<nat>, prev: int)
      requires Releasing(t, sel, before, rest, dropped)
      requires exists old_rest, rover :: Cursor(before, old_rest, rover, prev)
      ensures prev == NONE ==> Cursor(before, rest, voice_alloced_list, prev)
      ensures prev != NONE ==> 0 <= prev < next.Length && Cursor(before, rest, next[prev], prev)
    {
      ValidLists();
      LinkedMiddle(next[..], voice_alloced_list, before, rest);
    }

    lemma CursorAfterSkip(t: Table, sel: Selector, before: seq<nat>, rest: seq<nat>, dropped: seq<nat>)
      requires rest != [] && Releasing(t, sel, before + [rest[0]], rest[1..], dropped)
      ensures rest[0] < next.Length && Cursor(before + [rest[0]], rest[1..], next[rest[0]], rest[0])
    {
      ValidLists();
      LinkedMiddle(next[..], voice_alloced_list, before + [rest[0]], rest[1..]);
    }

    /** The loops of KeyOffEvent, with a note, and AllNotesOff, with a channel. */
    method ReleaseWhere(sel: Selector) returns (ghost dropped: seq<nat>)
      requires Valid() && sel.channel >= 0
      modifies this`voice_free_list, this`voice_alloced_list, this`voice_alloced_num, this`free, this`alloced
      modifies next, voices, chip
      ensures Valid() && Freed(old(Snapshot()), Snapshot(), dropped)
      ensures SoFar(old(voices[..]), old(alloced), sel, opl_drv_ver, alloced, [], dropped)
    {
      hide Releasing, Cursor, Valid, SoFar, Freed, Selects, At;
      StartReleasing(sel);
      ghost var t := Snapshot();
      ghost var before: seq<nat>, rest: seq<nat> := [], alloced;
      dropped := [];
      var rover := voice_alloced_list;
      var prev := NONE;
      while rover != NONE
        invariant Releasing(t, sel, before, rest, dropped) && Cursor(before, rest, rover, prev)
        decreases |rest|
      {
        CursorOnVoice(t, sel, before, rest, dropped, rover, prev);
        if Selects(sel, voices[rover]) {
          ghost var run := ReleaseNext(t, sel, before, rest, dropped, rover);
          rest, dropped := rest[|run|..], dropped + run;
          CursorAfterRelease(t, sel, before, rest, dropped, prev);
          if prev == NONE {
            rover := voice_alloced_list;
          } else {
            rover := next[prev];
          }
        } else {
          SkipNext(t, sel, before, rest, dropped);
          CursorAfterSkip(t, sel, before, rest, dropped);
          prev := rover;
          before, rest := before + [rest[0]], rest[1..];
          rover := next[rover];
        }
      }
      ReleasingDone(t, sel, before, rest, dropped, prev);
    }

    lemma ReleasingDone(t: Table, sel: Selector, before: seq<nat>, rest: seq<nat>, dropped: seq<nat>, prev: int)
      requires Releasing(t, sel, before, rest, dropped) && Cursor(before, rest, NONE, prev)
      ensures Valid() && Freed(t, Snapshot(), dropped)
      ensures SoFar(t.voices, t.alloced, sel, opl_drv_ver, alloced, [], dropped)
    {
      assert before + [] == before;
    }

    // ---------- Replacing a voice ----------

    /** The state after the voice at position r was keyed off and released. */
    ghost predicate Replaced(t: Table, r: nat)
      reads this, next, voices, chip
    {
      && r < |t.alloced| && Valid() && Within(t.alloced[r..], |t.voices|)
      && var run := Run(t.voices, t.alloced[r..], opl_drv_ver);
         && |run| > 0 && Freed(t, Snapshot(), run) && alloced == t.alloced[..r] + t.alloced[r..][|run|..]
    }

    /** The voice at the head of the allocated list and the link at each position of it. */
    lemma AllocedLinks(k: nat)
      requires Valid()
      ensures voice_alloced_list == At(alloced, 0) && Within(alloced, voices.Length) && next.Length == voices.Length
      ensures k < |alloced| ==> alloced[k] < voices.Length && next[alloced[k]] == At(alloced, k + 1)
    {
      AllocedFacts(free, alloced, num_opl_voices, [], alloced);
      assert [] + alloced == alloced;
      assert k < |alloced| ==> next[..][alloced[k]] == At(alloced, k + 1);
    }

    method FreeAt(voice: nat, ghost r: nat)
      requires Valid() && r < |alloced| && alloced[r] == voice
      modifies this`voice_free_list, this`voice_alloced_list, this`voice_alloced_num, this`free, this`alloced
      modifies next, voices, chip
      ensures Replaced(old(Snapshot()), r)
    {
      hide Valid, Freed, Run, Within;
      assert alloced == alloced[..r] + alloced[r..];
      ghost var run := FreeVoice(voice, alloced[..r], alloced[r..]);
    }

    /** The scan of ReplaceExistingVoice. */
    method FindLastAfterSecond() returns (result: int, ghost r: nat, ghost s: nat)
      requires Valid() && alloced != []
      ensures LastAfterSecond(voices[..], alloced, |alloced|, s, r) && r < |alloced| && result == alloced[r]
    {
      hide Valid, LastAfterSecond, Within, Linked;
      AllocedLinks(0);
      result := voice_alloced_list;
      var rover := voice_alloced_list;
      r, s := 0, 0;
      ghost var k: nat := 0;
      while rover != NONE
        invariant k <= |alloced| && rover == At(alloced, k) && r < |alloced| && result == alloced[r]
        invariant if k == 0 then r == s == 0 else LastAfterSecond(voices[..], alloced, k, s, r)
        decreases |alloced| - k
      {
        AllocedLinks(k);
        LastAfterSecondStep(voices[..], alloced, k, s, r);
        if voices[rover].current_instr_voice != 0 || voices[rover].channel >= voices[result].channel {
          result := rover;
          s := if voices[rover].current_instr_voice != 0 then k else s;
          r := k;
        }
        rover := next[rover];
        k := k + 1;
      }
    }

    /** ReplaceExistingVoice (driver 1.9). */
    method ReplaceExistingVoice() returns (ghost r: nat, ghost s: nat)
      requires Valid() && alloced != []
      modifies this`voice_free_list, this`voice_alloced_list, this`voice_alloced_num, this`free, this`alloced
      modifies next, voices, chip
      ensures Replaced(old(Snapshot()), r) && LastAfterSecond(old(voices[..]), old(alloced), |old(alloced)|, s, r)
    {
      hide Valid, Replaced, LastAfterSecond;
      var result;
      result, r, s := FindLastAfterSecond();
      AllocedLinks(r);
      FreeAt(result, r);
    }

    /** The scan of ReplaceExistingVoiceDoom1. */
    method FindFirstHighest() returns (result: int, ghost r: nat)
      requires Valid() && alloced != []
      ensures FirstHighest(voices[..], alloced, |alloced|, r) && r < |alloced| && result == alloced[r]
    {
      hide Valid, FirstHighest, Within, Linked;
      AllocedLinks(0);
      result := voice_alloced_list;
      var rover := voice_alloced_list;
      r := 0;
      ghost var k: nat := 0;
      while rover != NONE
        invariant k <= |alloced| && rover == At(alloced, k) && r < |alloced| && result == alloced[r]
        invariant if k == 0 then r == 0 else FirstHighest(voices[..], alloced, k, r)
        decreases |alloced| - k
      {
        AllocedLinks(k);
        FirstHighestStep(voices[..], alloced, k, r);
        if voices[rover].channel > voices[result].channel {
          result := rover;
          r := k;
        }
        rover := next[rover];
        k := k + 1;
      }
    }

    /** ReplaceExistingVoiceDoom1: the first of the voices with the highest channel. */
    method ReplaceExistingVoiceDoom1() returns (ghost r: nat)
      requires Valid() && alloced != []
      modifies this`voice_free_list, this`voice_alloced_list, this`voice_alloced_num, this`free, this`alloced
      modifies next, voices, chip
      ensures Replaced(old(Snapshot()), r) && FirstHighest(old(voices[..]), old(alloced), |old(alloced)|, r)
    {
      hide Valid, Replaced, FirstHighest;
      var result;
      result, r := FindFirstHighest();
      AllocedLinks(r);
      FreeAt(result, r);
    }

    /** The scan of ReplaceExistingVoiceDoom2: among all but the last three voices, the first of those with the
        lowest priority whose channel is not below the new one; the first voice of all if there is none. */
    method FindFirstLowest(channel: int) returns (result: int, ghost r: nat)
      requires Valid() && alloced != []
      ensures FirstLowest(voices[..], alloced, Considered(|alloced|), channel, r) && r < |alloced|
      ensures result == alloced[r]
    {
      hide Valid, Linked, Partition, FirstLowest, NoDup, Candidate, Within;
      AllocedLinks(0);
      ValidLists();
      PartitionFacts(free, alloced, num_opl_voices);
      FirstLowestStart(voices[..], alloced, channel);
      DistinctAt(alloced, Considered(|alloced|));
      result := voice_alloced_list;
      var roverend := voice_alloced_list;
      var i := 0;
      while i < voice_alloced_num - 3
        invariant i <= Considered(|alloced|) && roverend == At(alloced, i)
      {
        AllocedLinks(i);
        roverend := next[roverend];
        i := i + 1;
      }
      var priority := 0x8000;
      var rover := voice_alloced_list;
      r := 0;
      ghost var k: nat := 0;
      while rover != roverend
        invariant k <= Considered(|alloced|) && rover == At(alloced, k) && r < |alloced| && result == alloced[r]
        invariant FirstLowest(voices[..], alloced, k, channel, r)
        invariant priority == if Candidate(voices[..], alloced, r, k, channel) then voices[alloced[r]].priority else 0x8000
        decreases |alloced| - k
      {
        AllocedLinks(k);
        FirstLowestStep(voices[..], alloced, k, channel, r);
        if voices[rover].priority < priority && voices[rover].channel >= channel {
          priority := voices[rover].priority;
          result := rover;
          r := k;
        }
        rover := next[rover];
        k := k + 1;
      }
    }

    /** ReplaceExistingVoiceDoom2. */
    method ReplaceExistingVoiceDoom2(channel: int) returns (ghost r: nat)
      requires Valid() && alloced != []
      modifies this`voice_free_list, this`voice_alloced_list, this`voice_alloced_num, this`free, this`alloced
      modifies next, voices, chip
      ensures Replaced(old(Snapshot()), r)
      ensures FirstLowest(old(voices[..]), old(alloced), Considered(|old(alloced)|), channel, r)
    {
      hide Valid, Replaced, FirstLowest;
      var result;
      result, r := FindFirstLowest(channel);
      AllocedLinks(r);
      FreeAt(result, r);
    }

    /** A voice with a channel is somewhere on the allocated list. */
    lemma PositionOf(i: nat) returns (r: nat)
      requires Valid() && i < num_opl_voices <= voices.Length && voices[i].channel != NONE
      ensures r < |alloced| && alloced[r] == i
    {
      PartitionFacts(free, alloced, num_opl_voices);
      assert VoiceConsistent(voices[..], chip[..], free, i);
      assert i in alloced;
      r :| r < |alloced| && alloced[r] == i;
    }

    lemma FreedRun(t: Table, r: nat, i: nat) returns (run: seq<nat>)
      requires Replaced(t, r) && t.alloced[r] == i && i < |t.voices| == voices.Length
      ensures run == Run(t.voices, t.alloced[r..], opl_drv_ver) && Freed(t, Snapshot(), run) && Valid()
      ensures voices[i].channel == NONE
      ensures forall j | 0 <= j < voices.Length && t.voices[j].channel == NONE :: voices[j].channel == NONE
    {
      run := Run(t.voices, t.alloced[r..], opl_drv_ver);
      RunIsPrefix(t.voices, t.alloced[r..], opl_drv_ver);
      assert run[0] == i;
      forall j | 0 <= j < voices.Length
        ensures voices[j] == if j in run then Silent(t.voices[j]) else t.voices[j]
      {
        SilencedAt(t.voices, run, j);
      }
    }

    lemma NothingFreed()
      requires Valid()
      ensures Freed(Snapshot(), Snapshot(), [])
    {
      hide Freed;
      FreedNothing(Snapshot());
    }

    lemma NobodyPlays()
      requires Valid() && forall i | 0 <= i < num_opl_voices :: i < voices.Length && voices[i].channel == NONE
      ensures alloced == []
    {
      hide Valid, Partition, Linked, AllPlaced, InRange, Consistent;
      ValidLists();
      ValidArrays();
      SomeoneAllocated(voices[..], chip[..], free, alloced, num_opl_voices);
    }

    /** The loop body of StopSong for a voice that is playing. */
    method ReleasePlaying(i: nat, ghost t: Table, ghost dropped: seq<nat>) returns (ghost run: seq<nat>)
      requires Valid() && Freed(t, Snapshot(), dropped) && i < num_opl_voices && voices[i].channel != NONE
      modifies this`voice_free_list, this`voice_alloced_list, this`voice_alloced_num, this`free, this`alloced
      modifies next, voices, chip
      ensures Valid() && Freed(t, Snapshot(), dropped + run) && voices[i].channel == NONE
      ensures forall j | 0 <= j < voices.Length && old(voices[j].channel) == NONE :: voices[j].channel == NONE
    {
      hide Valid, Freed, Run, Within, Silenced, KeyedOff, InRange, Replaced;
      ValidLists();
      ghost var r := PositionOf(i);
      ghost var t1 := Snapshot();
      FreeAt(i, r);
      run := FreedRun(t1, r, i);
      FreedTwice(t, t1, Snapshot(), dropped, run);
    }

    /** The loop of StopSong: every voice is keyed off and free afterwards. */
    method ReleaseAll() returns (ghost dropped: seq<nat>)
      requires Valid()
      modifies this`voice_free_list, this`voice_alloced_list, this`voice_alloced_num, this`free, this`alloced
      modifies next, voices, chip
      ensures Valid() && alloced == [] && Freed(old(Snapshot()), Snapshot(), dropped)
      ensures num_opl_voices <= voices.Length && forall i | 0 <= i < num_opl_voices :: voices[i].channel == NONE
    {
      hide Valid, Freed, InRange, Snapshot, Partition, Linked;
      ghost var t := Snapshot();
      dropped := [];
      ValidLists();
      NothingFreed();
      for i := 0 to num_opl_voices
        invariant Valid() && Freed(t, Snapshot(), dropped)
        invariant forall j | 0 <= j < i :: voices[j].channel == NONE
      {
        if voices[i].channel != NONE {
          ghost var run := ReleasePlaying(i, t, dropped);
          dropped := dropped + run;
        }
      }
      NobodyPlays();
    }
  }
}
