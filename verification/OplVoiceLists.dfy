/** The voices of src/i_oplmusic.c as values: linked lists threaded through an array of links, what releasing a voice
    does to the table and to the chip, and which voice each driver version gives up for a new note. */
module OplVoiceLists {
  import opened Lists

  const OPL_NUM_VOICES := 9
  const OPL_REGS_FREQ_2 := 0xB0
  const OPL_REGISTERS := 0x200

  datatype DriverVersion = Doom1_1_666 | Doom2_1_666 | Doom_1_9

  const VOICE_OPERATORS: seq<seq<nat>> := [
    [0x00, 0x01, 0x02, 0x08, 0x09, 0x0a, 0x10, 0x11, 0x12],
    [0x03, 0x04, 0x05, 0x0b, 0x0c, 0x0d, 0x13, 0x14, 0x15]
  ]

  /** opl_voice_t without its link; bank is the field called array. Pointers to channels and instruments are their
      numbers in address order, or NONE. */
  datatype Voice = Voice(index: nat, op1: nat, op2: nat, bank: nat, current_instr: int, current_instr_voice: nat,
                         channel: int, key: nat, note: nat, freq: nat, note_volume: nat, reg_volume: nat, priority: int)

  /** A voice in static storage. */
  const BLANK := Voice(0, 0, 0, 0, NONE, 0, NONE, 0, 0, 0, 0, 0, 0)

  // ---------- Lists ----------

  /** Following next from head visits exactly the voices of list and ends. */
  ghost predicate Linked(next: seq<int>, head: int, list: seq<nat>) {
    head == At(list, 0) && forall k: nat | k < |list| :: list[k] < |next| && next[list[k]] == At(list, k + 1)
  }

  /** All members of run are voices. */
  ghost predicate Within(run: seq<nat>, n: nat) {
    forall k | 0 <= k < |run| :: run[k] < n
  }

  function Indices(n: nat): (s: seq<nat>)
    ensures |s| == n && forall i | 0 <= i < n :: s[i] == i
  {
    if n == 0 then [] else Indices(n - 1) + [n - 1]
  }

  /** The two lists together hold each of the first n voices exactly once. */
  ghost predicate Partition(free: seq<nat>, alloced: seq<nat>, n: nat) {
    multiset(free) + multiset(alloced) == multiset(Indices(n))
  }

  lemma {:induction false} CountOne<T>(s: seq<T>, x: T)
    requires NoDup(s)
    ensures multiset(s)[x] <= 1
  {
    if s != [] {
      var n := |s| - 1;
      assert s == s[..n] + [s[n]];
      CountOne(s[..n], x);
    }
  }

  lemma CountTwo<T>(s: seq<T>, i: nat, j: nat)
    requires i < j < |s| && s[i] == s[j]
    ensures multiset(s)[s[i]] >= 2
  {
    assert s == s[..j] + [s[j]] + s[j + 1..];
    assert s[i] in s[..j];
  }

  /** What exactly once means: no list has a voice twice, no voice is on both, and none is missing. */
  lemma PartitionFacts(free: seq<nat>, alloced: seq<nat>, n: nat)
    requires Partition(free, alloced, n)
    ensures NoDup(free) && NoDup(alloced) && (forall v | v in free :: v !in alloced)
    ensures forall v: nat :: v < n <==> v in free || v in alloced
    ensures |free| + |alloced| == n
  {
    var all := Indices(n);
    forall i, j | 0 <= i < j < |free|
      ensures free[i] != free[j]
    {
      if free[i] == free[j] {
        CountTwo(free, i, j);
        CountOne(all, free[i]);
      }
    }
    forall i, j | 0 <= i < j < |alloced|
      ensures alloced[i] != alloced[j]
    {
      if alloced[i] == alloced[j] {
        CountTwo(alloced, i, j);
        CountOne(all, alloced[i]);
      }
    }
    forall v | v in free
      ensures v !in alloced
    {
      CountOne(all, v);
      assert v in alloced ==> v in multiset(alloced) && v in multiset(free);
    }
    forall v: nat
      ensures v < n <==> v in free || v in alloced
    {
      assert v < n ==> all[v] == v;
      assert v in all <==> v in multiset(all);
    }
    assert |multiset(free) + multiset(alloced)| == |multiset(all)|;
  }

  /** The voices of the allocated list exist and are not free. */
  lemma AllocedFacts(free: seq<nat>, alloced: seq<nat>, n: nat, before: seq<nat>, rest: seq<nat>)
    requires Partition(free, alloced, n) && alloced == before + rest
    ensures Within(alloced, n) && Within(rest, n) && NoDup(free) && NoDup(alloced)
    ensures (forall v | v in free :: v !in alloced) && (forall v | v in rest :: v !in free && v < n)
  {
    PartitionFacts(free, alloced, n);
    forall k | 0 <= k < |alloced|
      ensures alloced[k] < n
    {
      assert alloced[k] in alloced;
    }
    forall k | 0 <= k < |rest|
      ensures rest[k] < n
    {
      assert rest[k] == alloced[|before| + k];
    }
  }

  lemma MoveFirst(free: seq<nat>, alloced: seq<nat>, n: nat)
    requires Partition(free, alloced, n) && free != []
    ensures Partition(free[1..], alloced + [free[0]], n)
    ensures NoDup(alloced) && free[0] !in alloced && free[0] !in free[1..] && forall v | v in free[1..] :: v !in alloced
  {
    PartitionFacts(free, alloced, n);
    assert free == [free[0]] + free[1..];
  }

  lemma LinkedBounds(next: seq<int>, head: int, list: seq<nat>)
    requires Linked(next, head, list)
    ensures forall k | 0 <= k < |list| :: list[k] < |next|
  {}

  lemma TailLinked(next: seq<int>, head: int, list: seq<nat>)
    requires Linked(next, head, list) && list != []
    ensures head == list[0] < |next| && Linked(next, next[head], list[1..])
  {
    var tail := list[1..];
    forall k: nat | k < |tail|
      ensures tail[k] < |next| && next[tail[k]] == At(tail, k + 1)
    {
      assert tail[k] == list[k + 1];
    }
  }

  /** The stores of appending voice v after the last voice of a list. */
  function Hooked(next: seq<int>, last: int, v: nat): (r: seq<int>)
    requires v < |next| && last < |next|
    ensures |r| == |next|
  {
    (if last < 0 then next else next[last := v])[v := NONE]
  }

  lemma HookedLinks(next: seq<int>, head: int, list: seq<nat>, v: nat)
    requires Linked(next, head, list) && NoDup(list) && v !in list && v < |next|
    ensures var last := if list == [] then NONE else list[|list| - 1];
            last < |next| && Linked(Hooked(next, last, v), if list == [] then v else head, list + [v])
  {
    var longer := list + [v];
    var last := if list == [] then NONE else list[|list| - 1];
    var after := Hooked(next, last, v);
    forall k: nat | k < |longer|
      ensures longer[k] < |after| && after[longer[k]] == At(longer, k + 1)
    {
      assert k < |list| ==> longer[k] == list[k] && list[k] in list;
    }
  }

  /** Other lists do not notice. */
  lemma HookedElsewhere(next: seq<int>, head: int, list: seq<nat>, last: int, v: nat)
    requires Linked(next, head, list) && v !in list && v < |next| && last < |next| && (last >= 0 ==> last !in list)
    ensures Linked(Hooked(next, last, v), head, list)
  {
    forall k: nat | k < |list|
      ensures Hooked(next, last, v)[list[k]] == next[list[k]]
    {
      assert list[k] in list;
    }
  }

  /** The stores of taking position p out of a list. */
  function Unhooked(next: seq<int>, list: seq<nat>, p: nat): (r: seq<int>)
    requires p < |list| && forall k | 0 <= k < |list| :: list[k] < |next|
    ensures |r| == |next|
  {
    (if p == 0 then next else next[list[p - 1] := next[list[p]]])[list[p] := NONE]
  }

  lemma UnhookedAt(next: seq<int>, list: seq<nat>, p: nat, i: nat)
    requires NoDup(list) && p < |list| && i < |list| && i != p && forall k | 0 <= k < |list| :: list[k] < |next|
    ensures Unhooked(next, list, p)[list[i]] == if i == p - 1 then next[list[p]] else next[list[i]]
  {}

  lemma UnhookedLinks(next: seq<int>, head: int, list: seq<nat>, p: nat)
    requires Linked(next, head, list) && NoDup(list) && p < |list|
    ensures Linked(Unhooked(next, list, p), if p == 0 then next[list[0]] else head, Without(list, p))
  {
    var shorter := Without(list, p);
    var after := Unhooked(next, list, p);
    AtWithout(list, p, 0);
    forall k: nat | k < |shorter|
      ensures shorter[k] < |after| && after[shorter[k]] == At(shorter, k + 1)
    {
      AtWithout(list, p, k);
      AtWithout(list, p, k + 1);
      var i := if k < p then k else k + 1;
      UnhookedAt(next, list, p, i);
      hide Without, Unhooked, NoDup;
      assert shorter[k] == list[i];
    }
  }

  lemma WithoutApart(list: seq<nat>, p: nat, other: seq<nat>)
    requires NoDup(list) && p < |list| && forall v | v in other :: v !in list
    ensures NoDup(Without(list, p)) && list[p] !in Without(list, p)
    ensures forall v | v in other :: v !in Without(list, p)
  {
    WithoutFacts(list, p);
  }

  lemma AppendFacts(list: seq<nat>, v: nat, other: seq<nat>)
    requires NoDup(list) && v !in list && v !in other && forall w | w in list :: w !in other
    ensures NoDup(list + [v]) && forall w | w in list + [v] :: w !in other
  {}

  lemma UnhookedElsewhere(next: seq<int>, head: int, list: seq<nat>, other: seq<nat>, p: nat)
    requires Linked(next, head, list) && p < |other| && (forall k | 0 <= k < |other| :: other[k] < |next|)
    requires forall v | v in list :: v !in other
    ensures Linked(Unhooked(next, other, p), head, list)
  {
    forall k: nat | k < |list|
      ensures Unhooked(next, other, p)[list[k]] == next[list[k]]
    {
      assert list[k] in list && (p > 0 ==> other[p - 1] in other) && other[p] in other;
    }
  }

  // ---------- Releasing a run of voices ----------

  /** The voice at position i of the table has its operators and registers. */
  predicate Placed(v: Voice, i: nat) {
    && v.index == i % OPL_NUM_VOICES && v.bank == i / OPL_NUM_VOICES * 0x100
    && v.op1 == VOICE_OPERATORS[0][i % OPL_NUM_VOICES] && v.op2 == VOICE_OPERATORS[1][i % OPL_NUM_VOICES]
  }

  /** (OPL_REGS_FREQ_2 + index) | array: the register with the key-on bit. */
  function KeyRegister(v: Voice): nat {
    OPL_REGS_FREQ_2 + v.index + v.bank
  }

  /** Key registers of all voices exist. */
  ghost predicate InRange(voices: seq<Voice>, registers: nat) {
    forall i | 0 <= i < |voices| :: KeyRegister(voices[i]) < registers
  }

  ghost predicate AllPlaced(voices: seq<Voice>, n: nat) {
    n <= |voices| && n <= 2 * OPL_NUM_VOICES && forall i: nat | i < n :: Placed(voices[i], i)
  }

  /** No two voices share a key register. */
  lemma KeyRegistersApart(voices: seq<Voice>, n: nat, i: nat, j: nat)
    requires AllPlaced(voices, n) && i < n && j < n
    ensures KeyRegister(voices[i]) < OPL_REGISTERS
    ensures i != j ==> KeyRegister(voices[i]) != KeyRegister(voices[j])
  {
    assert Placed(voices[i], i) && Placed(voices[j], j);
    KeyAddressesApart(i, j);
    hide AllPlaced;
  }

  lemma KeyAddressesApart(i: nat, j: nat)
    requires i < 2 * OPL_NUM_VOICES && j < 2 * OPL_NUM_VOICES
    ensures OPL_REGS_FREQ_2 + i % OPL_NUM_VOICES + i / OPL_NUM_VOICES * 0x100 < OPL_REGISTERS
    ensures i != j ==> i % OPL_NUM_VOICES + i / OPL_NUM_VOICES * 0x100 != j % OPL_NUM_VOICES + j / OPL_NUM_VOICES * 0x100
  {}

  /** The voices ReleaseVoice frees when the rest of the allocated list is list: it goes on to the next voice for
      as long as the voice just freed was the second voice of an instrument. */
  function Run(voices: seq<Voice>, list: seq<nat>, ver: DriverVersion): (run: seq<nat>)
    requires Within(list, |voices|)
    ensures |run| <= |list| && (list != [] ==> |run| > 0)
  {
    if list == [] then []
    else if voices[list[0]].current_instr_voice != 0 && ver != Doom_1_9 then [list[0]] + Run(voices, list[1..], ver)
    else [list[0]]
  }

  lemma {:induction false} RunIsPrefix(voices: seq<Voice>, list: seq<nat>, ver: DriverVersion)
    requires Within(list, |voices|)
    ensures Run(voices, list, ver) == list[..|Run(voices, list, ver)|]
  {
    if list != [] {
      RunIsPrefix(voices, list[1..], ver);
    }
  }

  /** The length of a run depends on nothing that releasing changes. */
  lemma {:induction false} RunSame(voices: seq<Voice>, other: seq<Voice>, list: seq<nat>, ver: DriverVersion)
    requires |voices| == |other| && Within(list, |voices|)
    requires forall i | 0 <= i < |voices| :: voices[i].current_instr_voice == other[i].current_instr_voice
    ensures Run(voices, list, ver) == Run(other, list, ver)
  {
    if list != [] {
      RunSame(voices, other, list[1..], ver);
    }
  }

  lemma WithoutMiddle(before: seq<nat>, rest: seq<nat>)
    requires rest != []
    ensures Without(before + rest, |before|) == before + rest[1..]
    ensures (before + rest)[|before|] == rest[0]
    ensures At(before + rest, |before| + 1) == if |rest| > 1 then rest[1] else NONE
  {}

  function Silent(v: Voice): Voice {
    v.(channel := NONE, note := 0)
  }

  function Silenced(voices: seq<Voice>, run: seq<nat>): (r: seq<Voice>)
    requires Within(run, |voices|)
    ensures |r| == |voices|
    decreases run
  {
    if run == [] then voices else Silenced(voices[run[0] := Silent(voices[run[0]])], run[1..])
  }

  /** The registers after keying off the voices of run. */
  function KeyedOff(chip: seq<nat>, voices: seq<Voice>, run: seq<nat>): (r: seq<nat>)
    requires Within(run, |voices|) && InRange(voices, |chip|)
    ensures |r| == |chip|
    decreases run
  {
    if run == [] then chip
    else KeyedOff(chip[KeyRegister(voices[run[0]]) := voices[run[0]].freq / 256], voices, run[1..])
  }

  lemma SilencedOne(voices: seq<Voice>, v: nat, more: seq<nat>)
    requires v < |voices| && Within(more, |voices|)
    ensures Silenced(voices, [v] + more) == Silenced(voices[v := Silent(voices[v])], more)
    ensures Silenced(voices, [v]) == voices[v := Silent(voices[v])]
  {
    assert ([v] + more)[1..] == more;
    assert Silenced(voices[v := Silent(voices[v])], []) == voices[v := Silent(voices[v])];
  }

  lemma RunOne(voices: seq<Voice>, other: seq<Voice>, rest: seq<nat>, ver: DriverVersion)
    requires |voices| == |other| && rest != [] && Within(rest, |voices|)
    requires forall i | 0 <= i < |voices| :: voices[i].current_instr_voice == other[i].current_instr_voice
    ensures Run(voices, rest, ver) ==
            [rest[0]] + if |rest| > 1 && voices[rest[0]].current_instr_voice != 0 && ver != Doom_1_9
                then Run(other, rest[1..], ver) else []
  {
    RunSame(voices, other, rest[1..], ver);
  }

  lemma {:induction false} SilencedAt(voices: seq<Voice>, run: seq<nat>, i: nat)
    requires Within(run, |voices|) && i < |voices|
    ensures Silenced(voices, run)[i] == if i in run then Silent(voices[i]) else voices[i]
    decreases run
  {
    if run != [] {
      SilencedAt(voices[run[0] := Silent(voices[run[0]])], run[1..], i);
      assert i in run <==> i == run[0] || i in run[1..];
    }
  }

  lemma {:induction false} KeyedOffElsewhere(chip: seq<nat>, voices: seq<Voice>, run: seq<nat>, r: nat)
    requires Within(run, |voices|) && InRange(voices, |chip|)
    requires r < |chip| && forall k | 0 <= k < |run| :: KeyRegister(voices[run[k]]) != r
    ensures KeyedOff(chip, voices, run)[r] == chip[r]
    decreases run
  {
    if run != [] {
      KeyedOffElsewhere(chip[KeyRegister(voices[run[0]]) := voices[run[0]].freq / 256], voices, run[1..], r);
    }
  }

  /** Each voice of the run is keyed off, each other voice keeps its register. */
  lemma {:induction false} KeyedOffAt(chip: seq<nat>, voices: seq<Voice>, run: seq<nat>, n: nat, i: nat)
    requires AllPlaced(voices, n) && |chip| == OPL_REGISTERS && i < n && Within(run, n) && InRange(voices, |chip|)
    ensures KeyRegister(voices[i]) < |chip|
    ensures KeyedOff(chip, voices, run)[KeyRegister(voices[i])] ==
            if i in run then voices[i].freq / 256 else chip[KeyRegister(voices[i])]
    decreases run
  {
    KeyRegistersApart(voices, n, i, i);
    if run != [] {
      var chip1 := chip[KeyRegister(voices[run[0]]) := voices[run[0]].freq / 256];
      KeyedOffAt(chip1, voices, run[1..], n, i);
      assert i in run <==> i == run[0] || i in run[1..];
      KeyRegistersApart(voices, n, i, run[0]);
    }
  }

  /** Silencing voices does not change which registers keying off writes, nor what. */
  lemma {:induction false} KeyedOffSame(chip: seq<nat>, voices: seq<Voice>, other: seq<Voice>, run: seq<nat>)
    requires |voices| == |other|
    requires Within(run, |voices|) && InRange(voices, |chip|)
    requires forall i | 0 <= i < |voices| :: KeyRegister(voices[i]) == KeyRegister(other[i]) && voices[i].freq == other[i].freq
    ensures KeyedOff(chip, voices, run) == KeyedOff(chip, other, run)
    decreases run
  {
    if run != [] {
      KeyedOffSame(chip[KeyRegister(voices[run[0]]) := voices[run[0]].freq / 256], voices, other, run[1..]);
    }
  }

  lemma KeyedOffMore(chip: seq<nat>, voices: seq<Voice>, other: seq<Voice>, more: seq<nat>)
    requires |voices| == |other| && more != [] && Within(more, |voices|) && InRange(voices, |chip|)
    requires forall i | 0 <= i < |voices| :: KeyRegister(voices[i]) == KeyRegister(other[i]) && voices[i].freq == other[i].freq
    ensures KeyedOff(chip, voices, more) ==
            KeyedOff(chip[KeyRegister(other[more[0]]) := other[more[0]].freq / 256], other, more[1..])
  {
    KeyedOffSame(chip, voices, other, more);
  }

  /** The first voice of a run, and the whole of it if nothing follows. */
  lemma ReleaseFirst(voices: seq<Voice>, chip: seq<nat>, voice: nat, before: seq<nat>, rest: seq<nat>,
                     ver: DriverVersion)
    requires voice < |voices| && Within(rest, |voices|) && InRange(voices, |chip|) && (rest != [] ==> voice == rest[0])
    ensures var after := voices[voice := Silent(voices[voice])];
            && InRange(after, |chip|) && Silenced(voices, [voice]) == after && KeyedOff(chip, voices, []) == chip
            && Within([voice], |voices|) && Within([], |voices|)
            && (rest != [] ==>
                  && Within(rest[1..], |voices|) && Without(before + rest, |before|) == before + rest[1..]
                      && (before + rest)[|before|] == voice
                  && (|rest| > 1 ==> rest[1] in before + rest[1..] && rest[1] < |voices| && KeyRegister(after[rest[1]]) < |chip|)
                  && (|rest| > 1 && voices[voice].current_instr_voice != 0 && ver != Doom_1_9 ==>
                        Run(voices, rest, ver) == [voice] + Run(after, rest[1..], ver))
                  && (!(|rest| > 1 && voices[voice].current_instr_voice != 0 && ver != Doom_1_9) ==>
                      Run(voices, rest, ver) == [voice]))
  {
    SilencedOne(voices, voice, []);
    if rest != [] {
      RunOne(voices, voices[voice := Silent(voices[voice])], rest, ver);
      WithoutMiddle(before, rest);
      if |rest| > 1 {
        assert (before + rest[1..])[|before|] == rest[1];
      }
    }
  }

  /** The rest of a run, after its first voice was released and the next one keyed off. */
  lemma ReleaseRest(voices: seq<Voice>, chip: seq<nat>, free: seq<nat>, voice: nat, before: seq<nat>, rest: seq<nat>,
                    more: seq<nat>, ver: DriverVersion)
    requires voice < |voices| && Within(rest, |voices|) && InRange(voices, |chip|) && |rest| > 1
    requires Within(more, |voices|) && more != [] && more[0] == rest[1] && |more| < |rest|
    ensures var after, run := voices[voice := Silent(voices[voice])], [voice] + more;
            && Within(run, |voices|) && run[1..] == more && Within(more[1..], |voices|) && InRange(after, |chip|)
            && Silenced(voices, run) == Silenced(after, more)
            && KeyedOff(chip, voices, more) == KeyedOff(chip[KeyRegister(after[rest[1]]) := after[rest[1]].freq / 256],
                after, more[1..])
            && free + [voice] + more == free + run
            && before + rest[1..][|more|..] == before + rest[|run|..]
  {
    SilencedOne(voices, voice, more);
    KeyedOffMore(chip, voices, voices[voice := Silent(voices[voice])], more);
    RunJoins(free, voice, more, before, rest);
    WithinMore(voice, more, |voices|);
    hide Silenced, KeyedOff, Within;
  }

  lemma RunJoins(free: seq<nat>, voice: nat, more: seq<nat>, before: seq<nat>, rest: seq<nat>)
    requires |more| < |rest|
    ensures ([voice] + more)[1..] == more && free + [voice] + more == free + ([voice] + more)
    ensures before + rest[1..][|more|..] == before + rest[|[voice] + more|..]
  {}

  lemma WithinMore(voice: nat, more: seq<nat>, n: nat)
    requires voice < n && Within(more, n) && more != []
    ensures Within([voice] + more, n) && Within(more[1..], n)
  {}

  // ---------- The whole table ----------

  /** A voice has a channel if and only if it is allocated, and a free voice has its key-on bit (0x20) clear. */
  ghost predicate Consistent(voices: seq<Voice>, chip: seq<nat>, free: seq<nat>, n: nat)
    requires n <= |voices| && InRange(voices, |chip|)
  {
    forall i: nat | i < n :: VoiceConsistent(voices, chip, free, i)
  }

  ghost predicate VoiceConsistent(voices: seq<Voice>, chip: seq<nat>, free: seq<nat>, i: nat)
    requires i < |voices| && InRange(voices, |chip|)
  {
    && voices[i].freq < 0x2000 && voices[i].channel >= NONE
    && (voices[i].channel == NONE <==> i in free)
    && (i in free ==> chip[KeyRegister(voices[i])] < 0x20)
  }

  /** Keying off and releasing a run of voices keeps the table consistent. */
  lemma ReleaseKeepsConsistent(voices: seq<Voice>, chip: seq<nat>, free: seq<nat>, run: seq<nat>, n: nat)
    requires AllPlaced(voices, n) && InRange(voices, |chip|) && |chip| == OPL_REGISTERS && Within(run, n)
    requires Consistent(voices, chip, free, n)
    ensures AllPlaced(Silenced(voices, run), n) && InRange(Silenced(voices, run), |chip|)
    ensures Consistent(Silenced(voices, run), KeyedOff(chip, voices, run), free + run, n)
  {
    var after, chip1 := Silenced(voices, run), KeyedOff(chip, voices, run);
    forall i: nat | i < |voices|
      ensures KeyRegister(after[i]) == KeyRegister(voices[i])
      ensures i < n ==> Placed(after[i], i)
    {
      SilencedAt(voices, run, i);
      assert i < n ==> Placed(voices[i], i);
    }
    forall i: nat | i < n
      ensures VoiceConsistent(after, chip1, free + run, i)
    {
      SilencedAt(voices, run, i);
      KeyedOffAt(chip, voices, run, n, i);
      assert VoiceConsistent(voices, chip, free, i);
    }
  }

  lemma RunWithin(voices: seq<Voice>, list: seq<nat>, ver: DriverVersion, n: nat)
    requires Within(list, |voices|) && Within(list, n)
    ensures Within(Run(voices, list, ver), n)
  {
    var run := Run(voices, list, ver);
    RunIsPrefix(voices, list, ver);
    forall k | 0 <= k < |run|
      ensures run[k] < n
    {
      assert run[k] == list[..|run|][k] == list[k];
    }
  }

  lemma Joined(list: seq<nat>, n: nat)
    requires n <= |list|
    ensures multiset(list) == multiset(list[..n]) + multiset(list[n..])
  {
    assert list == list[..n] + list[n..];
  }

  /** What keying off and releasing the run at the front of rest comes to. */
  lemma FreeFacts(voices: seq<Voice>, chip: seq<nat>, free: seq<nat>, before: seq<nat>, rest: seq<nat>, n: nat,
                  ver: DriverVersion)
    requires Partition(free, before + rest, n) && rest != []
    requires AllPlaced(voices, n) && InRange(voices, |chip|) && |chip| == OPL_REGISTERS
    requires Consistent(voices, chip, free, n)
    ensures Within(rest, |voices|) && rest[0] < |voices| && rest[0] !in free && KeyRegister(voices[rest[0]]) < |chip|
    ensures NoDup(free) && NoDup(before + rest) && forall v | v in free :: v !in before + rest
    ensures var run, after := Run(voices, rest, ver), chip[KeyRegister(voices[rest[0]]) := voices[rest[0]].freq / 256];
            && Within(run, |voices|) && Within(run[1..], |voices|) && InRange(Silenced(voices, run), |chip|)
            && AllPlaced(Silenced(voices, run), n)
            && Consistent(Silenced(voices, run), KeyedOff(after, voices, run[1..]), free + run, n)
            && Partition(free + run, before + rest[|run|..], n)
  {
    AllocedFacts(free, before + rest, n, before, rest);
    RunWithin(voices, rest, ver, n);
    var run := Run(voices, rest, ver);
    ReleaseKeepsConsistent(voices, chip, free, run, n);
    RunIsPrefix(voices, rest, ver);
    RunMoves(free, before, rest, n, |run|);
    RunWithin(voices, rest, ver, |voices|);
    assert Within(run[1..], |voices|);
    hide Run, Within, Partition, NoDup, AllPlaced, InRange, Consistent, Silenced;
  }

  lemma RunMoves(free: seq<nat>, before: seq<nat>, rest: seq<nat>, n: nat, k: nat)
    requires Partition(free, before + rest, n) && k <= |rest|
    ensures Partition(free + rest[..k], before + rest[k..], n)
  {
    hide Indices;
    Joined(rest, k);
    assert multiset(before + rest) == multiset(before) + multiset(rest);
    assert multiset(free + rest[..k]) == multiset(free) + multiset(rest[..k]);
    assert multiset(before + rest[k..]) == multiset(before) + multiset(rest[k..]);
  }

  /** A voice table at one moment. */
  datatype Table = Table(voices: seq<Voice>, chip: seq<nat>, free: seq<nat>, alloced: seq<nat>)

  /** From before to after, the voices of run were keyed off, silenced and moved to the free list. */
  ghost predicate Freed(before: Table, after: Table, run: seq<nat>) {
    && Within(run, |before.voices|) && InRange(before.voices, |before.chip|)
    && after.free == before.free + run
    && after.voices == Silenced(before.voices, run)
    && after.chip == KeyedOff(before.chip, before.voices, run)
  }

  lemma FreedNothing(t: Table)
    requires InRange(t.voices, |t.chip|)
    ensures Freed(t, t, [])
  {
    assert t.free + [] == t.free;
  }

  lemma {:induction false} KeyedOffTwice(chip: seq<nat>, voices: seq<Voice>, a: seq<nat>, b: seq<nat>)
    requires Within(a, |voices|) && Within(b, |voices|) && InRange(voices, |chip|)
    ensures Within(a + b, |voices|) && KeyedOff(KeyedOff(chip, voices, a), voices, b) == KeyedOff(chip, voices, a + b)
    decreases a
  {
    if a == [] {
      assert a + b == b;
    } else {
      assert (a + b)[1..] == a[1..] + b;
      KeyedOffTwice(chip[KeyRegister(voices[a[0]]) := voices[a[0]].freq / 256], voices, a[1..], b);
    }
  }

  lemma FreedTwice(t0: Table, t1: Table, t2: Table, a: seq<nat>, b: seq<nat>)
    requires Freed(t0, t1, a) && Freed(t1, t2, b)
    ensures Freed(t0, t2, a + b)
  {
    SilencedTwice(t0.voices, a, b);
    forall i | 0 <= i < |t0.voices|
      ensures KeyRegister(t0.voices[i]) == KeyRegister(t1.voices[i]) && t0.voices[i].freq == t1.voices[i].freq
    {
      SilencedAt(t0.voices, a, i);
    }
    KeyedOffSame(t1.chip, t0.voices, t1.voices, b);
    KeyedOffTwice(t0.chip, t0.voices, a, b);
    Associative(t0.free, a, b);
  }

  // ---------- Releasing all voices of a note or a channel ----------

  datatype Selector = Note(channel: int, key: nat) | Channel(channel: int)

  predicate Selects(sel: Selector, v: Voice) {
    v.channel == sel.channel && (sel.Note? ==> v.key == sel.key)
  }

  /** What stays on the allocated list. */
  function Kept(voices: seq<Voice>, list: seq<nat>, sel: Selector, ver: DriverVersion): (kept: seq<nat>)
    requires Within(list, |voices|)
    decreases |list|
  {
    if list == [] then []
    else if Selects(sel, voices[list[0]]) then
      assert Within(list[|Run(voices, list, ver)|..], |voices|);
      Kept(voices, list[|Run(voices, list, ver)|..], sel, ver)
    else [list[0]] + Kept(voices, list[1..], sel, ver)
  }

  /** What goes to the free list, in this order. */
  function Dropped(voices: seq<Voice>, list: seq<nat>, sel: Selector, ver: DriverVersion): (dropped: seq<nat>)
    requires Within(list, |voices|)
    decreases |list|
  {
    if list == [] then []
    else if Selects(sel, voices[list[0]]) then
      assert Within(list[|Run(voices, list, ver)|..], |voices|);
      Run(voices, list, ver) + Dropped(voices, list[|Run(voices, list, ver)|..], sel, ver)
    else Dropped(voices, list[1..], sel, ver)
  }

  lemma KeptStep(voices: seq<Voice>, list: seq<nat>, sel: Selector, ver: DriverVersion)
    requires Within(list, |voices|) && list != []
    ensures var selected := Selects(sel, voices[list[0]]);
            var n := if selected then |Run(voices, list, ver)| else 1;
            && 0 < n <= |list| && Within(list[n..], |voices|)
            && var kept, dropped := Kept(voices, list[n..], sel, ver), Dropped(voices, list[n..], sel, ver);
               && Kept(voices, list, sel, ver) == (if selected then kept else [list[0]] + kept)
               && Dropped(voices, list, sel, ver) == (if selected then Run(voices, list, ver) + dropped else dropped)
  {}

  /** No voice of the note stays allocated; in the 1.9 driver exactly the voices of the note go. */
  lemma {:induction false} KeptIsSelected(voices: seq<Voice>, list: seq<nat>, sel: Selector, ver: DriverVersion)
    requires Within(list, |voices|)
    ensures forall v | v in Kept(voices, list, sel, ver) :: v in list && v < |voices| && !Selects(sel, voices[v])
    ensures ver == Doom_1_9 ==> forall v | v in list && !Selects(sel, voices[v]) :: v in Kept(voices, list, sel, ver)
    decreases |list|
  {
    if list != [] {
      var n := if Selects(sel, voices[list[0]]) then |Run(voices, list, ver)| else 1;
      assert list == list[..n] + list[n..];
      KeptIsSelected(voices, list[n..], sel, ver);
    }
  }

  /** Nothing is lost. */
  lemma {:induction false} KeptAndDropped(voices: seq<Voice>, list: seq<nat>, sel: Selector, ver: DriverVersion)
    requires Within(list, |voices|)
    ensures multiset(Kept(voices, list, sel, ver)) + multiset(Dropped(voices, list, sel, ver)) == multiset(list)
    decreases |list|
  {
    if list != [] {
      var selected, run := Selects(sel, voices[list[0]]), Run(voices, list, ver);
      var head := if selected then run else [list[0]];
      var tail := list[|head|..];
      KeptStep(voices, list, sel, ver);
      RunIsPrefix(voices, list, ver);
      KeptAndDropped(voices, tail, sel, ver);
      assert list == list[..|head|] + tail && head == list[..|head|];
      Joins(list, head, tail, Kept(voices, tail, sel, ver), Dropped(voices, tail, sel, ver));
      hide *;
    }
  }

  /** After a release no voice of the note, or of the channel, is left, on either list. */
  lemma ReleasedAreGone(t0: Table, t1: Table, sel: Selector, ver: DriverVersion, dropped: seq<nat>, n: nat)
    requires Partition(t0.free, t0.alloced, n) && n <= |t0.voices| && sel.channel >= 0
    requires Freed(t0, t1, dropped) && Consistent(t0.voices, t0.chip, t0.free, n)
    requires SoFar(t0.voices, t0.alloced, sel, ver, t1.alloced, [], dropped)
    ensures |t1.voices| == |t0.voices|
    ensures forall i: nat | i < n :: !Selects(sel, t1.voices[i])
  {
    PartitionFacts(t0.free, t0.alloced, n);
    KeptIsSelected(t0.voices, t0.alloced, sel, ver);
    forall i: nat | i < n
      ensures !Selects(sel, t1.voices[i])
    {
      SilencedAt(t0.voices, dropped, i);
      if i !in dropped && i !in t0.free {
        assert i in t0.alloced;
        KeptOrDropped(t0.voices, t0.alloced, sel, ver, i);
      } else if i !in dropped {
        assert VoiceConsistent(t0.voices, t0.chip, t0.free, i);
      }
    }
  }

  lemma KeptOrDropped(voices: seq<Voice>, list: seq<nat>, sel: Selector, ver: DriverVersion, i: nat)
    requires Within(list, |voices|) && i in list
    ensures i in Kept(voices, list, sel, ver) || i in Dropped(voices, list, sel, ver)
  {
    KeptAndDropped(voices, list, sel, ver);
    assert i in multiset(list);
    hide Kept, Dropped;
  }

  lemma Joins(list: seq<nat>, head: seq<nat>, tail: seq<nat>, kept: seq<nat>, dropped: seq<nat>)
    requires list == head + tail && multiset(kept) + multiset(dropped) == multiset(tail)
    ensures multiset(head + kept) + multiset(dropped) == multiset(list)
    ensures multiset(kept) + multiset(head + dropped) == multiset(list)
  {}

  /** The state of the releasing loop: rest is still to be looked at. */
  ghost predicate SoFar(voices: seq<Voice>, all: seq<nat>, sel: Selector, ver: DriverVersion,
                        before: seq<nat>, rest: seq<nat>, dropped: seq<nat>)
  {
    && Within(all, |voices|) && Within(rest, |voices|) && Within(dropped, |voices|)
    && Kept(voices, all, sel, ver) == before + Kept(voices, rest, sel, ver)
    && Dropped(voices, all, sel, ver) == dropped + Dropped(voices, rest, sel, ver)
  }

  lemma StartSoFar(voices: seq<Voice>, free: seq<nat>, all: seq<nat>, sel: Selector, ver: DriverVersion, n: nat)
    requires Partition(free, all, n) && n <= |voices|
    ensures SoFar(voices, all, sel, ver, [], all, []) && Within([], |voices|) && Silenced(voices, []) == voices
    ensures [] + all == all && free + [] == free
  {
    assert [] + all == all;
    AllocedFacts(free, all, n, [], all);
    assert [] + Kept(voices, all, sel, ver) == Kept(voices, all, sel, ver);
    assert [] + Dropped(voices, all, sel, ver) == Dropped(voices, all, sel, ver);
  }

  lemma NextSoFar(voices: seq<Voice>, all: seq<nat>, sel: Selector, ver: DriverVersion,
                  before: seq<nat>, rest: seq<nat>, dropped: seq<nat>)
    requires SoFar(voices, all, sel, ver, before, rest, dropped) && rest != []
    ensures rest[0] < |voices|
    ensures var run := Run(voices, rest, ver);
            if Selects(sel, voices[rest[0]]) then SoFar(voices, all, sel, ver, before, rest[|run|..], dropped + run)
            else SoFar(voices, all, sel, ver, before + [rest[0]], rest[1..], dropped)
  {
    KeptStep(voices, rest, sel, ver);
    RunWithin(voices, rest, ver, |voices|);
    var run := Run(voices, rest, ver);
    if Selects(sel, voices[rest[0]]) {
      WithinBoth(dropped, run, |voices|);
      Associative(dropped, run, Dropped(voices, rest[|run|..], sel, ver));
    } else {
      Associative(before, [rest[0]], Kept(voices, rest[1..], sel, ver));
    }
    hide Kept, Dropped, Run, Within;
  }

  lemma Shift(before: seq<nat>, rest: seq<nat>)
    requires rest != []
    ensures before + rest == (before + [rest[0]]) + rest[1..]
  {}

  lemma Associative(a: seq<nat>, b: seq<nat>, c: seq<nat>)
    ensures (a + b) + c == a + (b + c)
  {}

  lemma WithinBoth(a: seq<nat>, b: seq<nat>, n: nat)
    requires Within(a, n) && Within(b, n)
    ensures Within(a + b, n)
  {}

  lemma {:induction false} SilencedTwice(voices: seq<Voice>, a: seq<nat>, b: seq<nat>)
    requires Within(a, |voices|) && Within(b, |voices|)
    ensures Within(a + b, |voices|) && Silenced(Silenced(voices, a), b) == Silenced(voices, a + b)
    decreases a
  {
    if a == [] {
      assert a + b == b;
    } else {
      assert (a + b)[1..] == a[1..] + b;
      SilencedTwice(voices[a[0] := Silent(voices[a[0]])], a[1..], b);
    }
  }

  /** Voices still to be looked at are as they were. */
  lemma StillTheSame(voices: seq<Voice>, free: seq<nat>, dropped: seq<nat>, before: seq<nat>, rest: seq<nat>, n: nat,
                     ver: DriverVersion)
    requires Partition(free + dropped, before + rest, n) && n <= |voices| && Within(dropped, |voices|) && rest != []
    ensures Within(rest, |voices|) && Silenced(voices, dropped)[rest[0]] == voices[rest[0]]
    ensures Run(Silenced(voices, dropped), rest, ver) == Run(voices, rest, ver)
  {
    AllocedFacts(free + dropped, before + rest, n, before, rest);
    var after := Silenced(voices, dropped);
    assert rest[0] !in dropped by {
      assert rest[0] in rest && rest[0] !in free + dropped;
    }
    forall i | 0 <= i < |voices|
      ensures after[i].current_instr_voice == voices[i].current_instr_voice
      ensures i == rest[0] ==> after[i] == voices[i]
    {
      SilencedAt(voices, dropped, i);
    }
    RunSame(after, voices, rest, ver);
  }

  /** The link that leads to the rest of a list. */
  lemma LinkedMiddle(next: seq<int>, head: int, before: seq<nat>, rest: seq<nat>)
    requires Linked(next, head, before + rest)
    ensures before != [] ==> before[|before| - 1] < |next|
    ensures At(rest, 0) == if before == [] then head else next[before[|before| - 1]]
  {
    if before != [] {
      assert (before + rest)[|before| - 1] == before[|before| - 1];
    }
    assert At(before + rest, |before|) == At(rest, 0);
  }

  // ---------- Which voice is given up ----------

  /** Among the first n voices of the list, s is the last second voice of an instrument (or the head if there is none),
      and r is the last of those with the highest channel from s on. */
  predicate LastAfterSecond(voices: seq<Voice>, list: seq<nat>, n: nat, s: nat, r: nat)
  {
    && n <= |list| && s <= r < n && (forall k | 0 <= k < n :: list[k] < |voices|)
    && (s == 0 || voices[list[s]].current_instr_voice != 0)
    && (forall k | s < k < n :: voices[list[k]].current_instr_voice == 0)
    && (forall k | s <= k <= r :: voices[list[k]].channel <= voices[list[r]].channel)
    && (forall k | r < k < n :: voices[list[k]].channel < voices[list[r]].channel)
  }

  predicate FirstHighest(voices: seq<Voice>, list: seq<nat>, n: nat, r: nat) {
    && n <= |list| && r < n && (forall k | 0 <= k < n :: list[k] < |voices|)
    && (forall k | 0 <= k < n :: voices[list[k]].channel <= voices[list[r]].channel)
    && (forall k | 0 <= k < r :: voices[list[k]].channel < voices[list[r]].channel)
  }

  /** How many of the allocated voices the second driver considers: all but the last three. */
  function Considered(count: nat): nat { if count > 3 then count - 3 else 0 }

  predicate Candidate(voices: seq<Voice>, list: seq<nat>, k: nat, n: nat, channel: int) {
    && k < n && k < |list| && list[k] < |voices|
    && voices[list[k]].priority < 0x8000 && voices[list[k]].channel >= channel
  }

  predicate FirstLowest(voices: seq<Voice>, list: seq<nat>, n: nat, channel: int, r: nat) {
    && n <= |list| && r < |list| && (forall k | 0 <= k < |list| :: list[k] < |voices|)
    && (if Candidate(voices, list, r, n, channel)
        then && (forall k | 0 <= k < n :: Candidate(voices, list, k, n, channel) ==>
            voices[list[r]].priority <= voices[list[k]].priority)
             && (forall k | 0 <= k < r :: Candidate(voices, list, k, n, channel) ==>
                 voices[list[r]].priority < voices[list[k]].priority)
        else r == 0 && forall k | 0 <= k < n :: !Candidate(voices, list, k, n, channel))
  }

  /** Which voice each driver gives up for a note of the channel. */
  ghost predicate Chosen(t: Table, ver: DriverVersion, channel: int, r: nat) {
    match ver
    case Doom1_1_666 => FirstHighest(t.voices, t.alloced, |t.alloced|, r)
    case Doom2_1_666 => FirstLowest(t.voices, t.alloced, Considered(|t.alloced|), channel, r)
    case Doom_1_9 => exists s: nat :: LastAfterSecond(t.voices, t.alloced, |t.alloced|, s, r)
  }

  ghost predicate GivesUpAt(t0: Table, t1: Table, ver: DriverVersion, r: nat) {
    && r < |t0.alloced| && Within(t0.alloced[r..], |t0.voices|)
    && var run := Run(t0.voices, t0.alloced[r..], ver);
       && |run| > 0 && Freed(t0, t1, run) && t1.alloced == t0.alloced[..r] + t0.alloced[r..][|run|..]
  }

  /** One voice, the one that the driver chooses, is given up. */
  ghost predicate GivesUp(t0: Table, t1: Table, ver: DriverVersion, channel: int) {
    exists r: nat :: Chosen(t0, ver, channel, r) && GivesUpAt(t0, t1, ver, r)
  }

  /** Voices are given up one at a time, each while fewer are free than wanted. */
  ghost predicate MakesRoom(states: seq<Table>, ver: DriverVersion, channel: int, wanted: nat) {
    && |states| > 0
    && forall k | 0 <= k < |states| - 1 :: |states[k].free| < wanted && GivesUp(states[k], states[k + 1], ver, channel)
  }

  lemma OneMoreGivenUp(states: seq<Table>, t: Table, ver: DriverVersion, channel: int, wanted: nat)
    requires MakesRoom(states, ver, channel, wanted) && |states[|states| - 1].free| < wanted
    requires GivesUp(states[|states| - 1], t, ver, channel)
    ensures MakesRoom(states + [t], ver, channel, wanted)
  {
    hide GivesUp;
  }

  /** Every voice outside touched is the same at both moments, and so is its key register. */
  ghost predicate OthersStay(t0: Table, t1: Table, n: nat, touched: seq<nat>) {
    && n <= |t0.voices| == |t1.voices| && |t0.chip| == |t1.chip|
    && forall i: nat | i < n && i !in touched ::
         && t1.voices[i] == t0.voices[i] && KeyRegister(t0.voices[i]) < |t0.chip|
         && t1.chip[KeyRegister(t0.voices[i])] == t0.chip[KeyRegister(t0.voices[i])]
  }

  lemma LastAfterSecondStep(voices: seq<Voice>, list: seq<nat>, k: nat, s: nat, r: nat)
    requires k < |list| && Within(list, |voices|) && r < |list|
    requires if k == 0 then r == s == 0 else LastAfterSecond(voices, list, k, s, r)
    ensures var v, best := voices[list[k]], voices[list[r]];
            if v.current_instr_voice != 0 then LastAfterSecond(voices, list, k + 1, k, k)
            else LastAfterSecond(voices, list, k + 1, s, if v.channel >= best.channel then k else r)
  {}

  lemma FirstHighestStep(voices: seq<Voice>, list: seq<nat>, k: nat, r: nat)
    requires k < |list| && Within(list, |voices|) && r < |list|
    requires if k == 0 then r == 0 else FirstHighest(voices, list, k, r)
    ensures FirstHighest(voices, list, k + 1, if voices[list[k]].channel > voices[list[r]].channel then k else r)
  {}

  lemma FirstLowestStart(voices: seq<Voice>, list: seq<nat>, channel: int)
    requires list != [] && Within(list, |voices|)
    ensures FirstLowest(voices, list, 0, channel, 0) && !Candidate(voices, list, 0, 0, channel)
  {}

  lemma FirstLowestStep(voices: seq<Voice>, list: seq<nat>, k: nat, channel: int, r: nat)
    requires k < |list| && Within(list, |voices|) && r < |list| && FirstLowest(voices, list, k, channel, r)
    ensures var priority := if Candidate(voices, list, r, k, channel) then voices[list[r]].priority else 0x8000;
            if voices[list[k]].priority < priority && voices[list[k]].channel >= channel
            then FirstLowest(voices, list, k + 1, channel, k) && Candidate(voices, list, k, k + 1, channel)
            else
              && FirstLowest(voices, list, k + 1, channel, r)
              && (Candidate(voices, list, r, k + 1, channel) <==> Candidate(voices, list, r, k, channel))
  {
    var new_r := if voices[list[k]].priority < (if Candidate(voices, list, r, k, channel) then voices[list[r]].priority else 0x8000)
                    && voices[list[k]].channel >= channel then k else r;
    forall j | 0 <= j < k + 1 && Candidate(voices, list, j, k + 1, channel)
      ensures Candidate(voices, list, new_r, k + 1, channel)
      ensures voices[list[new_r]].priority <= voices[list[j]].priority
      ensures j < new_r ==> voices[list[new_r]].priority < voices[list[j]].priority
    {
      assert j < k ==> Candidate(voices, list, j, k, channel);
    }
  }

  lemma DistinctAt(list: seq<nat>, i: nat)
    requires NoDup(list) && i < |list|
    ensures forall k: nat | k <= i :: list[k] == list[i] ==> k == i
  {}

  /** Giving the first free voice a channel keeps the table consistent. */
  lemma TakenConsistent(voices: seq<Voice>, chip: seq<nat>, free: seq<nat>, alloced: seq<nat>, n: nat,
                        channel: int, key: nat, note: nat)
    requires Partition(free, alloced, n) && AllPlaced(voices, n) && InRange(voices, |chip|)
    requires Consistent(voices, chip, free, n)
    requires free != [] && channel >= 0
    ensures free[0] < n && free[0] !in free[1..]
    ensures var after := voices[free[0] := voices[free[0]].(channel := channel, key := key, note := note)];
            AllPlaced(after, n) && InRange(after, |chip|) && Consistent(after, chip, free[1..], n)
  {
    hide Partition, InRange, Placed, VoiceConsistent, KeyRegister;
    PartitionFacts(free, alloced, n);
    assert free[0] in free;
    var i, rest := free[0], free[1..];
    var after := voices[i := voices[i].(channel := channel, key := key, note := note)];
    assert free == [i] + rest && i !in rest;
    forall j: nat | j < n
      ensures Placed(after[j], j)
    {
      assert Placed(voices[j], j);
      Retaken(voices[j], j, channel, key, note);
    }
    StillInRange(voices, |chip|, i, channel, key, note);
    forall j: nat | j < n
      ensures VoiceConsistent(after, chip, rest, j)
    {
      assert VoiceConsistent(voices, chip, free, j);
      TakenAt(voices, chip, free, j, channel, key, note);
    }
  }

  lemma Retaken(v: Voice, i: nat, channel: int, key: nat, note: nat)
    requires Placed(v, i)
    ensures Placed(v.(channel := channel, key := key, note := note), i)
  {}

  lemma StillInRange(voices: seq<Voice>, registers: nat, i: nat, channel: int, key: nat, note: nat)
    requires InRange(voices, registers) && i < |voices|
    ensures InRange(voices[i := voices[i].(channel := channel, key := key, note := note)], registers)
  {}

  lemma TakenAt(voices: seq<Voice>, chip: seq<nat>, free: seq<nat>, j: nat, channel: int, key: nat, note: nat)
    requires j < |voices| && free != [] && free[0] < |voices| && free[0] !in free[1..] && channel >= 0
    requires InRange(voices, |chip|)
    requires VoiceConsistent(voices, chip, free, j)
    requires InRange(voices[free[0] := voices[free[0]].(channel := channel, key := key, note := note)], |chip|)
    ensures VoiceConsistent(voices[free[0] := voices[free[0]].(channel := channel, key := key, note := note)], chip, free[1..], j)
  {
    assert free == [free[0]] + free[1..];
    assert j != free[0] ==> (j in free <==> j in free[1..]);
  }

  /** If any voice is allocated, some voice has a channel. */
  lemma SomeoneAllocated(voices: seq<Voice>, chip: seq<nat>, free: seq<nat>, alloced: seq<nat>, n: nat)
    requires Partition(free, alloced, n) && n <= |voices| && InRange(voices, |chip|)
    requires Consistent(voices, chip, free, n)
    ensures alloced == [] || exists i: nat :: i < n && voices[i].channel != NONE
  {
    if alloced != [] {
      PartitionFacts(free, alloced, n);
      assert alloced[0] in alloced;
      assert VoiceConsistent(voices, chip, free, alloced[0]);
    }
  }

  // ---------- The initial table ----------

  /** Voice i of a new table. */
  function Initial(i: nat): Voice {
    BLANK.(index := i % OPL_NUM_VOICES, op1 := VOICE_OPERATORS[0][i % OPL_NUM_VOICES],
           op2 := VOICE_OPERATORS[1][i % OPL_NUM_VOICES], bank := i / OPL_NUM_VOICES * 0x100)
  }

  lemma EmptyLists(next: seq<int>, chip: seq<nat>, voices: seq<Voice>)
    requires |chip| == OPL_REGISTERS && forall i | 0 <= i < |voices| :: voices[i] == BLANK
    ensures Linked(next, NONE, []) && NoDup<nat>([]) && InRange(voices, |chip|) && Indices(0) == []
    ensures Within([], |voices|)
  {}

  /** Releasing a new voice changes nothing about it. */
  lemma InitialSilent(voices: seq<Voice>, i: nat, chip: seq<nat>)
    requires i < |voices| == 2 * OPL_NUM_VOICES && voices[i] == BLANK && InRange(voices, |chip|)
    requires |chip| == OPL_REGISTERS
    ensures var after := voices[i := Initial(i)];
            InRange(after, |chip|) && Silenced(after, [i]) == after && KeyedOff(chip, after, []) == chip
    ensures i !in Indices(i) && Indices(i) + [i] == Indices(i + 1) && Within([i], |voices|) && Within([], |voices|)
    ensures [i][1..] == []
  {
    SilencedOne(voices[i := Initial(i)], i, []);
    assert Silent(Initial(i)) == Initial(i);
  }

  lemma InitialKeyRegister(i: nat)
    requires i < 2 * OPL_NUM_VOICES
    ensures if i < OPL_NUM_VOICES then 0x60 <= KeyRegister(Initial(i)) <= 0xF5 else 0x160 <= KeyRegister(Initial(i)) <= 0x1F5
  {}

  lemma InitialTable(voices: seq<Voice>, chip: seq<nat>, n: nat)
    requires |voices| == 2 * OPL_NUM_VOICES && |chip| == OPL_REGISTERS
    requires (n == OPL_NUM_VOICES || n == 2 * OPL_NUM_VOICES)
    requires forall i | 0 <= i < n :: voices[i] == Initial(i)
    requires InRange(voices, |chip|) && forall r | 0x60 <= r <= 0xF5 :: chip[r] == 0
    requires n > OPL_NUM_VOICES ==> forall r | 0x160 <= r <= 0x1F5 :: chip[r] == 0
    ensures AllPlaced(voices, n) && Consistent(voices, chip, Indices(n), n) && Partition(Indices(n), [], n)
  {
    forall i: nat | i < n
      ensures VoiceConsistent(voices, chip, Indices(n), i) && Placed(voices[i], i)
    {
      assert Indices(n)[i] == i;
      InitialKeyRegister(i);
      hide KeyRegister;
    }
  }
}
