/** src/i_sdlsound.c: sound effects cached in a doubly linked list, most recently used first, with use counts and a
    size limit. A block of memory is a number; heap holds the blocks that are allocated. */
module SoundCache {
  import opened Lists

  const NUM_CHANNELS := 16
  const NORM_PITCH := 127

  /** allocated_sound_t; alen is the length of its chunk. */
  datatype Sound = Sound(sfxinfo: nat, alen: nat, use_count: int, pitch: int, prev: int, next: int)
  {
    /** The same sound, perhaps linked differently. */
    predicate SameAs(other: Sound) {
      sfxinfo == other.sfxinfo && alen == other.alen && use_count == other.use_count && pitch == other.pitch
    }
  }

  /** The list as the pointers have it. */
  datatype Links = Links(heap: map<nat, Sound>, head: int, tail: int)

  // ---------- The doubly linked list ----------

  predicate NodeOk(heap: map<nat, Sound>, list: seq<nat>, k: nat)
    requires k < |list|
  {
    list[k] in heap && heap[list[k]].next == At(list, k + 1) && heap[list[k]].prev == At(list, k - 1)
  }

  /** Both chains of pointers spell out list, in both directions. */
  ghost predicate Linked(l: Links, list: seq<nat>) {
    && NoDup(list) && l.head == At(list, 0) && l.tail == At(list, |list| - 1)
    && forall k | 0 <= k < |list| :: NodeOk(l.heap, list, k)
  }

  /** AllocatedSoundLink. */
  function HookFront(l: Links, snd: nat): (r: Links)
    requires snd in l.heap && (l.tail != NONE ==> l.head >= 0 && l.head in l.heap)
    ensures r.heap.Keys == l.heap.Keys
  {
    var heap1 := l.heap[snd := l.heap[snd].(prev := NONE, next := l.head)];
    if l.tail == NONE then Links(heap1, snd, snd)
    else Links(heap1[l.head as nat := heap1[l.head].(prev := snd)], snd, l.tail)
  }

  /** AllocatedSoundUnlink. */
  function Unhook(l: Links, snd: nat): (r: Links)
    requires snd in l.heap && (l.heap[snd].prev == NONE || l.heap[snd].prev in l.heap)
    requires l.heap[snd].next == NONE || l.heap[snd].next in l.heap
    ensures r.heap.Keys == l.heap.Keys
  {
    var s := l.heap[snd];
    var heap1 := if s.prev == NONE then l.heap else l.heap[s.prev as nat := l.heap[s.prev].(next := s.next)];
    var heap2 := if s.next == NONE then heap1 else heap1[s.next as nat := heap1[s.next].(prev := s.prev)];
    Links(heap2, if s.prev == NONE then s.next else l.head, if s.next == NONE then s.prev else l.tail)
  }

  /** Only the links of other sounds change. */
  predicate SameSounds(heap0: map<nat, Sound>, heap1: map<nat, Sound>) {
    heap0.Keys == heap1.Keys && forall h | h in heap0 :: heap1[h].SameAs(heap0[h])
  }

  lemma LinkedEnds(l: Links, list: seq<nat>)
    requires Linked(l, list)
    ensures l.tail == NONE <==> list == []
    ensures l.tail != NONE ==> l.head >= 0 && l.head in l.heap && list[0] == l.head && list[|list| - 1] == l.tail
  {
    if list != [] {
      assert NodeOk(l.heap, list, 0) && NodeOk(l.heap, list, |list| - 1);
    }
  }

  lemma LinkedNode(l: Links, list: seq<nat>, p: nat)
    requires Linked(l, list) && p < |list|
    ensures list[p] in l.heap && l.heap[list[p]].next == At(list, p + 1) && l.heap[list[p]].prev == At(list, p - 1)
    ensures l.heap[list[p]].prev == NONE || l.heap[list[p]].prev in l.heap
    ensures l.heap[list[p]].next == NONE || l.heap[list[p]].next in l.heap
  {
    assert NodeOk(l.heap, list, p);
    assert p > 0 ==> NodeOk(l.heap, list, p - 1);
    assert p + 1 < |list| ==> NodeOk(l.heap, list, p + 1);
  }

  lemma HookFrontLinks(l: Links, list: seq<nat>, snd: nat)
    requires Linked(l, list) && snd !in list && snd in l.heap
    ensures l.tail != NONE ==> l.head >= 0 && l.head in l.heap
    ensures Linked(HookFront(l, snd), [snd] + list) && SameSounds(l.heap, HookFront(l, snd).heap)
  {
    LinkedEnds(l, list);
    var r, longer := HookFront(l, snd), [snd] + list;
    forall k | 0 <= k < |longer|
      ensures NodeOk(r.heap, longer, k)
    {
      if k > 0 {
        assert NodeOk(l.heap, list, k - 1);
        assert longer[k] == list[k - 1];
      }
    }
  }

  lemma UnhookLinks(l: Links, list: seq<nat>, p: nat)
    requires Linked(l, list) && p < |list|
    ensures list[p] in l.heap && (l.heap[list[p]].prev == NONE || l.heap[list[p]].prev in l.heap)
    ensures l.heap[list[p]].next == NONE || l.heap[list[p]].next in l.heap
    ensures Linked(Unhook(l, list[p]), Without(list, p)) && SameSounds(l.heap, Unhook(l, list[p]).heap)
  {
    LinkedNode(l, list, p);
    var r, shorter := Unhook(l, list[p]), Without(list, p);
    WithoutFacts(list, p);
    LinkedEnds(l, list);
    AtWithout(list, p, 0);
    AtWithout(list, p, |shorter| - 1);
    forall k | 0 <= k < |shorter|
      ensures NodeOk(r.heap, shorter, k)
    {
      UnhookNode(l, list, p, k);
    }
  }

  lemma UnhookNode(l: Links, list: seq<nat>, p: nat, k: nat)
    requires Linked(l, list) && p < |list| && k < |list| - 1
    requires list[p] in l.heap && (l.heap[list[p]].prev == NONE || l.heap[list[p]].prev in l.heap)
    requires l.heap[list[p]].next == NONE || l.heap[list[p]].next in l.heap
    ensures NodeOk(Unhook(l, list[p]).heap, Without(list, p), k)
  {
    hide Without;
    AtWithout(list, p, k);
    AtWithout(list, p, k + 1);
    AtWithout(list, p, k - 1);
    var i := if k < p then k else k + 1;
    assert NodeOk(l.heap, list, i) && NodeOk(l.heap, list, p);
  }

  // ---------- Accounts ----------

  /** allocated_sounds_size as it should be. */
  ghost function Total(heap: map<nat, Sound>, list: seq<nat>): (n: nat)
    requires forall h | h in list :: h in heap
  {
    if list == [] then 0 else Total(heap, list[..|list| - 1]) + heap[list[|list| - 1]].alen
  }

  /** How many channels are playing a sound. */
  function Playing(channels: seq<int>, snd: nat): (n: nat)
    ensures n > 0 <==> snd in channels
  {
    if channels == [] then 0
    else Playing(channels[..|channels| - 1], snd) + if channels[|channels| - 1] == snd then 1 else 0
  }

  lemma {:induction false} TotalSame(heap0: map<nat, Sound>, heap1: map<nat, Sound>, list: seq<nat>)
    requires forall h | h in list :: h in heap0 && h in heap1 && heap0[h].alen == heap1[h].alen
    ensures Total(heap0, list) == Total(heap1, list)
  {
    if list != [] {
      TotalSame(heap0, heap1, list[..|list| - 1]);
    }
  }

  lemma {:induction false} TotalFront(heap: map<nat, Sound>, snd: nat, list: seq<nat>)
    requires snd in heap && forall h | h in list :: h in heap
    ensures Total(heap, [snd] + list) == heap[snd].alen + Total(heap, list)
  {
    if list == [] {
      assert [snd] + list == [snd];
    } else {
      var n := |list| - 1;
      assert ([snd] + list)[..n + 1] == [snd] + list[..n];
      TotalFront(heap, snd, list[..n]);
    }
  }

  lemma {:induction false} TotalWithout(heap: map<nat, Sound>, list: seq<nat>, p: nat)
    requires p < |list| && forall h | h in list :: h in heap
    ensures forall h | h in Without(list, p) :: h in heap
    ensures Total(heap, Without(list, p)) == Total(heap, list) - heap[list[p]].alen
  {
    var n := |list| - 1;
    if p == n {
      assert Without(list, p) == list[..n];
    } else {
      assert Without(list, p)[..n - 1] == Without(list[..n], p);
      TotalWithout(heap, list[..n], p);
    }
  }

  lemma {:induction false} PlayingUpdate(channels: seq<int>, c: nat, old_snd: int, new_snd: int, snd: nat)
    requires c < |channels| && channels[c] == old_snd
    ensures Playing(channels[c := new_snd], snd) ==
            Playing(channels, snd) - (if old_snd == snd then 1 else 0) + (if new_snd == snd then 1 else 0)
  {
    var n := |channels| - 1;
    if c == n {
      assert channels[c := new_snd][..n] == channels[..n];
    } else {
      assert channels[c := new_snd][..n] == channels[..n][c := new_snd];
      PlayingUpdate(channels[..n], c, old_snd, new_snd, snd);
    }
  }

  /** Every use of a sound is a channel that plays it or a reference held elsewhere. */
  ghost predicate Accounted(heap: map<nat, Sound>, channels: seq<int>, held: multiset<nat>) {
    && (forall h | h in heap :: heap[h].use_count == Playing(channels, h) + held[h])
    && (forall h | h in held :: h in heap)
    && (forall c | 0 <= c < |channels| :: channels[c] == NONE || (channels[c] >= 0 && channels[c] in heap))
  }

  lemma SameAccounts(heap0: map<nat, Sound>, heap1: map<nat, Sound>, channels: seq<int>, held: multiset<nat>)
    requires Accounted(heap0, channels, held) && heap0.Keys == heap1.Keys
    requires forall h | h in heap0 :: heap1[h].use_count == heap0[h].use_count
    ensures Accounted(heap1, channels, held)
  {}

  /** A sound that nobody uses can go. */
  lemma FreedAccounts(heap: map<nat, Sound>, channels: seq<int>, held: multiset<nat>, snd: nat)
    requires Accounted(heap, channels, held) && snd in heap && heap[snd].use_count == 0
    ensures Accounted(heap - {snd}, channels, held) && snd !in channels
  {
    assert held[snd] == 0 && Playing(channels, snd) == 0;
    forall c | 0 <= c < |channels|
      ensures channels[c] == NONE || (channels[c] >= 0 && channels[c] in heap - {snd})
    {
      assert channels[c] in channels;
    }
  }

  lemma NewAccounts(heap: map<nat, Sound>, channels: seq<int>, held: multiset<nat>, snd: nat, s: Sound)
    requires Accounted(heap, channels, held) && snd !in heap && s.use_count == 0
    ensures Accounted(heap[snd := s], channels, held)
  {
    assert forall c | 0 <= c < |channels| :: channels[c] != snd;
  }

  lemma UseAccounts(heap: map<nat, Sound>, channels: seq<int>, held: multiset<nat>, snd: nat, more: bool)
    requires Accounted(heap, channels, held) && if more then snd in heap else snd in held
    ensures snd in heap && (!more ==> heap[snd].use_count > 0)
    ensures var s := heap[snd].(use_count := heap[snd].use_count + if more then 1 else -1);
            Accounted(heap[snd := s], channels, if more then held + multiset{snd} else held - multiset{snd})
  {}

  /** A reference moves between a channel and the other references. */
  lemma ChannelAccounts(heap: map<nat, Sound>, channels: seq<int>, held: multiset<nat>, c: nat, snd: nat, start: bool)
    requires Accounted(heap, channels, held) && c < |channels| && snd in heap
    requires if start then channels[c] == NONE && snd in held else channels[c] == snd
    ensures Accounted(heap, channels[c := if start then snd else NONE], if start then held - multiset{snd} else held + multiset{snd})
  {
    var after := channels[c := if start then snd else NONE];
    forall h | h in heap
      ensures Playing(after, h) == Playing(channels, h) + if h == snd then (if start then 1 else -1) else 0
    {
      PlayingUpdate(channels, c, channels[c], if start then snd else NONE, h);
    }
  }

  // ---------- What freeing leaves ----------

  /** The sounds of the list that are still allocated, in the same order. */
  ghost function Remaining(list: seq<nat>, live: set<nat>): seq<nat> {
    if list == [] then []
    else Remaining(list[..|list| - 1], live) + if list[|list| - 1] in live then [list[|list| - 1]] else []
  }

  lemma {:induction false} AllRemain(list: seq<nat>, live: set<nat>)
    requires forall x | x in list :: x in live
    ensures Remaining(list, live) == list
  {
    if list != [] {
      assert list == list[..|list| - 1] + [list[|list| - 1]];
      AllRemain(list[..|list| - 1], live);
    }
  }

  lemma {:induction false} RemainTwice(list: seq<nat>, live: set<nat>, fewer: set<nat>)
    requires fewer <= live
    ensures Remaining(Remaining(list, live), fewer) == Remaining(list, fewer)
  {
    if list != [] {
      var n := |list| - 1;
      var before := Remaining(list[..n], live);
      RemainTwice(list[..n], live, fewer);
      if list[n] in live {
        assert (before + [list[n]])[..|before|] == before;
      } else {
        assert before + [] == before;
      }
    }
  }

  lemma {:induction false} RemainWithout(list: seq<nat>, p: nat, live: set<nat>)
    requires NoDup(list) && p < |list| && list[p] !in live && forall x | x in list && x != list[p] :: x in live
    ensures Remaining(list, live) == Without(list, p)
  {
    var n := |list| - 1;
    if p == n {
      AllRemain(list[..n], live);
      assert Without(list, p) == list[..n];
    } else {
      RemainWithout(list[..n], p, live);
      assert list[n] in list && Without(list, p) == Without(list[..n], p) + [list[n]];
    }
  }

  /** Sounds were freed, but none that is in use; those that remain are the same, in the same order. */
  ghost predicate Shrunk(heap0: map<nat, Sound>, list0: seq<nat>, heap1: map<nat, Sound>, list1: seq<nat>) {
    && heap1.Keys <= heap0.Keys && list1 == Remaining(list0, heap1.Keys)
    && (forall h | h in heap1 :: heap1[h].SameAs(heap0[h]))
    && (forall h | h in heap0 && heap0[h].use_count > 0 :: h in heap1)
  }

  /** The sounds that nobody uses, most recently used first. */
  ghost function Unused(heap: map<nat, Sound>, list: seq<nat>): seq<nat>
    requires forall h | h in list :: h in heap
  {
    if list == [] then []
    else Unused(heap, list[..|list| - 1]) + if heap[list[|list| - 1]].use_count == 0 then [list[|list| - 1]] else []
  }

  lemma {:induction false} SameUnused(heap0: map<nat, Sound>, heap1: map<nat, Sound>, list: seq<nat>)
    requires (forall h | h in list :: h in heap0 && h in heap1 && heap1[h].use_count == heap0[h].use_count)
    ensures Unused(heap1, list) == Unused(heap0, list)
  {
    if list != [] {
      SameUnused(heap0, heap1, list[..|list| - 1]);
    }
  }

  /** Taking out the unused sound nearest the tail takes the last one of the unused ones. */
  lemma {:induction false} LastUnused(heap: map<nat, Sound>, list: seq<nat>, p: nat)
    requires (forall h | h in list :: h in heap) && p < |list| && heap[list[p]].use_count == 0
    requires forall k | p < k < |list| :: heap[list[k]].use_count != 0
    ensures forall h | h in Without(list, p) :: h in heap
    ensures Unused(heap, list) == Unused(heap, Without(list, p)) + [list[p]]
  {
    var n := |list| - 1;
    if p == n {
      assert Without(list, p) == list[..n];
    } else {
      LastUnused(heap, list[..n], p);
      assert Without(list, p)[..n - 1] == Without(list[..n], p) && Without(list, p)[n - 1] == list[n];
      assert Unused(heap, list[..n]) + [] == Unused(heap, list[..n]);
    }
  }

  /** Some sounds nobody uses were freed, least recently used first. */
  ghost predicate FreedOldest(heap0: map<nat, Sound>, list0: seq<nat>, heap1: map<nat, Sound>, list1: seq<nat>) {
    && (forall h | h in list0 :: h in heap0) && (forall h | h in list1 :: h in heap1)
    && Unused(heap1, list1) <= Unused(heap0, list0)
  }

  /** The last sound that was freed had to go: with it the new one did not fit. */
  ghost predicate NoneTooMany(heap0: map<nat, Sound>, list0: seq<nat>, heap1: map<nat, Sound>, list1: seq<nat>,
                      size: int,
                              len: nat, limit: int)
    requires FreedOldest(heap0, list0, heap1, list1)
  {
    var before, m := Unused(heap0, list0), |Unused(heap1, list1)|;
    m < |before| ==> before[m] in heap0 && size + heap0[before[m]].alen + len > limit
  }

  /** Exactly the sound nearest the tail that nobody uses was freed, and the size is right again. */
  ghost predicate FreedOne(heap0: map<nat, Sound>, list0: seq<nat>, size0: int, heap1: map<nat, Sound>, list1: seq<nat>,
                           size1: int) {
    && FreedOldest(heap0, list0, heap1, list1)
    && var before, m := Unused(heap0, list0), |Unused(heap1, list1)|;
       |before| == m + 1 && before[m] in heap0 && size1 == size0 - heap0[before[m]].alen
  }

  lemma OneFreed(heap0: map<nat, Sound>, list0: seq<nat>, size0: int, heap1: map<nat, Sound>, p: nat, size1: int)
    requires (forall h | h in list0 :: h in heap0) && p < |list0| && heap0[list0[p]].use_count == 0
    requires forall k | p < k < |list0| :: heap0[list0[k]].use_count != 0
    requires Shrunk(heap0, list0, heap1, Without(list0, p)) && forall h | h in Without(list0, p) :: h in heap1
    requires size1 == size0 - heap0[list0[p]].alen
    ensures FreedOne(heap0, list0, size0, heap1, Without(list0, p), size1)
  {
    hide Remaining, Without;
    LastUnused(heap0, list0, p);
    SameUnused(heap0, heap1, Without(list0, p));
  }

  lemma NoneFreed(heap: map<nat, Sound>, list: seq<nat>)
    requires forall h | h in list :: h in heap
    ensures FreedOldest(heap, list, heap, list)
    ensures forall size: int, len: nat, limit: int :: NoneTooMany(heap, list, heap, list, size, len, limit)
  {}

  lemma OneMoreFreed(heap0: map<nat, Sound>, list0: seq<nat>, heap1: map<nat, Sound>, list1: seq<nat>, size1: int,
                     heap2: map<nat, Sound>, list2: seq<nat>, size2: int)
    requires Shrunk(heap0, list0, heap1, list1) && FreedOldest(heap0, list0, heap1, list1)
    requires FreedOne(heap1, list1, size1, heap2, list2, size2)
    ensures FreedOldest(heap0, list0, heap2, list2)
    ensures forall len: nat, limit: int | size1 + len > limit :: NoneTooMany(heap0, list0, heap2, list2, size2, len, limit)
  {
    hide Unused, Remaining;
  }

  /** A new sound at the head does not count. */
  lemma OldestStill(heap0: map<nat, Sound>, list0: seq<nat>, heap1: map<nat, Sound>, list1: seq<nat>,
                    heap2: map<nat, Sound>, list2: seq<nat>, snd: nat)
    requires FreedOldest(heap0, list0, heap1, list1) && list2 == [snd] + list1 && snd !in heap1
    requires forall h | h in heap1 :: h in heap2 && heap2[h].SameAs(heap1[h])
    ensures FreedOldest(heap0, list0, heap2 - {snd}, list2[1..])
    ensures forall size: int, len: nat, limit: int | NoneTooMany(heap0, list0, heap1, list1, size, len, limit) ::
              NoneTooMany(heap0, list0, heap2 - {snd}, list2[1..], size, len, limit)
  {
    assert list2[1..] == list1;
    SameUnused(heap1, heap2 - {snd}, list1);
    hide Unused;
  }

  lemma ShrunkTwice(heap0: map<nat, Sound>, list0: seq<nat>, heap1: map<nat, Sound>, list1: seq<nat>,
                    heap2: map<nat, Sound>, list2: seq<nat>)
    requires Shrunk(heap0, list0, heap1, list1) && Shrunk(heap1, list1, heap2, list2)
    ensures Shrunk(heap0, list0, heap2, list2)
  {
    RemainTwice(list0, heap1.Keys, heap2.Keys);
  }

  lemma ShrunkNot(heap: map<nat, Sound>, list: seq<nat>)
    requires forall h | h in list :: h in heap
    ensures Shrunk(heap, list, heap, list)
  {
    AllRemain(list, heap.Keys);
  }

  lemma LinkedNoDup(l: Links, list: seq<nat>)
    requires Linked(l, list)
    ensures NoDup(list)
  {}

  /** The list does not look at other blocks. */
  lemma LinkedOn(l0: Links, l1: Links, list: seq<nat>)
    requires Linked(l0, list) && l1.head == l0.head && l1.tail == l0.tail
    requires forall h | h in list :: h in l0.heap && h in l1.heap && l1.heap[h] == l0.heap[h]
    ensures Linked(l1, list)
  {
    forall k | 0 <= k < |list|
      ensures NodeOk(l1.heap, list, k)
    {
      assert NodeOk(l0.heap, list, k) && list[k] in list;
    }
  }

  /** After unlinking position p: the sound can be freed, and the size is right again. */
  lemma FreedFacts(heap0: map<nat, Sound>, list0: seq<nat>, heap1: map<nat, Sound>, p: nat, channels: seq<int>,
                   held: multiset<nat>)
    requires NoDup(list0) && p < |list0| && (forall h :: h in heap0 <==> h in list0) && SameSounds(heap0, heap1)
    requires Accounted(heap0, channels, held) && heap0[list0[p]].use_count == 0
    ensures var snd, heap2 := list0[p], heap1 - {list0[p]};
            && (forall h :: h in heap2 <==> h in Without(list0, p)) && snd !in channels && Accounted(heap2, channels, held)
            && Total(heap2, Without(list0, p)) == Total(heap0, list0) - heap0[snd].alen
            && Shrunk(heap0, list0, heap2, Without(list0, p))
  {
    var snd, heap2 := list0[p], heap1 - {list0[p]};
    WithoutFacts(list0, p);
    TotalWithout(heap0, list0, p);
    TotalSame(heap0, heap2, Without(list0, p));
    SameAccounts(heap0, heap1, channels, held);
    FreedAccounts(heap1, channels, held, snd);
    RemainWithout(list0, p, heap2.Keys);
  }

  lemma SizeIsTotal(heap0: map<nat, Sound>, list0: seq<nat>, heap1: map<nat, Sound>, list1: seq<nat>)
    requires Shrunk(heap0, list0, heap1, list1) && (forall h | h in list0 :: h in heap0)
    requires (forall h | h in list1 :: h in heap1)
    ensures heap1 == heap0 ==> Total(heap1, list1) == Total(heap0, list0)
  {
    AllRemain(list0, heap0.Keys);
  }

  /** No sound can be freed: each is in use. */
  ghost predicate AllUsed(heap: map<nat, Sound>) {
    forall h | h in heap :: heap[h].use_count > 0
  }

  lemma {:induction false} RemainingLive(list: seq<nat>, live: set<nat>)
    ensures forall h | h in Remaining(list, live) :: h in live && h in list
    ensures |Remaining(list, live)| <= |list|
  {
    if list != [] {
      RemainingLive(list[..|list| - 1], live);
    }
  }

  lemma TotalAppend(heap: map<nat, Sound>, list: seq<nat>, more: seq<nat>)
    requires (forall h | h in list :: h in heap) && (forall h | h in more :: h in heap) && |more| <= 1
    ensures forall h | h in list + more :: h in heap
    ensures Total(heap, list + more) == Total(heap, list) + if more == [] then 0 else heap[more[0]].alen
  {
    if more == [] {
      assert list + more == list;
    } else {
      assert (list + more)[..|list|] == list;
    }
  }

  /** Freeing never makes the cache larger. */
  lemma {:induction false} RemainingTotal(heap0: map<nat, Sound>, list: seq<nat>, heap1: map<nat, Sound>)
    requires (forall h | h in list :: h in heap0)
    requires forall h | h in heap1 :: h in heap0 && heap1[h].alen == heap0[h].alen
    requires forall h | h in Remaining(list, heap1.Keys) :: h in heap1
    ensures Total(heap1, Remaining(list, heap1.Keys)) <= Total(heap0, list)
  {
    if list != [] {
      var n := |list| - 1;
      RemainingLive(list[..n], heap1.Keys);
      RemainingTotal(heap0, list[..n], heap1);
      TotalAppend(heap1, Remaining(list[..n], heap1.Keys), if list[n] in heap1.Keys then [list[n]] else []);
    }
  }

  lemma ShrunkSize(heap0: map<nat, Sound>, list0: seq<nat>, heap1: map<nat, Sound>, list1: seq<nat>)
    requires Shrunk(heap0, list0, heap1, list1) && (forall h | h in list0 :: h in heap0)
    requires (forall h | h in list1 :: h in heap1)
    ensures Total(heap1, list1) <= Total(heap0, list0)
    ensures AllUsed(heap0) ==> AllUsed(heap1)
  {
    hide Total, Remaining;
    RemainingTotal(heap0, list0, heap1);
  }

  /** One new sound at the head; of the others some may be gone, but none in use. */
  ghost predicate Grown(heap0: map<nat, Sound>, list0: seq<nat>, heap1: map<nat, Sound>, list1: seq<nat>, snd: nat) {
    && snd in heap1 && snd !in heap0 && list1 != [] && list1[0] == snd
    && Shrunk(heap0, list0, heap1 - {snd}, list1[1..])
  }

  lemma GrownAfter(heap0: map<nat, Sound>, list0: seq<nat>, heap1: map<nat, Sound>, list1: seq<nat>,
                   heap2: map<nat, Sound>, list2: seq<nat>, snd: nat)
    requires Shrunk(heap0, list0, heap1, list1) && (forall h | h in list0 :: h in heap0)
    requires heap2.Keys == heap1.Keys + {snd} && snd !in heap0 && list2 == [snd] + list1
    requires forall h | h in heap1 :: heap2[h].SameAs(heap1[h])
    ensures Grown(heap0, list0, heap2, list2, snd)
    ensures AllUsed(heap1) ==> AllUsed(heap2 - {snd})
  {
    assert (heap2 - {snd}).Keys == heap1.Keys;
    assert list2[1..] == list1;
  }

  /** A use count or a pitch is not a link. */
  lemma SameLinks(l0: Links, l1: Links, list: seq<nat>)
    requires Linked(l0, list) && l1.head == l0.head && l1.tail == l0.tail && l0.heap.Keys == l1.heap.Keys
    requires forall h | h in l0.heap :: l1.heap[h].next == l0.heap[h].next && l1.heap[h].prev == l0.heap[h].prev
    ensures Linked(l1, list)
  {
    forall k | 0 <= k < |list|
      ensures NodeOk(l1.heap, list, k)
    {
      assert NodeOk(l0.heap, list, k);
    }
  }

  lemma LockFacts(heap0: map<nat, Sound>, list0: seq<nat>, heap1: map<nat, Sound>, heap2: map<nat, Sound>, p: nat,
                  channels: seq<int>, held: multiset<nat>)
    requires NoDup(list0) && p < |list0| && (forall h :: h in heap0 <==> h in list0)
    requires heap1 == heap0[list0[p] := heap0[list0[p]].(use_count := heap0[list0[p]].use_count + 1)]
    requires SameSounds(heap1, heap2) && Accounted(heap1, channels, held)
    ensures var list2 := [list0[p]] + Without(list0, p);
            && (forall h :: h in heap2 <==> h in list2) && Accounted(heap2, channels, held)
                && Total(heap2, list2) == Total(heap0, list0)
            && heap2.Keys == heap0.Keys
  {
    WithoutFacts(list0, p);
    SameAccounts(heap1, heap2, channels, held);
    TotalWithout(heap0, list0, p);
    TotalSame(heap0, heap2, Without(list0, p));
    TotalFront(heap2, list0[p], Without(list0, p));
  }

  /** The sound data of an effect as CacheSFX finds it: not a valid sound, or this long when expanded. */
  datatype Lump = Invalid | Expanded(length: nat)

  /** An unshifted sound of the effect, in use. */
  ghost predicate IsBase(heap: map<nat, Sound>, snd: nat, sfxinfo: nat) {
    snd in heap && heap[snd].sfxinfo == sfxinfo && heap[snd].pitch == NORM_PITCH && heap[snd].use_count > 0
  }

  /** No sound in use is freed or forgets what it is. */
  ghost predicate KeepsUsed(heap0: map<nat, Sound>, heap1: map<nat, Sound>) {
    forall h | h in heap0 && heap0[h].use_count > 0 ::
      h in heap1 && heap1[h].sfxinfo == heap0[h].sfxinfo && heap1[h].pitch == heap0[h].pitch
          && heap1[h].use_count >= heap0[h].use_count
  }

  predicate IsSound(heap: map<nat, Sound>, snd: nat, sfxinfo: nat, pitch: int) {
    snd in heap && heap[snd].sfxinfo == sfxinfo && heap[snd].pitch == pitch
  }

  // ---------- Shifted sounds ----------

  /** Every shifted sound is played by some channel, and nobody else refers to it. */
  ghost predicate ShiftedPlayed(heap: map<nat, Sound>, channels: seq<int>, held: multiset<nat>) {
    forall h | h in heap && heap[h].pitch != NORM_PITCH :: h in channels && h !in held
  }

  predicate SameEffect(s: Sound, t: Sound) { s.sfxinfo == t.sfxinfo && s.pitch == t.pitch }

  /** No sound forgets what it is, and new sounds are unshifted, except perhaps one. */
  ghost predicate Inherits(heap0: map<nat, Sound>, heap1: map<nat, Sound>, shifted: int) {
    forall h | h in heap1 :: if h in heap0 then SameEffect(heap1[h], heap0[h]) else heap1[h].pitch == NORM_PITCH || h == shifted
  }

  /** What the channels play stays what it is. */
  ghost predicate KeepsPlayed(heap0: map<nat, Sound>, heap1: map<nat, Sound>, channels: seq<int>) {
    forall c | 0 <= c < |channels| && channels[c] != NONE ::
      && channels[c] >= 0 && channels[c] in heap0 && channels[c] in heap1
      && var h: nat := channels[c]; SameEffect(heap1[h], heap0[h])
  }

  lemma PlayedKept(heap0: map<nat, Sound>, heap1: map<nat, Sound>, channels: seq<int>, held0: multiset<nat>,
                   held1: multiset<nat>, shifted: int)
    requires Accounted(heap0, channels, held0) && Accounted(heap1, channels, held1) && Inherits(heap0, heap1, shifted)
    ensures KeepsPlayed(heap0, heap1, channels)
  {}

  lemma ReleasedKeepsPlayed(heap0: map<nat, Sound>, heap1: map<nat, Sound>, channels: seq<int>, held: multiset<nat>)
    requires Accounted(heap1, channels, held) && forall h | h in heap1 :: h in heap0 && SameEffect(heap1[h], heap0[h])
    ensures KeepsPlayed(heap0, heap1, channels)
  {}

  lemma KeepsPlayedTwice(heap0: map<nat, Sound>, heap1: map<nat, Sound>, heap2: map<nat, Sound>, channels: seq<int>)
    requires KeepsPlayed(heap0, heap1, channels) && KeepsPlayed(heap1, heap2, channels)
    ensures KeepsPlayed(heap0, heap2, channels)
  {}

  lemma BaseIsCached(heap: map<nat, Sound>, base: nat, sfxinfo: nat)
    requires IsBase(heap, base, sfxinfo)
    ensures IsCached(heap, sfxinfo, NORM_PITCH)
  {
    assert IsSound(heap, base, sfxinfo, NORM_PITCH);
  }

  /** Letting go of a shifted sound leaves the unshifted ones. */
  lemma BasesStay(heap0: map<nat, Sound>, heap1: map<nat, Sound>, sfxinfo: nat)
    requires forall h | h in heap1 :: h in heap0 && SameEffect(heap1[h], heap0[h])
    requires forall h | h in heap0 && h !in heap1 :: heap0[h].pitch != NORM_PITCH
    ensures IsCached(heap1, sfxinfo, NORM_PITCH) <==> IsCached(heap0, sfxinfo, NORM_PITCH)
  {
    if h: nat :| IsSound(heap0, h, sfxinfo, NORM_PITCH) {
      assert IsSound(heap1, h, sfxinfo, NORM_PITCH);
    }
    if h: nat :| IsSound(heap1, h, sfxinfo, NORM_PITCH) {
      assert IsSound(heap0, h, sfxinfo, NORM_PITCH);
    }
  }

  /** The references that nobody gives back keep their sounds. */
  ghost predicate KeepsHeld(heap0: map<nat, Sound>, heap1: map<nat, Sound>, held: multiset<nat>) {
    forall h | h in held :: h in heap0 && h in heap1 && SameEffect(heap1[h], heap0[h])
  }

  ghost predicate IsCached(heap: map<nat, Sound>, sfxinfo: nat, pitch: int) {
    exists h: nat :: IsSound(heap, h, sfxinfo, pitch)
  }

  /** Another channel plays the effect at this pitch. */
  ghost predicate PlaysElsewhere(heap: map<nat, Sound>, channels: seq<int>, channel: int, sfxinfo: nat, pitch: int) {
    exists c | 0 <= c < |channels| && c != channel :: channels[c] >= 0 && IsSound(heap, channels[c], sfxinfo, pitch)
  }

  /** A reference to the unshifted sound of the effect is left over, so it will never be freed. */
  ghost predicate Pinned(heap: map<nat, Sound>, held: multiset<nat>, sfxinfo: nat) {
    exists h: nat :: h in held && IsSound(heap, h, sfxinfo, NORM_PITCH)
  }

  lemma PinnedStays(heap0: map<nat, Sound>, heap1: map<nat, Sound>, held0: multiset<nat>, held1: multiset<nat>,
                    sfxinfo: nat)
    requires Pinned(heap0, held0, sfxinfo) && KeepsHeld(heap0, heap1, held0) && held0 <= held1
    ensures Pinned(heap1, held1, sfxinfo)
  {
    var h: nat :| h in held0 && IsSound(heap0, h, sfxinfo, NORM_PITCH);
    assert h in held1 && IsSound(heap1, h, sfxinfo, NORM_PITCH);
  }

  lemma KeepsHeldTwice(heap0: map<nat, Sound>, heap1: map<nat, Sound>, heap2: map<nat, Sound>, held: multiset<nat>,
                      more: multiset<nat>)
    requires KeepsHeld(heap0, heap1, held) && KeepsHeld(heap1, heap2, more) && held <= more
    ensures KeepsHeld(heap0, heap2, held)
  {}

  lemma UsedAreHeld(heap0: map<nat, Sound>, heap1: map<nat, Sound>, channels: seq<int>, held: multiset<nat>)
    requires Accounted(heap0, channels, held) && KeepsUsed(heap0, heap1)
    ensures KeepsHeld(heap0, heap1, held)
  {}

  /** After a channel has let go of its sound. */
  lemma ReleasedPlayed(heap0: map<nat, Sound>, heap1: map<nat, Sound>, channels: seq<int>, held: multiset<nat>, c: nat)
    requires ShiftedPlayed(heap0, channels, held) && c < |channels| && Accounted(heap1, channels[c := NONE], held)
    requires forall h | h in heap1 :: h in heap0 && SameEffect(heap1[h], heap0[h])
    requires forall h | h in heap1 && h == channels[c] && heap1[h].pitch != NORM_PITCH :: heap1[h].use_count > 0
    ensures ShiftedPlayed(heap1, channels[c := NONE], held)
  {
    forall h | h in heap1 && heap1[h].pitch != NORM_PITCH
      ensures h in channels[c := NONE] && h !in held
    {
      assert heap1[h].use_count == Playing(channels[c := NONE], h) + held[h];
      if h != channels[c] {
        var k :| 0 <= k < |channels| && channels[k] == h;
        assert channels[c := NONE][k] == h;
      }
    }
  }

  lemma ReleasedKeepsHeld(heap0: map<nat, Sound>, heap1: map<nat, Sound>, channels: seq<int>, held: multiset<nat>)
    requires Accounted(heap0, channels, held) && ShiftedPlayed(heap0, channels, held)
    requires forall h | h in heap1 :: h in heap0 && SameEffect(heap1[h], heap0[h])
    requires forall h | h in heap0 && h !in heap1 :: heap0[h].pitch != NORM_PITCH
    ensures KeepsHeld(heap0, heap1, held)
  {}

  /** Loading an effect and taking a reference to its unshifted sound changes nothing about shifted ones. */
  lemma LockedPlayed(heap0: map<nat, Sound>, heap1: map<nat, Sound>, channels: seq<int>, held0: multiset<nat>,
                     held1: multiset<nat>)
    requires ShiftedPlayed(heap0, channels, held0) && Inherits(heap0, heap1, NONE)
    requires forall h | h in held1 && h !in held0 :: h in heap1 && heap1[h].pitch == NORM_PITCH
    ensures ShiftedPlayed(heap1, channels, held1)
  {}

  /** After a channel has taken over the reference to the chosen sound. */
  lemma ChosenPlayed(heap0: map<nat, Sound>, heap1: map<nat, Sound>, channels: seq<int>, held0: multiset<nat>,
                     held1: multiset<nat>,
                     c: nat, snd: nat)
    requires ShiftedPlayed(heap0, channels, held0) && Inherits(heap0, heap1, snd) && c < |channels|
    requires channels[c] == NONE
    requires (forall h | h in held0 :: h in heap0) && forall h | h in held1 :: h in held0
    ensures ShiftedPlayed(heap1, channels[c := snd], held1)
  {
    var after := channels[c := snd];
    forall h | h in heap1 && heap1[h].pitch != NORM_PITCH
      ensures h in after && h !in held1
    {
      assert h in held1 ==> h in held0;
      if h == snd {
        assert after[c] == h;
      } else {
        var k :| 0 <= k < |channels| && channels[k] == h;
        assert after[k] == h;
      }
    }
  }

  /** With channel c free, a sound of a shifted pitch is cached exactly when another channel plays it. */
  lemma CachedIffPlayed(heap0: map<nat, Sound>, heap1: map<nat, Sound>, heap2: map<nat, Sound>, channels: seq<int>,
                        held1: multiset<nat>, held2: multiset<nat>, c: nat, sfxinfo: nat, pitch: int)
    requires c < |channels| && pitch != NORM_PITCH
    requires Accounted(heap1, channels[c := NONE], held1) && Accounted(heap2, channels[c := NONE], held2)
    requires ShiftedPlayed(heap2, channels[c := NONE], held2) && Inherits(heap1, heap2, NONE)
    requires forall h | h in heap1 :: h in heap0 && SameEffect(heap1[h], heap0[h])
    ensures IsCached(heap2, sfxinfo, pitch) <==> PlaysElsewhere(heap0, channels, c, sfxinfo, pitch)
  {
    var after := channels[c := NONE];
    if h: nat :| IsSound(heap2, h, sfxinfo, pitch) {
      var k :| 0 <= k < |after| && after[k] == h;
      assert k != c && channels[k] == h;
      assert IsSound(heap0, channels[k], sfxinfo, pitch);
    }
    if PlaysElsewhere(heap0, channels, c, sfxinfo, pitch) {
      var k :| 0 <= k < |channels| && k != c && channels[k] >= 0 && IsSound(heap0, channels[k], sfxinfo, pitch);
      assert after[k] == channels[k];
      assert IsSound(heap2, after[k], sfxinfo, pitch);
    }
  }

  /** A use count is not what a sound is. */
  lemma LockKeeps(heap0: map<nat, Sound>, heap1: map<nat, Sound>, held: multiset<nat>, snd: nat, use_count: int)
    requires snd in heap0 && SameSounds(heap0[snd := heap0[snd].(use_count := use_count)], heap1)
    requires forall h | h in held :: h in heap0
    ensures Inherits(heap0, heap1, NONE) && Inherits(heap0, heap1, snd) && KeepsHeld(heap0, heap1, held)
    ensures heap1.Keys == heap0.Keys
  {}

  lemma SoundStays(heap0: map<nat, Sound>, heap1: map<nat, Sound>, shifted: int, h: nat, sfxinfo: nat, pitch: int)
    requires Inherits(heap0, heap1, shifted) && heap0.Keys <= heap1.Keys && IsSound(heap0, h, sfxinfo, pitch)
    ensures IsSound(heap1, h, sfxinfo, pitch)
  {}

  lemma GrownFacts(heap0: map<nat, Sound>, list0: seq<nat>, heap1: map<nat, Sound>, list1: seq<nat>, snd: nat)
    requires Grown(heap0, list0, heap1, list1, snd)
    ensures snd in heap1 && snd !in heap0 && snd in list1
  {
    assert list1[0] in list1;
  }

  /** What making room, and giving the new sound its pitch, leaves of the other sounds. */
  lemma AllocatedFacts(heap0: map<nat, Sound>, list0: seq<nat>, heap1: map<nat, Sound>, list1: seq<nat>,
                      heap2: map<nat, Sound>,
                       snd: int, held: multiset<nat>)
    requires if snd == NONE then Shrunk(heap0, list0, heap1, list1) && heap2 == heap1
             else snd >= 0 && Grown(heap0, list0, heap1, list1, snd) && snd in heap2 && heap2 == heap1[snd as nat := heap2[snd]]
    requires forall h | h in held :: h in heap0 && heap0[h].use_count > 0
    ensures Inherits(heap0, heap2, snd) && KeepsHeld(heap0, heap2, held)
    ensures forall h | h in heap0 && heap0[h].use_count > 0 :: h in heap2 && heap2[h].SameAs(heap0[h])
  {
    if snd != NONE {
      assert forall h | h in heap1 && h != snd :: h in heap1 - {snd as nat};
    }
  }

  lemma InheritsAny(heap0: map<nat, Sound>, heap1: map<nat, Sound>, shifted: int)
    requires Inherits(heap0, heap1, NONE)
    ensures Inherits(heap0, heap1, shifted)
  {}

  lemma InheritsTwice(heap0: map<nat, Sound>, heap1: map<nat, Sound>, heap2: map<nat, Sound>, shifted: int)
    requires Inherits(heap0, heap1, shifted) && Inherits(heap1, heap2, NONE) && heap2.Keys == heap1.Keys
    ensures Inherits(heap0, heap2, shifted)
  {}

  lemma MoreHeld(held: multiset<nat>, snd: nat, newsnd: nat)
    requires snd in held
    ensures held <= held + multiset{newsnd} && snd in held + multiset{newsnd}
    ensures held + multiset{newsnd} - multiset{snd} == held - multiset{snd} + multiset{newsnd}
  {}

  lemma OneMore(held: multiset<nat>, snd: nat)
    ensures snd in held + multiset{snd} && held + multiset{snd} - multiset{snd} == held == held - multiset{}
  {}

  lemma SameSoundsItself(heap: map<nat, Sound>)
    ensures SameSounds(heap, heap)
  {}

  lemma LeftOverCases(held: multiset<nat>, left: multiset<nat>, base: nat)
    requires left == multiset{} || left == multiset{base}
    ensures held + multiset{base} - (if left == multiset{} then multiset{base} else multiset{}) == held + left
    ensures (multiset{base} == multiset{}) == false && forall h | h in held + left :: h in held + multiset{base}
  {}

  lemma HeldInHeap(heap: map<nat, Sound>, channels: seq<int>, held: multiset<nat>, snd: nat)
    requires Accounted(heap, channels, held) && snd in held
    ensures snd in heap
  {}

  lemma ChannelSound(heap: map<nat, Sound>, channels: seq<int>, held: multiset<nat>, c: nat)
    requires Accounted(heap, channels, held) && c < |channels|
    ensures channels[c] != NONE ==> channels[c] >= 0 && channels[c] in heap && heap[channels[c] as nat].use_count > 0
  {
    assert channels[c] in channels;
  }

  /** A sound can be freed exactly when no channel plays it and no reference is left over. */
  lemma UnusedIff(heap: map<nat, Sound>, channels: seq<int>, held: multiset<nat>, snd: nat)
    requires Accounted(heap, channels, held) && snd in heap
    ensures heap[snd].use_count == 0 <==> snd !in channels && snd !in held
    ensures heap[snd].use_count >= 0
  {}

  /** A call from outside. */
  datatype SoundStep =
    | Start(sfxinfo: nat, channel: int, pitch: int, lump: Lump, dstlen: nat, malloc: nat -> bool, malloc2: nat -> bool)
    | Stop(handle: int)
    | Update(finished: nat -> bool)

  /** An effect was started at its own pitch. */
  predicate StartedAsIs(step: SoundStep, result: int) { step.Start? && step.pitch == NORM_PITCH && result != -1 }

  /** The cache at one moment. */
  datatype CacheState = CacheState(heap: map<nat, Sound>, list: seq<nat>, channels: seq<int>, held: multiset<nat>)

  /** Channels let go of sounds: at most shifted ones are freed, and the others stay what and where they are. */
  ghost predicate Settles(heap0: map<nat, Sound>, list0: seq<nat>, heap1: map<nat, Sound>, list1: seq<nat>) {
    && (forall h | h in heap1 :: h in heap0 && SameEffect(heap1[h], heap0[h]))
    && (forall h | h in heap0 && h !in heap1 :: heap0[h].pitch != NORM_PITCH)
    && list1 == Remaining(list0, heap1.Keys)
  }

  lemma SettlesTwice(heap0: map<nat, Sound>, list0: seq<nat>, heap1: map<nat, Sound>, list1: seq<nat>,
                     heap2: map<nat, Sound>, list2: seq<nat>)
    requires Settles(heap0, list0, heap1, list1) && Settles(heap1, list1, heap2, list2)
    ensures Settles(heap0, list0, heap2, list2)
  {
    RemainTwice(list0, heap1.Keys, heap2.Keys);
    hide Remaining;
  }

  /** A start of the effect that went well: what plays, and the reference that is left over. */
  ghost predicate Starts(s: CacheState, t: CacheState, sfxinfo: nat, channel: int, pitch: int, base: nat, playing: nat,
                         pitchshift: bool, malloc2: nat -> bool) {
    var left := if pitch == NORM_PITCH || PlaysElsewhere(s.heap, s.channels, channel, sfxinfo,
                                                         pitch) then multiset{base} else multiset{};
    && t.held == s.held + left && 0 <= channel < |s.channels| && t.channels == s.channels[channel := playing]
    && IsSound(t.heap, base, sfxinfo, NORM_PITCH)
    && (IsSound(t.heap, playing, sfxinfo, pitch) || (playing == base && left == multiset{}))
    && (pitchshift && malloc2(0) ==> IsSound(t.heap, playing, sfxinfo, pitch))
    && (!pitchshift && left == multiset{} ==> playing == base)
  }

  /** What a call does. A start fails if the effect is not cached and its data is not valid, and only then if there is
      memory. */
  ghost predicate Does(step: SoundStep, s: CacheState, t: CacheState, result: int, pitchshift: bool) {
    match step
    case Stop(handle) =>
      && t.held == s.held && Settles(s.heap, s.list, t.heap, t.list)
      && t.channels == if 0 <= handle < |s.channels| then s.channels[handle := NONE] else s.channels
    case Update(finished) =>
      && t.held == s.held && Settles(s.heap, s.list, t.heap, t.list) && |t.channels| == |s.channels|
      && forall c: nat | c < |s.channels| :: t.channels[c] == if finished(c) then NONE else s.channels[c]
    case Start(sfxinfo, channel, pitch, lump, dstlen, malloc, malloc2) =>
      if !(0 <= channel < |s.channels|) then result == -1 && t == s
      else
        && KeepsPlayed(s.heap, t.heap, s.channels[channel := NONE])
        && (lump.Expanded? && malloc(0) ==> result == channel)
        && (IsCached(s.heap, sfxinfo, NORM_PITCH) ==> result == channel)
        && (!IsCached(s.heap, sfxinfo, NORM_PITCH) && lump.Invalid? ==> result == -1)
        && if result == -1 then t.held == s.held && t.channels == s.channels[channel := NONE]
           else result == channel && exists base: nat, playing: nat ::
                  Starts(s, t, sfxinfo, channel, pitch, base, playing, pitchshift, malloc2)
  }

  class Cache {
    const snd_cachesize: int
    const snd_pitchshift: bool
    const channels_playing: array<int>
    var heap: map<nat, Sound>
    var head: int
    var tail: int
    var allocated_sounds_size: int
    var next_block: nat

    /** The list from head to tail, and the references that no channel accounts for. */
    ghost var list: seq<nat>
    ghost var held: multiset<nat>

    ghost predicate Listed()
      reads this
    {
      && Linked(Links(heap, head, tail), list) && (forall h :: h in heap <==> h in list)
      && allocated_sounds_size == Total(heap, list) && (forall h | h in heap :: h < next_block)
    }

    ghost predicate Valid()
      reads this, channels_playing
    {
      && Listed() && channels_playing.Length == NUM_CHANNELS && Accounted(heap, channels_playing[..], held)
    }

    /** Between the calls from outside. */
    ghost predicate AtRest()
      reads this, channels_playing
    {
      Valid() && ShiftedPlayed(heap, channels_playing[..], held)
    }

    constructor (size: int, pitchshift: bool)
      ensures AtRest() && list == [] && held == multiset{} && snd_cachesize == size && snd_pitchshift == pitchshift
      ensures fresh(channels_playing) && forall c | 0 <= c < NUM_CHANNELS :: channels_playing[c] == NONE
    {
      snd_cachesize, snd_pitchshift := size, pitchshift;
      channels_playing := new int[NUM_CHANNELS](_ => NONE);
      heap, head, tail, allocated_sounds_size, next_block := map[], NONE, NONE, 0, 0;
      list, held := [], multiset{};
    }

    /** A sound that some channel plays is still allocated, is on the list, and is used at least once for each channel
        that plays it. */
    lemma PlayingIsCached(c: nat)
      requires Valid() && c < NUM_CHANNELS && channels_playing[c] != NONE
      ensures channels_playing[c] >= 0 && channels_playing[c] in heap && channels_playing[c] in list
      ensures heap[channels_playing[c] as nat].use_count >= Playing(channels_playing[..], channels_playing[c]) >= 1
    {
      hide Linked, Total;
      ChannelSound(heap, channels_playing[..], held, c);
      assert channels_playing[..][c] in channels_playing[..];
    }

    // ---------- List operations ----------

    method AllocatedSoundLink(snd: nat)
      requires Linked(Links(heap, head, tail), list) && snd !in list && snd in heap
      modifies this`heap, this`head, this`tail, this`list
      ensures Linked(Links(heap, head, tail), list) && list == [snd] + old(list) && SameSounds(old(heap), heap)
    {
      hide Linked;
      ghost var l := Links(heap, head, tail);
      HookFrontLinks(l, list, snd);
      heap := heap[snd := heap[snd].(prev := NONE)];
      heap := heap[snd := heap[snd].(next := head)];
      head := snd;
      if tail == NONE {
        tail := snd;
      } else {
        var following: nat := heap[snd].next;
        heap := heap[following := heap[following].(prev := snd)];
      }
      assert Links(heap, head, tail) == HookFront(l, snd);
      list := [snd] + list;
    }

    method AllocatedSoundUnlink(snd: nat, ghost p: nat)
      requires Linked(Links(heap, head, tail), list) && p < |list| && list[p] == snd
      modifies this`heap, this`head, this`tail, this`list
      ensures Linked(Links(heap, head, tail), list) && list == Without(old(list), p) && SameSounds(old(heap), heap)
    {
      hide Linked, Without;
      UnhookLinks(Links(heap, head, tail), list, p);
      ghost var l := Links(heap, head, tail);
      if heap[snd].prev == NONE {
        head := heap[snd].next;
      } else {
        var before: nat := heap[snd].prev;
        heap := heap[before := heap[before].(next := heap[snd].next)];
      }
      if heap[snd].next == NONE {
        tail := heap[snd].prev;
      } else {
        var following: nat := heap[snd].next;
        heap := heap[following := heap[following].(prev := heap[snd].prev)];
      }
      assert Links(heap, head, tail) == Unhook(l, snd);
      list := Without(list, p);
    }

    /** Unlinks a sound that nobody uses and gives its memory back. */
    method FreeAllocatedSound(snd: nat, ghost p: nat)
      requires Valid() && p < |list| && list[p] == snd && snd in heap && heap[snd].use_count == 0
      modifies this`heap, this`head, this`tail, this`list, this`allocated_sounds_size
      ensures Valid() && list == Without(old(list), p) && Shrunk(old(heap), old(list), heap, list)
      ensures snd !in heap && snd !in channels_playing[..] && heap.Keys == old(heap.Keys) - {snd}
      ensures allocated_sounds_size == old(allocated_sounds_size) - old(heap[snd].alen)
    {
      hide Linked, Without, Accounted, Total, Shrunk, Playing, NoDup;
      ghost var heap0, list0 := heap, list;
      LinkedNoDup(Links(heap, head, tail), list);
      AllocatedSoundUnlink(snd, p);
      FreedFacts(heap0, list0, heap, p, channels_playing[..], held);
      ghost var l := Links(heap, head, tail);
      allocated_sounds_size := allocated_sounds_size - heap[snd].alen;
      heap := heap - {snd};
      LinkedOn(l, Links(heap, head, tail), list);
    }

    lemma ListFacts(p: nat)
      requires Valid()
      ensures (forall h :: h in heap <==> h in list) && NoDup(list) && tail == At(list, |list| - 1)
      ensures head == At(list, 0)
      ensures p < |list| ==> list[p] in heap && heap[list[p]].next == At(list, p + 1) && heap[list[p]].prev == At(list, p - 1)
      ensures allocated_sounds_size == Total(heap, list) && channels_playing.Length == NUM_CHANNELS
      ensures forall h | h in heap :: h < next_block
    {
      if p < |list| {
        LinkedNode(Links(heap, head, tail), list, p);
      }
    }

    // ---------- Making room ----------

    /** The search from the tail backwards for a sound that nobody uses; p is its position. */
    method FindUnused() returns (snd: int, ghost p: nat)
      requires Valid()
      ensures snd != NONE ==> p < |list| && snd == list[p] && list[p] in heap && heap[list[p]].use_count == 0
      ensures snd == NONE ==> p == 0
      ensures forall k | (if snd == NONE then 0 else p + 1) <= k < |list| :: list[k] in heap && heap[list[k]].use_count != 0
    {
      hide Valid;
      ListFacts(|list|);
      snd := tail;
      ghost var k: int := |list| - 1;
      while snd != NONE
        invariant -1 <= k < |list| && snd == At(list, k)
        invariant forall j | k < j < |list| :: list[j] in heap && heap[list[j]].use_count != 0
        decreases k
      {
        ListFacts(k);
        if heap[snd].use_count == 0 {
          p := k;
          return;
        }
        snd := heap[snd].prev;
        k := k - 1;
      }
      p := 0;
    }

    /** Frees the sound nearest the tail that nobody uses, if there is one. */
    method FindAndFreeSound() returns (ok: bool)
      requires Valid()
      modifies this`heap, this`head, this`tail, this`list, this`allocated_sounds_size
      ensures Valid() && Shrunk(old(heap), old(list), heap, list)
      ensures ok ==> |list| < |old(list)|
      ensures ok ==> FreedOne(old(heap), old(list), old(allocated_sounds_size), heap, list, allocated_sounds_size)
      ensures !ok ==> heap == old(heap) && list == old(list) && allocated_sounds_size == old(allocated_sounds_size) && AllUsed(heap)
    {
      hide Valid, Shrunk, Total, FreedOne, Without;
      ListFacts(0);
      ghost var heap0, list0, size0 := heap, list, allocated_sounds_size;
      var snd;
      ghost var p;
      snd, p := FindUnused();
      ok := snd != NONE;
      if ok {
        FreeAllocatedSound(snd, p);
        ListFacts(0);
        OneFreed(heap0, list0, size0, heap, p, allocated_sounds_size);
      } else {
        ShrunkNot(heap, list);
        UsedFacts();
      }
    }

    lemma UsedFacts()
      requires Valid() && forall j | 0 <= j < |list| :: list[j] in heap && heap[list[j]].use_count != 0
      ensures AllUsed(heap)
    {
      forall h | h in heap
        ensures heap[h].use_count > 0
      {
        var j :| 0 <= j < |list| && list[j] == h;
      }
    }

    /** Frees sounds until the new one fits, or every sound is in use. Without a limit nothing is freed. */
    method ReserveCacheSpace(len: nat)
      requires Valid()
      modifies this`heap, this`head, this`tail, this`list, this`allocated_sounds_size
      ensures Valid() && Shrunk(old(heap), old(list), heap, list)
      ensures snd_cachesize <= 0 ==> heap == old(heap)
      ensures snd_cachesize > 0 ==> allocated_sounds_size + len <= snd_cachesize || AllUsed(heap)
      ensures old(allocated_sounds_size) + len <= snd_cachesize ==> heap == old(heap)
      ensures FreedOldest(old(heap), old(list), heap, list)
      ensures NoneTooMany(old(heap), old(list), heap, list, allocated_sounds_size, len, snd_cachesize)
    {
      hide Valid, Shrunk, FreedOne, Total, AllUsed, FreedOldest, NoneTooMany;
      ListFacts(0);
      ShrunkNot(heap, list);
      NoneFreed(heap, list);
      if snd_cachesize <= 0 {
        return;
      }
      while allocated_sounds_size + len > snd_cachesize
        invariant Valid() && Shrunk(old(heap), old(list), heap, list)
        invariant heap == old(heap) ==> allocated_sounds_size == old(allocated_sounds_size)
        invariant old(allocated_sounds_size) + len <= snd_cachesize ==> heap == old(heap)
        invariant FreedOldest(old(heap), old(list), heap, list)
        invariant NoneTooMany(old(heap), old(list), heap, list, allocated_sounds_size, len, snd_cachesize)
        decreases |list|
      {
        ghost var heap1, list1, size1 := heap, list, allocated_sounds_size;
        var ok := FindAndFreeSound();
        ShrunkTwice(old(heap), old(list), heap1, list1, heap, list);
        if !ok {
          break;
        }
        OneMoreFreed(old(heap), old(list), heap1, list1, size1, heap, list, allocated_sounds_size);
        ListFacts(0);
        SizeIsTotal(old(heap), old(list), heap, list);
      }
    }

    // ---------- Allocating ----------

    /** Makes room, then allocates a block; while the allocator fails, frees one sound at a time. The new sound is the
        only new one and no sound in use is freed. malloc says which attempts succeed. */
    method AllocateSound(sfxinfo: nat, len: nat, malloc: nat -> bool) returns (snd: int)
      requires Valid()
      modifies this`heap, this`head, this`tail, this`list, this`allocated_sounds_size, this`next_block
      ensures Valid()
      ensures snd == NONE ==> Shrunk(old(heap), old(list), heap, list) && AllUsed(heap)
      ensures snd != NONE ==>
                && snd >= 0 && Grown(old(heap), old(list), heap, list, snd)
                && heap[snd as nat].SameAs(Sound(sfxinfo, len, 0, NORM_PITCH, NONE, NONE))
      ensures snd != NONE && snd_cachesize > 0 ==>
                allocated_sounds_size <= snd_cachesize || AllUsed(heap - {snd as nat})
      ensures malloc(0) ==> snd != NONE
      ensures snd == NONE ==> FreedOldest(old(heap), old(list), heap, list)
      ensures snd != NONE ==> FreedOldest(old(heap), old(list), heap - {snd as nat}, list[1..])
      ensures malloc(0) ==>
                NoneTooMany(old(heap), old(list), heap - {snd as nat}, list[1..], allocated_sounds_size - len, len,
                    snd_cachesize)
    {
      hide Valid, Shrunk, Grown, AllUsed, Total, FreedOne, FreedOldest, NoneTooMany;
      ListFacts(0);
      ReserveCacheSpace(len);
      var attempt := 0;
      while !malloc(attempt)
        invariant Valid() && Shrunk(old(heap), old(list), heap, list)
        invariant snd_cachesize > 0 ==> allocated_sounds_size + len <= snd_cachesize || AllUsed(heap)
        invariant next_block == old(next_block) && (malloc(0) ==> attempt == 0)
        invariant FreedOldest(old(heap), old(list), heap, list)
        invariant attempt == 0 ==> NoneTooMany(old(heap), old(list), heap, list, allocated_sounds_size, len, snd_cachesize)
        decreases |list|
      {
        ghost var heap1, list1, size1 := heap, list, allocated_sounds_size;
        ListFacts(0);
        var ok := FindAndFreeSound();
        ShrunkTwice(old(heap), old(list), heap1, list1, heap, list);
        if !ok {
          return NONE;
        }
        ListFacts(0);
        OneMoreFreed(old(heap), old(list), heap1, list1, size1, heap, list, allocated_sounds_size);
        ShrunkSize(heap1, list1, heap, list);
        attempt := attempt + 1;
      }
      ghost var heap2, list2 := heap, list;
      snd := NewSound(sfxinfo, len);
      GrownAfter(old(heap), old(list), heap2, list2, heap, list, snd);
      ListFacts(0);
      OldestStill(old(heap), old(list), heap2, list2, heap, list, snd);
    }

    /** The fields of a fresh block, and its place at the head of the list. */
    method NewSound(sfxinfo: nat, len: nat) returns (snd: nat)
      requires Valid()
      modifies this`heap, this`head, this`tail, this`list, this`allocated_sounds_size, this`next_block
      ensures Valid() && snd == old(next_block) && snd !in old(heap) && list == [snd] + old(list)
      ensures heap.Keys == old(heap.Keys) + {snd} && heap[snd].SameAs(Sound(sfxinfo, len, 0, NORM_PITCH, NONE, NONE))
      ensures forall h | h in old(heap) :: heap[h].SameAs(old(heap)[h])
      ensures allocated_sounds_size == old(allocated_sounds_size) + len
    {
      hide Linked, Total, Accounted;
      snd := next_block;
      next_block := next_block + 1;
      ghost var heap0, list0 := heap, list;
      heap := heap[snd := Sound(sfxinfo, len, 0, NORM_PITCH, NONE, NONE)];
      allocated_sounds_size := allocated_sounds_size + len;
      LinkedOn(Links(heap0, head, tail), Links(heap, head, tail), list);
      NewAccounts(heap0, channels_playing[..], held, snd, heap[snd]);
      ghost var heap1 := heap;
      AllocatedSoundLink(snd);
      SameAccounts(heap1, heap, channels_playing[..], held);
      TotalSame(heap0, heap, list0);
      TotalFront(heap, snd, list0);
    }

    // ---------- Locking ----------

    /** Moves a sound to the head of the list. */
    method MoveToHead(snd: nat, ghost p: nat)
      requires Linked(Links(heap, head, tail), list) && p < |list| && list[p] == snd
      modifies this`heap, this`head, this`tail, this`list
      ensures Linked(Links(heap, head, tail), list) && list == [snd] + Without(old(list), p)
      ensures SameSounds(old(heap), heap)
    {
      hide Linked, Without, NoDup;
      LinkedNoDup(Links(heap, head, tail), list);
      LinkedNode(Links(heap, head, tail), list, p);
      WithoutFacts(list, p);
      AllocatedSoundUnlink(snd, p);
      AllocatedSoundLink(snd);
    }

    /** One more use; the sound becomes the most recently used. */
    method LockAllocatedSound(snd: nat, ghost p: nat)
      requires Valid() && p < |list| && list[p] == snd
      modifies this`heap, this`head, this`tail, this`list, this`held
      ensures Valid() && held == old(held) + multiset{snd} && list == [snd] + Without(old(list), p)
      ensures snd in old(heap)
      ensures SameSounds(old(heap)[snd := old(heap)[snd].(use_count := old(heap)[snd].use_count + 1)], heap)
    {
      hide Linked, Total, Accounted, Without, NoDup, Playing, SameSounds;
      ListFacts(p);
      ghost var heap0, list0 := heap, list;
      heap := heap[snd := heap[snd].(use_count := heap[snd].use_count + 1)];
      ghost var heap1 := heap;
      UseAccounts(heap0, channels_playing[..], held, snd, true);
      held := held + multiset{snd};
      SameLinks(Links(heap0, head, tail), Links(heap, head, tail), list);
      MoveToHead(snd, p);
      LockFacts(heap0, list0, heap1, heap, p, channels_playing[..], held);
    }

    /** One use less. The error of releasing a sound more often than it was locked cannot occur. */
    method UnlockAllocatedSound(snd: nat)
      requires Valid() && snd in held
      modifies this`heap, this`held
      ensures Valid() && held == old(held) - multiset{snd}
      ensures snd in old(heap) && heap == old(heap)[snd := old(heap)[snd].(use_count := old(heap)[snd].use_count - 1)]
    {
      hide Linked, Total, Accounted, NoDup, Playing;
      UseAccounts(heap, channels_playing[..], held, snd, false);
      // Otherwise I_Error: sound effect released more times than it was locked.
      assert heap[snd].use_count > 0;
      ghost var heap0 := heap;
      heap := heap[snd := heap[snd].(use_count := heap[snd].use_count - 1)];
      held := held - multiset{snd};
      SameLinks(Links(heap0, head, tail), Links(heap, head, tail), list);
      TotalSame(heap0, heap, list);
    }

    /** The first sound of the list for this effect and pitch; k is its position. */
    method GetAllocatedSoundBySfxInfoAndPitch(sfxinfo: nat, pitch: int) returns (p: int, ghost k: nat)
      requires Valid()
      ensures p != NONE ==>
                && k < |list| && p == list[k] && list[k] in heap
                && heap[list[k]].sfxinfo == sfxinfo && heap[list[k]].pitch == pitch
      ensures p == NONE ==> forall h | h in heap :: !(heap[h].sfxinfo == sfxinfo && heap[h].pitch == pitch)
      ensures p != NONE ==> forall j | 0 <= j < k ::
                list[j] in heap && !(heap[list[j]].sfxinfo == sfxinfo && heap[list[j]].pitch == pitch)
    {
      hide Valid;
      ListFacts(0);
      p := head;
      k := 0;
      while p != NONE
        invariant k <= |list| && p == At(list, k)
        invariant forall j | 0 <= j < k :: list[j] in heap && !(heap[list[j]].sfxinfo == sfxinfo && heap[list[j]].pitch == pitch)
        decreases |list| - k
      {
        ListFacts(k);
        if heap[p].sfxinfo == sfxinfo && heap[p].pitch == pitch {
          return;
        }
        p := heap[p].next;
        k := k + 1;
      }
      forall h | h in heap
        ensures !(heap[h].sfxinfo == sfxinfo && heap[h].pitch == pitch)
      {
        var j :| 0 <= j < |list| && list[j] == h;
      }
    }

    // ---------- Pitch shifting ----------

    /** Allocates a sound of another length for the shifted samples. The sound it is made from is in use, so it is still
        there afterwards. */
    method PitchShift(insnd: nat, pitch: int, dstlen: nat, malloc: nat -> bool) returns (outsnd: int)
      requires Valid() && insnd in heap && heap[insnd].use_count > 0
      modifies this`heap, this`head, this`tail, this`list, this`allocated_sounds_size, this`next_block
      ensures Valid() && insnd in heap && heap[insnd].SameAs(old(heap)[insnd])
      ensures forall h | h in old(heap) && old(heap)[h].use_count > 0 :: h in heap && heap[h].SameAs(old(heap)[h])
      ensures Inherits(old(heap), heap, outsnd) && KeepsHeld(old(heap), heap, held)
      ensures outsnd != NONE ==>
                && outsnd >= 0 && outsnd !in old(heap) && outsnd in heap && outsnd in list
                && heap[outsnd as nat].SameAs(Sound(old(heap)[insnd].sfxinfo, dstlen, 0, pitch, NONE, NONE))
      ensures malloc(0) ==> outsnd != NONE
    {
      hide Linked, Total, Accounted, Inherits, KeepsHeld, AllUsed, Shrunk, Grown;
      ghost var heap0, list0 := heap, list;
      HeldUsed();
      outsnd := AllocateSound(heap[insnd].sfxinfo, dstlen, malloc);
      ghost var heap1 := heap;
      if outsnd == NONE {
        AllocatedFacts(heap0, list0, heap1, list, heap, NONE, held);
        return;
      }
      GrownFacts(heap0, list0, heap1, list, outsnd);
      heap := heap[outsnd as nat := heap[outsnd].(pitch := pitch)];
      SameLinks(Links(heap1, head, tail), Links(heap, head, tail), list);
      SameAccounts(heap1, heap, channels_playing[..], held);
      TotalSame(heap1, heap, list);
      AllocatedFacts(heap0, list0, heap1, list, heap, outsnd, held);
    }

    // ---------- Channels ----------

    lemma PositionOf(snd: nat) returns (p: nat)
      requires Valid() && snd in heap
      ensures p < |list| && list[p] == snd
    {
      p :| 0 <= p < |list| && list[p] == snd;
    }

    /** The end of ReleaseSoundOnChannel: a reference is given back, and if it was the last one to a shifted sound, that
        is freed. */
    method LetGo(snd: nat)
      requires Valid() && snd in held
      modifies this`heap, this`head, this`tail, this`list, this`allocated_sounds_size, this`held
      ensures Valid() && held == old(held) - multiset{snd} && list == Remaining(old(list), heap.Keys)
      ensures forall h | h in heap :: h in old(heap) && SameEffect(heap[h], old(heap)[h])
      ensures forall h | h in old(heap) && h !in heap :: h == snd && old(heap)[h].pitch != NORM_PITCH && old(heap)[h].use_count == 1
      ensures snd in heap && heap[snd].pitch != NORM_PITCH ==> heap[snd].use_count > 0
    {
      hide Linked, Total, Accounted, NoDup, Playing, Remaining;
      AllListed();
      ghost var keys := heap.Keys;
      UnlockAllocatedSound(snd);
      assert heap.Keys == keys;
      NotNegative();
      if heap[snd].pitch != NORM_PITCH && heap[snd].use_count <= 0 {
        ghost var p := PositionOf(snd);
        FreeAllocatedSound(snd, p);
      }
    }

    /** The channel lets go of its sound; a shifted sound that nobody else uses is freed, nothing else is. */
    method ReleaseSoundOnChannel(channel: nat)
      requires AtRest() && channel < NUM_CHANNELS
      modifies this`heap, this`head, this`tail, this`list, this`allocated_sounds_size, this`held, channels_playing
      ensures AtRest() && held == old(held) && channels_playing[..] == old(channels_playing[..])[channel := NONE]
      ensures KeepsHeld(old(heap), heap, held)
      ensures forall h | h in heap :: h in old(heap) && SameEffect(heap[h], old(heap)[h])
      ensures forall h | h in old(heap) && h !in heap ::
                h == old(channels_playing[channel]) && old(heap)[h].pitch != NORM_PITCH && old(heap)[h].use_count == 1
      ensures Settles(old(heap), old(list), heap, list)
    {
      hide Linked, Total, Accounted, NoDup, Playing, ShiftedPlayed, KeepsHeld, Remaining;
      ghost var heap0, channels0 := heap, channels_playing[..];
      HeldStays();
      AllListed();
      ChannelSound(heap, channels0, held, channel);
      var snd := channels_playing[channel];
      if snd == NONE {
        assert channels_playing[..] == channels_playing[..][channel := NONE];
        return;
      }
      ChannelAccounts(heap, channels_playing[..], held, channel, snd, false);
      channels_playing[channel] := NONE;
      held := held + multiset{snd};
      assert channels_playing[..] == old(channels_playing[..])[channel := NONE];
      OneMore(old(held), snd);
      LetGo(snd);
      ReleasedPlayed(heap0, heap, channels0, held, channel);
      ReleasedKeepsHeld(heap0, heap, channels0, held);
    }

    lemma AllListed()
      requires Valid()
      ensures Remaining(list, heap.Keys) == list
    {
      AllRemain(list, heap.Keys);
    }

    /** Loads the effect if it is not cached, and takes a reference to it: base. */
    method LockSound(sfxinfo: nat, lump: Lump, malloc: nat -> bool) returns (ok: bool, ghost base: nat)
      requires Valid()
      modifies this`heap, this`head, this`tail, this`list, this`allocated_sounds_size, this`next_block, this`held
      ensures Valid() && KeepsUsed(old(heap), heap) && Inherits(old(heap), heap, NONE)
      ensures !ok ==> held == old(held)
      ensures ok ==> held == old(held) + multiset{base} && IsBase(heap, base, sfxinfo) && list != [] && list[0] == base
      ensures lump.Expanded? && malloc(0) ==> ok
      ensures IsCached(old(heap), sfxinfo, NORM_PITCH) ==> ok
      ensures !IsCached(old(heap), sfxinfo, NORM_PITCH) && lump.Invalid? ==> !ok
    {
      hide Linked, Total, Accounted, NoDup, Playing, Valid;
      base := 0;
      var snd;
      ghost var p;
      snd, p := GetAllocatedSoundBySfxInfoAndPitch(sfxinfo, NORM_PITCH);
      assert snd != NONE ==> IsSound(heap, snd, sfxinfo, NORM_PITCH);
      if snd == NONE {
        if lump.Invalid? {
          return false, 0;
        }
        var loaded := AllocateSound(sfxinfo, lump.length, malloc);
        if loaded == NONE {
          return false, 0;
        }
      }
      snd, p := GetAllocatedSoundBySfxInfoAndPitch(sfxinfo, NORM_PITCH);
      NotNegative();
      LockAllocatedSound(snd, p);
      base := snd;
      ok := true;
    }

    lemma HeldUsed()
      requires Valid()
      ensures forall h | h in held :: h in heap && heap[h].use_count > 0
    {}

    /** Use counts are never negative. */
    lemma NotNegative()
      requires Valid()
      ensures forall h | h in heap :: heap[h].use_count >= 0
    {}

    /** A channel starts to play a sound and takes over a reference to it. */
    method PlayChannel(channel: nat, snd: nat)
      requires Valid() && channel < NUM_CHANNELS && channels_playing[channel] == NONE && snd in held
      modifies this`held, channels_playing
      ensures Valid() && held == old(held) - multiset{snd}
      ensures channels_playing[..] == old(channels_playing[..])[channel := snd]
    {
      hide Linked, Total, Accounted, Playing;
      HeldInHeap(heap, channels_playing[..], held, snd);
      ChannelAccounts(heap, channels_playing[..], held, channel, snd, true);
      ghost var channels0 := channels_playing[..];
      channels_playing[channel] := snd;
      assert channels_playing[..] == channels0[channel := snd];
      held := held - multiset{snd};
    }

    /** One more reference to a sound; every sound stays what it was. */
    method TakeReference(snd: nat, ghost p: nat)
      requires Valid() && p < |list| && list[p] == snd
      modifies this`heap, this`head, this`tail, this`list, this`held
      ensures Valid() && held == old(held) + multiset{snd} && snd in heap
      ensures Inherits(old(heap), heap, NONE) && KeepsHeld(old(heap), heap, old(held)) && heap.Keys == old(heap.Keys)
    {
      hide Valid, Without, SameSounds, Inherits, KeepsHeld;
      HeldExist();
      ghost var heap0, held0 := heap, held;
      LockAllocatedSound(snd, p);
      LockKeeps(heap0, heap, held0, snd, heap0[snd].use_count + 1);
    }

    method DropReference(snd: nat)
      requires Valid() && snd in held
      modifies this`heap, this`held
      ensures Valid() && held == old(held) - multiset{snd}
      ensures Inherits(old(heap), heap, NONE) && KeepsHeld(old(heap), heap, old(held)) && heap.Keys == old(heap.Keys)
    {
      hide Valid, SameSounds, Inherits, KeepsHeld;
      HeldExist();
      ghost var heap0, held0 := heap, held;
      UnlockAllocatedSound(snd);
      SameSoundsItself(heap);
      LockKeeps(heap0, heap, held0, snd, heap0[snd].use_count - 1);
    }

    /** A shifted copy takes over the reference to the sound it was made from. */
    method LockInstead(newsnd: nat, snd: nat)
      requires Valid() && newsnd in heap && snd in held
      modifies this`heap, this`head, this`tail, this`list, this`held
      ensures Valid() && held == old(held) - multiset{snd} + multiset{newsnd}
      ensures Inherits(old(heap), heap, NONE) && KeepsHeld(old(heap), heap, old(held)) && heap.Keys == old(heap.Keys)
    {
      hide Valid, Inherits, KeepsHeld;
      ghost var heap0, held0 := heap, held;
      ghost var p := PositionOf(newsnd);
      MoreHeld(held0, snd, newsnd);
      TakeReference(newsnd, p);
      ghost var heap1, held1 := heap, held;
      DropReference(snd);
      InheritsTwice(heap0, heap1, heap, NONE);
      KeepsHeldTwice(heap0, heap1, heap, held0, held1);
    }

    /** The part of StartSound for a pitch that is not cached: a shifted copy, or the unshifted sound itself. The reference
        to the unshifted sound becomes one to the result. */
    method ShiftedSound(base: nat, pitch: int, dstlen: nat, malloc: nat -> bool) returns (snd: nat)
      requires Valid() && base in heap && heap[base].use_count > 0 && base in held
      modifies this`heap, this`head, this`tail, this`list, this`allocated_sounds_size, this`next_block, this`held
      ensures Valid() && held == old(held) - multiset{base} + multiset{snd} && Inherits(old(heap), heap, snd)
      ensures snd in heap && heap[snd].sfxinfo == old(heap)[base].sfxinfo && (snd == base || heap[snd].pitch == pitch)
      ensures base in heap && SameEffect(heap[base], old(heap)[base]) && KeepsHeld(old(heap), heap, old(held))
      ensures snd_pitchshift && malloc(0) ==> snd !in old(heap) && heap[snd].pitch == pitch
      ensures snd == base || (snd_pitchshift && snd !in old(heap))
    {
      hide Linked, Total, Accounted, NoDup, Playing, Valid, Inherits, KeepsHeld;
      ghost var heap0 := heap;
      NothingChanged(base);
      snd := base;
      if snd_pitchshift {
        var newsnd := PitchShift(base, pitch, dstlen, malloc);
        ghost var heap1 := heap;
        if newsnd != NONE {
          LockInstead(newsnd, base);
          snd := newsnd;
          InheritsTwice(heap0, heap1, heap, newsnd);
          KeepsHeldTwice(heap0, heap1, heap, old(held), old(held));
          SoundStays(heap1, heap, NONE, newsnd, heap1[newsnd].sfxinfo, pitch);
          SoundStays(heap1, heap, NONE, base, heap1[base].sfxinfo, heap1[base].pitch);
        } else {
          InheritsAny(heap0, heap1, base);
        }
      }
    }

    lemma NothingChanged(snd: nat)
      requires Valid() && snd in held
      ensures Inherits(heap, heap, snd) && KeepsHeld(heap, heap, held) && held == held - multiset{snd} + multiset{snd}
    {}

    /** The sound to play, once the effect is loaded and locked as base: one of the wanted pitch if there is one, and
        otherwise a shifted copy or base itself. */
    method ChooseSound(sfxinfo: nat, pitch: int, dstlen: nat, malloc: nat -> bool, ghost base: nat) returns (snd: nat)
      requires Valid() && IsBase(heap, base, sfxinfo) && base in held && list != [] && list[0] == base
      modifies this`heap, this`head, this`tail, this`list, this`allocated_sounds_size, this`next_block, this`held
      ensures Valid() && snd in held && IsSound(heap, base, sfxinfo, NORM_PITCH) && Inherits(old(heap), heap, snd)
      ensures KeepsHeld(old(heap), heap, old(held))
      ensures var hit := IsCached(old(heap), sfxinfo, pitch);
              && held - multiset{snd} == old(held) - (if hit then multiset{} else multiset{base})
              && (IsSound(heap, snd, sfxinfo, pitch) || (!hit && snd == base))
              && (!hit && snd_pitchshift && malloc(0) ==> IsSound(heap, snd, sfxinfo, pitch))
              && (!hit && !snd_pitchshift ==> snd == base)
    {
      hide Valid, Inherits, KeepsHeld;
      HeldExist();
      ghost var heap0, held0 := heap, held;
      var found;
      ghost var p;
      found, p := GetAllocatedSoundBySfxInfoAndPitch(sfxinfo, pitch);
      if found == NONE {
        assert !exists h: nat :: IsSound(heap0, h, sfxinfo, pitch);
        found, p := GetAllocatedSoundBySfxInfoAndPitch(sfxinfo, NORM_PITCH);
        // The source gives up if this finds nothing, but it finds the sound just locked.
        assert found == base;
        snd := ShiftedSound(found, pitch, dstlen, malloc);
        OneMore(held0 - multiset{base}, snd);
      } else {
        snd := found;
        assert IsSound(heap0, snd, sfxinfo, pitch);
        OneMore(held0, snd);
        TakeReference(snd, p);
        InheritsAny(heap0, heap, snd);
        SoundStays(heap0, heap, NONE, snd, sfxinfo, pitch);
        SoundStays(heap0, heap, NONE, base, sfxinfo, NORM_PITCH);
      }
    }

    /** What a successful start of the effect leaves over: a reference to its unshifted sound if the wanted pitch is the
        normal one, or if another channel plays the effect at that pitch, and otherwise nothing. */
    ghost function LeftOver(channel: int, sfxinfo: nat, pitch: int, base: nat): multiset<nat>
      reads this`heap, channels_playing
    {
      if pitch == NORM_PITCH || PlaysElsewhere(heap, channels_playing[..], channel, sfxinfo, pitch) then multiset{base}
          else multiset{}
    }

    /** The part of StartSound up to LockSound. */
    method LoadFor(channel: nat, sfxinfo: nat, ghost pitch: int, lump: Lump, malloc: nat -> bool) returns (ok: bool,
                   ghost base: nat)
      requires AtRest() && channel < NUM_CHANNELS
      modifies this`heap, this`head, this`tail, this`list, this`allocated_sounds_size, this`next_block, this`held,
               channels_playing
      ensures AtRest() && channels_playing[..] == old(channels_playing[..])[channel := NONE]
      ensures KeepsHeld(old(heap), heap, old(held))
      ensures !ok ==> held == old(held)
      ensures ok ==> held == old(held) + multiset{base} && IsBase(heap, base, sfxinfo) && list != [] && list[0] == base
      ensures ok ==> old(LeftOver(channel, sfxinfo, pitch, base)) ==
                       if IsCached(heap, sfxinfo, pitch) then multiset{base} else multiset{}
      ensures lump.Expanded? && malloc(0) ==> ok
      ensures IsCached(old(heap), sfxinfo, NORM_PITCH) ==> ok
      ensures !IsCached(old(heap), sfxinfo, NORM_PITCH) && lump.Invalid? ==> !ok
      ensures KeepsPlayed(old(heap), heap, channels_playing[..])
    {
      hide Valid, ShiftedPlayed, Accounted, Inherits, KeepsUsed, KeepsHeld, PlaysElsewhere, KeepsPlayed, IsCached;
      ghost var heap0, channels0 := heap, channels_playing[..];
      ChannelsStay();
      ReleaseSoundOnChannel(channel);
      ChannelsStay();
      ghost var heap1 := heap;
      BasesStay(heap0, heap1, sfxinfo);
      ok, base := LockSound(sfxinfo, lump, malloc);
      ChannelsStay();
      ghost var after := channels_playing[..];
      assert after == channels0[channel := NONE];
      UsedAreHeld(heap1, heap, after, old(held));
      PlayedKept(heap1, heap, after, old(held), held, NONE);
      ReleasedKeepsPlayed(heap0, heap1, after, old(held));
      KeepsPlayedTwice(heap0, heap1, heap, after);
      KeepsHeldTwice(heap0, heap1, heap, old(held), old(held));
      LockedPlayed(heap1, heap, after, old(held), held);
      if ok {
        if pitch == NORM_PITCH {
          BaseIsCached(heap, base, sfxinfo);
        } else {
          CachedIffPlayed(heap0, heap1, heap, channels0, old(held), held, channel, sfxinfo, pitch);
        }
      }
    }

    lemma ChannelsStay()
      requires Valid()
      ensures channels_playing.Length == NUM_CHANNELS && Accounted(heap, channels_playing[..], held)
    {}

    /** The part of StartSound after LockSound. */
    method PlayFor(channel: nat, sfxinfo: nat, pitch: int, dstlen: nat, malloc: nat -> bool,
                   ghost base: nat) returns (snd: nat)
      requires AtRest() && channel < NUM_CHANNELS && channels_playing[channel] == NONE
      requires IsBase(heap, base, sfxinfo) && base in held && list != [] && list[0] == base
      modifies this`heap, this`head, this`tail, this`list, this`allocated_sounds_size, this`next_block, this`held,
               channels_playing
      ensures AtRest() && channels_playing[..] == old(channels_playing[..])[channel := snd]
      ensures KeepsHeld(old(heap), heap, old(held))
      ensures IsSound(heap, base, sfxinfo, NORM_PITCH)
      ensures var hit := IsCached(old(heap), sfxinfo, pitch);
              && held == old(held) - (if hit then multiset{} else multiset{base})
              && (IsSound(heap, snd, sfxinfo, pitch) || (!hit && snd == base))
              && (!hit && snd_pitchshift && malloc(0) ==> IsSound(heap, snd, sfxinfo, pitch))
              && (!hit && !snd_pitchshift ==> snd == base)
      ensures KeepsPlayed(old(heap), heap, old(channels_playing[..]))
    {
      hide Valid, ShiftedPlayed, Accounted, Inherits, KeepsHeld, IsBase, IsSound;
      ghost var heap0, held0, channels0 := heap, held, channels_playing[..];
      HeldExist();
      ChannelsStay();
      snd := ChooseSound(sfxinfo, pitch, dstlen, malloc, base);
      assert channels_playing[..] == channels0;
      ChannelsStay();
      PlayedKept(heap0, heap, channels0, held0, held, snd);
      PlayChannel(channel, snd);
      ChosenPlayed(heap0, heap, channels0, held0, held, channel, snd);
    }

    /** Plays an effect on a channel. Every reference taken is given to the channel, except that one to the unshifted sound,
        base, is kept for good when a sound of the wanted pitch is cached already. */
    method StartSound(sfxinfo: nat, channel: int, pitch: int, lump: Lump, dstlen: nat, malloc: nat -> bool,
                      malloc2: nat -> bool)
        returns (result: int, ghost base: nat, ghost playing: nat)
      requires AtRest()
      modifies this`heap, this`head, this`tail, this`list, this`allocated_sounds_size, this`next_block, this`held,
               channels_playing
      ensures AtRest() && (result == -1 || (result == channel && 0 <= channel < NUM_CHANNELS))
      ensures held == old(held) + if result == -1 then multiset{} else old(LeftOver(channel, sfxinfo, pitch, base))
      ensures KeepsHeld(old(heap), heap, old(held))
      ensures channels_playing[..] == if 0 <= channel < NUM_CHANNELS
                                      then old(channels_playing[..])[channel := if result == -1 then NONE else playing]
                                      else old(channels_playing[..])
      ensures result != -1 ==>
                && IsSound(heap, base, sfxinfo, NORM_PITCH)
                && (IsSound(heap, playing, sfxinfo, pitch)
                    || (playing == base && old(LeftOver(channel, sfxinfo, pitch, base)) == multiset{}))
      ensures 0 <= channel < NUM_CHANNELS && lump.Expanded? && malloc(0) ==> result == channel
      ensures 0 <= channel < NUM_CHANNELS && IsCached(old(heap), sfxinfo, NORM_PITCH) ==> result == channel
      ensures !IsCached(old(heap), sfxinfo, NORM_PITCH) && lump.Invalid? ==> result == -1
      ensures result != -1 && snd_pitchshift && malloc2(0) ==> IsSound(heap, playing, sfxinfo, pitch)
      ensures result != -1 && !snd_pitchshift && old(LeftOver(channel, sfxinfo, pitch, base)) == multiset{} ==> playing == base
      ensures if 0 <= channel < NUM_CHANNELS then KeepsPlayed(old(heap), heap, old(channels_playing[..])[channel := NONE])
              else heap == old(heap) && list == old(list)
    {
      hide Valid, AtRest, ShiftedPlayed, Accounted, Inherits, KeepsUsed, KeepsHeld, KeepsPlayed, IsBase, IsSound,
           LeftOver, IsCached, PlaysElsewhere;
      base, playing := 0, 0;
      RestStays();
      if channel < 0 || channel >= NUM_CHANNELS {
        return -1, 0, 0;
      }
      ghost var heap0, channels0 := heap, channels_playing[..];
      var ok;
      ok, base := LoadFor(channel, sfxinfo, pitch, lump, malloc);
      if !ok {
        return -1, 0, 0;
      }
      RestStays();
      ghost var heap1, held1, after := heap, held, channels_playing[..];
      LeftOverCases(old(held), old(LeftOver(channel, sfxinfo, pitch, base)), base);
      var snd := PlayFor(channel, sfxinfo, pitch, dstlen, malloc2, base);
      KeepsHeldTwice(heap0, heap1, heap, old(held), held1);
      KeepsPlayedTwice(heap0, heap1, heap, after);
      playing := snd;
      assert after[channel := snd] == channels0[channel := snd];
      result := channel;
    }

    lemma RestStays()
      requires AtRest()
      ensures channels_playing.Length == NUM_CHANNELS && KeepsHeld(heap, heap, held)
    {}

    lemma HeldExist()
      requires Valid()
      ensures forall h | h in held :: h in heap
    {}

    lemma HeldStays()
      requires Valid()
      ensures KeepsHeld(heap, heap, held)
    {}

    method StopSound(handle: int)
      requires AtRest()
      modifies this`heap, this`head, this`tail, this`list, this`allocated_sounds_size, this`held, channels_playing
      ensures AtRest() && held == old(held) && KeepsHeld(old(heap), heap, held)
      ensures Settles(old(heap), old(list), heap, list)
      ensures channels_playing[..] == if 0 <= handle < NUM_CHANNELS then old(channels_playing[..])[handle := NONE]
                else old(channels_playing[..])
    {
      hide Valid, ShiftedPlayed, KeepsHeld, Remaining;
      HeldStays();
      AllListed();
      if handle < 0 || handle >= NUM_CHANNELS {
        return;
      }
      ReleaseSoundOnChannel(handle);
    }

    /** Releases the channels whose sound has ended; finished says which. */
    method UpdateSound(finished: nat -> bool)
      requires AtRest()
      modifies this`heap, this`head, this`tail, this`list, this`allocated_sounds_size, this`held, channels_playing
      ensures AtRest() && held == old(held) && KeepsHeld(old(heap), heap, held)
      ensures Settles(old(heap), old(list), heap, list) && channels_playing.Length == NUM_CHANNELS
      ensures forall c | 0 <= c < NUM_CHANNELS :: channels_playing[c] == if finished(c) then NONE else old(channels_playing[c])
    {
      hide Valid, ShiftedPlayed, Accounted, KeepsHeld, Settles;
      HeldStays();
      ChannelsStay();
      SettlesNow();
      for i := 0 to NUM_CHANNELS
        invariant AtRest() && held == old(held) && KeepsHeld(old(heap), heap, held)
        invariant Settles(old(heap), old(list), heap, list)
        invariant forall c | 0 <= c < NUM_CHANNELS ::
                    channels_playing[c] == if c < i && finished(c) then NONE else old(channels_playing[c])
      {
        if channels_playing[i] != NONE && finished(i) {
          ghost var heap1, list1, channels1 := heap, list, channels_playing[..];
          ReleaseSoundOnChannel(i);
          assert channels_playing[..] == channels1[i := NONE];
          SettlesTwice(old(heap), old(list), heap1, list1, heap, list);
          KeepsHeldTwice(old(heap), heap1, heap, held, held);
        }
      }
    }

    lemma SettlesNow()
      requires Valid()
      ensures Settles(heap, list, heap, list)
    {
      AllListed();
    }

    // ---------- Runs ----------

    ghost function Now(): CacheState
      reads this, channels_playing
    {
      CacheState(heap, list, channels_playing[..], held)
    }

    method PerformStart(step: SoundStep) returns (result: int)
      requires AtRest() && step.Start?
      modifies this`heap, this`head, this`tail, this`list, this`allocated_sounds_size, this`next_block, this`held,
               channels_playing
      ensures AtRest() && old(held) <= held && KeepsHeld(old(heap), heap, old(held))
      ensures step.pitch == NORM_PITCH && result != -1 ==> Pinned(heap, held, step.sfxinfo)
      ensures Does(step, old(Now()), Now(), result, snd_pitchshift)
    {
      hide AtRest, KeepsHeld, KeepsPlayed, PlaysElsewhere, IsCached, IsSound;
      RestStays();
      ghost var before, base, playing := Now(), 0, 0;
      result, base, playing := StartSound(step.sfxinfo, step.channel, step.pitch, step.lump, step.dstlen, step.malloc, step.malloc2);
      assert step.pitch == NORM_PITCH && result != -1 ==> base in held && IsSound(heap, base, step.sfxinfo, NORM_PITCH);
      assert result != -1 ==>
          Starts(before, Now(), step.sfxinfo, step.channel, step.pitch, base, playing, snd_pitchshift, step.malloc2);
    }

    method Perform(step: SoundStep) returns (result: int)
      requires AtRest()
      modifies this`heap, this`head, this`tail, this`list, this`allocated_sounds_size, this`next_block, this`held,
               channels_playing
      ensures AtRest() && old(held) <= held && KeepsHeld(old(heap), heap, old(held))
      ensures step.Start? && step.pitch == NORM_PITCH && result != -1 ==> Pinned(heap, held, step.sfxinfo)
      ensures Does(step, old(Now()), Now(), result, snd_pitchshift)
    {
      hide AtRest, KeepsHeld, KeepsPlayed, PlaysElsewhere, IsCached, Settles, Starts, IsSound, Pinned;
      RestStays();
      result := 0;
      match step {
        case Start(_, _, _, _, _, _, _) =>
          result := PerformStart(step);
        case Stop(handle) =>
          StopSound(handle);
        case Update(finished) =>
          UpdateSound(finished);
      }
    }

    /** Over every run of starts, stops and updates the cache is consistent and each call does what it should, and an
        effect that was ever started at the normal pitch stays in memory for good, whatever the size limit: a reference to
        its sound is left over. */
    method PlayAll(steps: seq<SoundStep>) returns (results: seq<int>, ghost states: seq<CacheState>)
      requires AtRest()
      modifies this`heap, this`head, this`tail, this`list, this`allocated_sounds_size, this`next_block, this`held,
               channels_playing
      ensures AtRest() && |results| == |steps| && old(held) <= held && KeepsHeld(old(heap), heap, old(held))
      ensures forall k | 0 <= k < |steps| :: StartedAsIs(steps[k], results[k]) ==> Pinned(heap, held, steps[k].sfxinfo)
      ensures forall h | h in held :: h in heap && h in list && heap[h].use_count > 0
      ensures |states| == |steps| + 1 && states[0] == old(Now()) && states[|steps|] == Now()
      ensures forall k | 0 <= k < |steps| :: Does(steps[k], states[k], states[k + 1], results[k], snd_pitchshift)
    {
      hide AtRest, KeepsHeld, Pinned, Does;
      RestStays();
      results, states := [], [Now()];
      for i := 0 to |steps|
        invariant AtRest() && |results| == i && old(held) <= held && KeepsHeld(old(heap), heap, old(held))
        invariant forall k | 0 <= k < i :: StartedAsIs(steps[k], results[k]) ==> Pinned(heap, held, steps[k].sfxinfo)
        invariant |states| == i + 1 && states[0] == old(Now()) && states[i] == Now()
        invariant forall k | 0 <= k < i :: Does(steps[k], states[k], states[k + 1], results[k], snd_pitchshift)
      {
        ghost var heap1, held1 := heap, held;
        var result := Perform(steps[i]);
        KeepsHeldTwice(old(heap), heap1, heap, old(held), held1);
        forall k | 0 <= k < i && StartedAsIs(steps[k], results[k])
          ensures Pinned(heap, held, steps[k].sfxinfo)
        {
          PinnedStays(heap1, heap, held1, held, steps[k].sfxinfo);
        }
        results, states := results + [result], states + [Now()];
      }
      HeldListed();
    }

    lemma OnlyReference(base: nat)
      requires AtRest() && held == multiset{base} && forall c | 0 <= c < NUM_CHANNELS :: channels_playing[c] == NONE
      ensures base in heap && heap[base].use_count == 1
    {
      assert base !in channels_playing[..];
    }

    lemma HeldListed()
      requires AtRest()
      ensures forall h | h in held :: h in heap && h in list && heap[h].use_count > 0
    {}
  }

  /** One start and one stop in an empty cache: nothing plays any more, but the sound is in use and stays so. */
  method LeftoverReference(size: int, pitchshift: bool) returns (cache: Cache, ghost base: nat)
    ensures fresh(cache) && fresh(cache.channels_playing) && cache.AtRest() && cache.snd_cachesize == size
    ensures forall c | 0 <= c < NUM_CHANNELS :: cache.channels_playing[c] == NONE
    ensures cache.held == multiset{base} && base in cache.heap && cache.heap[base].use_count == 1
  {
    hide Cache.AtRest, IsSound, KeepsHeld, PlaysElsewhere;
    cache := new Cache(size, pitchshift);
    cache.RestStays();
    var result;
    ghost var playing;
    result, base, playing := cache.StartSound(0, 0, NORM_PITCH, Expanded(10), 0, _ => true, _ => true);
    ghost var channels := cache.channels_playing[..];
    cache.StopSound(0);
    assert forall c | 0 <= c < NUM_CHANNELS :: cache.channels_playing[..][c] == if c == 0 then NONE else channels[c];
    cache.OnlyReference(base);
  }
}
