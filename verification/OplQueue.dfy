/** opl/opl_queue.c: the queue of pending callbacks, a binary heap in a fixed array. */
module OplQueue {

  const MAX_OPL_QUEUE := 64

  /** opl_queue_entry_t; data stands for the callback together with its argument. */
  datatype Entry<T> = Entry(data: T, time: nat)

  function Parent(i: int): int { (i - 1) / 2 }

  /** Position i is not due before its parent. */
  predicate Ordered<T>(s: seq<Entry<T>>, i: int)
    requires 0 < i < |s|
  {
    s[Parent(i)].time <= s[i].time
  }

  /** The heap condition. */
  ghost predicate IsHeap<T>(s: seq<Entry<T>>) {
    forall i | 0 < i < |s| :: Ordered(s, i)
  }

  /** If position i is a child of hole, it is not due before the parent of hole. */
  predicate OrderedAcross<T>(s: seq<Entry<T>>, hole: int, i: int)
    requires hole < |s| && 0 < i < |s|
  {
    Parent(i) == hole > 0 ==> s[Parent(hole)].time <= s[i].time
  }

  /** The heap condition everywhere except between position hole and its parent. */
  ghost predicate HeapButParent<T>(s: seq<Entry<T>>, hole: nat) {
    && hole < |s|
    && (forall i | 0 < i < |s| :: i != hole ==> Ordered(s, i))
    && (forall i | 0 < i < |s| :: OrderedAcross(s, hole, i))
  }

  /** The heap condition everywhere except between position hole and its children. */
  ghost predicate HeapButChildren<T>(s: seq<Entry<T>>, hole: nat) {
    && hole < |s|
    && (forall i | 0 < i < |s| :: Parent(i) != hole ==> Ordered(s, i))
    && (forall i | 0 < i < |s| :: OrderedAcross(s, hole, i))
  }

  /** The array s while an entry is moving: equal to the heap v except at hole, where v has the moving entry. */
  ghost predicate Mirrors<T>(s: seq<Entry<T>>, v: seq<Entry<T>>, hole: nat) {
    |s| == |v| && hole < |s| && forall i | 0 <= i < |s| && i != hole :: s[i] == v[i]
  }

  ghost function Elements<T>(s: seq<T>): multiset<T> { multiset(s) }

  function Swap<T>(s: seq<T>, i: nat, j: nat): (r: seq<T>)
    requires i < |s| && j < |s|
    ensures |r| == |s|
  {
    s[i := s[j]][j := s[i]]
  }

  /** Copying entry next over the hole moves the hole to next. */
  lemma MoveHole<T>(s: seq<Entry<T>>, v: seq<Entry<T>>, hole: nat, next: nat)
    requires Mirrors(s, v, hole) && next < |s| && next != hole
    ensures s[next] == v[next] && Mirrors(s[hole := s[next]], Swap(v, hole, next), next)
    ensures Swap(v, hole, next)[next] == v[hole] && Elements(Swap(v, hole, next)) == Elements(v)
  {}

  lemma LastMirrors<T>(s: seq<Entry<T>>, v: seq<Entry<T>>)
    requires |s| == |v| > 0 && s[..|s| - 1] == v[..|s| - 1]
    ensures Mirrors(s, v, |s| - 1)
  {
    assert forall i | 0 <= i < |s| - 1 :: s[i] == s[..|s| - 1][i] == v[i];
  }

  lemma ChildrenMirrored<T>(s: seq<Entry<T>>, v: seq<Entry<T>>, hole: nat)
    requires Mirrors(s, v, hole)
    ensures 2 * hole + 1 < |s| ==> s[2 * hole + 1] == v[2 * hole + 1]
    ensures 2 * hole + 2 < |s| ==> s[2 * hole + 2] == v[2 * hole + 2]
  {}

  lemma CloseHole<T>(s: seq<Entry<T>>, v: seq<Entry<T>>, hole: nat)
    requires Mirrors(s, v, hole)
    ensures s[hole := v[hole]] == v
  {}

  lemma SiftUp<T>(s: seq<Entry<T>>, hole: nat)
    requires 0 < hole < |s| && HeapButParent(s, hole) && s[hole].time < s[Parent(hole)].time
    ensures HeapButParent(Swap(s, hole, Parent(hole)), Parent(hole))
  {
    var p := Parent(hole);
    var t := Swap(s, hole, p);
    forall i | 0 < i < |s|
      ensures i != p ==> Ordered(t, i)
      ensures OrderedAcross(t, p, i)
    {
      assert i != hole ==> Ordered(s, i);
      assert OrderedAcross(s, hole, i);
      assert p > 0 ==> Ordered(s, p);
    }
  }

  lemma SiftDown<T>(s: seq<Entry<T>>, hole: nat, next: nat)
    requires hole < |s| && HeapButChildren(s, hole) && 0 < next < |s| && Parent(next) == hole
    requires s[next].time < s[hole].time
    requires 2 * hole + 1 < |s| ==> s[next].time <= s[2 * hole + 1].time
    requires 2 * hole + 2 < |s| ==> s[next].time <= s[2 * hole + 2].time
    ensures HeapButChildren(Swap(s, hole, next), next)
  {
    var t := Swap(s, hole, next);
    forall i | 0 < i < |s|
      ensures Parent(i) != next ==> Ordered(t, i)
      ensures OrderedAcross(t, next, i)
    {
      assert Parent(i) == hole ==> i == 2 * hole + 1 || i == 2 * hole + 2;
      assert Parent(i) != hole ==> Ordered(s, i);
      assert OrderedAcross(s, hole, next);
    }
  }

  lemma {:induction false} RootIsMinimum<T>(s: seq<Entry<T>>, i: nat)
    requires IsHeap(s) && i < |s|
    ensures s[0].time <= s[i].time
  {
    if i > 0 {
      assert Ordered(s, i);
      RootIsMinimum(s, Parent(i));
    }
  }

  lemma FirstIsMinimum<T>(s: seq<Entry<T>>)
    requires IsHeap(s) && |s| > 0
    ensures s[0] in Elements(s) && forall f | f in Elements(s) :: s[0].time <= f.time
  {
    forall f | f in Elements(s)
      ensures s[0].time <= f.time
    {
      var i :| 0 <= i < |s| && s[i] == f;
      RootIsMinimum(s, i);
    }
  }

  /** The new last position as a hole. */
  lemma Appended<T>(s: seq<Entry<T>>, e: Entry<T>)
    requires IsHeap(s)
    ensures HeapButParent(s + [e], |s|) && Elements(s + [e]) == Elements(s) + multiset{e}
  {
    forall i | 0 < i < |s|
      ensures Ordered(s + [e], i)
    {
      assert Ordered(s, i);
    }
  }

  lemma HoleClosedAbove<T>(s: seq<Entry<T>>, hole: nat)
    requires hole < |s| && HeapButParent(s, hole) && (hole > 0 ==> s[Parent(hole)].time <= s[hole].time)
    ensures IsHeap(s)
  {
    forall i | 0 < i < |s|
      ensures Ordered(s, i)
    {
      assert i != hole ==> Ordered(s, i);
    }
  }

  lemma HoleClosedBelow<T>(s: seq<Entry<T>>, hole: nat)
    requires hole < |s| && HeapButChildren(s, hole)
    requires hole * 2 + 1 < |s| ==> s[hole].time <= s[hole * 2 + 1].time
    requires hole * 2 + 2 < |s| ==> s[hole].time <= s[hole * 2 + 2].time
    ensures IsHeap(s)
  {
    forall i | 0 < i < |s|
      ensures Ordered(s, i)
    {
      assert Parent(i) == hole ==> i == 2 * hole + 1 || i == 2 * hole + 2;
      assert Parent(i) != hole ==> Ordered(s, i);
    }
  }

  /** Taking the root out and holding the last entry in its place. */
  lemma RootReplaced<T>(s: seq<Entry<T>>)
    requires IsHeap(s) && |s| > 1
    ensures var v := s[..|s| - 1][0 := s[|s| - 1]];
            HeapButChildren(v, 0) && Elements(v) == Elements(s) - multiset{s[0]} && Mirrors(s[..|s| - 1], v, 0)
  {
    var last := |s| - 1;
    assert s == s[..last] + [s[last]];
    forall i | 0 < i < last && Parent(i) != 0
      ensures Ordered(s[..last][0 := s[last]], i)
    {
      assert Ordered(s, i);
    }
  }

  class CallbackQueue<T(0)> {
    const entries: array<Entry<T>>
    var num_entries: nat

    ghost predicate Valid()
      reads this, entries
    {
      entries.Length == MAX_OPL_QUEUE && num_entries <= MAX_OPL_QUEUE && IsHeap(entries[..num_entries])
    }

    ghost function Contents(): multiset<Entry<T>>
      requires num_entries <= entries.Length
      reads this, entries
    {
      Elements(entries[..num_entries])
    }

    /** OPL_Queue_Create. */
    constructor ()
      ensures Valid() && Contents() == multiset{} && fresh(entries)
    {
      entries := new Entry<T>[MAX_OPL_QUEUE];
      num_entries := 0;
    }

    method IsEmpty() returns (r: bool)
      requires Valid()
      ensures r <==> Contents() == multiset{}
      ensures r <==> num_entries == 0
    {
      assert num_entries > 0 ==> entries[0] in Contents();
      r := num_entries == 0;
    }

    method Clear()
      requires Valid()
      modifies this
      ensures Valid() && Contents() == multiset{}
    {
      num_entries := 0;
    }

    /** Adds one entry, or leaves a full queue as it was. */
    method Push(data: T, time: nat)
      requires Valid()
      modifies this, entries
      ensures Valid()
      ensures Contents() == if old(num_entries) < MAX_OPL_QUEUE then old(Contents()) + multiset{Entry(data, time)}
                            else old(Contents())
      ensures num_entries == if old(num_entries) < MAX_OPL_QUEUE then old(num_entries) + 1 else old(num_entries)
    {
      if num_entries >= MAX_OPL_QUEUE {
        return;
      }
      ghost var e := Entry(data, time);
      ghost var s := entries[..num_entries];
      Appended(s, e);
      hide IsHeap, HeapButParent, Mirrors, Elements;
      num_entries := num_entries + 1;
      LastMirrors(entries[..num_entries], s + [e]);
      ShiftUp(Entry(data, time), s + [e]);
    }

    /** The loop of OPL_Queue_Push and its last store; v0 is the heap with the new entry at the end. */
    method ShiftUp(e: Entry<T>, ghost v0: seq<Entry<T>>)
      requires entries.Length == MAX_OPL_QUEUE && 0 < num_entries <= MAX_OPL_QUEUE && |v0| == num_entries
      requires v0[num_entries - 1] == e
      requires HeapButParent(v0, num_entries - 1) && Mirrors(entries[..num_entries], v0, num_entries - 1)
      modifies entries
      ensures IsHeap(entries[..num_entries]) && Elements(entries[..num_entries]) == Elements(v0)
    {
      hide IsHeap, HeapButParent, Mirrors, Elements, Swap;
      ghost var v := v0;
      var entry_id: nat := num_entries - 1;
      while entry_id > 0
        invariant entry_id < num_entries == |v| && v[entry_id] == e
        invariant HeapButParent(v, entry_id) && Mirrors(entries[..num_entries], v, entry_id)
        invariant Elements(v) == Elements(v0)
      {
        var parent_id: nat := (entry_id - 1) / 2;
        MoveHole(entries[..num_entries], v, entry_id, parent_id);
        if e.time >= entries[parent_id].time {
          break;
        }
        SiftUp(v, entry_id);
        v := Swap(v, entry_id, parent_id);
        StoreAt(entry_id, entries[parent_id]);
        entry_id := parent_id;
      }
      HoleClosedAbove(v, entry_id);
      CloseHole(entries[..num_entries], v, entry_id);
      StoreAt(entry_id, e);
    }

    /** entries[i] = e, seen on the part of the array in use. */
    method StoreAt(i: nat, e: Entry<T>)
      requires i < num_entries <= entries.Length
      modifies entries
      ensures entries[..num_entries] == old(entries[..num_entries])[i := e]
    {
      entries[i] := e;
    }

    /** Removes an entry that is due first. */
    method Pop() returns (ok: bool, data: T)
      requires Valid()
      modifies this, entries
      ensures Valid()
      ensures ok <==> old(num_entries) > 0
      ensures !ok ==> Contents() == old(Contents()) && num_entries == old(num_entries)
      ensures ok ==> var e := old(entries[0]);
                     && data == e.data && e in old(Contents()) && Contents() == old(Contents()) - multiset{e}
                     && num_entries == old(num_entries) - 1
                     && forall f | f in old(Contents()) :: e.time <= f.time
    {
      if num_entries <= 0 {
        return false, *;
      }
      ghost var s := entries[..num_entries];
      FirstIsMinimum(s);
      data := entries[0].data;
      num_entries := num_entries - 1;
      if num_entries > 0 {
        RootReplaced(s);
        PercolateDown(entries[num_entries], s[..num_entries][0 := s[num_entries]]);
      } else {
        entries[0] := entries[num_entries];
        assert Elements(s) - multiset{s[0]} == multiset{};
      }
      ok := true;
    }

    /** The loop of OPL_Queue_Pop and its last store; v0 is the heap with entry at the root. */
    method PercolateDown(entry: Entry<T>, ghost v0: seq<Entry<T>>)
      requires entries.Length == MAX_OPL_QUEUE && 0 < num_entries < MAX_OPL_QUEUE && |v0| == num_entries
      requires v0[0] == entry
      requires HeapButChildren(v0, 0) && Mirrors(entries[..num_entries], v0, 0)
      modifies entries
      ensures IsHeap(entries[..num_entries]) && Elements(entries[..num_entries]) == Elements(v0)
    {
      hide IsHeap, HeapButChildren, Mirrors, Elements, Swap;
      ghost var v := v0;
      var i: nat := 0;
      while true
        invariant i < num_entries == |v| && v[i] == entry
        invariant HeapButChildren(v, i) && Mirrors(entries[..num_entries], v, i) && Elements(v) == Elements(v0)
        decreases num_entries - i
      {
        var child1, child2 := i * 2 + 1, i * 2 + 2;
        ChildrenMirrored(entries[..num_entries], v, i);
        var next_i: nat;
        if child1 < num_entries && entries[child1].time < entry.time {
          if child2 < num_entries && entries[child2].time < entries[child1].time {
            next_i := child2;
          } else {
            next_i := child1;
          }
        } else if child2 < num_entries && entries[child2].time < entry.time {
          next_i := child2;
        } else {
          break;
        }
        SiftDown(v, i, next_i);
        MoveHole(entries[..num_entries], v, i, next_i);
        v := Swap(v, i, next_i);
        StoreAt(i, entries[next_i]);
        i := next_i;
      }
      HoleClosedBelow(v, i);
      CloseHole(entries[..num_entries], v, i);
      StoreAt(i, entry);
    }

    /** The first deadline, or 0. */
    method Peek() returns (time: nat)
      requires Valid()
      ensures num_entries == 0 ==> time == 0
      ensures num_entries > 0 ==> time == entries[0].time && entries[0] in Contents()
      ensures forall f | f in Contents() :: time <= f.time
    {
      if num_entries > 0 {
        FirstIsMinimum(entries[..num_entries]);
        time := entries[0].time;
      } else {
        time := 0;
      }
    }

    /** Stretches the time from now to every deadline by factor. Float arithmetic rounds in round, which
        is only known to be monotone and to keep 0; no entry may be due before now, since the source
        would cast a negative float to an unsigned integer. */
    method AdjustCallbacks(time: nat, factor: real, round: real -> real)
      requires Valid() && factor >= 0.0 && Rounding(round)
      requires forall i | 0 <= i < num_entries :: time <= entries[i].time
      modifies entries
      ensures Valid() && num_entries == old(num_entries)
      ensures forall i | 0 <= i < num_entries ::
                entries[i] == old(entries[i]).(time := Stretched(old(entries[i].time), time, factor, round))
      ensures forall i | 0 <= i < num_entries :: time <= entries[i].time
    {
      ghost var s := entries[..num_entries];
      hide Rounding, Stretched;
      for i := 0 to num_entries
        invariant forall j | 0 <= j < i :: entries[j] == s[j].(time := Stretched(s[j].time, time, factor, round))
        invariant forall j | i <= j < num_entries :: entries[j] == s[j]
      {
        entries[i] := entries[i].(time := Stretched(entries[i].time, time, factor, round));
      }
      StretchKeepsHeap(s, entries[..num_entries], time, factor, round);
    }
  }

  ghost predicate Rounding(round: real -> real) {
    round(0.0) == 0.0 && forall x, y | x <= y :: round(x) <= round(y)
  }

  /** time + (uint64_t) (offset * factor), with both operands and the product rounded to float. */
  function Stretched(due: nat, time: nat, factor: real, round: real -> real): (r: nat)
    requires time <= due && factor >= 0.0
  {
    var product := round(round((due - time) as real) * factor);
    if product < 0.0 then time else time + product.Floor
  }

  /** A nonnegative factor never reorders two deadlines, whatever the rounding. */
  lemma StretchIsMonotone(due1: nat, due2: nat, time: nat, factor: real, round: real -> real)
    requires time <= due1 <= due2 && factor >= 0.0 && Rounding(round)
    ensures time <= Stretched(due1, time, factor, round) <= Stretched(due2, time, factor, round)
  {
    var x, y := round((due1 - time) as real), round((due2 - time) as real);
    assert 0.0 <= round(0.0) <= x <= y;
    assert 0.0 <= x * factor <= y * factor;
    assert 0.0 <= round(x * factor) <= round(y * factor);
  }

  lemma StretchKeepsHeap<T>(s: seq<Entry<T>>, t: seq<Entry<T>>, time: nat, factor: real, round: real -> real)
    requires IsHeap(s) && |t| == |s| && factor >= 0.0 && Rounding(round)
    requires forall i | 0 <= i < |s| :: time <= s[i].time
    requires forall i | 0 <= i < |s| :: t[i] == s[i].(time := Stretched(s[i].time, time, factor, round))
    ensures IsHeap(t) && forall i | 0 <= i < |t| :: time <= t[i].time
  {
    forall i | 0 <= i < |t|
      ensures time <= t[i].time && (i > 0 ==> Ordered(t, i))
    {
      StretchIsMonotone(s[i].time, s[i].time, time, factor, round);
      if i > 0 {
        assert Ordered(s, i);
        StretchIsMonotone(s[Parent(i)].time, s[i].time, time, factor, round);
      }
    }
  }

  // ---------- Draining ----------

  ghost predicate SortedByTime<T>(s: seq<Entry<T>>) {
    forall i, j | 0 <= i < j < |s| :: s[i].time <= s[j].time
  }

  /** Popped so far in order, everything left due no earlier, nothing lost or invented. */
  ghost predicate Drained<T(!new)>(all: multiset<Entry<T>>, drained: seq<Entry<T>>, rest: multiset<Entry<T>>) {
    && multiset(drained) + rest == all
    && SortedByTime(drained)
    && forall f | f in rest :: forall i | 0 <= i < |drained| :: drained[i].time <= f.time
  }

  lemma DrainStep<T(!new)>(all: multiset<Entry<T>>, drained: seq<Entry<T>>, rest: multiset<Entry<T>>, first: Entry<T>)
    requires Drained(all, drained, rest) && first in rest && forall f | f in rest :: first.time <= f.time
    ensures Drained(all, drained + [first], rest - multiset{first})
  {
    assert multiset(drained + [first]) == multiset(drained) + multiset{first};
  }

  /** The self test at the end of the file: popping until the queue is empty sorts what was pushed. */
  method Drain<T(0,!new)>(queue: CallbackQueue<T>) returns (drained: seq<Entry<T>>)
    requires queue.Valid()
    modifies queue, queue.entries
    ensures queue.Valid() && queue.num_entries == 0
    ensures SortedByTime(drained) && multiset(drained) == old(queue.Contents())
  {
    ghost var all := queue.Contents();
    drained := [];
    while queue.num_entries > 0
      invariant queue.Valid() && Drained(all, drained, queue.Contents())
      decreases queue.num_entries
    {
      hide Drained, IsHeap, Elements;
      var time := queue.Peek();
      ghost var first := queue.entries[0];
      ghost var rest := queue.Contents();
      var ok, data := queue.Pop();
      DrainStep(all, drained, rest, first);
      drained := drained + [Entry(data, time)];
    }
    assert queue.Contents() == multiset{};
  }
}
