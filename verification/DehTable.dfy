/** The string replacement table of src/deh_str.c: open addressing with linear probing, and a growth
    step that can re-enter itself in the middle of a rehash. */
module DehTable {

  /** A C string: bytes, no terminator inside. */
  predicate IsCString(s: string) { forall i | 0 <= i < |s| :: 0 < s[i] as int < 256 }

  type CString = s: string | IsCString(s) witness ""

  // ---------- strhash ----------

  const UINT_RANGE := 0x1_0000_0000

  /** The value of a signed char in int arithmetic. */
  function CharValue(c: char): int {
    var b := c as int;
    if b < 128 then b else b - 256
  }

  /** The hash as a polynomial in 31, modulo 2^32. */
  function Hash(s: string): (h: nat)
    ensures h < UINT_RANGE
  {
    if s == [] then 0 else (31 * Hash(s[..|s| - 1]) + CharValue(s[|s| - 1])) % UINT_RANGE
  }

  method StrHash(s: CString) returns (h: nat)
    ensures h == Hash(s)
  {
    if s == [] {
      return 0;
    }
    h := CharValue(s[0]) % UINT_RANGE;
    assert s[..1] == [s[0]];
    if h != 0 {
      for p := 1 to |s|
        invariant h == Hash(s[..p])
      {
        assert s[..p + 1][..p] == s[..p];
        ShiftIsTimes32(h, CharValue(s[p]));
        h := ((h * 32) % UINT_RANGE - h + CharValue(s[p])) % UINT_RANGE;
      }
    }
    assert s[..|s|] == s;
  }

  /** (h << 5) - h + c in 32-bit arithmetic is 31h + c. */
  lemma ShiftIsTimes32(h: int, c: int)
    ensures ((h * 32) % UINT_RANGE - h + c) % UINT_RANGE == (31 * h + c) % UINT_RANGE
  {
    var q := (h * 32) / UINT_RANGE;
    assert (h * 32) % UINT_RANGE - h + c == 31 * h + c - q * UINT_RANGE;
    DropMultiple(31 * h + c, q);
  }

  lemma DropMultiple(x: int, q: int)
    ensures (x - q * UINT_RANGE) % UINT_RANGE == x % UINT_RANGE
  {
    assert x - q * UINT_RANGE == (x / UINT_RANGE - q) * UINT_RANGE + x % UINT_RANGE;
  }

  // ---------- Probe sequences ----------

  class Substitution {
    const from_text: CString
    var to_text: CString

    constructor (from_text: CString, to_text: CString)
      ensures this.from_text == from_text && this.to_text == to_text
    {
      this.from_text := from_text;
      this.to_text := to_text;
    }
  }

  type Slots = seq<Substitution?>

  function Home(key: CString, length: nat): (h: nat)
    requires length > 0
    ensures h < length
  {
    Hash(key) % length
  }

  /** Is j in the cyclic range that starts at from and ends just before to? */
  predicate InArc(from: int, j: int, to: int) {
    if from <= to then from <= j < to else j >= from || j < to
  }

  /** No gap between the home slot of a key and the slot that holds it. */
  ghost predicate NoGaps(t: Slots) {
    forall i, j | 0 <= i < |t| && 0 <= j < |t| && t[i] != null ::
      InArc(Home(t[i].from_text, |t|), j, i) ==> t[j] != null
  }

  /** The slots hold the objects of subs, each exactly once. */
  ghost predicate Stores(t: Slots, subs: map<CString, Substitution>) {
    && (forall i | 0 <= i < |t| && t[i] != null :: t[i].from_text in subs && subs[t[i].from_text] == t[i])
    && (forall k | k in subs :: subs[k].from_text == k && subs[k] in t)
    && (forall i, j | 0 <= i < j < |t| && t[i] != null :: t[i] != t[j])
  }

  /** Fewer keys than slots: some slot is empty, so every probe ends. */
  lemma SomeSlotEmpty(t: Slots, subs: map<CString, Substitution>) returns (e: nat)
    requires Stores(t, subs) && |subs| < |t|
    ensures e < |t| && t[e] == null
  {
    if forall i | 0 <= i < |t| :: t[i] != null {
      KeysOfFullPrefix(t, subs, |t|);
    }
    e :| e < |t| && t[e] == null;
  }

  lemma {:induction false} KeysOfFullPrefix(t: Slots, subs: map<CString, Substitution>, n: nat)
    requires n <= |t| && Stores(t, subs) && forall i | 0 <= i < n :: t[i] != null
    ensures |subs| >= n
    decreases n
  {
    if n > 0 {
      var rest := subs - {t[n - 1].from_text};
      assert rest.Keys == subs.Keys - {t[n - 1].from_text};
      var t' := t[n - 1 := null];
      forall k | k in rest
        ensures rest[k] in t'
      {
        var i :| 0 <= i < |t| && t[i] == subs[k];
        assert t'[i] == t[i];
      }
      KeysOfFullPrefix(t', rest, n - 1);
    }
  }

  /** A stored key sits between its home slot and the first empty slot of the probe. */
  lemma StoredKeyIsProbed(t: Slots, subs: map<CString, Substitution>, key: CString, entry: nat)
    requires NoGaps(t) && Stores(t, subs) && entry < |t| && t[entry] == null
    ensures key in subs ==> exists i :: 0 <= i < |t| && InArc(Home(key, |t|), i, entry) && t[i] == subs[key]
  {
    if key in subs {
      var i :| 0 <= i < |t| && t[i] == subs[key];
      assert InArc(Home(key, |t|), i, entry);
    }
  }

  lemma NextSlot(entry: nat, length: nat)
    requires entry < length
    ensures (entry + 1) % length == if entry + 1 == length then 0 else entry + 1
  {}

  lemma StoredSlots(t: Slots, subs: map<CString, Substitution>)
    requires Stores(t, subs)
    ensures forall i | 0 <= i < |t| && t[i] != null :: t[i].from_text in subs && subs[t[i].from_text] == t[i]
    ensures forall i, j | 0 <= i < |t| && 0 <= j < |t| && t[i] != null && t[j] != null ::
              t[i].from_text == t[j].from_text ==> i == j
  {}

  lemma StoredKeys(t: Slots, subs: map<CString, Substitution>)
    requires Stores(t, subs)
    ensures forall i | 0 <= i < |t| && t[i] != null :: t[i].from_text in subs
  {}

  lemma KeysOfObjects(t: Slots, subs: map<CString, Substitution>)
    requires Stores(t, subs)
    ensures forall k | k in subs :: subs[k].from_text == k
  {}

  lemma SameMap(t: Slots, all: map<CString, Substitution>, part: map<CString, Substitution>)
    requires Stores(t, all)
    requires forall k | k in part :: k in all && part[k] == all[k]
    requires forall j | 0 <= j < |t| && t[j] != null :: t[j].from_text in part
    ensures part == all
  {
    forall k | k in all
      ensures k in part
    {
      var j :| 0 <= j < |t| && t[j] == all[k];
    }
  }

  /** Putting a new key into the first empty slot of its probe sequence. */
  lemma FillSlot(t: Slots, subs: map<CString, Substitution>, sub: Substitution, entry: nat)
    requires NoGaps(t) && Stores(t, subs) && entry < |t| && t[entry] == null && sub.from_text !in subs
    requires forall j | 0 <= j < |t| && InArc(Home(sub.from_text, |t|), j, entry) :: t[j] != null
    ensures NoGaps(t[entry := sub]) && Stores(t[entry := sub], subs[sub.from_text := sub])
  {
    var t', subs' := t[entry := sub], subs[sub.from_text := sub];
    forall k | k in subs'
      ensures subs'[k] in t'
    {
      if k == sub.from_text {
        assert t'[entry] == sub;
      } else {
        var i :| 0 <= i < |t| && t[i] == subs[k];
        assert t'[i] == t[i];
      }
    }
  }

  // ---------- The table ----------

  /** The replacements made by a sequence of calls, the last one for a key winning. */
  function LastWrites(m: map<CString, CString>, calls: seq<(CString, CString)>): map<CString, CString> {
    if calls == [] then m
    else LastWrites(m, calls[..|calls| - 1])[calls[|calls| - 1].0 := calls[|calls| - 1].1]
  }

  class StringTable {
    var hash_table: array?<Substitution?>
    var hash_table_entries: int
    var hash_table_length: int
    /** The object stored for each key. */
    ghost var subs: map<CString, Substitution>

    /** A live table. The counter only bounds the number of keys: a rehash counts them again. */
    ghost predicate Live()
      reads this, hash_table
    {
      && hash_table != null && hash_table.Length == hash_table_length >= 16
      && NoGaps(hash_table[..]) && Stores(hash_table[..], subs)
      && |subs| <= hash_table_entries && |subs| < hash_table_length
    }

    ghost predicate Valid()
      reads this, hash_table
    {
      if hash_table_length < 0 then hash_table == null && subs == map[] else Live()
    }

    /** What the table means: the replacement text of each key. */
    ghost function Contents(): map<CString, CString>
      reads this, subs.Values
    {
      map k | k in subs :: subs[k].to_text
    }

    constructor ()
      ensures Valid() && Contents() == map[]
    {
      hash_table := null;
      hash_table_entries := 0;
      hash_table_length := -1;
      subs := map[];
    }

    method SubstitutionForString(s: CString) returns (r: Substitution?)
      requires Valid()
      ensures if s in subs then r == subs[s] else r == null
    {
      if hash_table_length < 0 {
        return null;
      }
      var h := StrHash(s);
      var entry := h % hash_table_length;
      ghost var t := hash_table[..];
      ghost var e := SomeSlotEmpty(t, subs);
      while hash_table[entry] != null
        invariant 0 <= entry < |t| && t == hash_table[..]
        invariant forall j | 0 <= j < |t| && InArc(Home(s, |t|), j, entry) :: t[j] != null && t[j].from_text != s
        decreases if entry <= e then e - entry else e - entry + |t|
      {
        if hash_table[entry].from_text == s {
          return hash_table[entry];
        }
        NextSlot(entry, hash_table_length);
        entry := (entry + 1) % hash_table_length;
      }
      StoredKeyIsProbed(t, subs, s, entry);
      r := null;
    }

    /** DEH_String. */
    method String(s: CString) returns (r: CString)
      requires Valid()
      ensures r == if s in Contents() then Contents()[s] else s
    {
      var subst := SubstitutionForString(s);
      if subst != null {
        r := subst.to_text;
      } else {
        r := s;
      }
    }

    method InitHashTable()
      requires Valid() && hash_table_length < 0
      modifies this
      ensures Live() && subs == map[] && fresh(hash_table)
    {
      hash_table_entries := 0;
      AllocateTable(16);
    }

    /** Doubles the table and inserts every entry again. While the loop runs, the current table holds
        fewer keys than the table being rehashed, which is why a nested growth terminates. */
    method IncreaseHashtable()
      requires Live()
      modifies this
      ensures Live() && fresh(hash_table) && subs == old(subs)
      ensures hash_table_length >= 2 * old(hash_table_length)
      ensures hash_table_entries >= old(hash_table_entries) + |subs|
      decreases |subs|, 1
    {
      hide NoGaps, Stores;
      var old_table := hash_table;
      var old_table_length := hash_table_length;
      ghost var all := subs;
      AllocateTable(hash_table_length * 2);
      Rehash(old_table, all);
      SameMap(old_table[..], all, subs);
    }

    /** The loop of IncreaseHashtable. */
    method Rehash(old_table: array<Substitution?>, ghost all: map<CString, Substitution>)
      requires Live() && subs == map[] && hash_table != old_table && Stores(old_table[..], all)
      modifies this, hash_table
      ensures Live() && (hash_table == old(hash_table) || fresh(hash_table))
      ensures old_table[..] == old(old_table[..]) && Rehashed(old_table[..], all, old_table.Length)
      ensures hash_table_length >= old(hash_table_length)
      ensures hash_table_entries >= old(hash_table_entries) + |subs|
      decreases |all|, 0
    {
      hide NoGaps, Stores, Live;
      ghost var t := old_table[..];
      assert Rehashed(t, all, 0);
      for i := 0 to old_table.Length
        invariant Live() && (hash_table == old(hash_table) || fresh(hash_table)) && hash_table != old_table
        invariant hash_table_length >= old(hash_table_length)
        invariant old_table[..] == t && Rehashed(t, all, i)
        invariant hash_table_entries >= old(hash_table_entries) + |subs|
      {
        hide Rehashed;
        SlotStep(t, all, i);
        if old_table[i] != null {
          InsertAgain(old_table[i], t, all, i);
        }
      }
    }

    /** An empty slot needs no work; for a full one the current table still lacks a key. */
    lemma SlotStep(t: Slots, all: map<CString, Substitution>, i: nat)
      requires Rehashed(t, all, i) && Stores(t, all) && i < |t|
      ensures if t[i] == null then Rehashed(t, all, i + 1) else |subs| < |all|
    {
      StoredKeys(t, all);
      hide Stores;
      if t[i] != null {
        SubmapIsSmaller(subs, all, t[i].from_text);
      }
    }

    method InsertAgain(sub: Substitution, ghost t: Slots, ghost all: map<CString, Substitution>, ghost i: nat)
      requires Live() && i < |t| && t[i] == sub && Stores(t, all) && Rehashed(t, all, i)
      modifies this, hash_table
      ensures Live() && Rehashed(t, all, i + 1)
      ensures hash_table == old(hash_table) || fresh(hash_table)
      ensures hash_table_length >= old(hash_table_length)
      ensures hash_table_entries - |subs| >= old(hash_table_entries - |subs|)
      decreases |subs|, 3
    {
      hide NoGaps, Stores;
      StoredSlots(t, all);
      AddToHashtable(sub);
    }

    /** The first i slots of the old table t, which stored all, are in the table again. */
    ghost predicate Rehashed(t: Slots, all: map<CString, Substitution>, i: int)
      reads this
    {
      && (forall k | k in subs :: k in all && subs[k] == all[k])
      && (forall j | 0 <= j < |t| && t[j] != null :: t[j].from_text in subs <==> j < i)
    }

    method AllocateTable(length: int)
      requires length >= 16 && hash_table_entries >= 0
      modifies this
      ensures Live() && fresh(hash_table) && hash_table_length == length && subs == map[]
      ensures hash_table_entries == old(hash_table_entries)
    {
      hash_table_length := length;
      hash_table := new Substitution?[length](_ => null);
      subs := map[];
    }

    method AddToHashtable(sub: Substitution)
      requires Live() && sub.from_text !in subs
      modifies this, hash_table
      ensures Live() && subs == old(subs)[sub.from_text := sub]
      ensures hash_table == old(hash_table) || fresh(hash_table)
      ensures hash_table_length >= old(hash_table_length) && hash_table_entries > old(hash_table_entries)
      decreases |subs|, 2
    {
      hide NoGaps, Stores;
      if (hash_table_entries * 10) / hash_table_length > 6 {
        IncreaseHashtable();
      } else {
        NotFull(hash_table_entries, hash_table_length);
      }
      var entry := FindEmpty(sub.from_text);
      FillSlot(hash_table[..], subs, sub, entry);
      ghost var t := hash_table[..];
      hash_table[entry] := sub;
      assert hash_table[..] == t[entry := sub];
      subs := subs[sub.from_text := sub];
      hash_table_entries := hash_table_entries + 1;
    }

    lemma NotFull(entries: int, length: int)
      requires length >= 16 && (entries * 10) / length <= 6
      ensures entries + 1 < length
    {
      var q := (entries * 10) / length;
      assert entries * 10 == q * length + (entries * 10) % length;
      assert q * length <= 6 * length;
    }

    /** The probe of DEH_AddToHashtable for a slot to insert into. */
    method FindEmpty(key: CString) returns (entry: nat)
      requires Live()
      ensures entry < hash_table.Length && hash_table[entry] == null
      ensures var t := hash_table[..];
              forall j | 0 <= j < |t| && InArc(Home(key, |t|), j, entry) :: t[j] != null
    {
      var h := StrHash(key);
      entry := h % hash_table_length;
      ghost var t := hash_table[..];
      ghost var e := SomeSlotEmpty(t, subs);
      hide NoGaps, Stores;
      while hash_table[entry] != null
        invariant entry < |t| && t == hash_table[..]
        invariant forall j | 0 <= j < |t| && InArc(Home(key, |t|), j, entry) :: t[j] != null
        decreases if entry <= e then e - entry else e - entry + |t|
      {
        NextSlot(entry, hash_table_length);
        entry := (entry + 1) % hash_table_length;
      }
    }

    /** DEH_AddStringReplacement: the table is a map from strings to strings, updated at one key. */
    method AddStringReplacement(from_text: CString, to_text: CString)
      requires Valid()
      modifies this, hash_table, subs.Values
      ensures Valid() && Contents() == old(Contents())[from_text := to_text]
      ensures hash_table == old(hash_table) || fresh(hash_table)
      ensures forall k | k in subs :: subs[k] in old(subs.Values) || fresh(subs[k])
    {
      hide NoGaps, Stores;
      if hash_table_length < 0 {
        InitHashTable();
      }
      assert Contents() == old(Contents());
      var sub := SubstitutionForString(from_text);
      if sub != null {
        Overwrite(sub, from_text, to_text);
      } else {
        AddNew(from_text, to_text);
      }
    }

    method Overwrite(sub: Substitution, ghost from_text: CString, to_text: CString)
      requires Live() && from_text in subs && subs[from_text] == sub
      modifies sub
      ensures Live() && Contents() == old(Contents())[from_text := to_text]
    {
      hide NoGaps, Stores, IsCString;
      assert forall k | k in subs && k != from_text :: subs[k] != sub by {
        KeysOfObjects(hash_table[..], subs);
      }
      hide Live;
      sub.to_text := to_text;
    }

    method AddNew(from_text: CString, to_text: CString)
      requires Live() && from_text !in subs
      modifies this, hash_table
      ensures Live() && Contents() == old(Contents())[from_text := to_text]
      ensures hash_table == old(hash_table) || fresh(hash_table)
      ensures forall k | k in subs :: subs[k] in old(subs.Values) || fresh(subs[k])
    {
      hide NoGaps, Stores, Live;
      var sub := new Substitution(from_text, to_text);
      ghost var before := subs;
      AddToHashtable(sub);
      assert forall k | k in before :: subs[k] == before[k] && subs[k].to_text == old(before[k].to_text);
    }
  }

  lemma SubmapIsSmaller(part: map<CString, Substitution>, all: map<CString, Substitution>, key: CString)
    requires (forall k | k in part :: k in all) && key in all && key !in part
    ensures |part| < |all|
  {
    SubsetIsSmaller(part.Keys, all.Keys - {key});
  }

  lemma SubsetIsSmaller(s: set<CString>, t: set<CString>)
    requires s <= t
    ensures |s| <= |t|
  {
    if s != {} {
      var x :| x in s;
      SubsetIsSmaller(s - {x}, t - {x});
    }
  }

  // ---------- Whole runs ----------

  /** Any sequence of calls leaves the table meaning the last write for each key. */
  method ReplaceAll(table: StringTable, calls: seq<(CString, CString)>)
    requires table.Valid()
    modifies table, table.hash_table, table.subs.Values
    ensures table.Valid() && table.Contents() == LastWrites(old(table.Contents()), calls)
  {
    for i := 0 to |calls|
      invariant table.Valid() && table.Contents() == LastWrites(old(table.Contents()), calls[..i])
      invariant table.hash_table == old(table.hash_table) || fresh(table.hash_table)
      invariant forall k | k in table.subs :: table.subs[k] in old(table.subs.Values) || fresh(table.subs[k])
    {
      assert calls[..i + 1][..i] == calls[..i];
      table.AddStringReplacement(calls[i].0, calls[i].1);
    }
    assert calls[..|calls|] == calls;
  }

  /** No call after i names this key. */
  predicate IsLast(calls: seq<(CString, CString)>, i: nat, key: CString) {
    i < |calls| && calls[i].0 == key && forall j | i < j < |calls| :: calls[j].0 != key
  }

  lemma {:induction false} LastWritesKeys(m: map<CString, CString>, calls: seq<(CString, CString)>, key: CString)
    ensures key in LastWrites(m, calls) <==> key in m || exists j :: 0 <= j < |calls| && calls[j].0 == key
    decreases |calls|
  {
    if calls != [] {
      var n := |calls| - 1;
      LastWritesKeys(m, calls[..n], key);
      if j :| 0 <= j < |calls| && calls[j].0 == key {
        assert j < n ==> calls[..n][j].0 == key;
      }
    }
  }

  /** In LastWrites a key has the text of the last call that names it; a key that no call names is as before. */
  lemma {:induction false} LastWriteWins(m: map<CString, CString>, calls: seq<(CString, CString)>, key: CString)
    ensures key in LastWrites(m, calls) <==> key in m || exists j :: 0 <= j < |calls| && calls[j].0 == key
    ensures forall i: nat | IsLast(calls, i, key) :: key in LastWrites(m, calls) && LastWrites(m, calls)[key] == calls[i].1
    ensures key in LastWrites(m, calls) && (forall j | 0 <= j < |calls| :: calls[j].0 != key) ==> LastWrites(m, calls)[key] == m[key]
    decreases |calls|
  {
    LastWritesKeys(m, calls, key);
    if calls != [] {
      var n := |calls| - 1;
      LastWriteWins(m, calls[..n], key);
      forall i: nat | IsLast(calls, i, key)
        ensures key in LastWrites(m, calls) && LastWrites(m, calls)[key] == calls[i].1
      {
        assert i < n ==> IsLast(calls[..n], i, key);
      }
    }
  }
}
