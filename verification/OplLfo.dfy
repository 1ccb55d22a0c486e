/** The low-frequency oscillator of opl/dbopl.c: Chip__ForwardLFO hands out chunks of samples during
    which tremolo and vibrato are constant, and Chip__GenerateBlock2/3 play chunk after chunk. The
    reference steps one sample at a time. */
module OplLfo {
  import opened OplEnvelope

  /** 256 << LFO_SH. */
  const LFO_MAX := 0x10_0000
  const TREMOLO_TABLE := 52

  /** The counter and the two table positions. */
  datatype Lfo = Lfo(counter: nat, vibratoIndex: nat, tremoloIndex: nat) {
    predicate Valid() { counter < LFO_MAX && vibratoIndex < 32 && tremoloIndex < TREMOLO_TABLE }
  }

  /** What the channels see: sign and shift of the vibrato, and the tremolo level. */
  datatype Modulation = Modulation(vibratoNegative: bool, vibratoShift: nat, tremoloValue: nat)

  /** VibratoTable & 7. */
  function VibratoShift(i: nat): nat
    requires i < 8
  {
    if i % 4 == 3 then 6 else if i % 2 == 0 then 1 else 0
  }

  /** TremoloTable: a triangle. */
  function TremoloLevel(i: nat): nat
    requires i < TREMOLO_TABLE
  {
    if i < TREMOLO_TABLE / 2 then i else TREMOLO_TABLE - 1 - i
  }

  /** What the indices select, given the two depth settings of register BD. */
  function ModulationOf(l: Lfo, vibratoStrength: nat, deepTremolo: bool): Modulation
    requires l.Valid()
  {
    Modulation(l.vibratoIndex / 4 >= 4, VibratoShift(l.vibratoIndex / 4) + vibratoStrength,
               if deepTremolo then TremoloLevel(l.tremoloIndex) else TremoloLevel(l.tremoloIndex) / 4)
  }

  /** The indices move on when the counter passes LFO_MAX. */
  function Advanced(l: Lfo, counter: nat): Lfo {
    Lfo(counter % LFO_MAX, (l.vibratoIndex + 1) % 32, if l.tremoloIndex + 1 < TREMOLO_TABLE then l.tremoloIndex + 1 else 0)
  }

  /** One sample. */
  function Tick(l: Lfo, add: nat): Lfo {
    if l.counter + add < LFO_MAX then l.(counter := l.counter + add) else Advanced(l, l.counter + add)
  }

  function Ticks(l: Lfo, add: nat, n: nat): (r: Lfo)
    ensures l.Valid() ==> r.Valid()
  {
    if n == 0 then l else Tick(Ticks(l, add, n - 1), add)
  }

  /** The modulation of each of the next n samples, one sample at a time. */
  function Reference(l: Lfo, add: nat, n: nat, vibratoStrength: nat, deepTremolo: bool): (r: seq<Modulation>)
    requires l.Valid()
    ensures |r| == n
  {
    if n == 0 then []
    else Reference(l, add, n - 1, vibratoStrength, deepTremolo) + [ModulationOf(Ticks(l, add, n - 1), vibratoStrength, deepTremolo)]
  }

  function Repeated(m: Modulation, n: nat): (r: seq<Modulation>)
    ensures |r| == n
  {
    if n == 0 then [] else Repeated(m, n - 1) + [m]
  }

  /** Advancing a + b samples is advancing a samples and then b. */
  lemma {:induction false} TicksAdd(l: Lfo, add: nat, a: nat, b: nat)
    ensures Ticks(l, add, a + b) == Ticks(Ticks(l, add, a), add, b)
  {
    if b > 0 {
      TicksAdd(l, add, a, b - 1);
    }
  }

  /** Where n samples lead: the counter wraps around, and each time it does, the vibrato moves on through its 32 positions
      and the tremolo through its 52. */
  lemma {:induction false} TicksClosedForm(l: Lfo, add: nat, n: nat)
    requires l.Valid() && add <= LFO_MAX
    ensures Ticks(l, add, n) == Wrapped(l.vibratoIndex, l.tremoloIndex, l.counter + n * add)
  {
    hide Wrapped, Tick;
    if n == 0 {
      Start(l);
    } else {
      CountOnce(l.counter, n, add);
      TicksClosedForm(l, add, n - 1);
      TickWrapped(l.vibratoIndex, l.tremoloIndex, l.counter + (n - 1) * add, add);
    }
  }

  lemma CountOnce(counter: nat, n: nat, add: nat)
    requires n > 0
    ensures 0 <= counter + (n - 1) * add && counter + n * add == counter + (n - 1) * add + add
  {
    Products(n - 1, n, add);
    NotNegative(n - 1, add);
  }

  /** The counter after counting to x, from these positions. */
  function Wrapped(vibratoIndex: nat, tremoloIndex: nat, x: nat): Lfo {
    Lfo(x % LFO_MAX, (vibratoIndex + x / LFO_MAX) % 32, (tremoloIndex + x / LFO_MAX) % TREMOLO_TABLE)
  }

  lemma Start(l: Lfo)
    requires l.Valid()
    ensures Wrapped(l.vibratoIndex, l.tremoloIndex, l.counter) == l
  {}

  lemma TickWrapped(vibratoIndex: nat, tremoloIndex: nat, x: nat, add: nat)
    requires add <= LFO_MAX
    ensures Tick(Wrapped(vibratoIndex, tremoloIndex, x), add) == Wrapped(vibratoIndex, tremoloIndex, x + add)
  {
    OneWrap(x, add);
    NextPosition(vibratoIndex + x / LFO_MAX, 32);
    NextPosition(tremoloIndex + x / LFO_MAX, TREMOLO_TABLE);
  }

  lemma NextPosition(i: nat, n: nat)
    requires n == 32 || n == TREMOLO_TABLE
    ensures (i + 1) % n == if i % n + 1 < n then i % n + 1 else 0
    ensures (i + 1) % n == (i % n + 1) % n
  {}

  lemma NotNegative(a: nat, b: nat)
    ensures a * b >= 0
  {}

  lemma OneWrap(x: nat, add: nat)
    requires add <= LFO_MAX
    ensures var over := x % LFO_MAX + add >= LFO_MAX;
            && (x + add) / LFO_MAX == x / LFO_MAX + (if over then 1 else 0)
            && (x + add) % LFO_MAX == (x % LFO_MAX + add) % LFO_MAX
            && (!over ==> (x + add) % LFO_MAX == x % LFO_MAX + add)
  {}

  /** The tremolo is a triangle from 0 to 25 and back. */
  lemma TremoloTriangle(i: nat)
    requires i < TREMOLO_TABLE
    ensures TremoloLevel(0) == 0 && TremoloLevel(TREMOLO_TABLE - 1 - i) == TremoloLevel(i)
    ensures i + 1 < TREMOLO_TABLE / 2 ==> TremoloLevel(i + 1) == TremoloLevel(i) + 1
  {}

  /** Up to the last sample before the counter runs over, only the counter moves. */
  lemma {:induction false} TicksWithin(l: Lfo, add: nat, n: nat)
    requires l.counter + n * add < LFO_MAX
    ensures Ticks(l, add, n) == l.(counter := l.counter + n * add)
  {
    if n > 0 {
      assert n * add == (n - 1) * add + add;
      TicksWithin(l, add, n - 1);
    }
  }

  /** The samples until the counter runs over. */
  function Runway(l: Lfo, add: nat): nat
    requires l.Valid() && add > 0
  {
    (LFO_MAX - l.counter + add - 1) / add
  }

  lemma Products(j: nat, n: nat, add: nat)
    requires j < n
    ensures j * add <= (n - 1) * add && n * add == (n - 1) * add + add
  {}

  /** Before the runway ends only the counter moves. */
  lemma BeforeEnd(l: Lfo, add: nat, n: nat, j: nat)
    requires l.Valid() && add > 0 && j < n <= Runway(l, add)
    ensures l.counter + j * add < LFO_MAX && Ticks(l, add, j) == l.(counter := l.counter + j * add)
  {
    CeilingReaches(LFO_MAX - l.counter, add, j);
    TicksWithin(l, add, j);
  }

  /** n samples, n at most the runway: the jump of the counter that ForwardLFO makes. */
  lemma Jump(l: Lfo, add: nat, n: nat)
    requires l.Valid() && add > 0 && 0 < n <= Runway(l, add)
    ensures n < Runway(l, add) ==> l.counter + n * add < LFO_MAX
    ensures Ticks(l, add, n) == if n < Runway(l, add) then l.(counter := l.counter + n * add)
                                else Advanced(l, l.counter + n * add)
  {
    Products(n - 1, n, add);
    BeforeEnd(l, add, n, n - 1);
    CeilingReaches(LFO_MAX - l.counter, add, n);
    hide Advanced;
  }

  /** All samples of one chunk show the same modulation. */
  lemma {:induction false} ChunkReference(l: Lfo, add: nat, n: nat, vibratoStrength: nat, deepTremolo: bool)
    requires l.Valid() && add > 0 && n <= Runway(l, add)
    ensures Reference(l, add, n, vibratoStrength, deepTremolo)
         == Repeated(ModulationOf(l, vibratoStrength, deepTremolo), n)
  {
    if n > 0 {
      ChunkReference(l, add, n - 1, vibratoStrength, deepTremolo);
      BeforeEnd(l, add, n, n - 1);
    }
  }

  lemma {:induction false} ReferenceAdd(l: Lfo, add: nat, a: nat, b: nat, vibratoStrength: nat, deepTremolo: bool)
    requires l.Valid()
    ensures Reference(l, add, a + b, vibratoStrength, deepTremolo)
         == Reference(l, add, a, vibratoStrength, deepTremolo)
          + Reference(Ticks(l, add, a), add, b, vibratoStrength, deepTremolo)
  {
    if b > 0 {
      ReferenceAdd(l, add, a, b - 1, vibratoStrength, deepTremolo);
      TicksAdd(l, add, a, b - 1);
    }
  }

  lemma RunwayIsPositive(l: Lfo, add: nat)
    requires l.Valid() && add > 0
    ensures Runway(l, add) >= 1
  {
    CeilingReaches(LFO_MAX - l.counter, add, 0);
  }

  // ---------- The chip ----------

  datatype Chunk = Chunk(samples: nat, modulation: Modulation)

  /** The modulation of every single sample of a list of chunks. */
  function PerSample(chunks: seq<Chunk>): seq<Modulation> {
    if chunks == [] then []
    else PerSample(chunks[..|chunks| - 1]) + Repeated(chunks[|chunks| - 1].modulation, chunks[|chunks| - 1].samples)
  }

  lemma PerSampleAppend(chunks: seq<Chunk>, c: Chunk)
    ensures PerSample(chunks + [c]) == PerSample(chunks) + Repeated(c.modulation, c.samples)
  {
    assert (chunks + [c])[..|chunks|] == chunks;
  }

  class Chip {
    var lfoCounter: nat
    const lfoAdd: nat
    var vibratoIndex: nat
    var tremoloIndex: nat
    var vibratoStrength: nat
    var deepTremolo: bool
    /** Current values, read by the channels. */
    var current: Modulation

    ghost function State(): Lfo
      reads this
    {
      Lfo(lfoCounter, vibratoIndex, tremoloIndex)
    }

    /** The increment leaves room for the 32-bit sum todo + lfoAdd - 1. */
    ghost predicate Valid()
      reads this
    {
      State().Valid() && 0 < lfoAdd < 0x8000_0000
    }

    constructor (lfoAdd: nat)
      requires 0 < lfoAdd < 0x8000_0000
      ensures Valid() && State() == Lfo(0, 0, 0)
    {
      this.lfoAdd := lfoAdd;
      lfoCounter, vibratoIndex, tremoloIndex := 0, 0, 0;
      vibratoStrength, deepTremolo := 1, false;
      current := Modulation(false, 0, 0);
    }

    /** The first three statements of Chip__ForwardLFO. */
    method SetCurrent()
      requires Valid()
      modifies this`current
      ensures current == ModulationOf(State(), vibratoStrength, deepTremolo)
    {
      var level := TremoloLevel(tremoloIndex);
      current := Modulation(vibratoIndex / 4 >= 4, VibratoShift(vibratoIndex / 4) + vibratoStrength,
                            if deepTremolo then level else level / 4);
    }

    /** Chip__ForwardLFO: at least one sample, at most as many as asked for, during all of which the
        reference shows the values now current; afterwards the state is the reference's. */
    method ForwardLFO(samples: nat) returns (count: nat)
      requires Valid() && samples > 0
      modifies this`lfoCounter, this`vibratoIndex, this`tremoloIndex, this`current
      ensures Valid() && 1 <= count <= samples
      ensures State() == Ticks(old(State()), lfoAdd, count)
      ensures Reference(old(State()), lfoAdd, count, vibratoStrength, deepTremolo) == Repeated(current, count)
    {
      hide Ticks, Reference, Repeated;
      ghost var l := State();
      SetCurrent();
      hide ModulationOf;
      var todo := LFO_MAX - lfoCounter;
      count := (todo + lfoAdd - 1) / lfoAdd;
      ghost var n := if count > samples then samples else count;
      assert count == Runway(l, lfoAdd);
      RunwayIsPositive(l, lfoAdd);
      hide Runway;
      Jump(l, lfoAdd, n);
      ChunkReference(l, lfoAdd, n, vibratoStrength, deepTremolo);
      if count > samples {
        count := samples;
        lfoCounter := lfoCounter + count * lfoAdd;
      } else {
        lfoCounter := lfoCounter + count * lfoAdd;
        lfoCounter := lfoCounter % LFO_MAX;
        vibratoIndex := (vibratoIndex + 1) % 32;
        if tremoloIndex + 1 < TREMOLO_TABLE {
          tremoloIndex := tremoloIndex + 1;
        } else {
          tremoloIndex := 0;
        }
      }
    }

    /** The loop of Chip__GenerateBlock2 and Chip__GenerateBlock3. The chunks played cover exactly the
        samples asked for, and each sample is played with the modulation of the one-sample reference. */
    method GenerateBlock(total: nat) returns (chunks: seq<Chunk>)
      requires Valid()
      modifies this`lfoCounter, this`vibratoIndex, this`tremoloIndex, this`current
      ensures Valid() && State() == Ticks(old(State()), lfoAdd, total)
      ensures forall i | 0 <= i < |chunks| :: chunks[i].samples > 0
      ensures PerSample(chunks) == Reference(old(State()), lfoAdd, total, vibratoStrength, deepTremolo)
    {
      chunks := [];
      var todo := total;
      ghost var l := State();
      while todo > 0
        invariant Valid() && 0 <= todo <= total
        invariant State() == Ticks(l, lfoAdd, total - todo)
        invariant forall i | 0 <= i < |chunks| :: chunks[i].samples > 0
        invariant PerSample(chunks) == Reference(l, lfoAdd, total - todo, vibratoStrength, deepTremolo)
      {
        hide Ticks, Reference, PerSample, Repeated, Lfo.Valid;
        ghost var done := total - todo;
        var samples := ForwardLFO(todo);
        TicksAdd(l, lfoAdd, done, samples);
        assert PerSample(chunks + [Chunk(samples, current)]) == Reference(l, lfoAdd, done + samples, vibratoStrength,
            deepTremolo) by {
          ReferenceAdd(l, lfoAdd, done, samples, vibratoStrength, deepTremolo);
          PerSampleAppend(chunks, Chunk(samples, current));
        }
        chunks := chunks + [Chunk(samples, current)];
        todo := todo - samples;
      }
    }
  }
}
