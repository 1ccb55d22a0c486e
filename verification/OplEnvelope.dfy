/** The envelope generator of one operator in opl/dbopl.c, as a function on its state: what
    Operator__TemplateVolume returns and leaves behind in each of the five phases. */
module OplEnvelope {

  const ENV_MIN := 0
  const ENV_MAX := 511
  const ENV_LIMIT := 384

  /** 1 << RATE_SH: one volume step of the rate counter. */
  const RATE_ONE := 0x100_0000

  /** Bound on the entries of the rate tables. */
  const RATE_LIMIT := 0x8000_0000

  datatype Phase = OFF | RELEASE | SUSTAIN | DECAY | ATTACK

  datatype Envelope = Envelope(phase: Phase, volume: int, rateIndex: int) {
    /** Every reachable state is in range, and an envelope that is off is at full attenuation. */
    predicate Valid() {
      0 <= volume <= ENV_MAX && 0 <= rateIndex < RATE_ONE && (phase.OFF? ==> volume == ENV_MAX)
    }
  }

  /** What the registers say about an operator: the three increments, the level where decay ends, and
      whether the sustain phase holds the note. */
  datatype Rates = Rates(attackAdd: nat, decayAdd: nat, releaseAdd: nat, sustainLevel: int, sustaining: bool) {
    predicate Valid() {
      attackAdd < RATE_LIMIT && decayAdd < RATE_LIMIT && releaseAdd < RATE_LIMIT && 0 <= sustainLevel <= ENV_MAX
    }
  }

  function Silent(level: int): bool { level >= ENV_LIMIT }

  /** Operator__RateForward: whole volume steps, and the fraction kept. */
  function RateSteps(rateIndex: int, add: nat): int { (rateIndex + add) / RATE_ONE }

  function RateRest(rateIndex: int, add: nat): int { (rateIndex + add) % RATE_ONE }

  function Release(e: Envelope, add: nat): Envelope {
    var vol := e.volume + RateSteps(e.rateIndex, add);
    if vol >= ENV_MAX then Envelope(OFF, ENV_MAX, RateRest(e.rateIndex, add))
    else e.(volume := vol, rateIndex := RateRest(e.rateIndex, add))
  }

  /** Operator__TemplateVolume: the state after one sample. The value returned is its volume. */
  function Step(e: Envelope, r: Rates): Envelope {
    match e.phase
    case OFF => e
    case ATTACK =>
      var change := RateSteps(e.rateIndex, r.attackAdd);
      var vol := e.volume + (-(e.volume + 1) * change) / 8;
      if change == 0 then e.(rateIndex := RateRest(e.rateIndex, r.attackAdd))
      else if vol < ENV_MIN then Envelope(DECAY, ENV_MIN, 0)
      else e.(volume := vol, rateIndex := RateRest(e.rateIndex, r.attackAdd))
    case DECAY =>
      var vol := e.volume + RateSteps(e.rateIndex, r.decayAdd);
      var rest := RateRest(e.rateIndex, r.decayAdd);
      if vol >= r.sustainLevel then
        if vol >= ENV_MAX then Envelope(OFF, ENV_MAX, rest) else Envelope(SUSTAIN, vol, 0)
      else e.(volume := vol, rateIndex := rest)
    case SUSTAIN => if r.sustaining then e else Release(e, r.releaseAdd)
    case RELEASE => Release(e, r.releaseAdd)
  }

  function Steps(e: Envelope, r: Rates, k: nat): Envelope {
    if k == 0 then e else Step(Steps(e, r, k - 1), r)
  }

  // ---------- Range and direction ----------

  lemma AttackLowers(volume: int, change: int)
    requires volume >= 0 && change >= 1
    ensures volume + (-(volume + 1) * change) / 8 < volume
  {
    assert (volume + 1) * change >= 1;
  }

  /** How far one attack step goes: each unit of the rate counter takes an eighth off the volume plus one, the total
      rounded up. If that is more than there is, the attack is over. */
  lemma AttackStepSize(e: Envelope, r: Rates)
    requires e.Valid() && r.Valid() && e.phase.ATTACK?
    ensures var eighths := (e.volume + 1) * RateSteps(e.rateIndex, r.attackAdd);
            var f := Step(e, r);
            if eighths > 8 * e.volume then f == Envelope(DECAY, ENV_MIN, 0)
            else f.phase.ATTACK? && eighths <= 8 * (e.volume - f.volume) < eighths + 8
  {
    var change := RateSteps(e.rateIndex, r.attackAdd);
    var eighths := (e.volume + 1) * change;
    assert -(e.volume + 1) * change == -eighths;
    if change == 0 {
      assert eighths == 0;
    } else {
      assert eighths >= e.volume + 1 by { NoLess(e.volume + 1, change); }
    }
    hide RateSteps;
  }

  lemma NoLess(a: nat, b: nat)
    requires b > 0
    ensures a * b >= a
  {
    assert a * b == a + a * (b - 1);
    assert a * (b - 1) >= 0;
  }

  /** One sample keeps the state in range. An attack step that moves lowers the volume strictly; no
      other phase lowers it, and only the attack phase can be left for a louder one. */
  lemma StepKeepsRange(e: Envelope, r: Rates)
    requires e.Valid() && r.Valid()
    ensures Step(e, r).Valid()
    ensures e.phase.ATTACK? ==> Step(e, r).phase in {ATTACK, DECAY}
    ensures e.phase.ATTACK? && RateSteps(e.rateIndex, r.attackAdd) > 0 && e.volume > 0 ==> Step(e, r).volume < e.volume
    ensures !e.phase.ATTACK? ==> Step(e, r).volume >= e.volume && !Step(e, r).phase.ATTACK?
  {
    if e.phase.ATTACK? && RateSteps(e.rateIndex, r.attackAdd) > 0 {
      AttackLowers(e.volume, RateSteps(e.rateIndex, r.attackAdd));
    }
  }

  lemma {:induction false} StepsKeepRange(e: Envelope, r: Rates, k: nat)
    requires e.Valid() && r.Valid()
    ensures Steps(e, r, k).Valid()
    ensures !e.phase.ATTACK? ==> Steps(e, r, k).volume >= e.volume && !Steps(e, r, k).phase.ATTACK?
  {
    if k > 0 {
      StepsKeepRange(e, r, k - 1);
      StepKeepsRange(Steps(e, r, k - 1), r);
    }
  }

  // ---------- Release in closed form ----------

  function Min(a: int, b: int): int { if a <= b then a else b }

  /** Total advance of the rate counter after k release samples. */
  function Advance(e: Envelope, add: nat, k: nat): int { e.rateIndex + k * add }

  lemma AdvanceStep(x: int, add: nat)
    requires x >= 0
    ensures (x + add) / RATE_ONE == x / RATE_ONE + (x % RATE_ONE + add) / RATE_ONE
    ensures (x + add) % RATE_ONE == (x % RATE_ONE + add) % RATE_ONE
  {}

  /** One release sample in terms of the total advance x so far. */
  lemma ReleaseStep(v0: int, x: int, add: nat)
    requires x >= 0 && v0 + x / RATE_ONE < ENV_MAX
    ensures var e := Release(Envelope(RELEASE, v0 + x / RATE_ONE, x % RATE_ONE), add);
            if v0 + (x + add) / RATE_ONE >= ENV_MAX then e.phase == OFF && e.volume == ENV_MAX
            else e == Envelope(RELEASE, v0 + (x + add) / RATE_ONE, (x + add) % RATE_ONE)
  {
    AdvanceStep(x, add);
  }

  /** k samples of a released note: the volume has risen by the whole steps in r0 + k * releaseAdd. */
  lemma {:induction false} ReleaseClosedForm(e: Envelope, r: Rates, k: nat)
    requires e.Valid() && r.Valid() && e.phase.RELEASE?
    ensures var rise := Advance(e, r.releaseAdd, k) / RATE_ONE;
            && Steps(e, r, k).volume == Min(ENV_MAX, e.volume + rise)
            && (k > 0 ==> (Steps(e, r, k).phase.OFF? <==> e.volume + rise >= ENV_MAX))
            && (!Steps(e, r, k).phase.OFF? ==>
                  Steps(e, r, k) == Envelope(RELEASE, e.volume + rise, Advance(e, r.releaseAdd, k) % RATE_ONE))
  {
    if k > 0 {
      ReleaseClosedForm(e, r, k - 1);
      var x := Advance(e, r.releaseAdd, k - 1);
      AdvanceBy(e, r.releaseAdd, k);
      hide Advance, Release;
      if e.volume + x / RATE_ONE < ENV_MAX {
        ReleaseStep(e.volume, x, r.releaseAdd);
      } else if k == 1 {
        AtFullAttenuation(e, r.releaseAdd);
      }
    }
  }

  lemma AdvanceBy(e: Envelope, add: nat, k: nat)
    requires k > 0 && e.rateIndex >= 0
    ensures Advance(e, add, k) == Advance(e, add, k - 1) + add && Advance(e, add, k - 1) >= 0
    ensures Advance(e, add, 0) == e.rateIndex
  {
    assert (k - 1) * add >= 0;
  }

  lemma AtFullAttenuation(e: Envelope, add: nat)
    requires e.Valid() && e.volume == ENV_MAX
    ensures Release(e, add).phase == OFF && Release(e, add).volume == ENV_MAX
  {}

  /** The number of samples after which a note released with increment add is off. */
  function SamplesToOff(e: Envelope, add: nat): nat
    requires add > 0
  {
    var distance := (ENV_MAX - e.volume) * RATE_ONE - e.rateIndex;
    if distance <= 0 then 1 else (distance + add - 1) / add
  }

  lemma CeilingReaches(distance: int, add: nat, k: nat)
    requires add > 0 && distance > 0
    ensures k * add >= distance <==> k >= (distance + add - 1) / add
  {
    var m := (distance + add - 1) / add;
    assert distance + add - 1 == m * add + (distance + add - 1) % add;
    if k >= m {
      assert k * add >= m * add;
    } else {
      assert k * add <= (m - 1) * add;
    }
  }

  /** A released note with a nonzero rate is off after exactly SamplesToOff samples, and not before. */
  lemma ReleaseReachesOff(e: Envelope, r: Rates, k: nat)
    requires e.Valid() && r.Valid() && e.phase.RELEASE? && r.releaseAdd > 0
    ensures Steps(e, r, k).phase.OFF? <==> k >= SamplesToOff(e, r.releaseAdd)
  {
    var distance := (ENV_MAX - e.volume) * RATE_ONE - e.rateIndex;
    ReleaseClosedForm(e, r, k);
    hide Steps;
    var product := k * r.releaseAdd;
    assert product >= 0;
    if distance > 0 {
      CeilingReaches(distance, r.releaseAdd, k);
      assert e.volume + (e.rateIndex + product) / RATE_ONE >= ENV_MAX <==> product >= distance;
    }
  }

  // ---------- Decay in closed form ----------

  /** After k samples of decay, none of which reached the sustain level before, the volume has risen by the whole steps
      in r0 + k * decayAdd. Reaching the level ends the phase: the note is sustained, or off at full attenuation. */
  lemma {:induction false} DecayClosedForm(e: Envelope, r: Rates, k: nat)
    requires e.Valid() && r.Valid() && e.phase.DECAY? && k > 0
    requires e.volume + Advance(e, r.decayAdd, k - 1) / RATE_ONE < r.sustainLevel
    ensures var x := Advance(e, r.decayAdd, k);
            var vol := e.volume + x / RATE_ONE;
            Steps(e, r, k) == if vol < r.sustainLevel then Envelope(DECAY, vol, x % RATE_ONE)
                              else if vol < ENV_MAX then Envelope(SUSTAIN, vol, 0)
                              else Envelope(OFF, ENV_MAX, x % RATE_ONE)
  {
    var x := Advance(e, r.decayAdd, k - 1);
    AdvanceBy(e, r.decayAdd, k);
    AdvanceStep(x, r.decayAdd);
    if k > 1 {
      AdvanceBy(e, r.decayAdd, k - 1);
      hide Advance;
      StillBelow(Advance(e, r.decayAdd, k - 2), x);
      DecayClosedForm(e, r, k - 1);
    } else {
      assert Steps(e, r, 0) == e;
    }
    assert Steps(e, r, k) == Step(Steps(e, r, k - 1), r);
  }

  lemma StillBelow(x: int, y: int)
    requires x <= y
    ensures x / RATE_ONE <= y / RATE_ONE
  {}

  // ---------- Silence ----------

  /** Inaudible for good: at or past the limit, and not in an attack that moves. */
  predicate Quiet(e: Envelope, r: Rates, totalLevel: int) {
    Silent(totalLevel + e.volume) && (e.phase.ATTACK? ==> r.attackAdd == 0)
  }

  lemma QuietStays(e: Envelope, r: Rates, totalLevel: int)
    requires e.Valid() && r.Valid() && Quiet(e, r, totalLevel)
    ensures Quiet(Step(e, r), r, totalLevel)
  {
    StepKeepsRange(e, r);
  }
}
