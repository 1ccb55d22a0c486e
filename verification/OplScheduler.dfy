/** opl/opl_sdl.c together with the song player of src/i_oplmusic.c: the audio thread mixes samples,
    advances a clock that can be paused, and invokes callbacks which schedule further callbacks. */
module OplScheduler {
  import opened OplQueue

  const OPL_SECOND := 1_000_000

  /** RestartSong waits this long, so that a song without any delay cannot lock up the player. */
  const RESTART_DELAY := 5000

  datatype Callback = TrackTimer(track: nat) | RestartSong

  /** A MIDI event: the delay before it, and whether it is the end-of-track event. */
  datatype MidiEvent = MidiEvent(delta_time: nat, is_end: bool)

  /** One invocation: what was due when, and the virtual clock at that moment. */
  datatype Firing = Firing(callback: Callback, deadline: nat, clock: nat)

  // ---------- The two roundings ----------

  /** Microseconds to samples rounds up (opl_sdl.c:231-232). */
  function SamplesUntil(us: nat, freq: nat): (n: nat) {
    (us * freq + OPL_SECOND - 1) / OPL_SECOND
  }

  /** Samples to microseconds rounds down (opl_sdl.c:116). */
  function Duration(nsamples: nat, freq: nat): (us: nat)
    requires freq > 0
  {
    nsamples * OPL_SECOND / freq
  }

  lemma FloorReaches(a: nat, freq: nat, us: nat)
    requires freq > 0
    ensures a / freq >= us <==> a >= us * freq
  {
    var q, r := a / freq, a % freq;
    assert a == q * freq + r;
    if q >= us {
      assert q * freq >= us * freq;
    } else {
      assert (q + 1) * freq <= us * freq;
    }
  }

  /** The ceiling and the floor compose: SamplesUntil(us) is the least number of samples that lasts us microseconds. */
  lemma RoundingsCompose(us: nat, freq: nat, n: nat)
    requires freq > 0
    ensures Duration(n, freq) >= us <==> n >= SamplesUntil(us, freq)
  {
    FloorReaches(n * OPL_SECOND, freq, us);
    var x := us * freq;
    assert n * OPL_SECOND >= x <==> n >= (x + OPL_SECOND - 1) / OPL_SECOND;
  }

  /** Waiting that long overshoots by less than one sample. */
  lemma OvershootBelowOneSample(us: nat, freq: nat, n: nat)
    requires freq > 0 && n <= SamplesUntil(us, freq)
    ensures (Duration(n, freq) - us) * freq < OPL_SECOND
  {
    var d := Duration(n, freq);
    FloorReaches(n * OPL_SECOND, freq, d);
    assert n * OPL_SECOND < us * freq + OPL_SECOND;
    assert (d - us) * freq == d * freq - us * freq;
  }

  lemma DurationOfNothing(freq: nat)
    requires freq > 0
    ensures Duration(0, freq) == 0
  {}

  // ---------- The song ----------

  /** Every iterator is within its track. */
  ghost predicate InRange(tracks: seq<seq<MidiEvent>>, positions: seq<nat>) {
    |positions| == |tracks| && forall i | 0 <= i < |tracks| :: positions[i] <= |tracks[i]|
  }

  /** Events not yet read from the first n tracks. */
  ghost function Remaining(tracks: seq<seq<MidiEvent>>, positions: seq<nat>, n: nat): (r: nat)
    requires InRange(tracks, positions) && n <= |tracks|
  {
    if n == 0 then 0 else Remaining(tracks, positions, n - 1) + |tracks[n - 1]| - positions[n - 1]
  }

  lemma {:induction false} ReadingOneEvent(tracks: seq<seq<MidiEvent>>, positions: seq<nat>, n: nat, track: nat)
    requires InRange(tracks, positions) && n <= |tracks|
    requires track < |tracks| && positions[track] < |tracks[track]|
    ensures var next := positions[track := positions[track] + 1];
            && InRange(tracks, next)
            && Remaining(tracks, next, n) == Remaining(tracks, positions, n) - if track < n then 1 else 0
  {
    if n > 0 {
      ReadingOneEvent(tracks, positions, n - 1, track);
    }
  }

  lemma AtTheStart(tracks: seq<seq<MidiEvent>>, positions: seq<nat>, i: nat)
    requires InRange(tracks, positions) && i < |tracks|
    ensures InRange(tracks, positions[i := 0])
  {}

  // ---------- Pending callbacks as a map ----------

  /** The queue holds each pending callback once, with its deadline, and nothing else. */
  ghost predicate Agrees(contents: multiset<Entry<Callback>>, pending: map<Callback, nat>) {
    forall e: Entry<Callback> ::
      contents[e] == if e.data in pending && pending[e.data] == e.time then 1 else 0
  }

  lemma AgreesPush(contents: multiset<Entry<Callback>>, pending: map<Callback, nat>, e: Entry<Callback>)
    requires Agrees(contents, pending) && e.data !in pending
    ensures Agrees(contents + multiset{e}, pending[e.data := e.time])
  {}

  lemma AgreesPop(contents: multiset<Entry<Callback>>, pending: map<Callback, nat>, e: Entry<Callback>)
    requires Agrees(contents, pending) && e in contents
    ensures e.data in pending && pending[e.data] == e.time
    ensures Agrees(contents - multiset{e}, pending - {e.data})
  {}

  /** What is due first in the queue is due first among the pending callbacks. */
  lemma AgreesMinimum(contents: multiset<Entry<Callback>>, pending: map<Callback, nat>, time: nat)
    requires Agrees(contents, pending) && forall f | f in contents :: time <= f.time
    ensures forall c | c in pending :: time <= pending[c]
  {
    forall c | c in pending
      ensures time <= pending[c]
    {
      assert contents[Entry(c, pending[c])] == 1;
    }
  }

  lemma NothingPending(pending: map<Callback, nat>)
    ensures |pending| == 0 <==> pending == map[]
  {}

  lemma TakenFrom(contents: multiset<Entry<Callback>>, pending: map<Callback, nat>, e: Entry<Callback>)
    requires Agrees(contents, pending) && e in contents && forall f | f in contents :: e.time <= f.time
    ensures e.data in pending && pending[e.data] == e.time && AllFrom(pending, e.time)
    ensures Agrees(contents - multiset{e}, pending - {e.data}) && |pending - {e.data}| == |pending| - 1
  {
    AgreesPop(contents, pending, e);
    AgreesMinimum(contents, pending, e.time);
    OneFewer(pending, e.data);
    hide Agrees;
  }

  ghost predicate AllFrom(pending: map<Callback, nat>, time: nat) {
    forall c | c in pending :: time <= pending[c]
  }

  /** The first deadline. */
  ghost predicate FirstAt(pending: map<Callback, nat>, time: nat) {
    AllFrom(pending, time) && exists c :: c in pending && pending[c] == time
  }

  lemma FirstIsFirst(pending: map<Callback, nat>, time: nat, c: Callback)
    requires FirstAt(pending, time) && c in pending && AllFrom(pending, pending[c])
    ensures pending[c] == time
  {}

  /** Nothing is due when the first deadline lies in the future. */
  lemma NoneDue(pending: map<Callback, nat>, clock: nat, time: nat)
    requires pending == map[] || (FirstAt(pending, time) && clock < time)
    ensures AllFrom(pending, clock + 1) && AllFrom(pending, clock)
  {}

  /** Every timer belongs to a track, running_tracks counts at least the tracks with a timer, and a
      restart is never pending together with a timer. */
  ghost predicate SongPending(pending: map<Callback, nat>, running: nat, num_tracks: nat) {
    && (forall c | c in pending :: c.TrackTimer? ==> c.track < num_tracks)
    && if RestartSong in pending then pending.Keys == {RestartSong} else |pending.Keys| <= running
  }

  /** A full queue drops a callback. */
  function Added(pending: map<Callback, nat>, c: Callback, time: nat): (r: map<Callback, nat>)
    ensures c in r && c !in pending ==> r[c] == time && |pending| < MAX_OPL_QUEUE
    ensures |pending| >= MAX_OPL_QUEUE ==> r == pending
    ensures forall d | d in pending && d != c :: d in r && r[d] == pending[d]
    ensures forall d | d in r && d != c :: d in pending
  {
    if |pending| < MAX_OPL_QUEUE then pending[c := time] else pending
  }

  lemma AddedOrNot(pending: map<Callback, nat>, c: Callback, time: nat)
    ensures Added(pending, c, time) == pending || Added(pending, c, time) == pending[c := time]
  {}

  /** Callbacks only add: timers from now on, or a restart RESTART_DELAY from now. */
  ghost predicate Extends(before: map<Callback, nat>, after: map<Callback, nat>, clock: nat) {
    && (forall c | c in before :: c in after && after[c] == before[c])
    && (forall c | c in after && c !in before ::
          if c.TrackTimer? then after[c] >= clock else after[c] == clock + RESTART_DELAY)
  }

  lemma ExtendsItself(p: map<Callback, nat>, clock: nat)
    ensures Extends(p, p, clock)
  {}

  lemma TimerExtends(p: map<Callback, nat>, track: nat, clock: nat, us: nat)
    requires TrackTimer(track) !in p
    ensures Extends(p, p[TrackTimer(track) := clock + us], clock) && Extends(p, p, clock)
  {}

  lemma RestartExtends(p: map<Callback, nat>, clock: nat)
    requires RestartSong !in p
    ensures Extends(p, p[RestartSong := clock + RESTART_DELAY], clock)
  {}

  // ---------- The record of invocations ----------

  /** Invocations in deadline order, none before its deadline, none after the present. */
  ghost predicate InOrder(log: seq<Firing>, clock: nat) {
    && (forall i | 0 <= i < |log| :: log[i].deadline <= log[i].clock <= clock)
    && (forall i, j | 0 <= i < j < |log| :: log[i].deadline <= log[j].deadline && log[i].clock <= log[j].clock)
  }

  /** Whatever is still pending is due no earlier than anything invoked. */
  ghost predicate AfterLog(log: seq<Firing>, pending: map<Callback, nat>) {
    forall i, c | 0 <= i < |log| && c in pending :: log[i].deadline <= pending[c]
  }

  /** Less than one sample late. */
  predicate Prompt(f: Firing, freq: nat) {
    (f.clock - f.deadline) * freq < OPL_SECOND
  }

  ghost predicate AllPrompt(log: seq<Firing>, freq: nat) {
    forall i | 0 <= i < |log| :: Prompt(log[i], freq)
  }

  predicate AtMostOneRestart(log: seq<Firing>) {
    forall i, j | 0 <= i < j < |log| :: log[i].callback.RestartSong? ==> !log[j].callback.RestartSong?
  }

  lemma FiringKeepsOrder(log: seq<Firing>, pending: map<Callback, nat>, after: map<Callback, nat>, c: Callback,
                      clock: nat)
    requires InOrder(log, clock) && AfterLog(log, pending)
    requires c in pending && pending[c] <= clock && AllFrom(pending, pending[c]) && Extends(pending - {c}, after, clock)
    ensures InOrder(log + [Firing(c, pending[c], clock)], clock)
    ensures AfterLog(log + [Firing(c, pending[c], clock)], after)
  {
    var next := log + [Firing(c, pending[c], clock)];
    forall i, d | 0 <= i < |next| && d in after
      ensures next[i].deadline <= after[d]
    {
      if d in pending - {c} {
        assert pending[c] <= pending[d] == after[d];
      }
    }
  }

  /** The pending callbacks just after callback c was taken out of the queue. */
  ghost predicate Popped(pending: map<Callback, nat>, c: Callback, running: nat, num_tracks: nat) {
    c !in pending && SongPending(pending[c := 0], running, num_tracks)
  }

  lemma KeysWithout(pending: map<Callback, nat>, c: Callback)
    requires c in pending
    ensures (pending - {c})[c := 0].Keys == pending.Keys && (pending - {c}).Keys == pending.Keys - {c}
    ensures |(pending - {c}).Keys| == |pending.Keys| - 1
  {
    assert (pending - {c}).Keys == pending.Keys - {c};
  }

  lemma TakenOut(pending: map<Callback, nat>, c: Callback, running: nat, num_tracks: nat)
    requires SongPending(pending, running, num_tracks) && c in pending
    ensures Popped(pending - {c}, c, running, num_tracks) && SongPending(pending - {c}, running, num_tracks)
    ensures c.TrackTimer? ==> RestartSong !in pending
  {
    KeysWithout(pending, c);
    var rest := pending - {c};
    assert forall d: Callback | d in rest[c := 0] :: d in pending.Keys;
    if RestartSong in pending {
      assert c in pending.Keys;
    }
  }

  /** With its own timer taken out, the track still counts as running. */
  lemma PoppedTimer(pending: map<Callback, nat>, track: nat, running: nat, num_tracks: nat)
    requires Popped(pending, TrackTimer(track), running, num_tracks)
    ensures track < num_tracks && running > 0 && RestartSong !in pending && TrackTimer(track) !in pending
    ensures SongPending(pending, running - 1, num_tracks) && SongPending(pending, running, num_tracks)
  {
    var all := pending[TrackTimer(track) := 0];
    assert TrackTimer(track) in all && all.Keys == pending.Keys + {TrackTimer(track)};
    forall d: Callback | d in pending
      ensures d.TrackTimer? ==> d.track < num_tracks
    {
      assert d in all;
    }
  }

  lemma TimerAdded(pending: map<Callback, nat>, track: nat, running: nat, num_tracks: nat, time: nat)
    requires Popped(pending, TrackTimer(track), running, num_tracks)
    ensures SongPending(pending[TrackTimer(track) := time], running, num_tracks)
  {
    PoppedTimer(pending, track, running, num_tracks);
    var all, more := pending[TrackTimer(track) := 0], pending[TrackTimer(track) := time];
    assert all.Keys == more.Keys;
  }

  lemma SetAgain(pending: map<Callback, nat>, track: nat, running: nat, num_tracks: nat, clock: nat, us: nat)
    requires Popped(pending, TrackTimer(track), running, num_tracks)
    ensures var p := Added(pending, TrackTimer(track), clock + us);
            SongPending(p, running, num_tracks) && Extends(pending, p, clock)
  {
    hide SongPending, Popped, Extends;
    PoppedTimer(pending, track, running, num_tracks);
    TimerAdded(pending, track, running, num_tracks, clock + us);
    TimerExtends(pending, track, clock, us);
    AddedOrNot(pending, TrackTimer(track), clock + us);
  }

  lemma NoneLeft(pending: map<Callback, nat>, num_tracks: nat, time: nat)
    requires RestartSong !in pending && SongPending(pending, 0, num_tracks)
    ensures pending == map[] && SongPending(pending[RestartSong := time], 0, num_tracks)
  {
    assert pending.Keys == {};
    assert pending[RestartSong := time].Keys == {RestartSong};
  }

  lemma OnlyRestart(pending: map<Callback, nat>, running: nat, num_tracks: nat)
    requires Popped(pending, RestartSong, running, num_tracks)
    ensures pending == map[]
  {
    var all := pending[RestartSong := 0];
    assert RestartSong in all && all.Keys == {RestartSong} && all.Keys == pending.Keys + {RestartSong};
    assert pending.Keys == {};
  }

  /** While the tracks are being started: timers of the first n tracks, as many as the queue can hold. */
  ghost predicate StartedBelow(pending: map<Callback, nat>, n: nat) {
    && |pending| == |pending.Keys| == (if n < MAX_OPL_QUEUE then n else MAX_OPL_QUEUE)
    && forall c | c in pending :: c.TrackTimer? && c.track < n
  }

  lemma StartedMore(pending: map<Callback, nat>, n: nat, time: nat)
    requires StartedBelow(pending, n)
    ensures TrackTimer(n) !in pending && (|pending| < MAX_OPL_QUEUE <==> n < MAX_OPL_QUEUE)
    ensures StartedBelow(Added(pending, TrackTimer(n), time), n + 1)
  {
    assert pending[TrackTimer(n) := time].Keys == pending.Keys + {TrackTimer(n)};
    SizeOf(pending[TrackTimer(n) := time]);
  }

  lemma SizeOf(pending: map<Callback, nat>)
    ensures |pending| == |pending.Keys|
  {}

  lemma StartedAll(pending: map<Callback, nat>, n: nat)
    requires StartedBelow(pending, n)
    ensures SongPending(pending, n, n) && RestartSong !in pending
  {}

  ghost function RestartDue(pending: map<Callback, nat>, clock: nat): nat {
    if RestartSong in pending && pending[RestartSong] <= clock then 1 else 0
  }

  lemma OneFewer(pending: map<Callback, nat>, c: Callback)
    requires c in pending
    ensures |pending - {c}| == |pending| - 1
  {
    assert pending.Keys == (pending - {c}).Keys + {c};
    assert |(pending - {c}).Keys| == |pending - {c}| && |pending.Keys| == |pending|;
  }

  lemma OneMore(pending: map<Callback, nat>, c: Callback, time: nat)
    requires c !in pending
    ensures |pending[c := time]| == |pending| + 1
  {
    var more := pending[c := time];
    assert more.Keys == pending.Keys + {c};
    SizeOf(pending);
    SizeOf(more);
  }

  lemma AgreesEmpty(contents: multiset<Entry<Callback>>, pending: map<Callback, nat>)
    requires Agrees(contents, pending)
    ensures contents == multiset{} <==> pending == map[]
  {
    if c :| c in pending {
      assert contents[Entry(c, pending[c])] == 1;
    }
    if e :| e in contents {
      assert e.data in pending;
    }
  }

  lemma LaterStillInOrder(log: seq<Firing>, clock: nat, later: nat)
    requires InOrder(log, clock) && clock <= later
    ensures InOrder(log, later)
  {}

  /** Iterators at the beginning of n tracks. */
  function Rewound(n: nat): (positions: seq<nat>)
    ensures |positions| == n && forall i | 0 <= i < n :: positions[i] == 0
  {
    if n == 0 then [] else Rewound(n - 1) + [0]
  }

  /** Microseconds before the event at position; none is left at the end. */
  function EventDelay(events: seq<MidiEvent>, position: nat, us_per_beat: nat, ticks_per_beat: nat): (us: nat)
    requires ticks_per_beat > 0
  {
    var nticks := if position < |events| then events[position].delta_time else 0;
    nticks * us_per_beat / ticks_per_beat
  }

  /** A beat of ticks takes a beat of time, and in general the delay is rounded down to a microsecond. */
  lemma DelayFacts(events: seq<MidiEvent>, position: nat, us_per_beat: nat, ticks_per_beat: nat, beats: nat)
    requires ticks_per_beat > 0
    ensures var us := EventDelay(events, position, us_per_beat, ticks_per_beat);
            if position < |events| then
              var nticks := events[position].delta_time;
              && us * ticks_per_beat <= nticks * us_per_beat < (us + 1) * ticks_per_beat
              && (nticks == beats * ticks_per_beat ==> us == beats * us_per_beat)
            else us == 0
  {
    if position < |events| {
      var nticks := events[position].delta_time;
      var product := nticks * us_per_beat;
      var us := EventDelay(events, position, us_per_beat, ticks_per_beat);
      FloorReaches(product, ticks_per_beat, us);
      FloorReaches(product, ticks_per_beat, us + 1);
      if nticks == beats * ticks_per_beat {
        assert product == beats * us_per_beat * ticks_per_beat;
        FloorReaches(product, ticks_per_beat, beats * us_per_beat);
        FloorReaches(product, ticks_per_beat, beats * us_per_beat + 1);
      }
    } else {
      ZeroDelay(us_per_beat, ticks_per_beat);
    }
  }

  lemma ZeroDelay(us_per_beat: nat, ticks_per_beat: nat)
    requires ticks_per_beat > 0
    ensures 0 * us_per_beat / ticks_per_beat == 0
  {}

  /** Timers of the first n tracks, as many as the queue can hold, each due when its first event is. */
  ghost predicate StartedAt(pending: map<Callback, nat>, n: nat, song: seq<seq<MidiEvent>>, clock: nat,
                      us_per_beat: nat, ticks_per_beat: nat)
    requires ticks_per_beat > 0 && n <= |song|
  {
    && (forall c | c in pending ::
          c.TrackTimer? && c.track < n && pending[c] == clock + EventDelay(song[c.track], 0, us_per_beat, ticks_per_beat))
    && forall i: nat | i < n && i < MAX_OPL_QUEUE :: TrackTimer(i) in pending
  }

  lemma StartedOneMore(pending: map<Callback, nat>, n: nat, song: seq<seq<MidiEvent>>, clock: nat, us_per_beat: nat,
                      ticks_per_beat: nat)
    requires ticks_per_beat > 0 && n < |song| && StartedAt(pending, n, song, clock, us_per_beat, ticks_per_beat)
    requires |pending| < MAX_OPL_QUEUE <==> n < MAX_OPL_QUEUE
    ensures var due := clock + EventDelay(song[n], 0, us_per_beat, ticks_per_beat);
            StartedAt(Added(pending, TrackTimer(n), due), n + 1, song, clock, us_per_beat, ticks_per_beat)
  {
    hide EventDelay;
  }

  lemma StartedExtends(pending: map<Callback, nat>, song: seq<seq<MidiEvent>>, clock: nat, us_per_beat: nat,
                      ticks_per_beat: nat)
    requires ticks_per_beat > 0 && StartedAt(pending, |song|, song, clock, us_per_beat, ticks_per_beat)
    ensures Extends(map[], pending, clock) && RestartSong !in pending
  {
    hide EventDelay;
  }

  lemma StartNothing(song: seq<seq<MidiEvent>>, clock: nat, us_per_beat: nat, ticks_per_beat: nat)
    requires ticks_per_beat > 0
    ensures StartedBelow(map[], 0) && StartedAt(map[], 0, song, clock, us_per_beat, ticks_per_beat)
  {}

  lemma StartedInTime(pending: map<Callback, nat>, song: seq<seq<MidiEvent>>, log: seq<Firing>, clock: nat,
                      us_per_beat: nat, ticks_per_beat: nat)
    requires ticks_per_beat > 0 && StartedAt(pending, |song|, song, clock, us_per_beat, ticks_per_beat)
    requires InOrder(log, clock)
    ensures AllFrom(pending, clock) && AfterLog(log, pending)
  {}

  /** What one round of the loop in AdvanceTime keeps. */
  ghost predicate Advancing(old_log: seq<Firing>, log: seq<Firing>, pending: map<Callback, nat>, clock: nat,
                      earliest: nat) {
    && |old_log| <= |log| && log[..|old_log|] == old_log
    && AtMostOneRestart(log[|old_log|..])
    && (forall c | c in pending :: earliest <= pending[c] || clock <= pending[c])
    && (forall i | |old_log| <= i < |log| ::
          && log[i].clock == clock && (earliest <= log[i].deadline || log[i].deadline == clock)
          && (log[i].callback.RestartSong? ==> RestartDue(pending, clock) == 0))
  }

  lemma StartsAdvancing(log: seq<Firing>, pending: map<Callback, nat>, clock: nat, earliest: nat)
    requires AllFrom(pending, earliest)
    ensures Advancing(log, log, pending, clock, earliest)
  {}

  lemma RoundKeepsAdvancing(old_log: seq<Firing>, log: seq<Firing>, pending: map<Callback, nat>, c: Callback,
                            after: map<Callback, nat>, clock: nat, earliest: nat)
    requires Advancing(old_log, log, pending, clock, earliest)
    requires c in pending && pending[c] <= clock && Extends(pending - {c}, after, clock)
    requires c.RestartSong? ==> RestartSong !in after
    requires c.TrackTimer? ==> RestartSong !in pending
    ensures Advancing(old_log, log + [Firing(c, pending[c], clock)], after, clock, earliest)
    ensures RestartDue(after, clock) <= RestartDue(pending, clock)
    ensures c.RestartSong? ==> RestartDue(after, clock) < RestartDue(pending, clock)
  {
    var n := |old_log|;
    var next := log + [Firing(c, pending[c], clock)];
    assert next[n..] == log[n..] + [Firing(c, pending[c], clock)];
    forall i, j | 0 <= i < j < |next[n..]|
      ensures next[n..][i].callback.RestartSong? ==> !next[n..][j].callback.RestartSong?
    {
      assert i < |log[n..]| ==> log[n + i] == log[n..][i];
    }
  }

  lemma NothingLate(log: seq<Firing>, freq: nat)
    ensures AllPrompt(log[|log|..], freq)
  {}

  /** The invocations of one AdvanceTime are prompt if the earliest deadline was. */
  lemma MorePrompt(start: seq<Firing>, before: seq<Firing>, after: seq<Firing>, clock: nat, earliest: nat, freq: nat)
    requires |start| <= |before| && before[..|start|] == start && AllPrompt(before[|start|..], freq)
    requires |before| <= |after| && after[..|before|] == before && InOrder(after, clock)
    requires (clock - earliest) * freq < OPL_SECOND
    requires forall i | |before| <= i < |after| ::
               after[i].clock == clock && (earliest <= after[i].deadline || after[i].deadline == clock)
    ensures after[..|start|] == start && AllPrompt(after[|start|..], freq)
  {
    var n := |start|;
    forall k | 0 <= k < |after[n..]|
      ensures Prompt(after[n..][k], freq)
    {
      var i := n + k;
      assert after[n..][k] == after[i];
      if i < |before| {
        assert after[i] == after[..|before|][i] == before[i] == before[n..][k];
      } else if earliest <= after[i].deadline {
        Scaled(clock - after[i].deadline, clock - earliest, freq);
      }
    }
  }

  lemma Scaled(x: int, y: int, freq: nat)
    requires x <= y
    ensures x * freq <= y * freq
  {}

  lemma DueAt(pending: map<Callback, nat>, time: nat)
    requires FirstAt(pending, time)
    ensures forall t: nat | time < t :: !AllFrom(pending, t)
  {}

  // ---------- Rounds with tempo events ----------

  /** What matters for how long AdvanceTime goes on: the pending callbacks, the events not yet read, and running_tracks. */
  datatype SongState = SongState(pending: map<Callback, nat>, unread: nat, running: nat)

  /** What invoking a callback can do, after it was taken out of the queue: a timer reads at most one event and comes back at
      most once, the end of the last track sets a restart, and a restart starts every track. The deadlines of timers
      can be anything: a tempo event moves all that are pending. */
  ghost predicate Outcome(s: SongState, t: SongState, c: Callback, clock: nat, total: nat, num_tracks: nat) {
    && SongPending(t.pending, t.running, num_tracks)
    && match c
       case TrackTimer(_) =>
         if t.unread == s.unread then t.pending.Keys == s.pending.Keys
         else
           && t.unread + 1 == s.unread
           && (|| t.pending.Keys == s.pending.Keys
               || t.pending.Keys == s.pending.Keys + {c}
               || (t.pending.Keys == s.pending.Keys + {RestartSong} && t.pending[RestartSong] == clock + RESTART_DELAY))
       case RestartSong => t.unread == total && t.running == num_tracks && RestartSong !in t.pending
  }

  /** A round of the loop in AdvanceTime. */
  ghost predicate Fires(s: SongState, t: SongState, c: Callback, clock: nat, total: nat, num_tracks: nat) {
    c in s.pending && s.pending[c] <= clock && Outcome(s.(pending := s.pending - {c}), t, c, clock, total, num_tracks)
  }

  /** Rounds one after the other, at the same time. */
  ghost predicate AreRounds(states: seq<SongState>, fired: seq<Callback>, clock: nat, total: nat, num_tracks: nat) {
    && |states| == |fired| + 1 && SongPending(states[0].pending, states[0].running, num_tracks)
    && forall k | 0 <= k < |fired| :: Fires(states[k], states[k + 1], fired[k], clock, total, num_tracks)
  }

  function Restarts(fired: seq<Callback>): nat {
    if fired == [] then 0 else Restarts(fired[..|fired| - 1]) + if fired[|fired| - 1].RestartSong? then 1 else 0
  }

  /** How many rounds there can still be. */
  ghost function RoundsLeft(s: SongState, clock: nat, total: nat, num_tracks: nat): nat {
    s.unread + |s.pending.Keys| + if RestartDue(s.pending, clock) == 1 then 1 + total + num_tracks else 0
  }

  lemma TimerShrinks(s: SongState, t: SongState, c: Callback, clock: nat, total: nat, num_tracks: nat)
    requires Fires(s, t, c, clock, total, num_tracks) && c.TrackTimer? && RestartSong !in s.pending
    ensures RoundsLeft(t, clock, total, num_tracks) < RoundsLeft(s, clock, total, num_tracks)
    ensures RestartDue(t.pending, clock) == RestartDue(s.pending, clock) == 0
  {
    hide SongPending;
    var rest := s.pending - {c};
    assert s.pending.Keys == rest.Keys + {c} && c !in rest.Keys;
    if RestartSong in t.pending {
      assert RestartSong in t.pending.Keys;
    }
  }

  lemma RestartShrinks(s: SongState, t: SongState, clock: nat, total: nat, num_tracks: nat)
    requires Fires(s, t, RestartSong, clock, total, num_tracks)
    ensures RoundsLeft(t, clock, total, num_tracks) < RoundsLeft(s, clock, total, num_tracks)
    ensures RestartDue(t.pending, clock) == 0 && RestartDue(s.pending, clock) == 1
  {}

  lemma NoRestartWithTimers(pending: map<Callback, nat>, running: nat, num_tracks: nat, c: Callback)
    requires SongPending(pending, running, num_tracks) && c in pending && c.TrackTimer?
    ensures RestartSong !in pending
  {
    assert c in pending.Keys;
  }

  lemma RoundShrinks(s: SongState, t: SongState, c: Callback, clock: nat, total: nat, num_tracks: nat)
    requires Fires(s, t, c, clock, total, num_tracks) && SongPending(s.pending, s.running, num_tracks)
    ensures RoundsLeft(t, clock, total, num_tracks) < RoundsLeft(s, clock, total, num_tracks)
    ensures RestartDue(t.pending, clock) + (if c.RestartSong? then 1 else 0) <= RestartDue(s.pending, clock)
    ensures SongPending(t.pending, t.running, num_tracks)
  {
    hide SongPending, RoundsLeft;
    if c.TrackTimer? {
      NoRestartWithTimers(s.pending, s.running, num_tracks, c);
      TimerShrinks(s, t, c, clock, total, num_tracks);
    } else {
      RestartShrinks(s, t, clock, total, num_tracks);
    }
  }

  /** Even if tempo events move the deadlines of all timers in any way, AdvanceTime ends for every song: the number of
      rounds is bounded from the start, and at most one of them restarts the song. */
  lemma {:induction false} RoundsAreBounded(states: seq<SongState>, fired: seq<Callback>, clock: nat, total: nat,
                      num_tracks: nat)
    requires AreRounds(states, fired, clock, total, num_tracks)
    ensures |fired| + RoundsLeft(states[|fired|], clock, total, num_tracks) <= RoundsLeft(states[0], clock, total, num_tracks)
    ensures Restarts(fired) + RestartDue(states[|fired|].pending, clock) <= RestartDue(states[0].pending, clock)
    ensures SongPending(states[|fired|].pending, states[|fired|].running, num_tracks)
  {
    hide RoundsLeft, RestartDue, SongPending, Outcome;
    if fired != [] {
      var n := |fired| - 1;
      var before := states[..n + 1];
      RoundsAreBounded(before, fired[..n], clock, total, num_tracks);
      assert Fires(states[n], states[n + 1], fired[n], clock, total, num_tracks);
      RoundShrinks(states[n], states[n + 1], fired[n], clock, total, num_tracks);
    }
  }

  // ---------- What the rounds do ----------

  /** The song that is played. */
  datatype Score = Score(tracks: seq<seq<MidiEvent>>, looping: bool, us_per_beat: nat, ticks_per_beat: nat)

  /** Where the player is in it. */
  datatype Place = Place(pending: map<Callback, nat>, positions: seq<nat>, running: nat)

  /** What a callback does, once it is taken out of the queue: a timer reads the next event of its track, counts the track
      out or sets itself again, and when the last track has ended a looping song is set to start again. */
  ghost predicate Effect(song: Score, s: Place, t: Place, c: Callback, clock: nat)
    requires song.ticks_per_beat > 0
  {
    match c
    case TrackTimer(track) =>
      && track < |song.tracks| == |s.positions|
      && var events, position := song.tracks[track], s.positions[track];
         if position >= |events| then t == s
         else
           && s.running > 0 && t.positions == s.positions[track := position + 1]
           && t.running == s.running - (if events[position].is_end then 1 else 0)
           && t.pending == if !events[position].is_end then
                             Added(s.pending, c, clock + EventDelay(events, position + 1, song.us_per_beat, song.ticks_per_beat))
                           else if t.running == 0 && song.looping then Added(s.pending, RestartSong, clock + RESTART_DELAY)
                           else s.pending
    case RestartSong =>
      && t.running == |song.tracks| && t.positions == Rewound(|song.tracks|)
      && StartedAt(t.pending, |song.tracks|, song.tracks, clock, song.us_per_beat, song.ticks_per_beat)
  }

  /** In terms of how long AdvanceTime goes on. */
  lemma EffectOutcome(song: Score, s: Place, t: Place, c: Callback, clock: nat)
    requires song.ticks_per_beat > 0 && Effect(song, s, t, c, clock)
    requires InRange(song.tracks, s.positions) && InRange(song.tracks, t.positions)
    requires SongPending(t.pending, t.running, |song.tracks|) && (c.RestartSong? ==> RestartSong !in t.pending)
    ensures var n := |song.tracks|;
            var unread, left := Remaining(song.tracks, s.positions, n), Remaining(song.tracks, t.positions, n);
            && Outcome(SongState(s.pending, unread, s.running), SongState(t.pending, left, t.running), c, clock,
                EventCount(song.tracks, n), n)
            && (c.TrackTimer? ==> left < unread || (left == unread && t.pending == s.pending))
  {
    hide Remaining, EventCount, SongPending, EventDelay, StartedAt, Added;
    match c {
      case TrackTimer(track) =>
        var events, position := song.tracks[track], s.positions[track];
        if position < |events| {
          ReadingOneEvent(song.tracks, s.positions, |song.tracks|, track);
          AddedOrNot(s.pending, c, clock + EventDelay(events, position + 1, song.us_per_beat, song.ticks_per_beat));
          AddedOrNot(s.pending, RestartSong, clock + RESTART_DELAY);
        }
      case RestartSong =>
        RewoundUnread(song.tracks, t.positions, |song.tracks|);
    }
  }

  ghost predicate Round(song: Score, s: Place, t: Place, f: Firing)
    requires song.ticks_per_beat > 0
  {
    && f.callback in s.pending && f.deadline == s.pending[f.callback]
    && Effect(song, s.(pending := s.pending - {f.callback}), t, f.callback, f.clock)
  }

  /** The recorded invocations led from place to place. */
  ghost predicate Rounds(song: Score, places: seq<Place>, fired: seq<Firing>)
    requires song.ticks_per_beat > 0
  {
    |places| == |fired| + 1 && forall k | 0 <= k < |fired| :: Round(song, places[k], places[k + 1], fired[k])
  }

  lemma NoRounds(song: Score, s: Place)
    requires song.ticks_per_beat > 0
    ensures Rounds(song, [s], [])
  {}

  lemma RoundsJoin(song: Score, places: seq<Place>, fired: seq<Firing>, more: seq<Place>, then_fired: seq<Firing>)
    requires song.ticks_per_beat > 0 && Rounds(song, places, fired) && Rounds(song, more, then_fired)
    requires places[|fired|] == more[0]
    ensures Rounds(song, places + more[1..], fired + then_fired)
    ensures (places + more[1..])[0] == places[0] && (places + more[1..])[|fired + then_fired|] == more[|then_fired|]
  {
    hide Round;
    var all, f := places + more[1..], fired + then_fired;
    forall k | 0 <= k < |f|
      ensures Round(song, all[k], all[k + 1], f[k])
    {
      if k < |fired| {
        assert all[k] == places[k] && all[k + 1] == places[k + 1];
      } else {
        assert all[k] == more[k - |fired|] && all[k + 1] == more[k - |fired| + 1];
      }
    }
  }

  lemma OneMoreRound(song: Score, places: seq<Place>, fired: seq<Firing>, t: Place, f: Firing)
    requires song.ticks_per_beat > 0 && Rounds(song, places, fired) && Round(song, places[|fired|], t, f)
    ensures Rounds(song, places + [t], fired + [f])
  {
    hide Round;
    var more := [places[|fired|], t];
    assert more[1..] == [t];
    RoundsJoin(song, places, fired, more, [f]);
  }

  lemma LogGrows(log: seq<Firing>, before: seq<Firing>, after: seq<Firing>)
    requires |log| <= |before| <= |after| && before[..|log|] == log && after[..|before|] == before
    ensures after[|log|..] == before[|log|..] + after[|before|..] && after[..|log|] == log
  {}

  // ---------- How long the chunks of a buffer last ----------

  function Samples(chunks: seq<nat>): nat {
    if chunks == [] then 0 else Samples(chunks[..|chunks| - 1]) + chunks[|chunks| - 1]
  }

  function Elapsed(chunks: seq<nat>, freq: nat): nat
    requires freq > 0
  {
    if chunks == [] then 0 else Elapsed(chunks[..|chunks| - 1], freq) + Duration(chunks[|chunks| - 1], freq)
  }

  /** The part of it that was not paused. */
  function ElapsedUnpaused(chunks: seq<nat>, freq: nat, pausing: nat -> bool): nat
    requires freq > 0
  {
    if chunks == [] then 0
    else ElapsedUnpaused(chunks[..|chunks| - 1], freq, pausing)
         + if pausing(|chunks| - 1) then 0 else Duration(chunks[|chunks| - 1], freq)
  }

  lemma OneMoreChunk(chunks: seq<nat>, n: nat, freq: nat, pausing: nat -> bool)
    requires freq > 0
    ensures Samples(chunks + [n]) == Samples(chunks) + n
    ensures Elapsed(chunks + [n], freq) == Elapsed(chunks, freq) + Duration(n, freq)
    ensures ElapsedUnpaused(chunks + [n], freq, pausing)
            == ElapsedUnpaused(chunks, freq, pausing) + if pausing(|chunks|) then 0 else Duration(n, freq)
  {
    assert (chunks + [n])[..|chunks|] == chunks;
    hide Duration;
  }

  /** The clock never runs ahead of the samples, and every chunk loses less than a microsecond to rounding. */
  lemma {:induction false} ElapsedBounds(chunks: seq<nat>, freq: nat, pausing: nat -> bool)
    requires freq > 0
    ensures Elapsed(chunks, freq) * freq <= Samples(chunks) * OPL_SECOND <= (Elapsed(chunks, freq) + |chunks|) * freq
    ensures ElapsedUnpaused(chunks, freq, pausing) <= Elapsed(chunks, freq)
    ensures (forall k: nat :: pausing(k)) ==> ElapsedUnpaused(chunks, freq, pausing) == 0
    ensures (forall k: nat :: !pausing(k)) ==> ElapsedUnpaused(chunks, freq, pausing) == Elapsed(chunks, freq)
  {
    if chunks != [] {
      var front, n := chunks[..|chunks| - 1], chunks[|chunks| - 1];
      ElapsedBounds(front, freq, pausing);
      var d := Duration(n, freq);
      FloorReaches(n * OPL_SECOND, freq, d);
      FloorReaches(n * OPL_SECOND, freq, d + 1);
      hide Duration;
      ChunkBounds(Elapsed(front, freq), Samples(front), |front|, d, n, freq);
    }
  }

  lemma ChunkBounds(elapsed: nat, samples: nat, k: nat, d: nat, n: nat, freq: nat)
    requires elapsed * freq <= samples * OPL_SECOND <= (elapsed + k) * freq
    requires d * freq <= n * OPL_SECOND <= (d + 1) * freq
    ensures (elapsed + d) * freq <= (samples + n) * OPL_SECOND <= (elapsed + d + (k + 1)) * freq
  {
    assert (elapsed + d) * freq == elapsed * freq + d * freq;
    assert (elapsed + d + (k + 1)) * freq == (elapsed + k) * freq + (d + 1) * freq;
  }

  /** Events of the first n tracks. */
  function EventCount(tracks: seq<seq<MidiEvent>>, n: nat): nat
    requires n <= |tracks|
  {
    if n == 0 then 0 else EventCount(tracks, n - 1) + |tracks[n - 1]|
  }

  lemma {:induction false} RewoundUnread(tracks: seq<seq<MidiEvent>>, positions: seq<nat>, n: nat)
    requires InRange(tracks, positions) && n <= |tracks| && forall i | 0 <= i < |tracks| :: positions[i] == 0
    ensures Remaining(tracks, positions, n) == EventCount(tracks, n)
  {
    if n > 0 {
      RewoundUnread(tracks, positions, n - 1);
    }
  }

  class Player {
    const mixing_freq: nat
    const queue: CallbackQueue<Callback>
    var current_time: nat
    var pause_offset: nat
    var opl_sdl_paused: bool
    var chip_clock: nat

    var tracks: seq<seq<MidiEvent>>
    var positions: seq<nat>
    var running_tracks: nat
    var song_looping: bool
    var us_per_beat: nat
    var ticks_per_beat: nat

    ghost var pending: map<Callback, nat>
    ghost var log: seq<Firing>

    /** current_time - pause_offset: stands still while paused. */
    ghost function Clock(): nat
      requires pause_offset <= current_time
      reads this`current_time, this`pause_offset
    {
      current_time - pause_offset
    }

    ghost predicate SongValid()
      reads this`tracks, this`positions, this`ticks_per_beat
    {
      ticks_per_beat > 0 && |positions| == |tracks| && InRange(tracks, positions)
    }

    ghost predicate QueueValid()
      reads this`pending, queue, queue.entries
    {
      queue.Valid() && Agrees(queue.Contents(), pending) && queue.num_entries == |pending|
    }

    ghost function Unread(): nat
      requires SongValid()
      reads this`tracks, this`positions, this`ticks_per_beat
    {
      Remaining(tracks, positions, |tracks|)
    }

    /** Holds whenever a callback runs. */
    ghost predicate Running()
      reads this, queue, queue.entries
    {
      && mixing_freq > 0 && pause_offset <= current_time
      && SongValid() && QueueValid() && SongPending(pending, running_tracks, |tracks|)
    }

    /** Holds between calls: nothing pending is overdue, and the invocations so far came in order. */
    ghost predicate Valid()
      reads this, queue, queue.entries
    {
      && Running()
      && AllFrom(pending, Clock()) && InOrder(log, Clock()) && AfterLog(log, pending)
    }

    constructor (freq: nat)
      requires freq > 0
      ensures Valid() && mixing_freq == freq && log == [] && current_time == 0 && pending == map[]
      ensures fresh(queue) && fresh(queue.entries)
    {
      mixing_freq := freq;
      queue := new CallbackQueue<Callback>();
      current_time, pause_offset, opl_sdl_paused, chip_clock := 0, 0, false, 0;
      tracks, positions, running_tracks, song_looping := [], [], 0, false;
      us_per_beat, ticks_per_beat := 500_000, 1;
      pending, log := map[], [];
    }

    method SetPaused(paused: bool)
      modifies this`opl_sdl_paused
      ensures opl_sdl_paused == paused
    {
      opl_sdl_paused := paused;
    }

    /** OPL_SDL_SetCallback: due us microseconds from now on the virtual clock. A full queue drops it. */
    method SetCallback(us: nat, callback: Callback)
      requires pause_offset <= current_time && QueueValid() && callback !in pending
      modifies this`pending, queue, queue.entries
      ensures QueueValid() && pending == Added(old(pending), callback, Clock() + us)
    {
      hide Agrees, IsHeap, Elements;
      OneMore(pending, callback, current_time - pause_offset + us);
      AgreesPush(queue.Contents(), pending, Entry(callback, current_time - pause_offset + us));
      if queue.num_entries < MAX_OPL_QUEUE {
        pending := pending[callback := current_time - pause_offset + us];
      }
      queue.Push(callback, current_time - pause_offset + us);
    }

    method ClearCallbacks()
      requires Valid()
      modifies this`pending, queue
      ensures Valid() && pending == map[]
    {
      queue.Clear();
      pending := map[];
    }

    ghost function NextDelay(track: nat): nat
      requires SongValid() && track < |tracks|
      reads this`tracks, this`positions, this`ticks_per_beat, this`us_per_beat
    {
      EventDelay(tracks[track], positions[track], us_per_beat, ticks_per_beat)
    }

    method ScheduleTrack(track: nat)
      requires pause_offset <= current_time && SongValid() && QueueValid()
      requires track < |tracks| && TrackTimer(track) !in pending
      modifies this`pending, queue, queue.entries
      ensures QueueValid() && pending == Added(old(pending), TrackTimer(track), Clock() + NextDelay(track))
    {
      hide QueueValid, Added, EventDelay, InRange;
      var us := UntilNext(track);
      SetCallback(us, TrackTimer(track));
    }

    /** The number of microseconds until the next event. */
    method UntilNext(track: nat) returns (us: nat)
      requires SongValid() && track < |tracks|
      ensures us == NextDelay(track)
    {
      var nticks := if positions[track] < |tracks[track]| then tracks[track][positions[track]].delta_time else 0;
      us := nticks * us_per_beat / ticks_per_beat;
    }

    /** The callback for the next event of a track: at the end of the track it counts the track out and,
        for the last one of a looping song, schedules the restart; otherwise it schedules itself again. */
    method TrackTimerCallback(track: nat)
      requires Running() && Popped(pending, TrackTimer(track), running_tracks, |tracks|)
      modifies this`pending, this`positions, this`running_tracks, queue, queue.entries
      ensures Running() && Extends(old(pending), pending, Clock())
      ensures old(positions[track]) == |tracks[track]| ==>
                pending == old(pending) && positions == old(positions) && running_tracks == old(running_tracks)
      ensures old(positions[track]) < |tracks[track]| ==>
                && positions == old(positions)[track := old(positions[track]) + 1]
                && Unread() == old(Unread()) - 1
                && var event := tracks[track][old(positions[track])];
                   && running_tracks == old(running_tracks) - (if event.is_end then 1 else 0)
                   && pending == if event.is_end
                                 then if running_tracks == 0 && song_looping
                                      then Added(old(pending), RestartSong, Clock() + RESTART_DELAY) else old(pending)
                                 else Added(old(pending), TrackTimer(track), Clock() + NextDelay(track))
    {
      hide QueueValid, Remaining, SongPending, Popped, EventDelay, InRange, Extends, Added;
      PoppedTimer(pending, track, running_tracks, |tracks|);
      ExtendsItself(pending, Clock());
      if positions[track] >= |tracks[track]| {
        return;
      }
      var event := tracks[track][positions[track]];
      ReadingOneEvent(tracks, positions, |tracks|, track);
      positions := positions[track := positions[track] + 1];
      if event.is_end {
        EndOfTrack();
        return;
      }
      SetAgain(pending, track, running_tracks, |tracks|, Clock(), NextDelay(track));
      ScheduleTrack(track);
    }

    /** The end-of-track event counts the track out. */
    method EndOfTrack()
      requires pause_offset <= current_time && QueueValid() && running_tracks > 0 && RestartSong !in pending
      requires SongPending(pending, running_tracks - 1, |tracks|)
      modifies this`pending, this`running_tracks, queue, queue.entries
      ensures QueueValid() && SongPending(pending, running_tracks, |tracks|) && Extends(old(pending), pending, Clock())
      ensures running_tracks == old(running_tracks) - 1
      ensures pending == if running_tracks == 0 && song_looping
                         then Added(old(pending), RestartSong, Clock() + RESTART_DELAY) else old(pending)
    {
      hide QueueValid, SongPending, Extends, Added;
      ExtendsItself(pending, Clock());
      running_tracks := running_tracks - 1;
      if running_tracks <= 0 && song_looping {
        NoneLeft(pending, |tracks|, Clock() + RESTART_DELAY);
        RestartExtends(pending, Clock());
        AddedOrNot(pending, RestartSong, Clock() + RESTART_DELAY);
        SetCallback(RESTART_DELAY, RestartSong);
      }
    }

    /** The callback that starts a looping song again, from the beginning of every track. */
    method RestartSongCallback()
      requires Running() && Popped(pending, RestartSong, running_tracks, |tracks|)
      modifies this`pending, this`positions, this`running_tracks, queue, queue.entries
      ensures Running() && Extends(old(pending), pending, Clock())
      ensures running_tracks == |tracks| && RestartSong !in pending && positions == Rewound(|tracks|)
      ensures StartedAt(pending, |tracks|, tracks, Clock(), us_per_beat, ticks_per_beat)
    {
      hide QueueValid, Remaining, SongPending, Popped, EventDelay, StartedBelow, StartedAt, Extends, InRange, Rewound;
      OnlyRestart(pending, running_tracks, |tracks|);
      running_tracks := |tracks|;
      RewindTracks();
      StartedAll(pending, |tracks|);
      StartedExtends(pending, tracks, Clock(), us_per_beat, ticks_per_beat);
    }

    /** The loop of RestartSong: each track is rewound and scheduled. */
    method RewindTracks()
      requires pause_offset <= current_time && SongValid() && QueueValid() && pending == map[]
      modifies this`pending, this`positions, queue, queue.entries
      ensures SongValid() && QueueValid() && StartedBelow(pending, |tracks|) && positions == Rewound(|tracks|)
      ensures StartedAt(pending, |tracks|, tracks, Clock(), us_per_beat, ticks_per_beat)
    {
      hide QueueValid, EventDelay, StartedBelow, StartedAt, InRange, Rewound;
      StartNothing(tracks, Clock(), us_per_beat, ticks_per_beat);
      for i := 0 to |tracks|
        invariant SongValid() && QueueValid() && StartedBelow(pending, i)
        invariant StartedAt(pending, i, tracks, Clock(), us_per_beat, ticks_per_beat)
        invariant forall j | 0 <= j < i :: positions[j] == 0
      {
        RewindTrack(i);
      }
    }

    method RewindTrack(i: nat)
      requires pause_offset <= current_time && SongValid() && QueueValid() && i < |tracks|
      requires StartedBelow(pending, i) && StartedAt(pending, i, tracks, Clock(), us_per_beat, ticks_per_beat)
      modifies this`pending, this`positions, queue, queue.entries
      ensures SongValid() && QueueValid() && positions == old(positions)[i := 0]
      ensures StartedBelow(pending, i + 1) && StartedAt(pending, i + 1, tracks, Clock(), us_per_beat, ticks_per_beat)
    {
      hide QueueValid, EventDelay, StartedBelow, StartedAt, InRange, Added;
      AtTheStart(tracks, positions, i);
      positions := positions[i := 0];
      StartTrack(i);
    }

    /** Starts every track at its beginning, one after the other. */
    method StartTracks()
      requires pause_offset <= current_time && SongValid() && QueueValid() && pending == map[]
      requires positions == Rewound(|tracks|)
      modifies this`pending, queue, queue.entries
      ensures QueueValid() && StartedBelow(pending, |tracks|)
      ensures StartedAt(pending, |tracks|, tracks, Clock(), us_per_beat, ticks_per_beat)
    {
      hide QueueValid, StartedBelow, EventDelay, StartedAt, Rewound;
      StartNothing(tracks, Clock(), us_per_beat, ticks_per_beat);
      for i := 0 to |tracks|
        invariant QueueValid() && StartedBelow(pending, i)
        invariant StartedAt(pending, i, tracks, Clock(), us_per_beat, ticks_per_beat)
      {
        StartTrack(i);
      }
    }

    method StartTrack(i: nat)
      requires pause_offset <= current_time && SongValid() && QueueValid() && i < |tracks| && positions[i] == 0
      requires StartedBelow(pending, i) && StartedAt(pending, i, tracks, Clock(), us_per_beat, ticks_per_beat)
      modifies this`pending, queue, queue.entries
      ensures QueueValid() && StartedBelow(pending, i + 1)
      ensures StartedAt(pending, i + 1, tracks, Clock(), us_per_beat, ticks_per_beat)
    {
      hide QueueValid, EventDelay, StartedBelow, StartedAt, InRange, Added;
      StartedMore(pending, i, Clock() + NextDelay(i));
      StartedOneMore(pending, i, tracks, Clock(), us_per_beat, ticks_per_beat);
      ScheduleTrack(i);
    }

    /** I_OPL_PlaySong, after the callbacks of an earlier song were cleared. */
    method PlaySong(song: seq<seq<MidiEvent>>, time_division: nat, looping: bool)
      requires Valid() && time_division > 0 && pending == map[]
      modifies this`tracks, this`positions, this`running_tracks, this`song_looping, this`us_per_beat,
               this`ticks_per_beat
      modifies this`pending, queue, queue.entries
      ensures Valid() && tracks == song && song_looping == looping && ticks_per_beat == time_division
      ensures us_per_beat == 500_000
      ensures running_tracks == |song| && positions == Rewound(|song|)
      ensures StartedAt(pending, |song|, song, Clock(), us_per_beat, ticks_per_beat)
    {
      hide QueueValid, InOrder, AfterLog, SongPending, StartedBelow, EventDelay, StartedAt, AllFrom;
      tracks, running_tracks, song_looping := song, |song|, looping;
      ticks_per_beat, us_per_beat := time_division, 500 * 1000;
      positions := Rewound(|song|);
      StartTracks();
      StartedAll(pending, |song|);
      StartedInTime(pending, song, log, Clock(), us_per_beat, time_division);
    }

    ghost function TheScore(): Score
      reads this`tracks, this`song_looping, this`us_per_beat, this`ticks_per_beat
    {
      Score(tracks, song_looping, us_per_beat, ticks_per_beat)
    }

    ghost function ThePlace(): Place
      reads this`pending, this`positions, this`running_tracks
    {
      Place(pending, positions, running_tracks)
    }

    ghost function State(): SongState
      requires SongValid()
      reads this`pending, this`tracks, this`positions, this`ticks_per_beat, this`running_tracks
    {
      SongState(pending, Unread(), running_tracks)
    }

    method Invoke(callback: Callback)
      requires Running() && Popped(pending, callback, running_tracks, |tracks|)
      modifies this`pending, this`positions, this`running_tracks, queue, queue.entries
      ensures Running() && Extends(old(pending), pending, Clock())
      ensures Outcome(old(State()), State(), callback, Clock(), EventCount(tracks, |tracks|), |tracks|)
      ensures callback.RestartSong? ==> RestartSong !in pending
      ensures callback.TrackTimer? ==> Unread() < old(Unread()) || (Unread() == old(Unread()) && pending == old(pending))
      ensures Effect(TheScore(), old(ThePlace()), ThePlace(), callback, Clock())
    {
      hide QueueValid, Remaining, Popped, EventDelay, Extends, EventCount, SongPending, InRange, StartedAt, Added,
           Outcome, Rewound;
      ghost var before := ThePlace();
      match callback {
        case TrackTimer(track) =>
          TimerPopped(track);
          TrackTimerCallback(track);
        case RestartSong =>
          RestartSongCallback();
      }
      EffectOutcome(TheScore(), before, ThePlace(), callback, Clock());
    }

    lemma TimerPopped(track: nat)
      requires SongValid() && Popped(pending, TrackTimer(track), running_tracks, |tracks|)
      ensures track < |tracks| && positions[track] <= |tracks[track]| && running_tracks > 0
    {
      PoppedTimer(pending, track, running_tracks, |tracks|);
    }

    /** Whether something is due, and when the first callback is due. */
    method Look() returns (empty: bool, time: nat)
      requires QueueValid()
      ensures empty <==> pending == map[]
      ensures empty <==> queue.num_entries == 0
      ensures !empty ==> FirstAt(pending, time)
    {
      hide IsHeap, Elements;
      empty := queue.IsEmpty();
      time := queue.Peek();
      AgreesEmpty(queue.Contents(), pending);
      AgreesMinimum(queue.Contents(), pending, time);
      if !empty {
        AgreesPop(queue.Contents(), pending, queue.entries[0]);
      }
    }

    /** OPL_Queue_Pop, seen on the pending callbacks. */
    method Take() returns (ok: bool, callback: Callback)
      requires QueueValid()
      modifies this`pending, queue, queue.entries
      ensures QueueValid() && (ok <==> old(pending) != map[])
      ensures !ok ==> pending == old(pending)
      ensures ok ==> && callback in old(pending) && AllFrom(old(pending), old(pending)[callback])
                     && pending == old(pending) - {callback}
    {
      hide Agrees, IsHeap, Elements, AllFrom;
      ghost var e := if queue.num_entries > 0 then queue.entries[0] else Entry(RestartSong, 0);
      ghost var contents := queue.Contents();
      NothingPending(pending);
      ok, callback := queue.Pop();
      if ok {
        TakenFrom(contents, pending, e);
        pending := pending - {callback};
      }
    }

    /** One round of the loop in AdvanceTime: take out what is due first and invoke it. */
    method InvokeNext(ghost time: nat) returns (ghost c: Callback)
      requires Running() && pending != map[] && FirstAt(pending, time) && time <= Clock()
      requires InOrder(log, Clock()) && AfterLog(log, pending)
      modifies this`pending, this`positions, this`running_tracks, this`log, queue, queue.entries
      ensures Running() && InOrder(log, Clock()) && AfterLog(log, pending)
      ensures c in old(pending) && AllFrom(old(pending), old(pending)[c]) && old(pending)[c] <= Clock()
      ensures Extends(old(pending) - {c}, pending, Clock())
      ensures log == old(log) + [Firing(c, old(pending)[c], Clock())]
      ensures Fires(old(State()), State(), c, Clock(), EventCount(tracks, |tracks|), |tracks|)
      ensures c.RestartSong? ==> RestartSong !in pending
      ensures c.TrackTimer? ==> Unread() < old(Unread()) || (Unread() == old(Unread()) && pending == old(pending) - {c})
      ensures c.TrackTimer? ==> RestartSong !in old(pending)
      ensures Round(TheScore(), old(ThePlace()), ThePlace(), Firing(c, old(pending)[c], Clock()))
    {
      hide QueueValid, Remaining, InOrder, AfterLog, Extends, SongPending, Popped, AllFrom, FirstAt, Outcome,
           Effect, EventCount;
      var ok, callback := Take();
      c := callback;
      FirstIsFirst(old(pending), time, c);
      TakenOut(old(pending), c, running_tracks, |tracks|);
      Invoke(callback);
      log := log + [Firing(c, old(pending)[c], Clock())];
      FiringKeepsOrder(old(log), old(pending), pending, c, Clock());
    }

    /** InvokeNext, as a step towards the end of the loop. */
    method InvokeOne(ghost old_log: seq<Firing>, ghost earliest: nat, ghost start: seq<Firing>,
                     ghost places: seq<Place>,
                     ghost time: nat)
        returns (ghost more: seq<Place>)
      requires Running() && pending != map[] && FirstAt(pending, time) && time <= Clock()
      requires InOrder(log, Clock()) && AfterLog(log, pending) && Advancing(old_log, log, pending, Clock(), earliest)
      requires |start| <= |log| && log[..|start|] == start && Performed(start, places)
      modifies this`pending, this`positions, this`running_tracks, this`log, queue, queue.entries
      ensures Running() && InOrder(log, Clock()) && AfterLog(log, pending)
      ensures Advancing(old_log, log, pending, Clock(), earliest)
      ensures |start| <= |log| && log[..|start|] == start && Performed(start, more) && |more| > 0
      ensures more[0] == places[0]
      ensures var due, was := RestartDue(pending, Clock()), old(RestartDue(pending, Clock()));
              || due < was
              || (due == was && (Unread() < old(Unread()) || (Unread() == old(Unread()) && |pending| < |old(pending)|)))
    {
      hide QueueValid, Remaining, InOrder, AfterLog, SongPending, Advancing, RestartDue, FirstAt, AllFrom, Extends,
           Round, Rounds, Fires;
      ghost var before, log0 := pending, log;
      ghost var c := InvokeNext(time);
      RoundKeepsAdvancing(old_log, log0, before, c, pending, Clock(), earliest);
      OneFewer(before, c);
      PerformedOne(start, log0, places, Firing(c, before[c], Clock()));
      more := places + [ThePlace()];
    }

    /** The loop of AdvanceTime. */
    method InvokeAllDue(ghost old_log: seq<Firing>, ghost earliest: nat) returns (ghost places: seq<Place>)
      requires Running() && InOrder(log, Clock()) && AfterLog(log, pending)
      requires Advancing(old_log, log, pending, Clock(), earliest)
      modifies this`pending, this`positions, this`running_tracks, this`log, queue, queue.entries
      ensures Running() && InOrder(log, Clock()) && AfterLog(log, pending)
      ensures Advancing(old_log, log, pending, Clock(), earliest)
      ensures AllFrom(pending, Clock() + 1) && AllFrom(pending, Clock())
      ensures |old(log)| <= |log| && log[..|old(log)|] == old(log)
      ensures Rounds(TheScore(), places, log[|old(log)|..])
      ensures |places| > 0 && places[0] == old(ThePlace()) && places[|places| - 1] == ThePlace()
    {
      hide QueueValid, Remaining, InOrder, AfterLog, SongPending, Advancing, RestartDue, FirstAt, AllFrom, Rounds,
           Performed;
      ghost var clock, start := Clock(), log;
      places := [ThePlace()];
      StartPerforming();
      var empty: bool, time: nat := Look();
      while !empty && current_time >= time + pause_offset
        invariant Running() && InOrder(log, clock) && AfterLog(log, pending)
        invariant Advancing(old_log, log, pending, clock, earliest)
        invariant empty <==> pending == map[]
        invariant !empty ==> FirstAt(pending, time)
        invariant |start| <= |log| && log[..|start|] == start
        invariant Performed(start, places) && |places| > 0 && places[0] == old(ThePlace())
        decreases RestartDue(pending, clock), Unread(), |pending|
      {
        places := InvokeOne(old_log, earliest, start, places, time);
        empty, time := Look();
      }
      NoneDue(pending, clock, time);
      PerformedRounds(start, places);
    }

    lemma PerformedRounds(start: seq<Firing>, places: seq<Place>)
      requires Performed(start, places)
      ensures ticks_per_beat > 0 && |start| <= |log| && |places| > 0 && Rounds(TheScore(), places, log[|start|..])
      ensures places[|places| - 1] == ThePlace()
    {}

    /** The invocations since start led to the present place. */
    ghost predicate Performed(start: seq<Firing>, places: seq<Place>)
      reads this
    {
      && ticks_per_beat > 0 && |start| <= |log| && |places| > 0 && Rounds(TheScore(), places, log[|start|..])
      && places[|places| - 1] == ThePlace()
    }

    lemma StartPerforming()
      requires SongValid()
      ensures Performed(log, [ThePlace()])
    {
      NoRounds(TheScore(), ThePlace());
      assert log[|log|..] == [];
    }

    lemma PerformedOne(start: seq<Firing>, before: seq<Firing>, places: seq<Place>, f: Firing)
      requires ticks_per_beat > 0 && |start| <= |before| && before[..|start|] == start && log == before + [f]
      requires Rounds(TheScore(), places, before[|start|..]) && |places| > 0
      requires Round(TheScore(), places[|places| - 1], ThePlace(), f)
      ensures Performed(start, places + [ThePlace()]) && log[..|start|] == start
    {
      hide Round;
      OneMoreRound(TheScore(), places, before[|start|..], ThePlace(), f);
      assert log[|start|..] == before[|start|..] + [f];
    }

    /** Advances the clock by the length of nsamples and invokes everything that has become due. Terminates for
        every song. earliest is any lower bound on the pending deadlines. */
    method AdvanceTime(nsamples: nat, ghost earliest: nat) returns (ghost places: seq<Place>)
      requires Valid() && AllFrom(pending, earliest)
      modifies this`current_time, this`pause_offset, this`pending, this`positions, this`running_tracks, this`log
      modifies queue, queue.entries
      ensures Valid()
      ensures current_time == old(current_time) + Duration(nsamples, mixing_freq)
      ensures Clock() == old(Clock()) + if opl_sdl_paused then 0 else Duration(nsamples, mixing_freq)
      ensures AllFrom(pending, Clock() + 1)
      ensures |old(log)| <= |log| && log[..|old(log)|] == old(log) && AtMostOneRestart(log[|old(log)|..])
      ensures forall i | |old(log)| <= i < |log| ::
                log[i].clock == Clock() && (earliest <= log[i].deadline || log[i].deadline == Clock())
      ensures Rounds(TheScore(), places, log[|old(log)|..])
      ensures |places| > 0 && places[0] == old(ThePlace()) && places[|places| - 1] == ThePlace()
    {
      hide QueueValid, Remaining, InOrder, AfterLog, SongPending, Duration, AllFrom, FirstAt, AtMostOneRestart, Rounds;
      var us := Duration(nsamples, mixing_freq);
      LaterStillInOrder(log, Clock(), Clock() + us);
      current_time := current_time + us;
      if opl_sdl_paused {
        pause_offset := pause_offset + us;
      }
      StartsAdvancing(log, pending, Clock(), earliest);
      places := InvokeAllDue(old(log), earliest);
    }

    /** The virtual clock after nsamples more samples. */
    ghost function ClockAfter(nsamples: nat): nat
      requires pause_offset <= current_time && mixing_freq > 0
      reads this`current_time, this`pause_offset, this`opl_sdl_paused
    {
      Clock() + if opl_sdl_paused then 0 else Duration(nsamples, mixing_freq)
    }

    /** How many samples to mix before invoking callbacks again. If it is less than the space left, some callback
        is due at the end, and none is overdue by a whole sample: earliest bounds all deadlines. */
    method ChunkLength(space: nat) returns (nsamples: nat, ghost earliest: nat)
      requires Valid() && space > 0
      ensures nsamples <= space && AllFrom(pending, earliest)
      ensures (ClockAfter(nsamples) - earliest) * mixing_freq < OPL_SECOND
      ensures nsamples < space ==> !AllFrom(pending, ClockAfter(nsamples) + 1)
      ensures nsamples == 0 ==> !AllFrom(pending, Clock() + 1)
    {
      hide QueueValid, InOrder, AfterLog, SongPending, Duration, SamplesUntil;
      var empty: bool, time: nat := Look();
      if opl_sdl_paused || empty {
        nsamples := space;
        earliest := ClockAfter(nsamples);
      } else {
        var next_callback_time := time + pause_offset;
        var us: nat := next_callback_time - current_time;
        nsamples := SamplesUntil(us, mixing_freq);
        RoundingsCompose(us, mixing_freq, nsamples);
        RoundingsCompose(us, mixing_freq, 0);
        DurationOfNothing(mixing_freq);
        if nsamples > space {
          nsamples := space;
        }
        OvershootBelowOneSample(us, mixing_freq, nsamples);
        earliest := time;
        DueAt(pending, time);
      }
    }

    /** Writes nsamples frames at position start; the frame written stands for the number of the chip sample it
        was generated from, in both channels. */
    method FillBuffer(buffer: array<nat>, start: nat, nsamples: nat)
      requires nsamples < mixing_freq && 2 * (start + nsamples) <= buffer.Length
      modifies buffer, this`chip_clock
      ensures chip_clock == old(chip_clock) + nsamples
      ensures forall j | 2 * start <= j < 2 * (start + nsamples) :: buffer[j] == old(chip_clock) + j / 2 - start
      ensures forall j | 0 <= j < 2 * start || 2 * (start + nsamples) <= j < buffer.Length :: buffer[j] == old(buffer[j])
    {
      for i := 0 to nsamples
        invariant forall j | 2 * start <= j < 2 * (start + i) :: buffer[j] == old(chip_clock) + j / 2 - start
        invariant forall j | 0 <= j < 2 * start || 2 * (start + i) <= j < buffer.Length :: buffer[j] == old(buffer[j])
        modifies buffer
      {
        buffer[2 * (start + i)] := chip_clock + i;
        buffer[2 * (start + i) + 1] := chip_clock + i;
      }
      chip_clock := chip_clock + nsamples;
    }

    lemma NothingPerformed(pausing: nat -> bool)
      requires SongValid() && mixing_freq > 0
      ensures Performed(log, [ThePlace()]) && Samples([]) == Elapsed([], mixing_freq) == 0
      ensures ElapsedUnpaused([], mixing_freq, pausing) == 0
    {
      StartPerforming();
    }

    lemma PerformedMore(start: seq<Firing>, before: seq<Firing>, places: seq<Place>, more: seq<Place>)
      requires ticks_per_beat > 0 && |start| <= |before| <= |log| && before[..|start|] == start
      requires log[..|before|] == before
      requires Rounds(TheScore(), places, before[|start|..]) && Rounds(TheScore(), more, log[|before|..])
      requires places[|places| - 1] == more[0] && more[|more| - 1] == ThePlace()
      ensures Performed(start, places + more[1..]) && (places + more[1..])[0] == places[0]
    {
      hide Round;
      LogGrows(start, before, log);
      RoundsJoin(TheScore(), places, before[|start|..], more, log[|before|..]);
    }

    /** The audio callback. It fills the whole buffer with consecutive samples, lets the clock advance by the length of
        each chunk that it mixes, and invokes each callback less than one sample after its deadline; what the callbacks
        do is what the song demands. pausing(k) is the pause flag the control thread has set by iteration k. */
    method MixCallback(buffer: array<nat>, pausing: nat -> bool) returns (ghost places: seq<Place>,
                       ghost chunks: seq<nat>)
      requires Valid() && buffer.Length % 2 == 0 && buffer.Length / 2 < mixing_freq
      modifies this`current_time, this`pause_offset, this`opl_sdl_paused, this`chip_clock
      modifies this`pending, this`positions, this`running_tracks, this`log, queue, queue.entries, buffer
      ensures Valid()
      ensures chip_clock == old(chip_clock) + buffer.Length / 2
      ensures forall j | 0 <= j < buffer.Length :: buffer[j] == old(chip_clock) + j / 2
      ensures |old(log)| <= |log| && log[..|old(log)|] == old(log) && AllPrompt(log[|old(log)|..], mixing_freq)
      ensures buffer.Length > 0 ==> AllFrom(pending, Clock() + 1)
      ensures Samples(chunks) == buffer.Length / 2 && current_time == old(current_time) + Elapsed(chunks, mixing_freq)
      ensures Clock() == old(Clock()) + ElapsedUnpaused(chunks, mixing_freq, pausing)
      ensures Rounds(TheScore(), places, log[|old(log)|..])
      ensures |places| > 0 && places[0] == old(ThePlace()) && places[|places| - 1] == ThePlace()
    {
      hide QueueValid, InOrder, AfterLog, SongPending, Duration, AllFrom, AllPrompt, SongValid, InRange, Rounds,
           Samples, Elapsed, ElapsedUnpaused;
      var buffer_len := buffer.Length / 2;
      var filled, iteration := 0, 0;
      NothingLate(log, mixing_freq);
      places, chunks := [ThePlace()], [];
      NothingPerformed(pausing);
      while filled < buffer_len
        invariant Valid() && filled <= buffer_len && chip_clock == old(chip_clock) + filled
        invariant forall j | 0 <= j < 2 * filled :: buffer[j] == old(chip_clock) + j / 2
        invariant |old(log)| <= |log| && log[..|old(log)|] == old(log) && AllPrompt(log[|old(log)|..], mixing_freq)
        invariant filled > 0 ==> AllFrom(pending, Clock() + 1)
        invariant |chunks| == iteration && Samples(chunks) == filled
        invariant current_time == old(current_time) + Elapsed(chunks, mixing_freq)
        invariant Clock() == old(Clock()) + ElapsedUnpaused(chunks, mixing_freq, pausing)
        invariant |places| > 0 && Performed(old(log), places) && places[0] == old(ThePlace())
        decreases buffer_len - filled, !AllFrom(pending, Clock() + 1)
      {
        ghost var before := log;
        opl_sdl_paused := pausing(iteration);
        var nsamples: nat, earliest: nat, more: seq<Place> := MixChunk(buffer, filled);
        filled := filled + nsamples;
        MorePrompt(old(log), before, log, Clock(), earliest, mixing_freq);
        PerformedMore(old(log), before, places, more);
        OneMoreChunk(chunks, nsamples, mixing_freq, pausing);
        places, chunks := places + more[1..], chunks + [nsamples];
        iteration := iteration + 1;
      }
    }

    /** One round of the loop of OPL_Mix_Callback. */
    method MixChunk(buffer: array<nat>, filled: nat)
        returns (nsamples: nat, ghost earliest: nat, ghost places: seq<Place>)
      requires Valid() && filled < buffer.Length / 2 < mixing_freq && buffer.Length % 2 == 0
      modifies this`current_time, this`pause_offset, this`chip_clock
      modifies this`pending, this`positions, this`running_tracks, this`log, queue, queue.entries, buffer
      ensures Valid() && nsamples <= buffer.Length / 2 - filled && chip_clock == old(chip_clock) + nsamples
      ensures forall j | 2 * filled <= j < 2 * (filled + nsamples) :: buffer[j] == old(chip_clock) + j / 2 - filled
      ensures forall j | 0 <= j < 2 * filled :: buffer[j] == old(buffer[j])
      ensures current_time == old(current_time) + Duration(nsamples, mixing_freq)
      ensures Clock() == old(Clock()) + if opl_sdl_paused then 0 else Duration(nsamples, mixing_freq)
      ensures AllFrom(pending, Clock() + 1) && (nsamples == 0 ==> !old(AllFrom(pending, Clock() + 1)))
      ensures |old(log)| <= |log| && log[..|old(log)|] == old(log) && (Clock() - earliest) * mixing_freq < OPL_SECOND
      ensures forall i | |old(log)| <= i < |log| ::
                log[i].clock == Clock() && (earliest <= log[i].deadline || log[i].deadline == Clock())
      ensures Rounds(TheScore(), places, log[|old(log)|..])
      ensures |places| > 0 && places[0] == old(ThePlace()) && places[|places| - 1] == ThePlace()
    {
      hide QueueValid, InOrder, AfterLog, SongPending, Duration, AllFrom, AtMostOneRestart, InRange, Rounds;
      nsamples, earliest := ChunkLength(buffer.Length / 2 - filled);
      FillBuffer(buffer, filled, nsamples);
      places := AdvanceTime(nsamples, earliest);
    }
  }
}
