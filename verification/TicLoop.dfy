/** src/d_loop.c: a ring of player commands between the local player, the server and the game. */
module TicLoop {
  import opened Options

  const BACKUPTICS := 128
  const NET_MAXPLAYERS := 8
  const MAX_NETGAME_STALL_TICS := 5

  /** The most local commands that are ever waiting to be run. */
  const MOST_AHEAD := 9

  /** ticcmd_t: the two fields that are cleared for duplicated tics, and the rest. */
  datatype Ticcmd = Ticcmd(buttons: nat, chatchar: nat, rest: int)

  /** ticcmd_set_t. */
  datatype TicSet = TicSet(cmds: seq<Ticcmd>, ingame: seq<bool>)
  {
    predicate Valid() { |cmds| == |ingame| == NET_MAXPLAYERS }
  }

  /** What the network delivers: a complete set from the server, or the end of the connection. */
  datatype NetEvent = Tic(tic: TicSet) | Disconnect

  /** What the outside world does at one call of NetUpdate: network events, two clocks, and the player's next commands. */
  datatype Input = Input(events: seq<NetEvent>, adjusted_time: int, time: int, build: nat -> Ticcmd)

  /** I_Error ends the program. Its two other calls in this file appear below as assertions. */
  datatype Error = DroneDisconnected

  /** C division rounds toward zero. */
  function Div(a: int, b: int): int
    requires b > 0
  {
    if a >= 0 then a / b else -(-a / b)
  }

  // ---------- Squashing ----------

  /** A duplicated command: no chat, and no special buttons (bit 128). */
  function SquashedCmd(cmd: Ticcmd): Ticcmd {
    cmd.(chatchar := 0, buttons := if cmd.buttons / 128 % 2 == 1 then 0 else cmd.buttons)
  }

  function SquashedCmds(cmds: seq<Ticcmd>): (r: seq<Ticcmd>)
    ensures |r| == |cmds| && forall i | 0 <= i < |r| :: r[i] == SquashedCmd(cmds[i])
  {
    if cmds == [] then [] else SquashedCmds(cmds[..|cmds| - 1]) + [SquashedCmd(cmds[|cmds| - 1])]
  }

  function Squashed(tic: TicSet): TicSet {
    tic.(cmds := SquashedCmds(tic.cmds))
  }

  /** A duplicated tic makes every player move as before, but nobody chats or saves the game again: of the buttons, a byte,
      those below the special one are kept, and a special command loses them all. */
  lemma SquashedMoves(tic: TicSet, i: nat)
    requires i < |tic.cmds|
    ensures Squashed(tic) == tic.(cmds := Squashed(tic).cmds) && |Squashed(tic).cmds| == |tic.cmds|
    ensures var before, after := tic.cmds[i], Squashed(tic).cmds[i];
            && after == before.(chatchar := 0, buttons := after.buttons)
            && (before.buttons < 128 ==> after.buttons == before.buttons)
            && (128 <= before.buttons < 256 ==> after.buttons == 0)
  {}

  /** Squashing a second time changes nothing. */
  lemma SquashedTwice(tic: TicSet)
    ensures Squashed(Squashed(tic)) == Squashed(tic)
  {
    var once, twice := Squashed(tic).cmds, Squashed(Squashed(tic)).cmds;
    forall i | 0 <= i < |once|
      ensures twice[i] == once[i]
    {}
    assert twice == once;
  }

  lemma SquashedShape(tic: TicSet)
    requires tic.Valid()
    ensures Squashed(tic).Valid()
  {}

  // ---------- The ring ----------

  /** Two tics less than a ring apart have slots of their own. */
  lemma SlotsApart(j: nat, k: nat)
    requires j < k < j + BACKUPTICS
    ensures j % BACKUPTICS != k % BACKUPTICS
  {}

  /** The slot of tic k holds the local command. */
  predicate HoldsMade(ring: seq<TicSet>, localplayer: nat, k: nat, cmd: Ticcmd)
    requires |ring| == BACKUPTICS && localplayer < NET_MAXPLAYERS
  {
    var slot := ring[k % BACKUPTICS];
    slot.Valid() && slot.cmds[localplayer] == cmd && slot.ingame[localplayer]
  }

  /** The slot of tic k holds what the server sent for player i. */
  predicate HoldsFrom(ring: seq<TicSet>, k: nat, tic: TicSet, i: nat)
    requires |ring| == BACKUPTICS && i < NET_MAXPLAYERS && tic.Valid()
  {
    var slot := ring[k % BACKUPTICS];
    slot.Valid() && slot.cmds[i] == tic.cmds[i] && slot.ingame[i] == tic.ingame[i]
  }

  /** Whose commands come from the server: everybody else's, and for a drone everybody's. */
  predicate Remote(i: nat, localplayer: nat, drone: bool) {
    i < NET_MAXPLAYERS && (drone || i != localplayer)
  }

  ghost predicate Shaped(ring: seq<TicSet>) {
    |ring| == BACKUPTICS && forall i | 0 <= i < BACKUPTICS :: ring[i].Valid()
  }

  ghost predicate RingMade(ring: seq<TicSet>, localplayer: nat, from: nat, made: seq<Ticcmd>)
    requires Shaped(ring) && localplayer < NET_MAXPLAYERS
  {
    forall k: nat | from <= k < |made| :: HoldsMade(ring, localplayer, k, made[k])
  }

  ghost predicate AllValid(received: seq<TicSet>) {
    forall k | 0 <= k < |received| :: received[k].Valid()
  }

  ghost predicate RingReceived(ring: seq<TicSet>, localplayer: nat, drone: bool, from: nat, received: seq<TicSet>)
    requires Shaped(ring) && AllValid(received)
  {
    forall k: nat, i: nat | from <= k < |received| && Remote(i, localplayer, drone) :: HoldsFrom(ring, k, received[k], i)
  }

  // ---------- What the game sees ----------

  /** The first tic of group k: the local command built as tic k and the remote set received as tic k, or, after the
      connection ended, nobody else. */
  ghost predicate FirstTic(tic: TicSet, k: nat, localplayer: nat, drone: bool, online: bool, made: seq<Ticcmd>,
                      received: seq<TicSet>)
    requires localplayer < NET_MAXPLAYERS && AllValid(received)
  {
    && tic.Valid()
    && (!drone ==> k < |made| && tic.cmds[localplayer] == made[k] && tic.ingame[localplayer])
    && (forall i: nat | Remote(i, localplayer, drone) ::
          if online then k < |received| && tic.cmds[i] == received[k].cmds[i] && tic.ingame[i] == received[k].ingame[i]
          else !tic.ingame[i])
  }

  /** A group: its first tic, then the same tic squashed. */
  ghost predicate IsGroup(group: seq<TicSet>, ticdup: nat) {
    && |group| == ticdup > 0
    && forall d | 1 <= d < |group| :: group[d] == Squashed(group[0])
  }

  ghost predicate History(groups: seq<seq<TicSet>>, online: seq<bool>, ticdup: nat, localplayer: nat, drone: bool,
                          made: seq<Ticcmd>, received: seq<TicSet>)
    requires localplayer < NET_MAXPLAYERS && AllValid(received)
  {
    && |online| == |groups|
    && forall k: nat | k < |groups| ::
         IsGroup(groups[k], ticdup) && FirstTic(groups[k][0], k, localplayer, drone, online[k], made, received)
  }

  lemma HistoryGrows(groups: seq<seq<TicSet>>, online: seq<bool>, ticdup: nat, localplayer: nat, drone: bool,
                     made: seq<Ticcmd>, received: seq<TicSet>, more_made: seq<Ticcmd>, more_received: seq<TicSet>)
    requires localplayer < NET_MAXPLAYERS && AllValid(received) && AllValid(more_received)
    requires History(groups, online, ticdup, localplayer, drone, made, received)
    requires |made| <= |more_made| && more_made[..|made|] == made
    requires |received| <= |more_received| && more_received[..|received|] == received
    ensures History(groups, online, ticdup, localplayer, drone, more_made, more_received)
  {
    forall k: nat | k < |groups|
      ensures IsGroup(groups[k], ticdup)
      ensures FirstTic(groups[k][0], k, localplayer, drone, online[k], more_made, more_received)
    {
      assert FirstTic(groups[k][0], k, localplayer, drone, online[k], made, received);
      assert k < |made| ==> more_made[..|made|][k] == more_made[k];
      assert k < |received| ==> more_received[..|received|][k] == more_received[k];
    }
  }

  lemma HistoryAppend(groups: seq<seq<TicSet>>, online: seq<bool>, ticdup: nat, localplayer: nat, drone: bool,
                      made: seq<Ticcmd>, received: seq<TicSet>, group: seq<TicSet>, connected: bool)
    requires localplayer < NET_MAXPLAYERS && AllValid(received)
    requires History(groups, online, ticdup, localplayer, drone, made, received)
    requires IsGroup(group, ticdup) && FirstTic(group[0], |groups|, localplayer, drone, connected, made, received)
    ensures History(groups + [group], online + [connected], ticdup, localplayer, drone, made, received)
  {}

  /** Storing the next local command disturbs nothing that is still waiting. */
  lemma StoreMade(ring: seq<TicSet>, localplayer: nat, drone: bool, from: nat, made: seq<Ticcmd>,
                  received: seq<TicSet>, cmd: Ticcmd)
    requires Shaped(ring) && localplayer < NET_MAXPLAYERS && AllValid(received) && !drone
    requires RingMade(ring, localplayer, from, made) && RingReceived(ring, localplayer, drone, from, received)
    requires from <= |made| < from + BACKUPTICS
    ensures var slot := |made| % BACKUPTICS;
            var tic := ring[slot];
            var after := ring[slot := TicSet(tic.cmds[localplayer := cmd], tic.ingame[localplayer := true])];
            && Shaped(after) && RingMade(after, localplayer, from, made + [cmd])
            && RingReceived(after, localplayer, drone, from, received)
  {
    var slot := |made| % BACKUPTICS;
    var after := ring[slot := TicSet(ring[slot].cmds[localplayer := cmd], ring[slot].ingame[localplayer := true])];
    forall k: nat | from <= k < |made| + 1
      ensures HoldsMade(after, localplayer, k, (made + [cmd])[k])
    {
      if k < |made| {
        assert HoldsMade(ring, localplayer, k, made[k]);
        SlotsApart(k, |made|);
      }
    }
    forall k: nat, i: nat | from <= k < |received| && Remote(i, localplayer, drone)
      ensures HoldsFrom(after, k, received[k], i)
    {
      assert HoldsFrom(ring, k, received[k], i);
    }
  }

  /** A slot after D_ReceiveTic stored the players up to n. */
  function Merged(old_tic: TicSet, tic: TicSet, localplayer: nat, drone: bool, n: nat): (r: TicSet)
    requires old_tic.Valid() && tic.Valid() && n <= NET_MAXPLAYERS
    ensures r.Valid()
    ensures forall i: nat | i < NET_MAXPLAYERS ::
              if i < n && Remote(i, localplayer, drone) then r.cmds[i] == tic.cmds[i] && r.ingame[i] == tic.ingame[i]
              else r.cmds[i] == old_tic.cmds[i] && r.ingame[i] == old_tic.ingame[i]
  {
    if n == 0 then old_tic
    else
      var before := Merged(old_tic, tic, localplayer, drone, n - 1);
      if Remote(n - 1, localplayer, drone)
      then TicSet(before.cmds[n - 1 := tic.cmds[n - 1]], before.ingame[n - 1 := tic.ingame[n - 1]]) else before
  }

  lemma StoreReceived(ring: seq<TicSet>, localplayer: nat, drone: bool, from: nat, made: seq<Ticcmd>,
                      received: seq<TicSet>, tic: TicSet)
    requires Shaped(ring) && localplayer < NET_MAXPLAYERS && AllValid(received) && tic.Valid()
    requires RingMade(ring, localplayer, from, made) && RingReceived(ring, localplayer, drone, from, received)
    requires drone ==> made == []
    requires |received| < from + BACKUPTICS
    ensures var slot := |received| % BACKUPTICS;
            var after := ring[slot := Merged(ring[slot], tic, localplayer, drone, NET_MAXPLAYERS)];
            && Shaped(after) && AllValid(received + [tic]) && RingMade(after, localplayer, from, made)
            && RingReceived(after, localplayer, drone, from, received + [tic])
  {
    var slot := |received| % BACKUPTICS;
    var merged := Merged(ring[slot], tic, localplayer, drone, NET_MAXPLAYERS);
    var after := ring[slot := merged];
    forall k: nat | from <= k < |made|
      ensures HoldsMade(after, localplayer, k, made[k])
    {
      assert HoldsMade(ring, localplayer, k, made[k]);
    }
    forall k: nat, i: nat | from <= k < |received| + 1 && Remote(i, localplayer, drone)
      ensures HoldsFrom(after, k, (received + [tic])[k], i)
    {
      if k < |received| {
        assert HoldsFrom(ring, k, received[k], i);
        SlotsApart(k, |received|);
      }
    }
  }

  /** Whatever happens to the slot of a tic that has been run, later tics are still in place. */
  lemma SlotIsDone(ring: seq<TicSet>, localplayer: nat, drone: bool, k: nat, made: seq<Ticcmd>, received: seq<TicSet>,
                   tic: TicSet)
    requires Shaped(ring) && localplayer < NET_MAXPLAYERS && AllValid(received) && tic.Valid()
    requires RingMade(ring, localplayer, k, made) && RingReceived(ring, localplayer, drone, k, received)
    requires |made| <= k + BACKUPTICS && |received| <= k + BACKUPTICS
    ensures var after := ring[k % BACKUPTICS := tic];
            && Shaped(after) && RingMade(after, localplayer, k + 1, made) && RingReceived(after, localplayer, drone, k + 1, received)
  {
    var after := ring[k % BACKUPTICS := tic];
    forall j: nat | k + 1 <= j < |made|
      ensures HoldsMade(after, localplayer, j, made[j])
    {
      assert HoldsMade(ring, localplayer, j, made[j]);
      SlotsApart(k, j);
    }
    forall j: nat, i: nat | k + 1 <= j < |received| && Remote(i, localplayer, drone)
      ensures HoldsFrom(after, j, received[j], i)
    {
      assert HoldsFrom(ring, j, received[j], i);
      SlotsApart(k, j);
    }
  }

  /** gametic / ticdup counts whole groups. */
  lemma GroupCount(groups: nat, ticdup: nat, within: nat)
    requires within < ticdup
    ensures (groups * ticdup + within) / ticdup == groups
  {
    var x := groups * ticdup + within;
    Multiple(x / ticdup - groups, ticdup);
    assert x / ticdup * ticdup + x % ticdup == x;
    assert (x / ticdup - groups) * ticdup == within - x % ticdup;
  }

  /** A multiple of d strictly between -d and d is zero. */
  lemma Multiple(a: int, d: nat)
    requires d > 0
    ensures (a >= 1 ==> a * d >= d) && (a <= -1 ==> a * d + d <= 0)
  {}

  const EMPTY_CMD := Ticcmd(0, 0, 0)
  const EMPTY_TIC := TicSet([EMPTY_CMD, EMPTY_CMD, EMPTY_CMD, EMPTY_CMD, EMPTY_CMD, EMPTY_CMD, EMPTY_CMD, EMPTY_CMD],
                            [false, false, false, false, false, false, false, false])

  function PlayersUpTo(n: nat, length: nat): (r: seq<bool>)
    ensures |r| == length && forall i | 0 <= i < length :: r[i] <==> i < n
  {
    if length == 0 then [] else PlayersUpTo(n, length - 1) + [length - 1 < n]
  }

  predicate EventsValid(events: seq<NetEvent>) {
    forall i | 0 <= i < |events| :: events[i].Tic? ==> events[i].tic.Valid()
  }

  lemma SlotShaped(ring: seq<TicSet>, k: nat)
    requires Shaped(ring)
    ensures |ring| == BACKUPTICS && ring[k % BACKUPTICS].Valid()
  {}

  /** The logs only grow. */
  ghost predicate Later(made0: seq<Ticcmd>, received0: seq<TicSet>, groups0: seq<seq<TicSet>>,
                        made: seq<Ticcmd>, received: seq<TicSet>, groups: seq<seq<TicSet>>)
  {
    && |made0| <= |made| && made[..|made0|] == made0
    && |received0| <= |received| && received[..|received0|] == received0
    && |groups0| <= |groups| && groups[..|groups0|] == groups0
  }

  lemma NextInput(inputs: seq<Input>, n: nat)
    requires n < |inputs|
    ensures inputs[n..] != [] && inputs[n..][0] == inputs[n] && inputs[n..][1..] == inputs[n + 1..]
  {}

  lemma LaterItself(made: seq<Ticcmd>, received: seq<TicSet>, groups: seq<seq<TicSet>>)
    ensures Later(made, received, groups, made, received, groups)
  {}

  lemma LaterLengths(m0: seq<Ticcmd>, r0: seq<TicSet>, g0: seq<seq<TicSet>>, m1: seq<Ticcmd>, r1: seq<TicSet>,
                     g1: seq<seq<TicSet>>)
    requires Later(m0, r0, g0, m1, r1, g1)
    ensures |m0| <= |m1| && |r0| <= |r1| && |g0| <= |g1|
  {}

  lemma LaterTwice(m0: seq<Ticcmd>, r0: seq<TicSet>, g0: seq<seq<TicSet>>, m1: seq<Ticcmd>, r1: seq<TicSet>,
                   g1: seq<seq<TicSet>>,
                   m2: seq<Ticcmd>, r2: seq<TicSet>, g2: seq<seq<TicSet>>)
    requires Later(m0, r0, g0, m1, r1, g1) && Later(m1, r1, g1, m2, r2, g2)
    ensures Later(m0, r0, g0, m2, r2, g2)
  {
    assert m2[..|m0|] == m2[..|m1|][..|m0|];
    assert r2[..|r0|] == r2[..|r1|][..|r0|];
    assert g2[..|g0|] == g2[..|g1|][..|g0|];
  }

  lemma OnlyLocal(tic: TicSet, k: nat, localplayer: nat, drone: bool, made: seq<Ticcmd>, received: seq<TicSet>)
    requires !drone && tic.Valid() && localplayer < NET_MAXPLAYERS && AllValid(received)
    requires k < |made| && tic.cmds[localplayer] == made[k] && tic.ingame[localplayer]
    requires forall i | 0 <= i < NET_MAXPLAYERS && i != localplayer :: !tic.ingame[i]
    ensures FirstTic(tic, k, localplayer, drone, false, made, received)
  {}

  // ---------- What one update does to the counters ----------

  function Max(a: int, b: int): int { if a < b then b else a }

  function Min(a: int, b: int): int { if a < b then a else b }

  /** The sets that arrive before the connection ends, or until space many have. */
  function Arriving(events: seq<NetEvent>, connected: bool, space: nat): seq<TicSet> {
    if !connected || space == 0 || events == [] || events[0].Disconnect? then []
    else [events[0].tic] + Arriving(events[1..], true, space - 1)
  }

  /** They are the first events, and the next one is not a set that could still come. */
  lemma {:induction false} ArrivingFacts(events: seq<NetEvent>, connected: bool, space: nat)
    ensures var sets := Arriving(events, connected, space);
            && |sets| <= space && |sets| <= |events| && (!connected ==> sets == [])
            && (forall k | 0 <= k < |sets| :: events[k] == Tic(sets[k]))
            && (connected ==> |sets| == space || |sets| == |events| || events[|sets|].Disconnect?)
  {
    if connected && space > 0 && events != [] && events[0].Tic? {
      ArrivingFacts(events[1..], true, space - 1);
    }
  }

  /** The connection ends with the first Disconnect, unless the client stops reading before it. */
  predicate StaysConnected(events: seq<NetEvent>, connected: bool, space: nat) {
    connected && (|Arriving(events, connected, space)| == space || |Arriving(events, connected, space)| == |events|)
  }

  lemma ArrivingNext(events: seq<NetEvent>, space: nat)
    requires events != [] && space > 0 && events[0].Tic?
    ensures Arriving(events, true, space) == [events[0].tic] + Arriving(events[1..], true, space - 1)
    ensures StaysConnected(events, true, space) == StaysConnected(events[1..], true, space - 1)
  {}

  /** How many sets fit into the ring. */
  function Space(received: nat, groups: nat): nat { Max(0, groups + BACKUPTICS - received) }

  /** With n events read, what is still to come is what was to come at first, less what has come. */
  ghost predicate ReadSoFar(events: seq<NetEvent>, n: nat, connected0: bool, received0: seq<TicSet>, connected: bool,
                            received: seq<TicSet>, groups: nat)
    requires n <= |events|
  {
    && received + Arriving(events[n..], connected, Space(|received|, groups)) ==
       received0 + Arriving(events, connected0, Space(|received0|, groups))
    && StaysConnected(events[n..], connected, Space(|received|, groups)) ==
       StaysConnected(events, connected0, Space(|received0|, groups))
  }

  lemma ReadNothing(events: seq<NetEvent>, connected: bool, received: seq<TicSet>, groups: nat)
    ensures ReadSoFar(events, 0, connected, received, connected, received, groups)
  {
    assert events[0..] == events;
  }

  lemma ReadTic(events: seq<NetEvent>, n: nat, connected0: bool, received0: seq<TicSet>, received: seq<TicSet>,
                groups: nat)
    requires n < |events| && events[n].Tic? && |received| < groups + BACKUPTICS
    requires ReadSoFar(events, n, connected0, received0, true, received, groups)
    ensures ReadSoFar(events, n + 1, connected0, received0, true, received + [events[n].tic], groups)
  {
    hide StaysConnected, Arriving;
    ArrivingNext(events[n..], Space(|received|, groups));
    assert events[n..][1..] == events[n + 1..];
    var more := Arriving(events[n + 1..], true, Space(|received|, groups) - 1);
    assert received + ([events[n].tic] + more) == (received + [events[n].tic]) + more;
  }

  lemma ReadDisconnect(events: seq<NetEvent>, n: nat, connected0: bool, received0: seq<TicSet>, received: seq<TicSet>,
                      groups: nat)
    requires n < |events| && events[n].Disconnect? && |received| < groups + BACKUPTICS
    requires ReadSoFar(events, n, connected0, received0, true, received, groups)
    ensures ReadSoFar(events, n + 1, connected0, received0, false, received, groups)
  {}

  lemma ReadEnough(events: seq<NetEvent>, n: nat, connected0: bool, received0: seq<TicSet>, connected: bool,
                   received: seq<TicSet>, groups: nat)
    requires n <= |events| && ReadSoFar(events, n, connected0, received0, connected, received, groups)
    requires n == |events| || !connected || |received| >= groups + BACKUPTICS
    ensures received == received0 + Arriving(events, connected0, Space(|received0|, groups))
    ensures connected == StaysConnected(events, connected0, Space(|received0|, groups))
  {
    assert received + [] == received;
  }

  /** How many commands may wait to be run. */
  function MostWaiting(new_sync: bool, connected: bool): nat {
    if !new_sync then 5 else if connected then 9 else 3
  }

  /** The numbers that decide what can be run. */
  datatype Tally = Tally(made: nat, received: nat, connected: bool)
  {
    /** The first tic that cannot be run: no command was made for it, or no set received. */
    function LowTic(drone: bool): (lowtic: nat)
      ensures !connected ==> lowtic == made
      ensures connected ==> lowtic == if drone then received else Min(made, received)
    {
      if connected && (drone || received < made) then received else made
    }
  }

  /** How many groups are run: in the new style all that are available, in the old one as many as the clock asks for, and
      one more to catch up if that would leave more than one; at least one, for which the loop will wait. */
  function GroupsToRun(new_sync: bool, realtics: int, availabletics: int): (counts: nat)
    ensures counts >= 1 && counts <= Max(1, availabletics)
    ensures new_sync && availabletics >= 1 ==> counts == availabletics
    ensures !new_sync && availabletics >= 1 ==> Min(realtics, availabletics) <= counts
    ensures !new_sync && availabletics >= 1 && realtics >= 1 ==> counts <= realtics + 1
    ensures !new_sync && counts == realtics + 1 && realtics >= 1 ==> counts < availabletics || counts == realtics + 1 <= availabletics
    ensures !new_sync && realtics >= 0 && realtics + 1 < availabletics ==> counts == realtics + 1
  {
    if new_sync then Max(1, availabletics)
    else Max(1, Min(availabletics, if realtics < availabletics - 1 then realtics + 1 else realtics))
  }

  class Loop {
    const ticdup: nat
    const localplayer: nat
    const drone: bool
    const new_sync: bool
    const singletics: bool
    const ticdata: array<TicSet>
    var maketic: nat
    var recvtic: nat
    var gametic: nat
    var skiptics: int
    var lasttime: int
    var oldentertics: int
    var net_client_connected: bool
    var local_playeringame: seq<bool>
    var frameon: nat
    var frameskip: seq<bool>
    var oldnettics: int

    /** What is still to come from outside, and how the program ended, if it did. */
    var inputs: seq<Input>
    var error: Option<Error>

    ghost var made: seq<Ticcmd>
    ghost var received: seq<TicSet>
    ghost var groups: seq<seq<TicSet>>
    ghost var online: seq<bool>

    ghost predicate Valid()
      reads this, ticdata
    {
      Core() && |frameskip| == 4
    }

    /** The part that the clocks have no say in. */
    ghost predicate Core()
      reads this`maketic, this`recvtic, this`gametic, this`net_client_connected, this`local_playeringame, this`inputs,
            this`error
      reads this`made, this`received, this`groups, this`online, ticdata
    {
      && ticdup > 0 && localplayer < NET_MAXPLAYERS && Shaped(ticdata[..]) && AllValid(received)
      && |local_playeringame| == NET_MAXPLAYERS
      && (forall n | 0 <= n < |inputs| :: EventsValid(inputs[n].events))
      && |made| == maketic && |received| == recvtic && gametic == |groups| * ticdup
      && (drone ==> maketic == 0 && (net_client_connected || error != None))
      && (!drone ==> |groups| <= maketic <= |groups| + MOST_AHEAD)
      && (net_client_connected ==> |groups| <= recvtic) && recvtic <= |groups| + BACKUPTICS
      && RingMade(ticdata[..], localplayer, |groups|, made)
      && RingReceived(ticdata[..], localplayer, drone, |groups|, received)
      && History(groups, online, ticdup, localplayer, drone, made, received)
      && (error != None ==> drone)
    }

    /** Only the future may have changed: nothing that was made, received or run is different. */
    ghost predicate Continues(made0: seq<Ticcmd>, received0: seq<TicSet>, groups0: seq<seq<TicSet>>)
      reads this`made, this`received, this`groups
    {
      Later(made0, received0, groups0, made, received, groups)
    }

    /** What the game has seen so far refines the two logs. Tic d of group k is the k-th group of ticdup tics; the game
        is always between two groups here. */
    lemma GroupsFollowLogs(k: nat, d: nat)
      requires Valid() && k < |groups| && d < ticdup
      ensures gametic == |groups| * ticdup && |groups[k]| == ticdup && |online| == |groups|
      ensures d > 0 ==> groups[k][d] == Squashed(groups[k][0])
      ensures groups[k][0].Valid()
      ensures !drone ==> k < |made| && groups[k][0].cmds[localplayer] == made[k] && groups[k][0].ingame[localplayer]
      ensures online[k] ==> k < |received| && received[k].Valid() && forall i: nat | Remote(i, localplayer, drone) ::
                groups[k][0].cmds[i] == received[k].cmds[i] && groups[k][0].ingame[i] == received[k].ingame[i]
      ensures !online[k] ==> forall i: nat | Remote(i, localplayer, drone) :: !groups[k][0].ingame[i]
    {
      hide RingMade, RingReceived, Shaped;
      assert IsGroup(groups[k], ticdup) && FirstTic(groups[k][0], k, localplayer, drone, online[k], made, received);
      if online[k] && !drone {
        assert Remote(if localplayer == 0 then 1 else 0, localplayer, drone);
      } else {
        assert drone ==> Remote(0, localplayer, drone);
      }
    }

    /** The state D_StartNetGame leaves behind. A drone is always connected. */
    constructor (dup: nat, player: nat, is_drone: bool, sync: bool, single: bool, connected: bool, num_players: nat,
                 future: seq<Input>)
      requires dup > 0 && player < NET_MAXPLAYERS && (is_drone ==> connected)
      requires forall n | 0 <= n < |future| :: EventsValid(future[n].events)
      ensures Valid() && ticdup == dup && localplayer == player && drone == is_drone && inputs == future
      ensures error == None
      ensures groups == [] && made == [] && received == [] && net_client_connected == connected && fresh(ticdata)
    {
      ticdup, localplayer, drone, new_sync, singletics := dup, player, is_drone, sync, single;
      ticdata := new TicSet[BACKUPTICS](_ => EMPTY_TIC);
      maketic, recvtic, gametic, skiptics, lasttime, oldentertics := 0, 0, 0, 0, 0, 0;
      net_client_connected, local_playeringame := connected, PlayersUpTo(num_players, NET_MAXPLAYERS);
      frameon, frameskip, oldnettics := 0, [false, false, false, false], 0;
      inputs, error := future, None;
      made, received, groups, online := [], [], [], [];
    }

    // ---------- The producer ----------

    /** Builds the next local command, unless enough are waiting. */
    method BuildNewTic(build: nat -> Ticcmd) returns (built: bool)
      requires Valid() && error == None
      modifies this`maketic, this`made, ticdata
      ensures Valid() && Continues(old(made), received, groups)
      ensures built ==> !drone && made == old(made) + [build(old(maketic))]
      ensures !built ==> made == old(made)
      ensures built <==> !drone && MayBuild(old(maketic))
    {
      hide RingMade, RingReceived, History, Shaped, AllValid;
      var gameticdiv := gametic / ticdup;
      GroupCount(|groups|, ticdup, 0);
      if drone {
        return false;
      }
      if new_sync {
        if !net_client_connected && maketic - gameticdiv > 2 {
          return false;
        }
        if maketic - gameticdiv > 8 {
          return false;
        }
      } else {
        if maketic - gameticdiv >= 5 {
          return false;
        }
      }
      var cmd := build(maketic);
      StoreMade(ticdata[..], localplayer, drone, |groups|, made, received, cmd);
      HistoryGrows(groups, online, ticdup, localplayer, drone, made, received, made + [cmd], received);
      SlotShaped(ticdata[..], maketic);
      var slot := maketic % BACKUPTICS;
      ticdata[slot] := ticdata[slot].(cmds := ticdata[slot].cmds[localplayer := cmd]);
      ticdata[slot] := ticdata[slot].(ingame := ticdata[slot].ingame[localplayer := true]);
      assert ticdata[..] == old(ticdata[..])[slot := TicSet(old(ticdata[slot].cmds)[localplayer := cmd],
                                old(ticdata[slot].ingame)[localplayer := true])];
      maketic := maketic + 1;
      made := made + [cmd];
      built := true;
    }

    /** How far ahead of the game the player may be. */
    ghost predicate MayBuild(m: int)
      reads this`gametic, this`net_client_connected
      requires ticdup > 0
    {
      m - gametic / ticdup < MostWaiting(new_sync, net_client_connected)
    }

    // ---------- The receiver ----------

    /** D_ReceiveTic with a set of commands: everybody's but our own go into the ring. */
    method ReceiveTic(tic: TicSet)
      requires Valid() && error == None && tic.Valid() && recvtic - gametic / ticdup < BACKUPTICS
      modifies this`recvtic, this`received, ticdata
      ensures Valid() && received == old(received) + [tic]
    {
      hide RingMade, RingReceived, History, Shaped, AllValid;
      GroupCount(|groups|, ticdup, 0);
      StoreReceived(ticdata[..], localplayer, drone, |groups|, made, received, tic);
      HistoryGrows(groups, online, ticdup, localplayer, drone, made, received, made, received + [tic]);
      SlotShaped(ticdata[..], recvtic);
      StoreSet(tic);
      recvtic := recvtic + 1;
      received := received + [tic];
    }

    /** The loop of D_ReceiveTic. */
    method StoreSet(tic: TicSet)
      requires Shaped(ticdata[..]) && tic.Valid()
      modifies ticdata
      ensures ticdata[..] == old(ticdata[..])[recvtic % BACKUPTICS :=
                Merged(old(ticdata[recvtic % BACKUPTICS]), tic, localplayer, drone, NET_MAXPLAYERS)]
    {
      hide Shaped;
      SlotShaped(ticdata[..], recvtic);
      var slot := recvtic % BACKUPTICS;
      ghost var ring := ticdata[..];
      for i := 0 to NET_MAXPLAYERS
        invariant ring[slot].Valid() && ticdata[..] == ring[slot := Merged(ring[slot], tic, localplayer, drone, i)]
      {
        if !drone && i == localplayer {
        } else {
          ticdata[slot] := ticdata[slot].(cmds := ticdata[slot].cmds[i := tic.cmds[i]]);
          ticdata[slot] := ticdata[slot].(ingame := ticdata[slot].ingame[i := tic.ingame[i]]);
        }
      }
    }

    /** The end of the connection: fatal for a drone. */
    method Disconnected()
      requires Valid() && error == None
      modifies this`error, this`net_client_connected
      ensures Valid() && !net_client_connected && error == if drone then Some(DroneDisconnected) else None
    {
      hide RingMade, RingReceived, History, Shaped, AllValid;
      if drone {
        error := Some(DroneDisconnected);
      }
      net_client_connected := false;
    }

    /** What NET_CL_Run delivers, for as long as the connection lasts. The client's window never lets a set through
        that would overtake the game by a whole ring. */
    method RunNetwork(events: seq<NetEvent>)
      requires Valid() && error == None && EventsValid(events)
      modifies this`recvtic, this`received, this`error, this`net_client_connected, ticdata
      ensures Valid() && Continues(made, old(received), groups)
      ensures received == old(received) + Arriving(events, old(net_client_connected), Space(|old(received)|, |groups|))
      ensures net_client_connected == StaysConnected(events, old(net_client_connected), Space(|old(received)|, |groups|))
      ensures error != None <==> drone && old(net_client_connected) && !net_client_connected
      ensures net_client_connected ==> old(net_client_connected)
    {
      hide RingMade, RingReceived, History, Shaped, AllValid, Valid, ReadSoFar, StaysConnected, Arriving;
      ghost var connected0, received0 := net_client_connected, received;
      ReadNothing(events, net_client_connected, received, |groups|);
      for n := 0 to |events|
        invariant Valid() && error == None && Continues(made, received0, groups)
        invariant ReadSoFar(events, n, connected0, received0, net_client_connected, received, |groups|)
        invariant (drone && connected0 ==> net_client_connected) && (net_client_connected ==> connected0)
      {
        TicdupPositive();
        Counts();
        if !net_client_connected || recvtic - gametic / ticdup >= BACKUPTICS {
          ReadEnough(events, n, connected0, received0, net_client_connected, received, |groups|);
          return;
        }
        match events[n] {
          case Tic(tic) =>
            ReadTic(events, n, connected0, received0, received, |groups|);
            ReceiveTic(tic);
          case Disconnect =>
            ReadDisconnect(events, n, connected0, received0, received, |groups|);
            Disconnected();
            if error != None {
              ReadEnough(events, n + 1, connected0, received0, net_client_connected, received, |groups|);
              return;
            }
        }
      }
      ReadEnough(events, |events|, connected0, received0, net_client_connected, received, |groups|);
    }

    lemma Counts()
      requires Valid()
      ensures maketic == |made| && recvtic == |received| && gametic == |groups| * ticdup && ticdup > 0
      ensures !drone ==> |groups| <= maketic
    {}

    lemma TicdupPositive()
      requires Valid()
      ensures ticdup > 0 && gametic / ticdup == |groups|
    {
      hide RingMade, RingReceived, History, Shaped, AllValid;
      GroupCount(|groups|, ticdup, 0);
    }

    // ---------- NetUpdate ----------

    /** What an update at the next input makes of the counters: the commands that the clock asks for and that may wait are
        made, and the sets arrive that the network delivers. */
    ghost function AfterUpdate(): Tally
      requires ticdup > 0
      reads this`made, this`received, this`groups, this`net_client_connected, this`inputs, this`lasttime, this`skiptics
    {
      if inputs == [] || singletics then Tally(|made|, |received|, net_client_connected)
      else
        var input, space := inputs[0], Space(|received|, |groups|);
        var connected := StaysConnected(input.events, net_client_connected, space);
        var wanted := Div(input.adjusted_time, ticdup) - lasttime - skiptics;
        var room := |groups| + MostWaiting(new_sync, connected) - |made|;
        Tally(|made| + if drone then 0 else Max(0, Min(wanted, room)),
                 |received| + |Arriving(input.events, net_client_connected, space)|, connected)
    }

    ghost predicate HasTally(c: Tally)
      reads this`made, this`received, this`net_client_connected
    {
      |made| == c.made && |received| == c.received && net_client_connected == c.connected
    }

    /** Runs the network and builds the commands that are due. Returns the clock, if the outside world goes on. */
    method NetUpdate() returns (time: int)
      requires Valid() && error == None
      modifies this`maketic, this`recvtic, this`skiptics, this`lasttime, this`net_client_connected, this`inputs,
               this`error
      modifies this`made, this`received, ticdata
      ensures Valid() && Continues(old(made), old(received), groups) && ticdup > 0
      ensures inputs == (if old(inputs) == [] then [] else old(inputs)[1..])
      ensures old(inputs) != [] ==> time == old(inputs)[0].time
      ensures error != None ==> drone && old(net_client_connected) && !net_client_connected
      ensures error == None ==> HasTally(old(AfterUpdate()))
      ensures net_client_connected ==> old(net_client_connected)
      ensures net_client_connected == old(AfterUpdate()).connected
      ensures error == None && old(inputs) != [] ==>
                forall k | |old(made)| <= k < |made| :: made[k] == old(inputs)[0].build(k)
      ensures old(inputs) != [] && !singletics ==>
                received == old(received) + Arriving(old(inputs)[0].events, old(net_client_connected),
                    Space(|old(received)|, |groups|))
    {
      hide RingMade, RingReceived, History, Shaped, AllValid, Valid, StaysConnected, Arriving;
      TicdupPositive();
      if inputs == [] {
        return 0;
      }
      var input := TakeInput();
      time := input.time;
      if singletics {
        return;
      }
      RunNetwork(input.events);
      if error != None {
        return;
      }
      var nowtime := Div(input.adjusted_time, ticdup);
      var newtics := TicsDue(nowtime);
      BuildDue(newtics, input.build);
    }

    /** The loop of NetUpdate. */
    method BuildDue(newtics: nat, build: nat -> Ticcmd)
      requires Valid() && error == None && ticdup > 0
      modifies this`maketic, this`made, ticdata
      ensures Valid() && Continues(old(made), received, groups)
      ensures |made| == |old(made)| +
                        if drone then 0
                        else Max(0, Min(newtics, |groups| + MostWaiting(new_sync, net_client_connected) - |old(made)|))
      ensures forall k | |old(made)| <= k < |made| :: made[k] == build(k)
    {
      hide RingMade, RingReceived, History, Shaped, AllValid, Valid;
      TicdupPositive();
      Counts();
      for i := 0 to newtics
        invariant Valid() && Continues(old(made), received, groups) && maketic == |made| == |old(made)| + i
        invariant i > 0 ==> !drone && |made| <= |groups| + MostWaiting(new_sync, net_client_connected)
        invariant forall k | |old(made)| <= k < |made| :: made[k] == build(k)
      {
        var built := BuildNewTic(build);
        Counts();
        if !built {
          break;
        }
      }
    }

    method TakeInput() returns (input: Input)
      requires Valid() && inputs != []
      modifies this`inputs
      ensures Valid() && input == old(inputs)[0] && inputs == old(inputs)[1..] && EventsValid(input.events)
    {
      hide RingMade, RingReceived, History, Shaped, AllValid;
      input := inputs[0];
      inputs := inputs[1..];
    }

    /** How many new tics the clock asks for, less those to be skipped. */
    method TicsDue(nowtime: int) returns (newtics: nat)
      requires Valid()
      modifies this`lasttime, this`skiptics
      ensures Valid() && lasttime == nowtime
      ensures newtics == Max(0, nowtime - old(lasttime) - old(skiptics))
      ensures newtics - skiptics == nowtime - old(lasttime) - old(skiptics)
    {
      hide Core;
      var due := nowtime - lasttime;
      lasttime := nowtime;
      if skiptics <= due {
        due := due - skiptics;
        skiptics := 0;
      } else {
        skiptics := skiptics - due;
        due := 0;
      }
      newtics := due;
    }

    // ---------- The consumer ----------

    /** The first tic that cannot be run yet. */
    function GetLowTic(): (lowtic: nat)
      reads this`maketic, this`recvtic, this`net_client_connected
      ensures lowtic == Tally(maketic, recvtic, net_client_connected).LowTic(drone)
      ensures !drone ==> lowtic <= maketic
      ensures net_client_connected ==> lowtic <= recvtic
    {
      if net_client_connected && (drone || recvtic < maketic) then recvtic else maketic
    }

    /** The first player in the game, or -1. */
    method KeyPlayer() returns (keyplayer: int)
      requires |local_playeringame| == NET_MAXPLAYERS
      ensures keyplayer == -1 || (0 <= keyplayer < NET_MAXPLAYERS && local_playeringame[keyplayer])
      ensures forall i | 0 <= i < (if keyplayer == -1 then NET_MAXPLAYERS else keyplayer) :: !local_playeringame[i]
    {
      for i := 0 to NET_MAXPLAYERS
        invariant forall j | 0 <= j < i :: !local_playeringame[j]
      {
        if local_playeringame[i] {
          return i;
        }
      }
      keyplayer := -1;
    }

    lemma AllPlayers()
      requires Valid()
      ensures |local_playeringame| == NET_MAXPLAYERS
    {}

    /** Somebody is in the game, and somebody else than the local player comes first. */
    ghost predicate Adapts()
      requires |local_playeringame| == NET_MAXPLAYERS
      reads this`local_playeringame
    {
      exists key :: 0 <= key < NET_MAXPLAYERS && key != localplayer && local_playeringame[key] &&
                    forall i | 0 <= i < key :: !local_playeringame[i]
    }

    /** Adapts the clock to the key player, as vanilla Doom does. */
    method OldNetSync()
      requires Valid()
      modifies this`frameon, this`lasttime, this`frameskip, this`oldnettics, this`skiptics
      ensures Valid()
      ensures |local_playeringame| == NET_MAXPLAYERS && frameon == old(frameon) + 1
      ensures Adapts() ==> oldnettics == maketic && frameskip == old(frameskip)[frameon % 4 := old(oldnettics) > recvtic]
      ensures Adapts() ==> lasttime == old(lasttime) - if maketic <= recvtic then 1 else 0
      ensures Adapts() ==> skiptics == if forall k | 0 <= k < 4 :: frameskip[k] then 1 else old(skiptics)
      ensures !Adapts() ==> oldnettics == old(oldnettics) && frameskip == old(frameskip)
      ensures !Adapts() ==> lasttime == old(lasttime) && skiptics == old(skiptics)
    {
      hide Core;
      AllPlayers();
      frameon := frameon + 1;
      var keyplayer := KeyPlayer();
      if keyplayer >= 0 && localplayer != keyplayer {
        if maketic <= recvtic {
          lasttime := lasttime - 1;
        }
        frameskip := frameskip[frameon % 4 := oldnettics > recvtic];
        oldnettics := maketic;
        if frameskip[0] && frameskip[1] && frameskip[2] && frameskip[3] {
          skiptics := 1;
        }
      }
    }

    /** Somebody is in the game: without a drone always, otherwise a player of the tic that was run last. */
    ghost predicate HasPlayers()
      requires |local_playeringame| == NET_MAXPLAYERS
      reads this`local_playeringame, this`net_client_connected
    {
      !drone || (net_client_connected && exists i :: 0 <= i < NET_MAXPLAYERS && local_playeringame[i])
    }

    method PlayersInGame() returns (result: bool)
      requires |local_playeringame| == NET_MAXPLAYERS
      ensures result <==> HasPlayers()
    {
      result := false;
      if net_client_connected {
        for i := 0 to NET_MAXPLAYERS
          invariant result <==> exists j :: 0 <= j < i && local_playeringame[j]
        {
          result := result || local_playeringame[i];
        }
      }
      if !drone {
        result := true;
      }
    }

    method TicdupSquash(slot: nat)
      requires slot < ticdata.Length && ticdata[slot].Valid()
      modifies ticdata
      ensures ticdata[..] == old(ticdata[..])[slot := Squashed(old(ticdata[slot]))]
    {
      ghost var ring := ticdata[..];
      for i := 0 to NET_MAXPLAYERS
        invariant ticdata[slot].Valid() && ticdata[..] == ring[slot := ticdata[slot]]
        invariant ticdata[slot].ingame == ring[slot].ingame
        invariant forall j | 0 <= j < NET_MAXPLAYERS ::
                    ticdata[slot].cmds[j] == if j < i then SquashedCmd(ring[slot].cmds[j]) else ring[slot].cmds[j]
      {
        var cmd := ticdata[slot].cmds[i].(chatchar := 0);
        if cmd.buttons / 128 % 2 == 1 {
          cmd := cmd.(buttons := 0);
        }
        ticdata[slot] := ticdata[slot].(cmds := ticdata[slot].cmds[i := cmd]);
      }
      assert ticdata[slot].cmds == SquashedCmds(ring[slot].cmds);
    }

    /** Nobody but the local player is in the game. */
    method SinglePlayerClear(slot: nat)
      requires slot < ticdata.Length && ticdata[slot].Valid() && localplayer < NET_MAXPLAYERS
      modifies ticdata
      ensures ticdata[slot].Valid() && ticdata[..] == old(ticdata[..])[slot := ticdata[slot]]
      ensures ticdata[slot].cmds == old(ticdata[slot]).cmds
      ensures forall i | 0 <= i < NET_MAXPLAYERS ::
                ticdata[slot].ingame[i] == if i != localplayer then false else old(ticdata[slot]).ingame[i]
    {
      ghost var ring := ticdata[..];
      for i := 0 to NET_MAXPLAYERS
        invariant ticdata[slot].Valid() && ticdata[..] == ring[slot := ticdata[slot]]
        invariant ticdata[slot].cmds == ring[slot].cmds
        invariant forall j | 0 <= j < NET_MAXPLAYERS ::
                    ticdata[slot].ingame[j] == if j < i && j != localplayer then false else ring[slot].ingame[j]
      {
        if i != localplayer {
          ticdata[slot] := ticdata[slot].(ingame := ticdata[slot].ingame[i := false]);
        }
      }
    }

    /** The slot about to be run, once nobody else is left in a game without a server. */
    lemma SlotReady(ring: seq<TicSet>, k: nat)
      requires Valid() && k == |groups| && ring == ticdata[..]
      requires !drone ==> k < maketic
      requires net_client_connected ==> k < recvtic
      requires drone ==> net_client_connected
      ensures |ring| == BACKUPTICS && ring[k % BACKUPTICS].Valid()
      ensures net_client_connected ==> FirstTic(ring[k % BACKUPTICS], k, localplayer, drone, true, made, received)
      ensures !drone ==> k < |made| && ring[k % BACKUPTICS].cmds[localplayer] == made[k] && ring[k % BACKUPTICS].ingame[localplayer]
    {
      hide History;
      if !drone {
        assert HoldsMade(ring, localplayer, k, made[k]);
      }
      if net_client_connected {
        forall i: nat | Remote(i, localplayer, drone)
          ensures ring[k % BACKUPTICS].cmds[i] == received[k].cmds[i]
          ensures ring[k % BACKUPTICS].ingame[i] == received[k].ingame[i]
        {
          assert HoldsFrom(ring, k, received[k], i);
        }
      }
    }

    /** Runs one group of ticdup tics: the next local command together with the next remote set, then the squashed form. */
    method RunGroup(lowtic: nat)
      requires Valid() && error == None && |groups| < lowtic
      requires !drone ==> lowtic <= maketic
      requires net_client_connected ==> lowtic <= recvtic
      modifies this`gametic, this`local_playeringame, this`groups, this`online, ticdata
      ensures Valid()
      ensures |groups| == |old(groups)| + 1 && Continues(made, received, old(groups))
    {
      hide RingMade, RingReceived, History, Shaped, AllValid, FirstTic, IsGroup;
      ghost var k, ring := |groups|, ticdata[..];
      GroupCount(k, ticdup, 0);
      SlotReady(ring, k);
      var slot := gametic / ticdup % BACKUPTICS;
      if !net_client_connected {
        SinglePlayerClear(slot);
        OnlyLocal(ticdata[slot], k, localplayer, drone, made, received);
      }
      ghost var first := ticdata[slot];
      ghost var group := RunTics(slot, k, lowtic);
      SlotIsDone(ring, localplayer, drone, k, made, received, Squashed(first));
      assert ticdata[..] == ring[slot := Squashed(first)];
      HistoryAppend(groups, online, ticdup, localplayer, drone, made, received, group, net_client_connected);
      groups, online := groups + [group], online + [net_client_connected];
    }

    /** The loop over the tics of a group. */
    method RunTics(slot: nat, ghost k: nat, lowtic: nat) returns (ghost group: seq<TicSet>)
      requires ticdup > 0 && slot < ticdata.Length && ticdata[slot].Valid() && gametic == k * ticdup && k <= lowtic
      modifies this`gametic, this`local_playeringame, ticdata
      ensures gametic == (k + 1) * ticdup && |local_playeringame| == NET_MAXPLAYERS
      ensures IsGroup(group, ticdup) && group[0] == old(ticdata[slot])
      ensures ticdata[..] == old(ticdata[..])[slot := Squashed(old(ticdata[slot]))]
    {
      hide SquashedCmds;
      ghost var first, ring := ticdata[slot], ticdata[..];
      group := [];
      for i := 0 to ticdup
        invariant gametic == k * ticdup + i && (i > 0 ==> |local_playeringame| == NET_MAXPLAYERS)
        invariant ticdata[slot].Valid() && ticdata[..] == ring[slot := if i == 0 then first else Squashed(first)]
        invariant |group| == i && forall d | 0 <= d < i :: group[d] == if d == 0 then first else Squashed(first)
      {
        GroupCount(k, ticdup, i);
        // Otherwise I_Error: gametic>lowtic.
        assert gametic / ticdup <= lowtic;
        SquashedTwice(first);
        local_playeringame := ticdata[slot].ingame;
        group := group + [ticdata[slot]];
        gametic := gametic + 1;
        TicdupSquash(slot);
        SquashedShape(first);
      }
    }

    /** The counters after NewTics. */
    ghost function AfterNewTics(): Tally
      requires ticdup > 0
      reads this`made, this`received, this`groups, this`net_client_connected, this`inputs, this`lasttime, this`skiptics
    {
      if singletics then
        var room := |groups| + MostWaiting(new_sync, net_client_connected) - |made|;
        Tally(|made| + (if !drone && room > 0 then 1 else 0), |received|, net_client_connected)
      else AfterUpdate()
    }

    /** How many groups can be run then. */
    ghost function Available(): int
      requires ticdup > 0
      reads this`made, this`received, this`groups, this`net_client_connected, this`inputs, this`lasttime, this`skiptics
    {
      AfterNewTics().LowTic(drone) - |groups|
    }

    /** What can be run now can be run then. */
    lemma NothingLost()
      requires Valid() && !drone
      ensures ticdup > 0 && Available() >= GetLowTic() - |groups|
    {
      hide RingMade, RingReceived, History, Shaped, AllValid;
    }

    /** The outside world has no more to say, or the last clock it gave is too late to wait any longer. */
    ghost predicate GaveUp(inputs0: seq<Input>, entertic: int)
      requires ticdup > 0
      reads this`inputs
    {
      || inputs == []
      || (|inputs| < |inputs0| && Div(inputs0[|inputs0| - |inputs| - 1].time, ticdup) - entertic >= MAX_NETGAME_STALL_TICS)
    }

    /** Waits for tics, then runs as many groups as have been asked for. What is available is run at once; without anything
        to run it waits for one group, and gives up only when it has waited too long. Neither check for a lost order of
        the counters ever fires: the only way to end the program is a drone that was disconnected. */
    method TryRunTics(entertime: int, build: nat -> Ticcmd)
      requires Valid() && error == None && ticdup > 0
      modifies this, ticdata
      ensures Valid() && Continues(old(made), old(received), old(groups)) && oldentertics == Div(entertime, ticdup)
      ensures error != None ==> drone
      ensures var counts := GroupsToRun(new_sync, Div(entertime, ticdup) - old(oldentertics), old(Available()));
              && |groups| <= |old(groups)| + counts
              && (!drone && old(Available()) >= 1 ==> |groups| == |old(groups)| + counts)
      ensures !drone && old(GetLowTic()) > |old(groups)| ==> |groups| > |old(groups)|
      ensures old(Available()) >= 1 && old(SomebodyPlays()) ==> |groups| > |old(groups)|
      ensures !drone && |groups| == |old(groups)| ==> GaveUp(old(AfterInput()), Div(entertime, ticdup))
    {
      hide RingMade, RingReceived, History, Shaped, AllValid, Valid, Later, AfterUpdate, GroupsToRun, GaveUp,
           HasPlayers,
           Arriving, CanRun, SomebodyPlays, Available, AfterNewTics, HasTally, AfterInput, GetLowTic;
      if !drone {
        NothingLost();
        NoDroneIsPlaying();
      }
      var entertic, counts := DecideCounts(entertime, build);
      if error != None {
        return;
      }
      ghost var made1, received1 := made, received;
      CountsFit(new_sync, entertic - old(oldentertics), old(Available()));
      if old(Available()) >= 1 && SomebodyPlays() {
        ReadyNow(counts);
      }
      WaitAndRun(entertic, counts);
      LaterTwice(old(made), old(received), old(groups), made1, received1, old(groups), made, received, groups);
    }

    lemma NoDroneIsPlaying()
      requires !drone
      ensures SomebodyPlays()
    {}

    /** The part of TryRunTics before the wait. */
    method DecideCounts(entertime: int, build: nat -> Ticcmd) returns (entertic: int, counts: nat)
      requires Valid() && error == None && ticdup > 0
      modifies this`maketic, this`recvtic, this`skiptics, this`lasttime, this`net_client_connected, this`inputs,
               this`error
      modifies this`made, this`received, this`oldentertics, this`frameon, this`frameskip, this`oldnettics, ticdata
      ensures Valid() && Continues(old(made), old(received), groups)
      ensures oldentertics == entertic == Div(entertime, ticdup)
      ensures error != None ==> drone && old(Available()) < 1
      ensures counts >= 1
      ensures error == None ==> counts == GroupsToRun(new_sync, entertic - old(oldentertics), old(Available()))
      ensures error == None ==> GetLowTic() - |groups| == old(Available()) && inputs == old(AfterInput())
    {
      hide RingMade, RingReceived, History, Shaped, AllValid, Valid, Later, AfterUpdate, Arriving, Available,
           AfterNewTics,
           HasTally, AfterInput;
      TicdupPositive();
      entertic := Div(entertime, ticdup);
      var realtics := entertic - oldentertics;
      SetOldEnterTics(entertic);
      counts := 1;
      NewTics(build);
      if error != None {
        return;
      }
      TicdupPositive();
      var lowtic := GetLowTic();
      var availabletics := lowtic - gametic / ticdup;
      counts := CountsToRun(realtics, availabletics);
      if !new_sync && net_client_connected {
        OldNetSync();
      }
    }

    /** A player of the tic that was run last is in the game, or this is no drone. */
    ghost predicate SomebodyPlays()
      reads this`local_playeringame
    {
      !drone || (|local_playeringame| == NET_MAXPLAYERS && exists i :: 0 <= i < NET_MAXPLAYERS && local_playeringame[i])
    }

    /** The inputs that are left for the wait. */
    ghost function AfterInput(): seq<Input>
      reads this`inputs
    {
      if singletics || inputs == [] then inputs else inputs[1..]
    }

    lemma ReadyNow(counts: nat)
      requires Valid() && error == None && SomebodyPlays() && GetLowTic() >= |groups| + counts && counts >= 1
      ensures CanRun(counts)
    {
      hide RingMade, RingReceived, History, Shaped, AllValid;
    }

    /** The wait for counts groups, and the loop that runs them. */
    method WaitAndRun(entertic: int, counts: nat)
      requires Valid() && error == None && ticdup > 0 && counts >= 1
      modifies this, ticdata
      ensures Valid() && Continues(old(made), old(received), old(groups)) && oldentertics == old(oldentertics)
      ensures error != None ==> drone
      ensures |groups| <= |old(groups)| + counts && (!drone ==> |groups| in {|old(groups)|, |old(groups)| + counts})
      ensures old(CanRun(counts)) ==> |groups| > |old(groups)|
      ensures !drone && |groups| == |old(groups)| ==> GaveUp(old(inputs), entertic)
    {
      hide RingMade, RingReceived, History, Shaped, AllValid, Valid, Later, AfterUpdate, GaveUp, Arriving, CanRun;
      var lowtic, ready := WaitForTics(entertic, counts);
      if ready {
        ghost var made2, received2, groups2 := made, received, groups;
        RunGroups(lowtic, counts);
        LaterTwice(old(made), old(received), groups2, made2, received2, groups2, made, received, groups);
      }
    }

    lemma CountsFit(sync: bool, realtics: int, availabletics: int)
      ensures GroupsToRun(sync, realtics, availabletics) <= Max(1, availabletics)
    {}

    /** One command when timing a demo, otherwise NetUpdate. */
    method NewTics(build: nat -> Ticcmd)
      requires Valid() && error == None && ticdup > 0
      modifies this`maketic, this`recvtic, this`skiptics, this`lasttime, this`net_client_connected, this`inputs,
               this`error
      modifies this`made, this`received, ticdata
      ensures Valid() && Continues(old(made), old(received), groups)
      ensures error == None ==> HasTally(old(AfterNewTics())) && GetLowTic() - |groups| == old(Available())
      ensures error != None ==> drone && !net_client_connected && old(Available()) < 1
      ensures inputs == old(AfterInput())
    {
      hide RingMade, RingReceived, History, Shaped, AllValid, Valid, AfterUpdate, Arriving, Later;
      TicdupPositive();
      Counts();
      if singletics {
        var built := BuildNewTic(build);
      } else {
        if drone {
          DroneMakesNothing();
        }
        var time := NetUpdate();
      }
      Counts();
    }

    lemma DroneMakesNothing()
      requires Valid() && drone && ticdup > 0
      ensures AfterUpdate().made == |made| == 0
    {
      hide RingMade, RingReceived, History, Shaped, AllValid, Arriving, StaysConnected;
    }

    method SetOldEnterTics(entertic: int)
      requires Valid()
      modifies this`oldentertics
      ensures Valid() && oldentertics == entertic
    {
      hide Core;
      oldentertics := entertic;
    }

    /** How many groups to run: at least one. */
    method CountsToRun(realtics: int, availabletics: int) returns (counts: nat)
      ensures counts == GroupsToRun(new_sync, realtics, availabletics)
    {
      var c;
      if new_sync {
        c := availabletics;
      } else {
        if realtics < availabletics - 1 {
          c := realtics + 1;
        } else if realtics < availabletics {
          c := realtics;
        } else {
          c := availabletics;
        }
        if c < 1 {
          c := 1;
        }
      }
      if c < 1 {
        c := 1;
      }
      counts := c;
    }

    /** Waits until counts groups can be run. Gives up when it has waited too long, or when nothing more happens outside. */
    method WaitForTics(entertic: int, counts: nat) returns (lowtic: nat, ready: bool)
      requires Valid() && error == None && ticdup > 0
      modifies this`maketic, this`recvtic, this`skiptics, this`lasttime, this`net_client_connected, this`inputs,
               this`error
      modifies this`made, this`received, ticdata
      ensures Valid() && Continues(old(made), old(received), groups) && |local_playeringame| == NET_MAXPLAYERS
      ensures ready ==> error == None && |groups| + counts <= lowtic && HasPlayers()
      ensures ready ==> (!drone ==> lowtic <= maketic) && (net_client_connected ==> lowtic <= recvtic)
      ensures old(CanRun(counts)) ==> ready
      ensures error != None ==> drone
      ensures !ready && error == None ==> GaveUp(old(inputs), entertic)
    {
      hide RingMade, RingReceived, History, Shaped, AllValid, Valid, AfterUpdate, Arriving, Later, HasPlayers;
      TicdupPositive();
      AllPlayers();
      LaterItself(made, received, groups);
      ghost var inputs0, n := inputs, 0;
      assert inputs0[0..] == inputs0;
      lowtic := GetLowTic();
      var players := Players();
      while !players || lowtic < gametic / ticdup + counts
        invariant Valid() && error == None && Continues(old(made), old(received), groups)
        invariant lowtic == GetLowTic() && (players <==> HasPlayers())
        invariant n <= |inputs0| && inputs == inputs0[n..]
        invariant n == 0 ==> lowtic == old(GetLowTic()) && (players <==> old(|local_playeringame| == NET_MAXPLAYERS && HasPlayers()))
        invariant n > 0 ==> !old(CanRun(counts))
        decreases |inputs|
      {
        if inputs == [] {
          return lowtic, false;
        }
        ghost var made1, received1 := made, received;
        var time := NetUpdate();
        LaterTwice(old(made), old(received), groups, made1, received1, groups, made, received, groups);
        NextInput(inputs0, n);
        n := n + 1;
        if error != None {
          return lowtic, false;
        }
        lowtic := GetLowTic();
        CountersInOrder();
        // Otherwise I_Error: lowtic < gametic.
        assert lowtic >= gametic / ticdup;
        if lowtic < gametic / ticdup + counts {
          if Div(time, ticdup) - entertic >= MAX_NETGAME_STALL_TICS {
            return lowtic, false;
          }
        }
        players := Players();
      }
      ready := true;
    }

    /** So many groups can be run without waiting. */
    ghost predicate CanRun(counts: nat)
      reads this`maketic, this`recvtic, this`groups, this`local_playeringame, this`net_client_connected
    {
      GetLowTic() >= |groups| + counts && |local_playeringame| == NET_MAXPLAYERS && HasPlayers()
    }

    /** The order the first check looks at. */
    lemma CountersInOrder()
      requires Valid() && error == None
      ensures ticdup > 0 && gametic / ticdup <= GetLowTic()
    {
      hide RingMade, RingReceived, History, Shaped, AllValid;
      TicdupPositive();
    }

    method Players() returns (players: bool)
      requires Valid()
      ensures |local_playeringame| == NET_MAXPLAYERS && (players <==> HasPlayers())
    {
      hide RingMade, RingReceived, History, Shaped, AllValid;
      players := PlayersInGame();
    }

    /** The loop that runs the groups; new commands may be built and received in between. All of them are run, unless a drone
        loses its connection or everybody has left. */
    method RunGroups(lowtic: nat, counts: nat)
      requires Valid() && error == None && |groups| + counts <= lowtic && |local_playeringame| == NET_MAXPLAYERS
      requires (!drone ==> lowtic <= maketic) && (net_client_connected ==> lowtic <= recvtic)
      modifies this, ticdata
      ensures Valid() && Continues(old(made), old(received), old(groups)) && |local_playeringame| == NET_MAXPLAYERS
      ensures |groups| <= |old(groups)| + counts && oldentertics == old(oldentertics)
      ensures |groups| < |old(groups)| + counts ==> error != None || !HasPlayers()
      ensures counts > 0 && old(HasPlayers()) ==> |groups| > |old(groups)|
      ensures error != None ==> drone
    {
      hide RingMade, RingReceived, History, Shaped, AllValid, Valid, AfterUpdate, Arriving, Later;
      Counts();
      LaterItself(made, received, groups);
      for c := 0 to counts
        invariant Valid() && error == None && Continues(old(made), old(received), old(groups))
        invariant |groups| == |old(groups)| + c && |local_playeringame| == NET_MAXPLAYERS
        invariant oldentertics == old(oldentertics)
        invariant c == 0 ==> HasPlayers() == old(HasPlayers())
        invariant maketic == |made| && recvtic == |received|
        invariant (!drone ==> lowtic <= maketic) && (net_client_connected ==> lowtic <= recvtic)
      {
        var players := Players();
        if !players {
          return;
        }
        ghost var made1, received1, groups1 := made, received, groups;
        RunGroup(lowtic);
        Counts();
        LaterTwice(old(made), old(received), old(groups), made1, received1, groups1, made1, received1, groups);
        var time := NetUpdate();
        LaterTwice(old(made), old(received), old(groups), made1, received1, groups, made, received, groups);
        LaterLengths(made1, received1, groups, made, received, groups);
        Counts();
        AllPlayers();
        if error != None {
          return;
        }
      }
    }
  }
}
