/** What holds in every state the server reaches when handlers, disconnects, timers and voice
    packets are atomic steps. */
module AtomicRuns {
  import opened Prelude
  import opened ChannelIndex
  import opened Sessions
  import opened Store
  import opened Server
  import VP = VoicePacket
  import VoicePath

  datatype Action =
    | Connect(id: SessionId, userID: int, conn: ConnToken)
    | Disconnect(id: SessionId)
    | Join(id: SessionId, channel: ChannelId)
    | Leave(id: SessionId)
    | Create(id: SessionId, req: CreateRequest, allowed: bool, now: int)
    | Delete(id: SessionId, channel: ChannelId, allowed: bool)
    | Import(id: SessionId, result: Table)
    | SetState(id: SessionId, muted: bool, deafened: bool)
    | Voice(datagram: Bytes, from: UDPAddr)
    | Timer(channel: ChannelId)

  /** A new session gets a fresh nonzero id, only a live connection ends, only a pending timer fires,
      and an import grows the table the way `ChannelImport` describes. */
  ghost predicate Enabled(s: State, a: Action) {
    match a
    case Connect(id, _, _) => id != 0 && id !in s.sessions
    case Disconnect(id) => id in s.sessions
    case Import(id, result) => id in s.sessions && s.store.GrownTo(result) && result.WellFormed()
    case Timer(c) => c in s.timers
    case _ => true
  }

  function Stepped(s: State, a: Action): State {
    match a
    case Connect(id, userID, conn) => Connected(s, id, userID, conn)
    case Disconnect(id) => Disconnected(s, id)
    case Join(id, c) => JoinedChannel(s, id, c)
    case Leave(id) => LeftChannel(s, id)
    case Create(id, req, allowed, now) => CreatedChannel(s, id, req, allowed, now)
    case Delete(id, c, allowed) => DeletedChannel(s, id, c, allowed)
    case Import(id, result) => s.(store := result)
    case SetState(id, muted, deafened) => UserStateSet(s, id, muted, deafened)
    case Voice(datagram, from) => Relayed(s, datagram, from).0
    case Timer(c) => TimerFired(s, c)
  }

  /** A server that has just started on some store. */
  ghost predicate Initial(s: State) {
    s.sessions == map[] && s.index == EMPTY_INDEX && s.conns == map[] && s.timers == multiset{} && s.store.WellFormed()
  }

  // ----- The invariant -----

  /** The session's own copy of its channel agrees with the two-way index, and connections and
      sessions come and go together. */
  ghost predicate Agreement(s: State) {
    && s.index.Coherent()
    && s.index.whereIs.Keys <= s.sessions.Keys
    && (forall id :: id in s.sessions ==> s.sessions[id].channelID == s.index.ChannelOf(id))
    && s.conns.Keys == s.sessions.Keys
  }

  ghost predicate OccupiedExist(s: State) {
    forall c :: s.index.Occupants(c) != {} ==> c in s.store.rows
  }

  ghost predicate WithinCapacity(s: State) {
    forall c :: c in s.store.rows && s.store.rows[c].maxUsers > 0 ==> |s.index.Occupants(c)| <= s.store.rows[c].maxUsers
  }

  ghost predicate TimersForTemps(s: State) {
    forall c :: c in s.timers ==> 1 <= c < s.store.next && (c in s.store.rows ==> s.store.rows[c].isTemp)
  }

  ghost predicate Inv(s: State) {
    s.store.WellFormed() && Agreement(s) && OccupiedExist(s) && WithinCapacity(s) && TimersForTemps(s)
  }

  lemma InitialInv(s: State)
    requires Initial(s)
    ensures Inv(s)
  {
    CoherentMeaning(s.index);
  }

  /** Facts about one changed index, channel by channel, are all the other parts need. */
  lemma LeaveParts(s: State, t: State, id: SessionId)
    requires Inv(s) && t.index == s.index.Left(id) && t.store == s.store
    ensures OccupiedExist(t) && WithinCapacity(t) && t.index.Coherent()
  {
    LeftIsOneRemoval(s.index, id);
    forall c ensures |t.index.Occupants(c)| <= |s.index.Occupants(c)| {
      SubsetSize(t.index.Occupants(c), s.index.Occupants(c));
    }
    assert forall c :: t.index.Occupants(c) <= s.index.Occupants(c);
  }

  lemma CleanedUpInv(s: State, c: ChannelId)
    requires Inv(s)
    ensures Inv(CleanedUp(s, c))
  {
  }

  lemma DisconnectInv(s: State, id: SessionId)
    requires Inv(s) && id in s.sessions
    ensures Inv(Disconnected(s, id))
  {
    var gone := s.(index := s.index.Left(id), conns := s.conns - {id}, sessions := s.sessions - {id});
    LeaveParts(s, gone, id);
    LeftIsOneRemoval(s.index, id);
    CleanedUpInv(gone, s.index.ChannelOf(id));
  }

  lemma LeaveInv(s: State, id: SessionId)
    requires Inv(s)
    ensures Inv(LeftChannel(s, id))
  {
    if id in s.sessions {
      var out := s.(index := s.index.Left(id), sessions := WithChannel(s.sessions, id, 0));
      LeaveParts(s, out, id);
      LeftIsOneRemoval(s.index, id);
      CleanedUpInv(out, s.index.ChannelOf(id));
    }
  }

  /** A join is admitted below capacity and adds one; every other channel can only shrink. */
  lemma JoinInv(s: State, id: SessionId, c: ChannelId)
    requires Inv(s)
    ensures Inv(JoinedChannel(s, id, c))
  {
    hide Index.Joined, Index.Coherent;
    if MayJoin(s, id, c) {
      var t := JoinedChannel(s, id, c);
      JoinedIsOneMove(s.index, id, c);
      forall d ensures t.index.Occupants(d) != {} ==> d in t.store.rows {
        if d != c && t.index.Occupants(d) != {} { assert t.index.Occupants(d) <= s.index.Occupants(d); }
      }
      forall d | d in t.store.rows && t.store.rows[d].maxUsers > 0 ensures |t.index.Occupants(d)| <= t.store.rows[d].maxUsers {
        if d == c {
          SubsetSize(t.index.Occupants(d), s.index.Occupants(d) + {id});
        } else {
          SubsetSize(t.index.Occupants(d), s.index.Occupants(d));
        }
      }
    }
  }

  lemma DeleteInv(s: State, id: SessionId, c: ChannelId, allowed: bool)
    requires Inv(s)
    ensures Inv(DeletedChannel(s, id, c, allowed))
  {
    EmptiedIsCoherent(s.index, c);
    CoherentMeaning(s.index);
  }

  lemma CreateInv(s: State, id: SessionId, req: CreateRequest, allowed: bool, now: int)
    requires Inv(s)
    ensures Inv(CreatedChannel(s, id, req, allowed, now))
  {
    hide Utf8Length, Validate;
    assert s.index.Occupants(s.store.next) == {};
  }

  lemma ImportInv(s: State, result: Table)
    requires Inv(s) && s.store.GrownTo(result) && result.WellFormed()
    ensures Inv(s.(store := result))
  {
    hide Validate;
    var t := s.(store := result);
    forall c | c in result.rows && result.rows[c].maxUsers > 0 ensures |t.index.Occupants(c)| <= result.rows[c].maxUsers {
      if c !in s.store.rows { assert s.index.Occupants(c) == {}; }
    }
  }

  lemma RelayKeeps(s: State, datagram: Bytes, from: UDPAddr)
    ensures var t := Relayed(s, datagram, from).0;
            && t == s.(sessions := t.sessions) && t.sessions.Keys == s.sessions.Keys
            && forall id :: id in s.sessions ==> t.sessions[id] == s.sessions[id] || (s.sessions[id].udpAddr.None? && t.sessions[id] == s.sessions[id].(udpAddr := Some(from)))
  {
  }

  lemma VoiceInv(s: State, datagram: Bytes, from: UDPAddr)
    requires Inv(s)
    ensures Inv(Relayed(s, datagram, from).0)
  {
    hide Relayed;
    RelayKeeps(s, datagram, from);
  }

  lemma TimerInv(s: State, c: ChannelId)
    requires Inv(s)
    ensures Inv(TimerFired(s, c))
  {
  }

  lemma ConnectInv(s: State, id: SessionId, userID: int, conn: ConnToken)
    requires Inv(s) && id !in s.sessions
    ensures Inv(Connected(s, id, userID, conn))
  {
    hide Index.Coherent;
    assert s.index.ChannelOf(id) == 0;
  }

  lemma StepInv(s: State, a: Action)
    requires Inv(s) && Enabled(s, a)
    ensures Inv(Stepped(s, a))
  {
    hide Relayed, CreatedChannel, DeletedChannel, TimerFired, JoinedChannel, LeftChannel, Disconnected, Connected, Index.Coherent;
    match a
    case Connect(id, userID, conn) => ConnectInv(s, id, userID, conn);
    case Disconnect(id) => DisconnectInv(s, id);
    case Join(id, c) => JoinInv(s, id, c);
    case Leave(id) => LeaveInv(s, id);
    case Create(id, req, allowed, now) => CreateInv(s, id, req, allowed, now);
    case Delete(id, c, allowed) => DeleteInv(s, id, c, allowed);
    case Import(id, result) => ImportInv(s, result);
    case SetState(id, muted, deafened) =>
    case Voice(datagram, from) => VoiceInv(s, datagram, from);
    case Timer(c) => TimerInv(s, c);
  }

  // ----- Runs -----

  function Ran(s: State, acts: seq<Action>): State {
    if acts == [] then s else Stepped(Ran(s, acts[..|acts| - 1]), acts[|acts| - 1])
  }

  ghost predicate IsRun(s: State, acts: seq<Action>) {
    acts != [] ==> IsRun(s, acts[..|acts| - 1]) && Enabled(Ran(s, acts[..|acts| - 1]), acts[|acts| - 1])
  }

  /** Agreement, existence, capacity and timers hold after every run from a fresh start. */
  lemma {:induction false} EveryRunKeepsInv(s: State, acts: seq<Action>)
    requires Initial(s) && IsRun(s, acts)
    ensures Inv(Ran(s, acts))
  {
    if acts == [] {
      InitialInv(s);
    } else {
      EveryRunKeepsInv(s, acts[..|acts| - 1]);
      StepInv(Ran(s, acts[..|acts| - 1]), acts[|acts| - 1]);
    }
  }

  // ----- Temporary channels -----

  /** A timer deletes nothing but an empty temporary channel, and that only. */
  lemma TimerDeletesOnlyEmptyTemps(s: State, c: ChannelId)
    requires Inv(s) && c in s.timers
    ensures var t := TimerFired(s, c);
            && (forall d :: d in s.store.rows && d !in t.store.rows ==> d == c && s.store.rows[d].isTemp && s.index.Occupants(d) == {})
            && (forall d :: d in t.store.rows ==> d in s.store.rows && t.store.rows[d] == s.store.rows[d])
            && (c in t.store.rows <==> c in s.store.rows && s.index.Occupants(c) != {})
  {
  }

  /** So on every run: a timer that goes off deletes at most its own channel, and that one exactly if
      nobody is in it; permanent and occupied channels stay. */
  lemma EveryTimerSparesOthers(s: State, acts: seq<Action>, c: ChannelId)
    requires Initial(s) && IsRun(s, acts) && c in Ran(s, acts).timers
    ensures var t := Ran(s, acts); var u := TimerFired(t, c);
            && (forall d :: d in t.store.rows && d !in u.store.rows ==> d == c && t.store.rows[d].isTemp && t.index.Occupants(d) == {})
            && (forall d :: d in u.store.rows ==> d in t.store.rows && u.store.rows[d] == t.store.rows[d])
            && (c in u.store.rows <==> c in t.store.rows && t.index.Occupants(c) != {})
  {
    hide Inv, TimerFired;
    EveryRunKeepsInv(s, acts);
    TimerDeletesOnlyEmptyTemps(Ran(s, acts), c);
  }

  lemma NextGrows(s: State, a: Action)
    requires Inv(s) && Enabled(s, a)
    ensures s.store.next <= Stepped(s, a).store.next
    ensures forall d :: d in Stepped(s, a).store.rows && d !in s.store.rows ==> s.store.next <= d
    ensures forall d :: d in Stepped(s, a).store.rows && d in s.store.rows ==> Stepped(s, a).store.rows[d] == s.store.rows[d]
  {
    hide Relayed, Validate, Utf8Length;
    match a
    case Voice(datagram, from) => RelayKeeps(s, datagram, from);
    case _ =>
  }

  /** Channel ids are never used again: what is gone stays gone, and what exists never changes. */
  lemma {:induction false} IdsNotReused(s: State, acts: seq<Action>, i: nat, c: ChannelId)
    requires Initial(s) && IsRun(s, acts) && i <= |acts| && c < Ran(s, acts[..i]).store.next
    ensures c !in Ran(s, acts[..i]).store.rows ==> c !in Ran(s, acts).store.rows
    ensures c in Ran(s, acts).store.rows ==> Ran(s, acts).store.rows[c] == Ran(s, acts[..i]).store.rows[c]
    ensures c < Ran(s, acts).store.next
    decreases |acts|
  {
    if i == |acts| {
      assert acts[..i] == acts;
    } else {
      var init := acts[..|acts| - 1];
      assert init[..i] == acts[..i];
      IdsNotReused(s, init, i, c);
      EveryRunKeepsInv(s, init);
      NextGrows(Ran(s, init), acts[|acts| - 1]);
    }
  }

  /** The channels whose last departure was a leave or a disconnect, rather than a switch to
      another channel: a history of the run. */
  function Departed(s: State, a: Action, before: set<ChannelId>): set<ChannelId> {
    match a
    case Disconnect(id) => before + {s.index.ChannelOf(id)}
    case Leave(id) => if id in s.sessions then before + {s.index.ChannelOf(id)} else before
    case Join(id, c) => if MayJoin(s, id, c) && s.index.ChannelOf(id) != c then before - {s.index.ChannelOf(id)} else before
    case _ => before
  }

  ghost predicate Empty(s: State, c: ChannelId) {
    c in s.store.rows && s.store.rows[c].isTemp && s.index.Occupants(c) == {}
  }

  /** Every such channel that exists, is temporary and is empty has a timer pending. */
  ghost predicate TimersPending(s: State, departed: set<ChannelId>) {
    forall c :: c in departed ==> c < s.store.next && (Empty(s, c) ==> c in s.timers)
  }

  /** The history of a run. */
  function DepartedIn(s: State, acts: seq<Action>): set<ChannelId> {
    if acts == [] then {}
    else Departed(Ran(s, acts[..|acts| - 1]), acts[|acts| - 1], DepartedIn(s, acts[..|acts| - 1]))
  }

  lemma LeaveArms(s: State, id: SessionId, departed: set<ChannelId>, out: State)
    requires Inv(s) && TimersPending(s, departed)
    requires out.index == s.index.Left(id) && out.store == s.store && out.timers == s.timers
    ensures var c := s.index.ChannelOf(id); TimersPending(if c > 0 then CleanedUp(out, c) else out, departed + {c})
  {
    hide Index.Left, Index.Coherent;
    ChannelOfBelowNext(s, id);
    var c := s.index.ChannelOf(id);
    var t := if c > 0 then CleanedUp(out, c) else out;
    forall d | d in departed + {c} && Empty(t, d) ensures d in t.timers {
      if d != c {
        if s.index.Occupants(d) != {} { LeaveEmpties(s, out, id, d); }
        assert Empty(s, d);
      }
    }
  }

  lemma JoinPending(s: State, id: SessionId, c: ChannelId, departed: set<ChannelId>)
    requires Inv(s) && TimersPending(s, departed)
    ensures TimersPending(JoinedChannel(s, id, c), Departed(s, Join(id, c), departed))
  {
    if MayJoin(s, id, c) {
      JoinedIsOneMove(s.index, id, c);
      CoherentMeaning(s.index);
      var t := JoinedChannel(s, id, c);
      forall d | d in Departed(s, Join(id, c), departed) && Empty(t, d) ensures d in t.timers {
        assert id in t.index.Occupants(c);
        assert id !in s.index.Occupants(d);
        assert Empty(s, d);
      }
    }
  }

  lemma ChannelOfBelowNext(s: State, id: SessionId)
    requires Inv(s)
    ensures s.index.ChannelOf(id) < s.store.next
    ensures s.index.ChannelOf(id) == 0 ==> !Empty(s, 0)
    ensures id in s.index.whereIs ==> s.index.ChannelOf(id) > 0
  {
    CoherentMeaning(s.index);
    if id in s.index.whereIs { assert id in s.index.Occupants(s.index.whereIs[id]); }
  }

  lemma StepPending(s: State, a: Action, departed: set<ChannelId>)
    requires Inv(s) && Enabled(s, a) && TimersPending(s, departed)
    ensures TimersPending(Stepped(s, a), Departed(s, a, departed))
  {
    hide Relayed, Validate, Utf8Length, Index.Coherent, WithChannel;
    match a
    case Disconnect(id) =>
      ChannelOfBelowNext(s, id);
      LeaveArms(s, id, departed, s.(index := s.index.Left(id), conns := s.conns - {id}, sessions := s.sessions - {id}));
    case Leave(id) =>
      ChannelOfBelowNext(s, id);
      LeaveArms(s, id, departed, s.(index := s.index.Left(id), sessions := WithChannel(s.sessions, id, 0)));
    case Join(id, c) => JoinPending(s, id, c, departed);
    case Delete(id, c, allowed) =>
      EmptiedIsCoherent(s.index, c);
      OthersPending(s, Stepped(s, a), departed, c);
    case Voice(datagram, from) => RelayKeeps(s, datagram, from);
    case _ =>
  }

  /** A step that touches no channel but a deleted one keeps the pending timers. */
  lemma OthersPending(s: State, t: State, departed: set<ChannelId>, c: ChannelId)
    requires TimersPending(s, departed) && s.store.next == t.store.next && s.timers == t.timers
    requires t == s || (c !in t.store.rows && forall d :: d != c && d in t.store.rows ==> d in s.store.rows && t.store.rows[d] == s.store.rows[d] && t.index.Occupants(d) == s.index.Occupants(d))
    ensures TimersPending(t, departed)
  {
    if t != s {
      forall d | d in departed && Empty(t, d) ensures d in t.timers {
        assert Empty(s, d);
      }
    }
  }

  /** Over all runs: a temporary channel that exists, is empty, and was last left by a leave or a
      disconnect will be looked at by a pending timer. */
  lemma {:induction false} EveryRunKeepsTimers(s: State, acts: seq<Action>)
    requires Initial(s) && IsRun(s, acts)
    ensures TimersPending(Ran(s, acts), DepartedIn(s, acts))
  {
    if acts != [] {
      var init := acts[..|acts| - 1];
      EveryRunKeepsTimers(s, init);
      EveryRunKeepsInv(s, init);
      StepPending(Ran(s, init), acts[|acts| - 1], DepartedIn(s, init));
    }
  }

  lemma LeaveEmpties(s: State, out: State, id: SessionId, c: ChannelId)
    requires Inv(s) && out.index == s.index.Left(id) && out.store == s.store
    requires s.index.Occupants(c) != {} && c in s.store.rows && out.index.Occupants(c) == {}
    ensures s.index.ChannelOf(id) == c > 0
  {
    LeftIsOneRemoval(s.index, id);
    CoherentMeaning(s.index);
  }

  /** A step that empties a temporary channel without a timer schedules one, unless the last occupant
      went to another channel: then the channel stays without one. */
  lemma EmptyingArmsUnlessSwitched(s: State, a: Action, c: ChannelId)
    requires Inv(s) && Enabled(s, a)
    requires c in s.store.rows && s.store.rows[c].isTemp && s.index.Occupants(c) != {} && c !in s.timers
    requires Empty(Stepped(s, a), c)
    ensures c in Stepped(s, a).timers <==> !a.Join?
  {
    hide Relayed, Validate, Utf8Length, WithChannel, Inv, Index.Left, Index.Joined, Index.Emptied;
    match a
    case Disconnect(id) =>
      LeaveEmpties(s, s.(index := s.index.Left(id), conns := s.conns - {id}, sessions := s.sessions - {id}), id, c);
    case Leave(id) =>
      if id in s.sessions {
        LeaveEmpties(s, s.(index := s.index.Left(id), sessions := WithChannel(s.sessions, id, 0)), id, c);
      }
    case Delete(id, d, allowed) => DeleteEmpties(s, id, d, allowed, c);
    case Voice(datagram, from) => RelayKeeps(s, datagram, from);
    case _ =>
  }

  /** So on every run. */
  lemma EveryEmptyingArmsUnlessSwitched(s: State, acts: seq<Action>, a: Action, c: ChannelId)
    requires Initial(s) && IsRun(s, acts) && Enabled(Ran(s, acts), a)
    requires var t := Ran(s, acts); c in t.store.rows && t.store.rows[c].isTemp && t.index.Occupants(c) != {} && c !in t.timers
    requires Empty(Stepped(Ran(s, acts), a), c)
    ensures c in Stepped(Ran(s, acts), a).timers <==> !a.Join?
  {
    hide Inv, Stepped, Enabled, Empty;
    EveryRunKeepsInv(s, acts);
    EmptyingArmsUnlessSwitched(Ran(s, acts), a, c);
  }

  /** For instance: the only member of a temporary sub-channel moves to its parent. */
  lemma TempLeftBehind()
    ensures var s := State(map[], EMPTY_INDEX, Table(map[1 := LOBBY, 2 := ROOM], 3), map[], map[], multiset{});
            var acts := [Connect(1, 10, 1), Join(1, 2), Join(1, 1)];
            Initial(s) && IsRun(s, acts) && Empty(Ran(s, acts), 2) && Ran(s, acts).timers == multiset{}
  {
    hide Relayed, CreatedChannel, DeletedChannel, TimerFired, LeftChannel, Disconnected, IsRun;
    var s := State(map[], EMPTY_INDEX, Table(map[1 := LOBBY, 2 := ROOM], 3), map[], map[], multiset{});
    var a1, a2, a3 := Connect(1, 10, 1), Join(1, 2), Join(1, 1);
    NoActions(s);
    OneAction(s, [], a1);
    OneAction(s, [a1], a2);
    OneAction(s, [a1, a2], a3);
    assert [] + [a1] == [a1] && [a1] + [a2] == [a1, a2] && [a1, a2] + [a3] == [a1, a2, a3];
    var s2 := Ran(s, [a1, a2]);
    assert s2.index == EMPTY_INDEX.Joined(1, 2);
    JoinedIsOneMove(EMPTY_INDEX, 1, 2);
    JoinedIsOneMove(s2.index, 1, 1);
  }

  lemma NoActions(s: State)
    ensures Ran(s, []) == s && IsRun(s, [])
  {
  }

  lemma OneAction(s: State, acts: seq<Action>, a: Action)
    ensures Ran(s, acts + [a]) == Stepped(Ran(s, acts), a)
    ensures IsRun(s, acts + [a]) <==> IsRun(s, acts) && Enabled(Ran(s, acts), a)
  {
    hide Stepped, Enabled;
    assert (acts + [a])[..|acts|] == acts;
  }

  const LOBBY := Channel(1, "lobby", "", 0, 0, false, true)
  const ROOM := Channel(2, "room", "", 0, 1, true, false)

  lemma DeleteEmpties(s: State, id: SessionId, d: ChannelId, allowed: bool, c: ChannelId)
    requires Inv(s) && s.index.Occupants(c) != {}
    ensures !Empty(DeletedChannel(s, id, d, allowed), c)
  {
    EmptiedIsCoherent(s.index, d);
  }

  // ----- Voice -----

  /** A live, unmuted sender, speaking from its registered address (or for the first time) in the
      channel it really is in. */
  ghost predicate MaySpeak(s: State, p: VP.Packet, from: UDPAddr) {
    && p.sessionID in s.sessions && !s.sessions[p.sessionID].muted
    && (s.sessions[p.sessionID].udpAddr.Some? ==> SameSource(s.sessions[p.sessionID].udpAddr.value, from))
    && s.sessions[p.sessionID].channelID == p.channelID != 0
  }

  /** Another live member of that channel with a voice address, who is not deafened. */
  ghost predicate Hears(s: State, p: VP.Packet, m: SessionId) {
    && m != p.sessionID && m in s.sessions && s.sessions[m].channelID == p.channelID
    && s.sessions[m].udpAddr.Some? && !s.sessions[m].deafened
  }

  lemma OccupantIff(s: State, m: SessionId, c: ChannelId)
    requires Inv(s) && c != 0
    ensures m in s.index.Occupants(c) <==> m in s.sessions && s.sessions[m].channelID == c
  {
    CoherentMeaning(s.index);
  }

  /** A datagram is forwarded exactly to those who hear a sender who may speak, each at its own address. */
  lemma RelayExact(s: State, datagram: Bytes, from: UDPAddr)
    requires Inv(s)
    ensures var out := Relayed(s, datagram, from).1; var p := VP.Unmarshal(VoicePath.ReadUDP(datagram));
            && (forall m :: m in out <==> p.Some? && MaySpeak(s, p.value, from) && Hears(s, p.value, m))
            && (forall m :: m in out ==> s.sessions[m].udpAddr == Some(out[m]))
  {
    hide Inv, SameSource, VP.Unmarshal, VoicePath.ReadUDP;
    var out := Relayed(s, datagram, from).1;
    var p := VP.Unmarshal(VoicePath.ReadUDP(datagram));
    if p.Some? {
      var id := p.value.sessionID;
      if id in s.sessions { ChannelOfSession(s, id); }
      forall m ensures m in out <==> MaySpeak(s, p.value, from) && Hears(s, p.value, m) {
        if p.value.channelID != 0 { OccupantIff(s, m, p.value.channelID); }
      }
    }
  }

  /** So after every run. */
  lemma EveryRunRelaysExactly(s: State, acts: seq<Action>, datagram: Bytes, from: UDPAddr)
    requires Initial(s) && IsRun(s, acts)
    ensures var t := Ran(s, acts); var out := Relayed(t, datagram, from).1; var p := VP.Unmarshal(VoicePath.ReadUDP(datagram));
            && (forall m :: m in out <==> p.Some? && MaySpeak(t, p.value, from) && Hears(t, p.value, m))
            && (forall m :: m in out ==> t.sessions[m].udpAddr == Some(out[m]))
  {
    hide Inv, Relayed, VP.Unmarshal, VoicePath.ReadUDP;
    EveryRunKeepsInv(s, acts);
    RelayExact(Ran(s, acts), datagram, from);
  }

  lemma ChannelOfSession(s: State, id: SessionId)
    requires Inv(s) && id in s.sessions
    ensures s.index.ChannelOf(id) == s.sessions[id].channelID
  {
  }

  /** The client names its channel in 16 bits, so members of a channel with a larger id are not heard. */
  lemma LargeChannelsAreSilent(s: State, acts: seq<Action>, datagram: Bytes, from: UDPAddr, m: SessionId)
    requires Initial(s) && IsRun(s, acts) && m in Relayed(Ran(s, acts), datagram, from).1
    ensures m in Ran(s, acts).sessions && Ran(s, acts).sessions[m].channelID < 0x1_0000
  {
    hide Inv, Relayed, VP.Unmarshal, VoicePath.ReadUDP;
    EveryRunRelaysExactly(s, acts, datagram, from);
  }

  /** Once a session has a voice address it keeps it for life. */
  lemma AddressSetOnce(s: State, a: Action, id: SessionId)
    requires Inv(s) && Enabled(s, a) && id in s.sessions && s.sessions[id].udpAddr.Some?
    ensures id in Stepped(s, a).sessions ==> Stepped(s, a).sessions[id].udpAddr == s.sessions[id].udpAddr
    ensures id !in Stepped(s, a).sessions <==> a == Disconnect(id)
  {
    hide Relayed, Validate, Utf8Length, Inv, Index.Left, Index.Joined, Index.Emptied, Full;
    match a
    case Voice(datagram, from) => RelayKeeps(s, datagram, from);
    case _ =>
  }

  lemma {:induction false} AddressKeptForLife(s: State, acts: seq<Action>, i: nat, id: SessionId)
    requires Initial(s) && IsRun(s, acts) && i <= |acts|
    requires id in Ran(s, acts[..i]).sessions && Ran(s, acts[..i]).sessions[id].udpAddr.Some?
    requires forall j :: i <= j < |acts| ==> acts[j] != Disconnect(id)
    ensures id in Ran(s, acts).sessions && Ran(s, acts).sessions[id].udpAddr == Ran(s, acts[..i]).sessions[id].udpAddr
    decreases |acts|
  {
    if i == |acts| {
      assert acts[..i] == acts;
    } else {
      var init := acts[..|acts| - 1];
      assert init[..i] == acts[..i];
      AddressKeptForLife(s, init, i, id);
      EveryRunKeepsInv(s, init);
      AddressSetOnce(Ran(s, init), acts[|acts| - 1], id);
    }
  }
}
