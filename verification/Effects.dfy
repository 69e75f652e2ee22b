/** What each atomic step changes, and what it leaves alone, field by field: in terms of the records of the
    live sessions and of the rows of the store, without the functions that define the steps. */
module Effects {
  import opened Prelude
  import opened ChannelIndex
  import opened Sessions
  import opened Store
  import opened Server
  import opened AtomicRuns
  import VP = VoicePacket

  /** The live sessions that are in `c` by their own records. */
  function Members(s: State, c: ChannelId): set<SessionId> {
    set id | id in s.sessions && s.sessions[id].channelID == c
  }

  lemma MembersAreOccupants(s: State, c: ChannelId)
    requires Inv(s) && c != 0
    ensures Members(s, c) == s.index.Occupants(c)
  {
    hide Inv;
    forall id ensures id in Members(s, c) <==> id in s.index.Occupants(c) {
      OccupantIff(s, id, c);
    }
  }

  // ----- Who is live -----

  lemma LiveAfter(s: State, a: Action)
    requires Inv(s) && Enabled(s, a)
    ensures Stepped(s, a).sessions.Keys == (if a.Connect? then s.sessions.Keys + {a.id} else if a.Disconnect? then s.sessions.Keys - {a.id} else s.sessions.Keys)
    ensures Stepped(s, a).conns == (if a.Connect? then s.conns[a.id := a.conn] else if a.Disconnect? then s.conns - {a.id} else s.conns)
    ensures a.Connect? ==> Stepped(s, a).sessions[a.id] == Snapshot(a.userID, 0, None, false, false)
  {
    hide Inv, Relayed, Index.Left, Index.Joined, Index.Emptied, MayJoin, CreatedChannel, TimerFired, CleanedUp;
    match a
    case Voice(datagram, from) => RelayKeeps(s, datagram, from);
    case Create(x, req, allowed, now) => CreateSpares(s, x, req, allowed, now);
    case Timer(c) => TimerSpares(s, c);
    case Disconnect(id) => CleanupSpares(s.(index := s.index.Left(id), conns := s.conns - {id}, sessions := s.sessions - {id}), s.index.ChannelOf(id));
    case Leave(id) => CleanupSpares(s.(index := s.index.Left(id), sessions := WithChannel(s.sessions, id, 0)), s.index.ChannelOf(id));
    case _ =>
  }

  lemma CleanupSpares(s: State, c: ChannelId)
    ensures CleanedUp(s, c).sessions == s.sessions && CleanedUp(s, c).conns == s.conns
  {
  }

  // ----- The channel of a session -----

  predicate HasRoom(s: State, c: ChannelId) {
    c in s.store.rows && (s.store.rows[c].maxUsers <= 0 || |Members(s, c)| < s.store.rows[c].maxUsers)
  }

  lemma RoomIffNotFull(s: State, c: ChannelId)
    requires Inv(s)
    ensures HasRoom(s, c) <==> c in s.store.rows && !Full(s, c)
  {
    if c in s.store.rows { MembersAreOccupants(s, c); }
  }

  /** A session moves when it joins an existing channel with room, to 0 when it leaves or when its channel is
      deleted with permission, and at no other step. */
  lemma ChannelAfter(s: State, a: Action, id: SessionId)
    requires Inv(s) && Enabled(s, a) && id in s.sessions && id in Stepped(s, a).sessions
    ensures var c := s.sessions[id].channelID;
            Stepped(s, a).sessions[id].channelID ==
              if a.Join? && a.id == id && HasRoom(s, a.channel) then a.channel
              else if a.Leave? && a.id == id then 0
              else if a.Delete? && a.allowed && a.id in s.sessions && a.channel == c then 0
              else c
  {
    hide Inv, Relayed, Validate, Utf8Length, Index.Left, Index.Joined, Index.Emptied, Full, HasRoom, TooSoon, WantsTempSub, CreatedChannel, TimerFired;
    match a
    case Join(x, c) => RoomIffNotFull(s, c);
    case Delete(x, c, allowed) => Evicted(s, id, c);
    case Voice(datagram, from) => RelayKeeps(s, datagram, from);
    case Create(x, req, allowed, now) => CreateSpares(s, x, req, allowed, now);
    case Timer(c) => TimerSpares(s, c);
    case _ =>
  }

  lemma Evicted(s: State, id: SessionId, c: ChannelId)
    requires Inv(s) && id in s.sessions
    ensures MovedOut(s.sessions, s.index.Occupants(c))[id].channelID == if s.sessions[id].channelID == c then 0 else s.sessions[id].channelID
  {
    hide Index.Coherent;
    if c != 0 { OccupantIff(s, id, c); }
  }

  lemma CreateSpares(s: State, x: SessionId, req: CreateRequest, allowed: bool, now: int)
    ensures var t := CreatedChannel(s, x, req, allowed, now); t.sessions == s.sessions && t.index == s.index && t.timers == s.timers && t.conns == s.conns
  {
    hide Validate, Utf8Length, TooSoon, WantsTempSub;
  }

  lemma TimerSpares(s: State, c: ChannelId)
    ensures var t := TimerFired(s, c); t.sessions == s.sessions && t.index == s.index && t.tempChanTimes == s.tempChanTimes && t.conns == s.conns
  {
  }

  /** The index says the same as the record, so it moves in the same way. */
  lemma IndexAfter(s: State, a: Action, id: SessionId)
    requires Inv(s) && Enabled(s, a) && id in Stepped(s, a).sessions
    ensures Stepped(s, a).index.ChannelOf(id) == Stepped(s, a).sessions[id].channelID
  {
    hide Inv, Stepped;
    StepInv(s, a);
    ChannelOfSession(Stepped(s, a), id);
  }

  // ----- The other fields -----

  lemma FlagsAfter(s: State, a: Action, id: SessionId)
    requires Inv(s) && Enabled(s, a) && id in s.sessions && id in Stepped(s, a).sessions
    ensures var x, y := s.sessions[id], Stepped(s, a).sessions[id];
            && y.muted == (if a.SetState? && a.id == id then a.muted else x.muted)
            && y.deafened == (if a.SetState? && a.id == id then a.deafened else x.deafened)
            && y.userID == x.userID
  {
    hide Inv, Relayed, Validate, Utf8Length, Index.Left, Index.Joined, Index.Emptied, Full, CreatedChannel, TimerFired, CleanedUp, MayJoin;
    match a
    case Voice(datagram, from) => RelayKeeps(s, datagram, from);
    case Create(x, req, allowed, now) => CreateSpares(s, x, req, allowed, now);
    case Timer(c) => TimerSpares(s, c);
    case Disconnect(x) => CleanupSpares(s.(index := s.index.Left(x), conns := s.conns - {x}, sessions := s.sessions - {x}), s.index.ChannelOf(x));
    case Leave(x) => CleanupSpares(s.(index := s.index.Left(x), sessions := WithChannel(s.sessions, x, 0)), s.index.ChannelOf(x));
    case _ =>
  }

  /** The first 1414 bytes of a datagram name this session in their first four. */
  predicate Names(datagram: Bytes, id: SessionId) {
    |datagram| >= 14 && id == datagram[0] as int * 0x100_0000 + datagram[1] as int * 0x1_0000 + datagram[2] as int * 0x100 + datagram[3] as int
  }

  lemma NamedSession(datagram: Bytes, id: SessionId)
    ensures var p := VP.Unmarshal(VoicePath.ReadUDP(datagram));
            Names(datagram, id) <==> p.Some? && p.value.sessionID == id
  {
    var d := VoicePath.ReadUDP(datagram);
    if |d| >= 14 {
      VP.Get32Bytes(d[0..4]);
    }
  }

  /** A voice address is set exactly by the first datagram that names its session, whether or not the
      datagram is then forwarded; it is where that datagram came from, and it is never set again. */
  lemma AddressAfter(s: State, a: Action, id: SessionId)
    requires Inv(s) && Enabled(s, a) && id in s.sessions && id in Stepped(s, a).sessions
    ensures var x := s.sessions[id].udpAddr;
            Stepped(s, a).sessions[id].udpAddr ==
              if x.None? && a.Voice? && Names(a.datagram, id) then Some(a.from) else x
  {
    hide Inv, Validate, Utf8Length, Index.Left, Index.Joined, Index.Emptied, Full, TooSoon, WantsTempSub, CreatedChannel, TimerFired, Listeners, SameSource, VP.Unmarshal, VoicePath.ReadUDP, Names;
    match a
    case Voice(datagram, from) => NamedSession(datagram, id);
    case Create(x, req, allowed, now) => CreateSpares(s, x, req, allowed, now);
    case Timer(c) => TimerSpares(s, c);
    case _ =>
  }

  /** So over every run: the step that gives a live session without a voice address one is the first datagram
      that names it. */
  lemma EveryAddressSet(s: State, acts: seq<Action>, a: Action, id: SessionId)
    requires Initial(s) && IsRun(s, acts) && Enabled(Ran(s, acts), a)
    requires id in Ran(s, acts).sessions && id in Stepped(Ran(s, acts), a).sessions && Ran(s, acts).sessions[id].udpAddr.None?
    ensures Stepped(Ran(s, acts), a).sessions[id].udpAddr.Some? <==> a.Voice? && Names(a.datagram, id)
    ensures a.Voice? && Names(a.datagram, id) ==> Stepped(Ran(s, acts), a).sessions[id].udpAddr == Some(a.from)
  {
    hide Inv, Stepped, Names;
    EveryRunKeepsInv(s, acts);
    AddressAfter(Ran(s, acts), a, id);
  }

  // ----- The rows of the store -----

  /** An existing channel goes exactly by a permitted deletion that a live session asks for, or by a timer of
      its own when it is temporary and nobody is in it. */
  lemma RowGone(s: State, a: Action, c: ChannelId)
    requires Inv(s) && Enabled(s, a) && c in s.store.rows
    ensures c !in Stepped(s, a).store.rows <==>
              || (a.Delete? && a.allowed && a.id in s.sessions && a.channel == c)
              || (a.Timer? && a.channel == c && s.store.rows[c].isTemp && Members(s, c) == {})
    ensures c in Stepped(s, a).store.rows ==> Stepped(s, a).store.rows[c] == s.store.rows[c]
  {
    hide Relayed, Validate, Utf8Length, Index.Left, Index.Joined, Index.Emptied, Full, TooSoon, WantsTempSub, Members, Index.Coherent;
    MembersAreOccupants(s, c);
    match a
    case Voice(datagram, from) => RelayKeeps(s, datagram, from);
    case _ =>
  }

  /** So over every run. */
  lemma EveryRowGone(s: State, acts: seq<Action>, a: Action, c: ChannelId)
    requires Initial(s) && IsRun(s, acts) && Enabled(Ran(s, acts), a) && c in Ran(s, acts).store.rows
    ensures c !in Stepped(Ran(s, acts), a).store.rows <==>
              || (a.Delete? && a.allowed && a.id in Ran(s, acts).sessions && a.channel == c)
              || (a.Timer? && a.channel == c && Ran(s, acts).store.rows[c].isTemp && Members(Ran(s, acts), c) == {})
  {
    hide Inv, Stepped, Members;
    EveryRunKeepsInv(s, acts);
    RowGone(Ran(s, acts), a, c);
  }

  /** A request without permission, or from a session that is not live, changes nothing. */
  lemma RefusedDeletion(s: State, id: SessionId, c: ChannelId, allowed: bool)
    requires !allowed || id !in s.sessions
    ensures Stepped(s, Delete(id, c, allowed)) == s
  {
  }

  /** A permitted deletion: the channel is gone, its members are in no channel by index and record, and
      nothing else is touched. */
  lemma PermittedDeletion(s: State, id: SessionId, c: ChannelId)
    requires Inv(s) && id in s.sessions
    ensures var t := Stepped(s, Delete(id, c, true));
            && t == s.(store := t.store, index := t.index, sessions := t.sessions)
            && t.store == Table(s.store.rows - {c}, s.store.next)
            && t.sessions == (map x | x in s.sessions :: if x in Members(s, c) then s.sessions[x].(channelID := 0) else s.sessions[x])
            && t.index.whereIs == (map x | x in s.index.whereIs && s.index.whereIs[x] != c :: s.index.whereIs[x])
  {
    hide Index.Coherent, Members;
    if c != 0 {
      MembersAreOccupants(s, c);
    } else {
      NoneIn0(s);
    }
    DeletionParts(s, id, c);
  }

  lemma DeletionParts(s: State, id: SessionId, c: ChannelId)
    requires Inv(s) && id in s.sessions && (c != 0 ==> Members(s, c) == s.index.Occupants(c)) && (c == 0 ==> s.index.Occupants(c) == {})
    ensures var t := Stepped(s, Delete(id, c, true));
            t.sessions == (map x | x in s.sessions :: if x in Members(s, c) then s.sessions[x].(channelID := 0) else s.sessions[x])
  {
    var t := Stepped(s, Delete(id, c, true));
    forall x | x in s.sessions ensures t.sessions[x] == if x in Members(s, c) then s.sessions[x].(channelID := 0) else s.sessions[x] {
    }
  }

  lemma NoneIn0(s: State)
    requires Inv(s)
    ensures s.index.Occupants(0) == {}
  {
  }

  // ----- New channels -----

  /** The rules for a channel, in numbers: a name with something in it and of at most 64 characters, a
      description of at most 256, 0 to 256 users, and a parent that is not negative. */
  predicate Proper(req: CreateRequest) {
    && (exists i :: 0 <= i < |req.name| && !IsSpace(req.name[i]))
    && |req.name| <= 64 && |req.description| <= 256 && 0 <= req.maxUsers <= 256 && req.parentID >= 0
  }

  lemma ProperIff(req: CreateRequest)
    ensures Proper(req) <==> Validate(Requested(req)).None?
  {
    hide Validate;
    ValidateIs(Requested(req));
  }

  /** The length of a name in bytes: 1 for each ASCII character, up to 4 for any other, and lengths add up. */
  lemma {:induction false} BytesOfName(a: string, b: string)
    ensures Utf8Length(a + b) == Utf8Length(a) + Utf8Length(b)
    ensures |a| <= Utf8Length(a) <= 4 * |a|
    ensures (forall i :: 0 <= i < |a| ==> a[i] as int < 0x80) <==> Utf8Length(a) == |a|
    decreases |a|
  {
    if a == [] {
      assert a + b == b;
    } else {
      BytesOfName(a[1..], b);
      assert (a + b)[1..] == a[1..] + b;
      assert a == [a[0]] + a[1..];
    }
  }

  lemma BytesOfChar(c: char)
    ensures Utf8Length([c]) == (if c as int < 0x80 then 1 else if c as int < 0x800 then 2 else if c as int < 0x1_0000 then 3 else 4)
  {
    assert [c][1..] == [];
  }

  /** A session may ask for a temporary channel below one that allows it, ten seconds (in nanoseconds) after
      its user's last one; for any other channel it needs permission. The name has 1 to 64 bytes. */
  predicate Entitled(s: State, id: SessionId, req: CreateRequest, allowed: bool, now: int) {
    && id in s.sessions && 0 < Utf8Length(req.name) <= 64
    && if req.parentID > 0 && req.isTemp
       then && req.parentID in s.store.rows && s.store.rows[req.parentID].allowSubChannels
            && (s.sessions[id].userID in s.tempChanTimes ==> now - s.tempChanTimes[s.sessions[id].userID] >= 10_000_000_000)
       else allowed
  }

  lemma EntitledIff(s: State, id: SessionId, req: CreateRequest, allowed: bool, now: int)
    ensures Entitled(s, id, req, allowed, now) <==> MayCreate(s, id, req, allowed, now)
  {
    hide Utf8Length;
  }

  /** The row a request creates carries exactly what was asked for, under the next id; nothing is created for
      who is not entitled to it, or if the channel is not a proper one. The pause starts in either case. */
  lemma Creation(s: State, id: SessionId, req: CreateRequest, allowed: bool, now: int)
    ensures var t := Stepped(s, Create(id, req, allowed, now));
            && t == s.(store := t.store, tempChanTimes := t.tempChanTimes)
            && t.store == (if Entitled(s, id, req, allowed, now) && Proper(req)
                 then Table(s.store.rows[s.store.next := Channel(s.store.next, req.name, req.description, req.maxUsers, req.parentID, req.isTemp, req.allowSubChannels)], s.store.next + 1)
                 else s.store)
            && t.tempChanTimes == (if Entitled(s, id, req, allowed, now) && req.parentID > 0 && req.isTemp
                 then s.tempChanTimes[s.sessions[id].userID := now] else s.tempChanTimes)
  {
    hide Utf8Length, Validate, Proper, Entitled, MayCreate;
    ProperIff(req);
    EntitledIff(s, id, req, allowed, now);
    EntitledIsLive(s, id, req, allowed, now);
  }

  lemma EntitledIsLive(s: State, id: SessionId, req: CreateRequest, allowed: bool, now: int)
    ensures Entitled(s, id, req, allowed, now) ==> id in s.sessions
  {
  }

  /** No other step but an import adds a channel. */
  lemma RowNew(s: State, a: Action, c: ChannelId)
    requires Inv(s) && Enabled(s, a) && c !in s.store.rows && c in Stepped(s, a).store.rows
    ensures (a.Create? && c == s.store.next) || (a.Import? && s.store.next <= c)
  {
    hide Relayed, Validate, Utf8Length, Index.Left, Index.Joined, Index.Emptied, Full, TooSoon, WantsTempSub, Index.Coherent;
    match a
    case Voice(datagram, from) => RelayKeeps(s, datagram, from);
    case _ =>
  }

  // ----- Timers -----

  /** A timer starts exactly when the last member of an existing temporary channel leaves it or disconnects;
      one ends exactly when it goes off. */
  lemma TimersAfter(s: State, a: Action, c: ChannelId)
    requires Inv(s) && Enabled(s, a)
    ensures Stepped(s, a).timers[c] ==
              if (a.Leave? || a.Disconnect?) && c in s.store.rows && s.store.rows[c].isTemp && Members(s, c) == {a.id} then s.timers[c] + 1
              else if a.Timer? && a.channel == c then s.timers[c] - 1
              else s.timers[c]
  {
    hide Relayed, Validate, Utf8Length, Index.Left, Index.Joined, Index.Emptied, Full, TooSoon, WantsTempSub, Members, Index.Coherent, CreatedChannel, TimerFired, MayJoin, MovedOut, WithChannel, Inv;
    match a
    case Disconnect(id) => LastOut(s, id, c);
    case Leave(id) => LastOut(s, id, c);
    case Voice(datagram, from) => RelayKeeps(s, datagram, from);
    case Create(x, req, allowed, now) => CreateSpares(s, x, req, allowed, now);
    case Timer(d) => OneLess(s, d);
    case _ =>
  }

  lemma OneLess(s: State, d: ChannelId)
    ensures TimerFired(s, d).timers == s.timers - multiset{d}
  {
  }

  lemma LastOut(s: State, id: SessionId, c: ChannelId)
    requires Inv(s)
    ensures var d := s.index.ChannelOf(id);
            c in s.store.rows ==> (Members(s, c) == {id} <==> c == d > 0 && s.index.Left(id).Occupants(c) == {})
    ensures id !in s.sessions ==> id !in Members(s, c)
  {
    hide Index.Coherent, Index.Left;
    LeftIsOneRemoval(s.index, id);
    if c in s.store.rows {
      MembersAreOccupants(s, c);
      OccupantIff(s, id, c);
      if id in s.sessions { ChannelOfSession(s, id); }
      ChannelOfBelowNext(s, id);
    }
  }
}
