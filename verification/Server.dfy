/** The server's handlers (pkg/server/control.go) and its voice relay (pkg/server/voice.go), each as
    one atomic step on the whole state. Sending to connections changes no state and is left out;
    a connection is a token. */
module Server {
  import opened Prelude
  import opened ChannelIndex
  import opened Sessions
  import opened Store
  import CI = ChannelImport
  import CE = ChannelExport
  import VP = VoicePacket
  import VoicePath

  type ConnToken = nat

  /** `timers` are the goroutines sleeping before they delete a temporary channel. */
  datatype State = State(
    sessions: SessionTable, index: Index, store: Table, conns: map<SessionId, ConnToken>,
    tempChanTimes: map<int, int>, timers: multiset<int>)

  /** A creation request whose texts have been trimmed, stripped of control characters and cut. */
  datatype CreateRequest = CreateRequest(
    name: string, description: string, maxUsers: int, parentID: int, isTemp: bool, allowSubChannels: bool)

  const MAX_NAME_BYTES := 64

  /** Ten seconds, in nanoseconds. */
  const TEMP_CHANNEL_PAUSE := 10_000_000_000

  /** Length in UTF-8, which is what Go's `len` counts. */
  function Utf8Length(s: string): nat {
    if s == [] then 0
    else (if s[0] as int < 0x80 then 1 else if s[0] as int < 0x800 then 2 else if s[0] as int < 0x1_0000 then 3 else 4) + Utf8Length(s[1..])
  }

  // ----- The steps -----

  function Connected(s: State, id: SessionId, userID: int, conn: ConnToken): State {
    s.(sessions := s.sessions[id := NewSession(userID)], conns := s.conns[id := conn])
  }

  /** Schedules the deletion of an empty temporary channel. */
  function CleanedUp(s: State, c: ChannelId): State {
    if c in s.store.rows && s.store.rows[c].isTemp && s.index.Occupants(c) == {} then s.(timers := s.timers + multiset{c}) else s
  }

  function Disconnected(s: State, id: SessionId): State {
    var c := s.index.ChannelOf(id);
    var gone := s.(index := s.index.Left(id), conns := s.conns - {id}, sessions := s.sessions - {id});
    if c > 0 then CleanedUp(gone, c) else gone
  }

  predicate Full(s: State, c: ChannelId) {
    c in s.store.rows && s.store.rows[c].maxUsers > 0 && |s.index.Occupants(c)| >= s.store.rows[c].maxUsers
  }

  predicate MayJoin(s: State, id: SessionId, c: ChannelId) {
    id in s.sessions && c in s.store.rows && !Full(s, c)
  }

  function JoinedChannel(s: State, id: SessionId, c: ChannelId): State {
    if MayJoin(s, id, c) then s.(index := s.index.Joined(id, c), sessions := WithChannel(s.sessions, id, c)) else s
  }

  function LeftChannel(s: State, id: SessionId): State {
    if id !in s.sessions then s
    else
      var c := s.index.ChannelOf(id);
      var out := s.(index := s.index.Left(id), sessions := WithChannel(s.sessions, id, 0));
      if c > 0 then CleanedUp(out, c) else out
  }

  function MovedOut(t: SessionTable, ids: set<SessionId>): SessionTable {
    map id | id in t :: if id in ids then t[id].(channelID := 0) else t[id]
  }

  function DeletedChannel(s: State, id: SessionId, c: ChannelId, allowed: bool): State {
    if id !in s.sessions || !allowed then s
    else s.(store := s.store.Dropped(c), index := s.index.Emptied(c), sessions := MovedOut(s.sessions, s.index.Occupants(c)))
  }

  predicate WantsTempSub(req: CreateRequest) {
    req.parentID > 0 && req.isTemp
  }

  predicate TooSoon(s: State, user: int, now: int) {
    user in s.tempChanTimes && now - s.tempChanTimes[user] < TEMP_CHANNEL_PAUSE
  }

  predicate MayCreate(s: State, id: SessionId, req: CreateRequest, allowed: bool, now: int) {
    && id in s.sessions && 0 < Utf8Length(req.name) <= MAX_NAME_BYTES
    && if WantsTempSub(req)
       then req.parentID in s.store.rows && s.store.rows[req.parentID].allowSubChannels && !TooSoon(s, s.sessions[id].userID, now)
       else allowed
  }

  function Requested(req: CreateRequest): Channel {
    Channel(0, req.name, req.description, req.maxUsers, req.parentID, req.isTemp, req.allowSubChannels)
  }

  /** The pause between two temporary channels starts even if the channel then fails validation. */
  function CreatedChannel(s: State, id: SessionId, req: CreateRequest, allowed: bool, now: int): State {
    if !MayCreate(s, id, req, allowed, now) then s
    else
      var paused := if WantsTempSub(req) then s.(tempChanTimes := s.tempChanTimes[s.sessions[id].userID := now]) else s;
      if Validate(Requested(req)).Some? then paused else paused.(store := s.store.Added(Requested(req)))
  }

  function UserStateSet(s: State, id: SessionId, muted: bool, deafened: bool): State {
    s.(sessions := WithState(s.sessions, id, muted, deafened))
  }

  /** A timer goes off: the channel is deleted unless somebody is in it. */
  function TimerFired(s: State, c: ChannelId): State {
    var rest := s.(timers := s.timers - multiset{c});
    if s.index.Occupants(c) != {} then rest else rest.(store := s.store.Dropped(c))
  }

  /** Who would hear a sender in `c`: the other occupants with a voice address who are not deafened. */
  function Listeners(s: State, sender: SessionId, c: ChannelId): map<SessionId, UDPAddr> {
    map m | m in s.index.Occupants(c) && m != sender && m in s.sessions && s.sessions[m].udpAddr.Some? && !s.sessions[m].deafened
      :: s.sessions[m].udpAddr.value
  }

  predicate SourceOk(s: State, id: SessionId, from: UDPAddr) {
    id in s.sessions && (s.sessions[id].udpAddr.Some? ==> SameSource(s.sessions[id].udpAddr.value, from))
  }

  /** One datagram: the state afterwards, and to whom it is forwarded. The first packet of a session
      registers its address, even if the packet is then dropped. */
  function Relayed(s: State, datagram: Bytes, from: UDPAddr): (State, map<SessionId, UDPAddr>) {
    var pkt := VP.Unmarshal(VoicePath.ReadUDP(datagram));
    if pkt.None? || !SourceOk(s, pkt.value.sessionID, from) then (s, map[])
    else
      var id := pkt.value.sessionID;
      var known := if s.sessions[id].udpAddr.None? then s.(sessions := WithAddr(s.sessions, id, from)) else s;
      var c := s.index.ChannelOf(id);
      if s.sessions[id].muted || c == 0 || c != pkt.value.channelID then (known, map[])
      else (known, Listeners(known, id, c))
  }

  // ----- The handlers -----

  class ControlHandler {
    const sessions: SessionManager
    const channels: ChannelManager
    const store: MemoryStore
    var connMap: map<SessionId, ConnToken>
    var tempChanTimes: map<int, int>
    var timers: multiset<int>

    ghost predicate Valid()
      reads this, sessions, sessions.sessions.Values, channels, store
    {
      sessions.Valid() && channels.View().Coherent() && store.View().WellFormed()
    }

    ghost function View(): State
      reads this, sessions, sessions.sessions.Values, channels, store
    {
      State(sessions.View(), channels.View(), store.View(), connMap, tempChanTimes, timers)
    }

    constructor (store: MemoryStore)
      requires store.View().WellFormed()
      ensures Valid() && View() == State(map[], EMPTY_INDEX, store.View(), map[], map[], multiset{})
      ensures fresh(sessions) && fresh(channels) && this.store == store
    {
      this.store := store;
      sessions := new SessionManager();
      channels := new ChannelManager();
      connMap, tempChanTimes, timers := map[], map[], multiset{};
    }

    /** After authentication: a session is created and its connection registered. `None` when
        every drawn id was unusable. */
    method Connect(userID: int, conn: ConnToken, draws: seq<SessionId>) returns (r: Option<SessionId>)
      requires Valid()
      modifies this, sessions
      ensures Valid()
      ensures r.Some? ==> r.value != 0 && r.value !in old(View()).sessions && View() == Connected(old(View()), r.value, userID, conn)
      ensures r.None? ==> View() == old(View())
    {
      hide SessionManager.View, SessionManager.Valid, ChannelManager.View, MemoryStore.View, Index.Joined, Index.Left, Index.Coherent, Table.WellFormed, Table.Added, Table.Dropped, Validate;
      r := sessions.Create(userID, draws);
      if r.Some? {
        connMap := connMap[r.value := conn];
      }
    }

    method CleanupTempChannel(channelID: ChannelId)
      requires Valid()
      modifies this`timers
      ensures View() == CleanedUp(old(View()), channelID)
    {
      hide SessionManager.View, SessionManager.Valid, ChannelManager.View, MemoryStore.View, Index.Joined, Index.Left, Index.Coherent, Table.WellFormed, Table.Added, Table.Dropped, Validate;
      var ch := store.GetChannel(channelID);
      if ch.None? || !ch.value.isTemp {
        return;
      }
      var count := channels.MembersCount(channelID);
      if count > 0 {
        return;
      }
      timers := timers + multiset{channelID};
    }

    /** The deferred cleanup of a connection. */
    method Disconnect(id: SessionId)
      requires Valid()
      modifies this, sessions, channels
      ensures Valid() && View() == Disconnected(old(View()), id)
    {
      hide SessionManager.View, SessionManager.Valid, ChannelManager.View, MemoryStore.View, Index.Joined, Index.Left, Index.Coherent, Table.WellFormed, Table.Added, Table.Dropped, Validate;
      StepsKeepCoherence(channels.View(), id, 0);
      var c := channels.Leave(id);
      connMap := connMap - {id};
      sessions.Remove(id);
      if c > 0 {
        CleanupTempChannel(c);
      }
    }

    method HandleJoinChannel(id: SessionId, channelID: ChannelId)
      requires Valid()
      modifies channels, sessions.sessions.Values
      ensures Valid() && View() == JoinedChannel(old(View()), id, channelID)
    {
      hide SessionManager.View, SessionManager.Valid, ChannelManager.View, MemoryStore.View, Index.Joined, Index.Left, Index.Coherent, WithChannel, Table.WellFormed;
      var session := sessions.GetSnapshot(id);
      if session.None? {
        return;
      }
      var ch := store.GetChannel(channelID);
      if ch.None? {
        return;
      }
      OwnId(store.View(), channelID);
      if ch.value.maxUsers > 0 {
        var count := channels.MembersCount(ch.value.id);
        if count >= ch.value.maxUsers {
          return;
        }
      }
      StepsKeepCoherence(channels.View(), id, ch.value.id);
      var prev := channels.Join(id, ch.value.id);
      sessions.SetChannel(id, ch.value.id);
    }

    method HandleLeaveChannel(id: SessionId)
      requires Valid()
      modifies this, channels, sessions.sessions.Values
      ensures Valid() && View() == LeftChannel(old(View()), id)
    {
      hide SessionManager.View, SessionManager.Valid, ChannelManager.View, MemoryStore.View, Index.Joined, Index.Left, Index.Coherent, Table.WellFormed, Table.Added, Table.Dropped, Validate, WithChannel;
      var session := sessions.GetSnapshot(id);
      if session.None? {
        return;
      }
      StepsKeepCoherence(channels.View(), id, 0);
      var c := channels.Leave(id);
      sessions.SetChannel(id, 0);
      if c > 0 {
        CleanupTempChannel(c);
      }
    }

    method HandleDeleteChannel(id: SessionId, channelID: ChannelId, allowed: bool)
      requires Valid()
      modifies store, channels, sessions.sessions.Values
      ensures Valid() && View() == DeletedChannel(old(View()), id, channelID, allowed)
    {
      hide SessionManager.View, SessionManager.Valid, ChannelManager.View, MemoryStore.View, Index.Left, Index.Coherent, Table.WellFormed, Table.Dropped, Index.Emptied, LeftAll, MovedOut, WithChannel;
      var session := sessions.GetSnapshot(id);
      if session.None? || !allowed {
        return;
      }
      store.DeleteChannel(channelID);
      var members := channels.Members(channelID);
      ghost var ix, t := channels.View(), sessions.View();
      NoneOut(ix, t, members);
      for i := 0 to |members|
        invariant sessions.Valid() && store.View() == old(store.View()).Dropped(channelID) && store.View().WellFormed()
        invariant channels.View() == LeftAll(ix, members[..i])
        invariant sessions.View() == MovedOut(t, Elements(members[..i]))
      {
        OneMoreOut(ix, t, members, i);
        var _ := channels.Leave(members[i]);
        sessions.SetChannel(members[i], 0);
      }
      assert members[..|members|] == members;
      LeftAllEmpties(ix, channelID, members);
      EmptiedIsCoherent(ix, channelID);
    }

    method HandleCreateChannel(id: SessionId, req: CreateRequest, allowed: bool, now: int)
      requires Valid()
      modifies this`tempChanTimes, store
      ensures Valid() && View() == CreatedChannel(old(View()), id, req, allowed, now)
    {
      hide SessionManager.View, SessionManager.Valid, ChannelManager.View, MemoryStore.View, Index.Joined, Index.Left, Index.Coherent, Table.WellFormed, Table.Added, Table.Dropped, Validate, Utf8Length;
      var session := sessions.GetSnapshot(id);
      if session.None? || Utf8Length(req.name) == 0 || Utf8Length(req.name) > MAX_NAME_BYTES {
        return;
      }
      if req.parentID > 0 && req.isTemp {
        var parent := store.GetChannel(req.parentID);
        if parent.None? || !parent.value.allowSubChannels {
          return;
        }
        var user := session.value.userID;
        if user in tempChanTimes && now - tempChanTimes[user] < TEMP_CHANNEL_PAUSE {
          return;
        }
        tempChanTimes := tempChanTimes[user := now];
      } else if !allowed {
        return;
      }
      var newID, err := store.CreateChannel(Requested(req));
    }

    /** Which rows an import adds is described by `ChannelImport`. */
    method HandleImportChannels(id: SessionId, cfg: seq<CE.ChannelYAML>, allowed: bool)
      requires Valid()
      modifies store
      ensures Valid() && View() == old(View()).(store := View().store)
      ensures id !in old(View()).sessions || !allowed ==> View() == old(View())
      ensures old(View()).store.GrownTo(View().store)
      ensures id in old(View()).sessions && allowed ==> CI.MayImport(old(View()).store, cfg, View().store)
      ensures id in old(View()).sessions && allowed && old(View()).store.UniqueNames() ==> View().store == CI.Imported(old(View()).store, cfg)
    {
      hide SessionManager.View, SessionManager.Valid, ChannelManager.View, MemoryStore.View;
      var session := sessions.GetSnapshot(id);
      if session.None? || !allowed {
        return;
      }
      CI.ImportChannels(store, cfg);
    }

    method HandleUserState(id: SessionId, muted: bool, deafened: bool)
      requires Valid()
      modifies sessions.sessions.Values
      ensures Valid() && View() == UserStateSet(old(View()), id, muted, deafened)
    {
      hide SessionManager.View, SessionManager.Valid, ChannelManager.View, MemoryStore.View;
      sessions.UpdateUserState(id, muted, deafened);
    }

    /** A sleeping goroutine of `CleanupTempChannel` wakes up. */
    method FireTimer(channelID: ChannelId)
      requires Valid() && channelID in timers
      modifies this`timers, store
      ensures Valid() && View() == TimerFired(old(View()), channelID)
    {
      hide SessionManager.View, SessionManager.Valid, ChannelManager.View, MemoryStore.View, Index.Joined, Index.Left, Index.Coherent, Table.WellFormed, Table.Added, Table.Dropped, Validate;
      timers := timers - multiset{channelID};
      var count := channels.MembersCount(channelID);
      if count > 0 {
        return;
      }
      store.DeleteChannel(channelID);
    }

    /** The body of the voice loop for one datagram. */
    method RelayPacket(datagram: Bytes, from: UDPAddr) returns (sent: seq<(SessionId, UDPAddr)>)
      requires Valid()
      modifies sessions.sessions.Values
      ensures Valid() && View() == Relayed(old(View()), datagram, from).0
      ensures IsSending(sent, Relayed(old(View()), datagram, from).1)
    {
      hide SessionManager.View, SessionManager.Valid, ChannelManager.View, MemoryStore.View, Index.Joined, Index.Left, Index.Coherent, Table.WellFormed, Table.Added, Table.Dropped, Validate, Listeners, IsSending, SameSource, VP.Unmarshal, WithAddr;
      sent := [];
      SendingNone();
      var pkt := VP.Unmarshal(VoicePath.ReadUDP(datagram));
      if pkt.None? {
        return;
      }
      var id := pkt.value.sessionID;
      var session := sessions.GetSnapshot(id);
      if session.None? {
        return;
      }
      if session.value.udpAddr.None? {
        sessions.SetUDPAddr(id, from);
      } else if !SameSource(session.value.udpAddr.value, from) {
        return;
      }
      if session.value.muted {
        return;
      }
      var actual := channels.ChannelOf(id);
      if actual == 0 || actual != pkt.value.channelID {
        return;
      }
      sent := Forward(id, actual);
    }

    method Forward(sender: SessionId, channelID: ChannelId) returns (sent: seq<(SessionId, UDPAddr)>)
      ensures IsSending(sent, Listeners(View(), sender, channelID))
    {
      hide SessionManager.View, SessionManager.Valid, ChannelManager.View, MemoryStore.View, Listeners, Chosen, IsSending;
      sent := [];
      var members := channels.Members(channelID);
      ghost var all := Listeners(View(), sender, channelID);
      SendingNone();
      ChosenEnds(View(), sender, channelID, members);
      for i := 0 to |members|
        invariant IsSending(sent, Chosen(all, members[..i]))
      {
        var m := members[i];
        SendingMore(sent, all, members, i);
        assert m in Elements(members);
        ListenerIff(View(), sender, channelID, m);
        if m != sender {
          var member := sessions.GetSnapshot(m);
          if member.Some? && member.value.udpAddr.Some? && !member.value.deafened {
            sent := sent + [(m, member.value.udpAddr.value)];
          }
        }
      }
      assert members[..|members|] == members;
    }
  }

  lemma SendingNone()
    ensures IsSending([], map[])
  {
  }

  lemma SendingOne(sent: seq<(SessionId, UDPAddr)>, to: map<SessionId, UDPAddr>, m: SessionId, a: UDPAddr)
    requires IsSending(sent, to) && m !in to
    ensures IsSending(sent + [(m, a)], to[m := a])
  {
    var more, after := sent + [(m, a)], to[m := a];
    forall k | k in after ensures exists j :: 0 <= j < |more| && more[j].0 == k {
      if k == m {
        assert more[|sent|].0 == k;
      } else {
        var j :| 0 <= j < |sent| && sent[j].0 == k;
        assert more[j].0 == k;
      }
    }
  }

  function Chosen(all: map<SessionId, UDPAddr>, members: seq<SessionId>): map<SessionId, UDPAddr> {
    map m | m in all && m in members :: all[m]
  }

  lemma ChosenEnds(s: State, sender: SessionId, c: ChannelId, members: seq<SessionId>)
    requires Elements(members) == s.index.Occupants(c)
    ensures Chosen(Listeners(s, sender, c), members[..0]) == map[]
    ensures Chosen(Listeners(s, sender, c), members) == Listeners(s, sender, c)
  {
    assert forall m :: m in Listeners(s, sender, c) ==> m in Elements(members);
  }

  lemma ListenerIff(s: State, sender: SessionId, c: ChannelId, m: SessionId)
    requires m in s.index.Occupants(c)
    ensures m in Listeners(s, sender, c) <==> m != sender && m in s.sessions && s.sessions[m].udpAddr.Some? && !s.sessions[m].deafened
    ensures m in Listeners(s, sender, c) ==> Listeners(s, sender, c)[m] == s.sessions[m].udpAddr.value
  {
  }

  lemma OwnId(t: Table, c: ChannelId)
    requires t.WellFormed() && c in t.rows
    ensures t.rows[c].id == c
  {
  }

  lemma SendingMore(sent: seq<(SessionId, UDPAddr)>, all: map<SessionId, UDPAddr>, members: seq<SessionId>, i: nat)
    requires i < |members| && NoDuplicates(members) && IsSending(sent, Chosen(all, members[..i]))
    ensures IsSending(if members[i] in all then sent + [(members[i], all[members[i]])] else sent, Chosen(all, members[..i + 1]))
  {
    hide IsSending;
    var m := members[i];
    assert members[..i + 1] == members[..i] + [m];
    var before := Chosen(all, members[..i]);
    if m in all {
      SendingOne(sent, before, m, all[m]);
      assert Chosen(all, members[..i + 1]) == before[m := all[m]];
    } else {
      assert Chosen(all, members[..i + 1]) == before;
    }
  }

  lemma NoneOut(ix: Index, t: SessionTable, members: seq<SessionId>)
    ensures LeftAll(ix, members[..0]) == ix && MovedOut(t, Elements(members[..0])) == t
  {
  }

  lemma OneMoreOut(ix: Index, t: SessionTable, members: seq<SessionId>, i: nat)
    requires i < |members|
    ensures LeftAll(ix, members[..i + 1]) == LeftAll(ix, members[..i]).Left(members[i])
    ensures MovedOut(t, Elements(members[..i + 1])) == WithChannel(MovedOut(t, Elements(members[..i])), members[i], 0)
  {
    assert members[..i + 1][..i] == members[..i] && members[..i + 1] == members[..i] + [members[i]];
    assert Elements(members[..i + 1]) == Elements(members[..i]) + {members[i]};
  }

  /** Each pair of the map is sent exactly once, in some order. */
  ghost predicate IsSending(sent: seq<(SessionId, UDPAddr)>, to: map<SessionId, UDPAddr>) {
    && (forall i :: 0 <= i < |sent| ==> sent[i].0 in to && to[sent[i].0] == sent[i].1)
    && (forall m :: m in to ==> exists i :: 0 <= i < |sent| && sent[i].0 == m)
    && (forall i, j :: 0 <= i < j < |sent| ==> sent[i].0 != sent[j].0)
  }
}
