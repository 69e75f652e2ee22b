/** Exactly which empty temporary channels have a timer pending, over all runs of atomic steps. */
module TempTimers {
  import opened Prelude
  import opened ChannelIndex
  import opened Sessions
  import opened Store
  import opened Server
  import opened AtomicRuns

  /** How a channel was last emptied: by a leave or disconnect, or by its last member joining another
      channel, and then whether a timer was pending at that moment. */
  datatype Emptying = ByDeparture | BySwitch(watched: bool)

  /** The channels somebody has entered so far. */
  function EnteredAfter(s: State, a: Action, before: set<ChannelId>): set<ChannelId> {
    match a
    case Join(id, c) => if MayJoin(s, id, c) then before + {c} else before
    case _ => before
  }

  /** How each channel was last emptied, if it was. */
  function EmptiedAfter(s: State, a: Action, before: map<ChannelId, Emptying>): map<ChannelId, Emptying> {
    match a
    case Disconnect(id) => if LastIn(s, id) then before[s.index.ChannelOf(id) := ByDeparture] else before
    case Leave(id) => if LastIn(s, id) then before[s.index.ChannelOf(id) := ByDeparture] else before
    case Join(id, c) =>
      var d := s.index.ChannelOf(id);
      if MayJoin(s, id, c) && d != c && LastIn(s, id) then before[d := BySwitch(d in s.timers)] else before
    case _ => before
  }

  predicate LastIn(s: State, id: SessionId) {
    s.index.Occupants(s.index.ChannelOf(id)) == {id}
  }

  function EnteredIn(s: State, acts: seq<Action>): set<ChannelId> {
    if acts == [] then {}
    else EnteredAfter(Ran(s, acts[..|acts| - 1]), acts[|acts| - 1], EnteredIn(s, acts[..|acts| - 1]))
  }

  function EmptiedIn(s: State, acts: seq<Action>): map<ChannelId, Emptying> {
    if acts == [] then map[]
    else EmptiedAfter(Ran(s, acts[..|acts| - 1]), acts[|acts| - 1], EmptiedIn(s, acts[..|acts| - 1]))
  }

  /** What the histories say about the state. */
  ghost predicate Watch(s: State, entered: set<ChannelId>, emptied: map<ChannelId, Emptying>) {
    forall c :: WatchOne(s, entered, emptied, c)
  }

  ghost predicate WatchOne(s: State, entered: set<ChannelId>, emptied: map<ChannelId, Emptying>, c: ChannelId) {
    && (c in entered ==> c < s.store.next)
    && (s.index.Occupants(c) != {} || c in s.timers || c in emptied ==> c in entered)
    && (c in entered && c in s.store.rows ==> s.index.Occupants(c) != {} || c in emptied)
    && (c in emptied && Empty(s, c) ==> (c in s.timers <==> emptied[c] != BySwitch(false)))
  }

  lemma WatchHere(s: State, entered: set<ChannelId>, emptied: map<ChannelId, Emptying>)
    requires Watch(s, entered, emptied)
    ensures forall c :: WatchOne(s, entered, emptied, c)
  {
  }

  lemma Located(s: State, id: SessionId, c: ChannelId)
    requires Inv(s)
    ensures id in s.index.Occupants(c) <==> c == s.index.ChannelOf(id) && c > 0
  {
    CoherentMeaning(s.index);
    ChannelOfBelowNext(s, id);
  }

  /** Channels whose row, occupants and timers stay, or that are gone. */
  lemma SameOne(s: State, t: State, entered: set<ChannelId>, emptied: map<ChannelId, Emptying>, c: ChannelId)
    requires WatchOne(s, entered, emptied, c) && s.store.next <= t.store.next
    requires t.index.Occupants(c) == s.index.Occupants(c) || (c !in t.store.rows && t.index.Occupants(c) == {})
    requires c in t.timers ==> c in s.timers
    requires c in t.store.rows && c < s.store.next ==> c in s.store.rows && t.store.rows[c] == s.store.rows[c]
    requires c in t.store.rows && c in s.timers && s.index.Occupants(c) == {} ==> c in t.timers
    ensures WatchOne(t, entered, emptied, c)
  {
  }

  /** The channel a session has left. */
  lemma OutHere(s: State, t: State, id: SessionId, entered: set<ChannelId>, emptied: map<ChannelId, Emptying>)
    requires var d := s.index.ChannelOf(id);
             && WatchOne(s, entered, emptied, d) && d > 0 && t.index.Occupants(d) == s.index.Occupants(d) - {id}
             && t.store == s.store && t.timers == (if d in s.store.rows && s.store.rows[d].isTemp && t.index.Occupants(d) == {} then s.timers + multiset{d} else s.timers)
             && id in s.index.Occupants(d)
    ensures var d := s.index.ChannelOf(id); WatchOne(t, entered, if LastIn(s, id) then emptied[d := ByDeparture] else emptied, d)
  {
    hide Index.Occupants, Index.ChannelOf;
    var d := s.index.ChannelOf(id);
    assert s.index.Occupants(d) == {id} ==> t.index.Occupants(d) == {};
    assert t.index.Occupants(d) == {} && id in s.index.Occupants(d) ==> s.index.Occupants(d) == {id};
    assert id in s.index.Occupants(d) ==> s.index.Occupants(d) != {};
  }

  lemma OutOne(s: State, out: State, id: SessionId, entered: set<ChannelId>, emptied: map<ChannelId, Emptying>, c: ChannelId)
    requires Inv(s) && WatchOne(s, entered, emptied, c)
    requires out.index == s.index.Left(id) && out.store == s.store && out.timers == s.timers
    ensures var d := s.index.ChannelOf(id);
            WatchOne(if d > 0 then CleanedUp(out, d) else out, entered, if LastIn(s, id) then emptied[d := ByDeparture] else emptied, c)
  {
    hide Index.Left, Index.Coherent, Inv, WatchOne;
    var d := s.index.ChannelOf(id);
    var t := if d > 0 then CleanedUp(out, d) else out;
    LeftParts(s, id, c);
    if c == d && d > 0 {
      OutHere(s, t, id, entered, emptied);
    } else {
      SameOne(s, t, entered, emptied, c);
      if c != d { OtherKey(t, entered, emptied, d, ByDeparture, c); }
    }
  }

  lemma OtherKey(t: State, entered: set<ChannelId>, emptied: map<ChannelId, Emptying>, d: ChannelId, how: Emptying, c: ChannelId)
    requires WatchOne(t, entered, emptied, c) && c != d
    ensures WatchOne(t, entered, emptied[d := how], c)
  {
  }

  lemma LeftParts(s: State, id: SessionId, c: ChannelId)
    requires Inv(s)
    ensures var d := s.index.ChannelOf(id);
            && s.index.Left(id).Occupants(c) == s.index.Occupants(c) - {id}
            && (id in s.index.Occupants(c) <==> c == d > 0)
            && (d <= 0 ==> d == 0 && !LastIn(s, id))
  {
    LeftIsOneRemoval(s.index, id);
    Located(s, id, c);
    Located(s, id, s.index.ChannelOf(id));
    ChannelOfBelowNext(s, id);
  }

  lemma JoinOne(s: State, id: SessionId, d: ChannelId, entered: set<ChannelId>, emptied: map<ChannelId, Emptying>, c: ChannelId)
    requires Inv(s) && WatchOne(s, entered, emptied, c) && MayJoin(s, id, d)
    ensures WatchOne(JoinedChannel(s, id, d), EnteredAfter(s, Join(id, d), entered), EmptiedAfter(s, Join(id, d), emptied), c)
  {
    hide Index.Joined, Index.Coherent, Inv;
    var t := JoinedChannel(s, id, d);
    JoinedParts(s, id, d, c);
    assert t.index.Occupants(c) == if c == d then s.index.Occupants(c) + {id} else s.index.Occupants(c) - {id};
    assert id in t.index.Occupants(d) by { JoinedParts(s, id, d, d); }
    LeftParts(s, id, c);
    if c == d {
      assert t.index.Occupants(c) != {};
    } else if c == s.index.ChannelOf(id) && LastIn(s, id) {
      assert t.index.Occupants(c) == {};
    } else {
      assert s.index.Occupants(c) != {} ==> t.index.Occupants(c) != {};
    }
  }

  lemma JoinedParts(s: State, id: SessionId, d: ChannelId, c: ChannelId)
    requires Inv(s) && MayJoin(s, id, d)
    ensures s.index.Joined(id, d).Occupants(c) == (if c == d then s.index.Occupants(c) + {id} else s.index.Occupants(c) - {id})
    ensures d < s.store.next
  {
    JoinedIsOneMove(s.index, id, d);
  }

  lemma StepOne(s: State, a: Action, entered: set<ChannelId>, emptied: map<ChannelId, Emptying>, c: ChannelId)
    requires Inv(s) && Enabled(s, a) && Watch(s, entered, emptied)
    ensures WatchOne(Stepped(s, a), EnteredAfter(s, a, entered), EmptiedAfter(s, a, emptied), c)
  {
    hide Relayed, Validate, Utf8Length, WithChannel, Watch, WatchOne, Index.Left, Index.Joined, Index.Emptied, Inv;
    hide CreatedChannel, DeletedChannel, TimerFired, CleanedUp, LastIn, MayJoin;
    WatchHere(s, entered, emptied);
    match a
    case Disconnect(id) =>
      OutOne(s, s.(index := s.index.Left(id), conns := s.conns - {id}, sessions := s.sessions - {id}), id, entered, emptied, c);
    case Leave(id) =>
      if id in s.sessions {
        OutOne(s, s.(index := s.index.Left(id), sessions := WithChannel(s.sessions, id, 0)), id, entered, emptied, c);
      } else {
        NotLive(s, id);
      }
    case Join(id, d) => if MayJoin(s, id, d) { JoinOne(s, id, d, entered, emptied, c); }
    case _ => OtherOne(s, a, entered, emptied, c);
  }

  lemma OtherOne(s: State, a: Action, entered: set<ChannelId>, emptied: map<ChannelId, Emptying>, c: ChannelId)
    requires Inv(s) && Enabled(s, a) && WatchOne(s, entered, emptied, c) && !a.Disconnect? && !a.Leave? && !a.Join?
    ensures WatchOne(Stepped(s, a), entered, emptied, c)
  {
    hide Relayed, Validate, Utf8Length, WatchOne, Index.Left, Index.Joined, Index.Emptied, Inv, TooSoon, WantsTempSub;
    NextGrows(s, a);
    match a {
      case Delete(id, d, allowed) => EmptiedOccupants(s, d);
      case Voice(datagram, from) => RelayKeeps(s, datagram, from);
      case _ =>
    }
    SameOne(s, Stepped(s, a), entered, emptied, c);
  }

  lemma EmptiedOccupants(s: State, d: ChannelId)
    requires Inv(s)
    ensures forall c :: s.index.Emptied(d).Occupants(c) == if c == d then {} else s.index.Occupants(c)
  {
    EmptiedIsCoherent(s.index, d);
  }

  lemma NotLive(s: State, id: SessionId)
    requires Inv(s) && id !in s.sessions
    ensures !LastIn(s, id)
  {
    Located(s, id, s.index.ChannelOf(id));
  }

  lemma {:induction false} EveryRunIsWatched(s: State, acts: seq<Action>)
    requires Initial(s) && IsRun(s, acts)
    ensures Watch(Ran(s, acts), EnteredIn(s, acts), EmptiedIn(s, acts))
  {
    if acts != [] {
      hide Inv, Watch, WatchOne, Stepped, Enabled, EnteredAfter, EmptiedAfter;
      var init, a := acts[..|acts| - 1], acts[|acts| - 1];
      EveryRunIsWatched(s, init);
      EveryRunKeepsInv(s, init);
      forall c ensures WatchOne(Ran(s, acts), EnteredIn(s, acts), EmptiedIn(s, acts), c) {
        StepOne(Ran(s, init), a, EnteredIn(s, init), EmptiedIn(s, init), c);
      }
      Gathered(Ran(s, acts), EnteredIn(s, acts), EmptiedIn(s, acts));
    }
  }

  lemma Gathered(s: State, entered: set<ChannelId>, emptied: map<ChannelId, Emptying>)
    requires forall c :: WatchOne(s, entered, emptied, c)
    ensures Watch(s, entered, emptied)
  {
  }

  /** After every run: an existing empty temporary channel has no timer pending exactly if nobody has ever
      entered it, or its last member left it for another channel while no timer was pending. */
  lemma {:induction false} UnwatchedIff(s: State, acts: seq<Action>, c: ChannelId)
    requires Initial(s) && IsRun(s, acts) && Empty(Ran(s, acts), c)
    ensures c in EnteredIn(s, acts) ==> c in EmptiedIn(s, acts)
    ensures c !in Ran(s, acts).timers <==> c !in EnteredIn(s, acts) || EmptiedIn(s, acts)[c] == BySwitch(false)
  {
    hide EnteredIn, EmptiedIn, Ran, IsRun;
    EveryRunIsWatched(s, acts);
    assert WatchOne(Ran(s, acts), EnteredIn(s, acts), EmptiedIn(s, acts), c);
  }

  /** For instance a temporary sub-channel that has just been created. */
  lemma {:induction false} TempNeverEntered()
    ensures var s := State(map[], EMPTY_INDEX, Table(map[1 := LOBBY], 2), map[], map[], multiset{});
            var acts := [Connect(1, 10, 1), Create(1, CreateRequest("room", "", 0, 1, true, false), false, 0)];
            Initial(s) && IsRun(s, acts) && Empty(Ran(s, acts), 2) && Ran(s, acts).timers == multiset{}
  {
    hide IsRun, Ran, Relayed, DeletedChannel, TimerFired, LeftChannel, Disconnected, JoinedChannel;
    var s := State(map[], EMPTY_INDEX, Table(map[1 := LOBBY], 2), map[], map[], multiset{});
    var a1 := Connect(1, 10, 1);
    var a2 := Create(1, CreateRequest("room", "", 0, 1, true, false), false, 0);
    NoActions(s);
    OneAction(s, [], a1);
    OneAction(s, [a1], a2);
    assert [] + [a1] == [a1] && [a1] + [a2] == [a1, a2];
    RoomIsValid();
  }

  lemma RoomIsValid()
    ensures Utf8Length("room") == 4 && Validate(Requested(CreateRequest("room", "", 0, 1, true, false))).None?
  {
    assert "room"[1..] == "oom" && "oom"[1..] == "om" && "om"[1..] == "m" && "m"[1..] == "";
    assert !IsSpace("room"[0]);
  }
}
