/** What interleaving does break: schedules at lock granularity, from a fresh start, that end with every
    handler finished and one of the atomic invariants false. */
module Races {
  import opened Prelude
  import opened ChannelIndex
  import opened Sessions
  import opened Store
  import opened Server
  import opened Interleaving
  import opened Uninterrupted
  import AtomicRuns

  const SMALL := Channel(1, "small", "", 1, 0, false, false)
  const OTHER := Channel(2, "other", "", 0, 0, false, false)
  const TWO_CHANNELS := Table(map[1 := SMALL, 2 := OTHER], 3)

  function Start(t: Table): World {
    World(State(map[], EMPTY_INDEX, t, map[], map[], multiset{}), map[], multiset{}, map[])
  }

  /** Two connections, 1 and 2, with sessions of the same number, in this state and at these places. */
  function Two(sessions: SessionTable, ix: Index, t: Table, p1: PC, p2: PC): World {
    World(State(sessions, ix, t, map[1 := 1, 2 := 2], map[], multiset{}), map[1 := p1, 2 := p2], multiset{}, map[1 := 1, 2 := 2])
  }

  function In(c1: ChannelId, c2: ChannelId): SessionTable {
    map[1 := NewSession(10).(channelID := c1), 2 := NewSession(20).(channelID := c2)]
  }

  function ConnectingEvents(): seq<Event> {
    AsEvents(1, [Accept(10), NewId(1), Go]) + AsEvents(2, [Accept(20), NewId(2), Go])
  }

  lemma Connecting(t: Table)
    ensures Scheduled(Start(t), ConnectingEvents()) == Two(In(0, 0), EMPTY_INDEX, t, Idle(1), Idle(2))
  {
    hide Scheduled, AsEvents, Solo;
    var w := Start(t);
    ConnectUninterrupted(w, 1, 10, 1);
    var v := w.At(1, Idle(1)).(s := Connected(w.s, 1, 10, 1), owner := w.owner[1 := 1]);
    ConnectUninterrupted(v, 2, 20, 2);
    SoloIsSchedule(w, 1, [Accept(10), NewId(1), Go]);
    SoloIsSchedule(v, 2, [Accept(20), NewId(2), Go]);
    ScheduledTwice(w, AsEvents(1, [Accept(10), NewId(1), Go]), AsEvents(2, [Accept(20), NewId(2), Go]));
  }

  lemma OneMore(w: World, es: seq<Event>, g: nat, input: Input)
    ensures Scheduled(w, es + [Conn(g, input)]) == Moved(Scheduled(w, es), g, input)
  {
    hide Moved;
    ScheduledTwice(w, es, [Conn(g, input)]);
  }

  lemma Placed(sessions: SessionTable, ix: Index, t: Table, p1: PC, p2: PC, q: PC)
    ensures Two(sessions, ix, t, p1, p2).At(1, q) == Two(sessions, ix, t, q, p2)
    ensures Two(sessions, ix, t, p1, p2).At(2, q) == Two(sessions, ix, t, p1, q)
  {
    assert map[1 := p1, 2 := p2][1 := q] == map[1 := q, 2 := p2];
    assert map[1 := p1, 2 := p2][2 := q] == map[1 := p1, 2 := q];
  }

  // One more step of a goroutine that is joining, reading its request, or deleting.

  lemma OneJoins(es: seq<Event>, w: World, v: World, g: nat)
    requires Scheduled(w, es) == v && g in v.pc
    requires v.pc[g].JoinChecked? || v.pc[g].JoinFound? || v.pc[g].JoinAdmitted? || v.pc[g].JoinIndexed?
    ensures Scheduled(w, es + [Conn(g, Go)]) == JoinStep(v, g, v.pc[g])
  {
    hide Moved, Scheduled;
    OneMore(w, es, g, Go);
    JoinMoves(v, g);
  }

  lemma OneStarts(es: seq<Event>, w: World, v: World, g: nat, input: Input)
    requires Scheduled(w, es) == v && g in v.pc && v.pc[g].Idle?
    ensures Scheduled(w, es + [Conn(g, input)]) == Started(v, g, v.pc[g].id, input)
  {
    hide Moved, Scheduled;
    OneMore(w, es, g, input);
    StartMoves(v, g, input);
  }

  lemma OneDeletes(es: seq<Event>, w: World, v: World, g: nat, input: Input)
    requires Scheduled(w, es) == v && g in v.pc
    requires v.pc[g].DeleteChecked? || v.pc[g].DeleteDropped? || v.pc[g].DeleteEvicting? || v.pc[g].DeleteClearing?
    ensures Scheduled(w, es + [Conn(g, input)]) == DeleteStep(v, g, v.pc[g], input)
  {
    hide Moved, Scheduled;
    OneMore(w, es, g, input);
    DeleteMoves(v, g, input);
  }

  // ----- One member too many -----

  /** Both connections ask to join channel 1, and both have found it before either goes on. */
  lemma BothFound() returns (es: seq<Event>)
    ensures Scheduled(Start(TWO_CHANNELS), es) == Two(In(0, 0), EMPTY_INDEX, TWO_CHANNELS, JoinFound(1, SMALL), JoinFound(2, SMALL))
  {
    hide Scheduled, ConnectingEvents;
    var w, s, ix, t := Start(TWO_CHANNELS), In(0, 0), EMPTY_INDEX, TWO_CHANNELS;
    Connecting(t);
    es := ConnectingEvents();
    OneStarts(es, w, Two(s, ix, t, Idle(1), Idle(2)), 1, StartJoin(1));
    Placed(s, ix, t, Idle(1), Idle(2), JoinChecked(1, 1));
    es := es + [Conn(1, StartJoin(1))];
    OneStarts(es, w, Two(s, ix, t, JoinChecked(1, 1), Idle(2)), 2, StartJoin(1));
    Placed(s, ix, t, JoinChecked(1, 1), Idle(2), JoinChecked(2, 1));
    es := es + [Conn(2, StartJoin(1))];
    OneJoins(es, w, Two(s, ix, t, JoinChecked(1, 1), JoinChecked(2, 1)), 1);
    Placed(s, ix, t, JoinChecked(1, 1), JoinChecked(2, 1), JoinFound(1, SMALL));
    es := es + [Conn(1, Go)];
    OneJoins(es, w, Two(s, ix, t, JoinFound(1, SMALL), JoinChecked(2, 1)), 2);
    Placed(s, ix, t, JoinFound(1, SMALL), JoinChecked(2, 1), JoinFound(2, SMALL));
    es := es + [Conn(2, Go)];
  }

  /** Both see an empty channel and are admitted. */
  lemma BothAdmitted() returns (es: seq<Event>)
    ensures Scheduled(Start(TWO_CHANNELS), es) == Two(In(0, 0), EMPTY_INDEX, TWO_CHANNELS, JoinAdmitted(1, 1), JoinAdmitted(2, 1))
  {
    hide Scheduled;
    var w, s, ix, t := Start(TWO_CHANNELS), In(0, 0), EMPTY_INDEX, TWO_CHANNELS;
    es := BothFound();
    OneJoins(es, w, Two(s, ix, t, JoinFound(1, SMALL), JoinFound(2, SMALL)), 1);
    Placed(s, ix, t, JoinFound(1, SMALL), JoinFound(2, SMALL), JoinAdmitted(1, 1));
    es := es + [Conn(1, Go)];
    OneJoins(es, w, Two(s, ix, t, JoinAdmitted(1, 1), JoinFound(2, SMALL)), 2);
    Placed(s, ix, t, JoinAdmitted(1, 1), JoinFound(2, SMALL), JoinAdmitted(2, 1));
    es := es + [Conn(2, Go)];
  }

  const BOTH_IN_1 := EMPTY_INDEX.Joined(1, 1).Joined(2, 1)

  lemma BothEntered() returns (es: seq<Event>)
    ensures Scheduled(Start(TWO_CHANNELS), es) == Two(In(1, 1), BOTH_IN_1, TWO_CHANNELS, Idle(1), Idle(2))
  {
    hide Scheduled, Index.Joined;
    var w, s, t := Start(TWO_CHANNELS), In(0, 0), TWO_CHANNELS;
    var i1 := EMPTY_INDEX.Joined(1, 1);
    es := BothAdmitted();
    OneJoins(es, w, Two(s, EMPTY_INDEX, t, JoinAdmitted(1, 1), JoinAdmitted(2, 1)), 1);
    Placed(s, EMPTY_INDEX, t, JoinAdmitted(1, 1), JoinAdmitted(2, 1), JoinIndexed(1, 1));
    es := es + [Conn(1, Go)];
    OneJoins(es, w, Two(s, i1, t, JoinIndexed(1, 1), JoinAdmitted(2, 1)), 2);
    Placed(s, i1, t, JoinIndexed(1, 1), JoinAdmitted(2, 1), JoinIndexed(2, 1));
    es := es + [Conn(2, Go)];
    es := BothNoted(es);
  }

  lemma BothNoted(before: seq<Event>) returns (es: seq<Event>)
    requires Scheduled(Start(TWO_CHANNELS), before) == Two(In(0, 0), BOTH_IN_1, TWO_CHANNELS, JoinIndexed(1, 1), JoinIndexed(2, 1))
    ensures Scheduled(Start(TWO_CHANNELS), es) == Two(In(1, 1), BOTH_IN_1, TWO_CHANNELS, Idle(1), Idle(2))
  {
    hide Scheduled, Index.Joined;
    var w, t := Start(TWO_CHANNELS), TWO_CHANNELS;
    OneJoins(before, w, Two(In(0, 0), BOTH_IN_1, t, JoinIndexed(1, 1), JoinIndexed(2, 1)), 1);
    Placed(In(0, 0), BOTH_IN_1, t, JoinIndexed(1, 1), JoinIndexed(2, 1), Idle(1));
    assert WithChannel(In(0, 0), 1, 1) == In(1, 0);
    es := before + [Conn(1, Go)];
    OneJoins(es, w, Two(In(1, 0), BOTH_IN_1, t, Idle(1), JoinIndexed(2, 1)), 2);
    Placed(In(1, 0), BOTH_IN_1, t, Idle(1), JoinIndexed(2, 1), Idle(2));
    assert WithChannel(In(1, 0), 2, 1) == In(1, 1);
    es := es + [Conn(2, Go)];
  }

  /** Two joins that overlap fill a channel beyond its capacity, and it stays so. */
  lemma CapacityOverrun() returns (es: seq<Event>)
    ensures Fresh(Start(TWO_CHANNELS))
    ensures var v := Scheduled(Start(TWO_CHANNELS), es); AtRest(v) && !AtomicRuns.WithinCapacity(v.s)
  {
    hide Scheduled;
    es := BothEntered();
    assert BOTH_IN_1.Occupants(1) == {1, 2};
  }

  // ----- A channel that is gone and yet occupied -----

  /** Connection 1 has been admitted to channel 2, which connection 2 then deletes. */
  lemma AdmittedAndDeleted() returns (es: seq<Event>)
    ensures Scheduled(Start(TWO_CHANNELS), es) == Two(In(0, 0), EMPTY_INDEX, TWO_CHANNELS.Dropped(2), JoinAdmitted(1, 2), Idle(2))
  {
    hide Scheduled, ConnectingEvents;
    var w, s, ix, t := Start(TWO_CHANNELS), In(0, 0), EMPTY_INDEX, TWO_CHANNELS;
    Connecting(t);
    es := ConnectingEvents();
    OneStarts(es, w, Two(s, ix, t, Idle(1), Idle(2)), 1, StartJoin(2));
    Placed(s, ix, t, Idle(1), Idle(2), JoinChecked(1, 2));
    es := es + [Conn(1, StartJoin(2))];
    OneJoins(es, w, Two(s, ix, t, JoinChecked(1, 2), Idle(2)), 1);
    Placed(s, ix, t, JoinChecked(1, 2), Idle(2), JoinFound(1, OTHER));
    es := es + [Conn(1, Go)];
    OneJoins(es, w, Two(s, ix, t, JoinFound(1, OTHER), Idle(2)), 1);
    Placed(s, ix, t, JoinFound(1, OTHER), Idle(2), JoinAdmitted(1, 2));
    es := es + [Conn(1, Go)];
    DeletedAlone(w, es, JoinAdmitted(1, 2));
    es := es + AsEvents(2, [StartDelete(2, true), Go, MembersAre([])] + Gos(1));
  }

  lemma DeletedAlone(w: World, es: seq<Event>, p1: PC)
    requires Scheduled(w, es) == Two(In(0, 0), EMPTY_INDEX, TWO_CHANNELS, p1, Idle(2))
    ensures Scheduled(w, es + AsEvents(2, [StartDelete(2, true), Go, MembersAre([])] + Gos(1)))
         == Two(In(0, 0), EMPTY_INDEX, TWO_CHANNELS.Dropped(2), p1, Idle(2))
  {
    hide Scheduled, Solo, AsEvents, Gos;
    var v := Two(In(0, 0), EMPTY_INDEX, TWO_CHANNELS, p1, Idle(2));
    MoreOf(w, es, 2, [StartDelete(2, true), Go, MembersAre([])] + Gos(1));
    DeleteUninterrupted(v, 2, 2, 2, true, []);
    assert EMPTY_INDEX.Emptied(2) == EMPTY_INDEX;
    assert MovedOut(In(0, 0), {}) == In(0, 0);
  }

  /** A join that has been admitted goes ahead after the channel was deleted. */
  lemma OccupiedButGone() returns (es: seq<Event>)
    ensures var v := Scheduled(Start(TWO_CHANNELS), es); AtRest(v) && !AtomicRuns.OccupiedExist(v.s)
  {
    hide Scheduled;
    var w, s, t := Start(TWO_CHANNELS), In(0, 0), TWO_CHANNELS.Dropped(2);
    var ix := EMPTY_INDEX.Joined(1, 2);
    es := AdmittedAndDeleted();
    OneJoins(es, w, Two(s, EMPTY_INDEX, t, JoinAdmitted(1, 2), Idle(2)), 1);
    Placed(s, EMPTY_INDEX, t, JoinAdmitted(1, 2), Idle(2), JoinIndexed(1, 2));
    es := es + [Conn(1, Go)];
    OneJoins(es, w, Two(s, ix, t, JoinIndexed(1, 2), Idle(2)), 1);
    Placed(s, ix, t, JoinIndexed(1, 2), Idle(2), Idle(1));
    es := es + [Conn(1, Go)];
    assert ix.Occupants(2) == {1};
  }

  const ROOM := Channel(2, "room", "", 0, 1, true, false)
  const WITH_ROOM := Table(map[1 := SMALL, 2 := ROOM], 3)

  lemma OneEvent(w: World, es: seq<Event>, e: Event)
    ensures Scheduled(w, es + [e]) == Next(Scheduled(w, es), e)
  {
    hide Next;
    ScheduledTwice(w, es, [e]);
    assert [e][1..] == [];
  }

  /** Connection 1 joins and leaves the temporary channel 2, and the timer finds it empty. */
  lemma TimerAwake() returns (es: seq<Event>)
    ensures Scheduled(Start(WITH_ROOM), es) == Two(In(0, 0), EMPTY_INDEX, WITH_ROOM, Idle(1), Idle(2)).(firing := multiset{2})
  {
    hide Scheduled, ConnectingEvents, AsEvents, Solo, Gos;
    var w, v := Start(WITH_ROOM), Two(In(0, 0), EMPTY_INDEX, WITH_ROOM, Idle(1), Idle(2));
    Connecting(WITH_ROOM);
    MoreOf(w, ConnectingEvents(), 1, [StartJoin(2)] + Gos(4));
    JoinUninterrupted(v, 1, 1, 2);
    var joined := v.(s := JoinedChannel(v.s, 1, 2));
    MoreOf(w, ConnectingEvents() + AsEvents(1, [StartJoin(2)] + Gos(4)), 1, [StartLeave] + Gos(4));
    LeaveUninterrupted(joined, 1, 1);
    es := ConnectingEvents() + AsEvents(1, [StartJoin(2)] + Gos(4)) + AsEvents(1, [StartLeave] + Gos(4));
    JoinAndLeave();
    OneEvent(w, es, Wake(2));
    Woken(v);
    es := es + [Wake(2)];
  }

  lemma JoinAndLeave()
    ensures var s := Two(In(0, 0), EMPTY_INDEX, WITH_ROOM, Idle(1), Idle(2)).s;
            LeftChannel(JoinedChannel(s, 1, 2), 1) == s.(timers := multiset{2})
  {
    var s := Two(In(0, 0), EMPTY_INDEX, WITH_ROOM, Idle(1), Idle(2)).s;
    LeaveUndoesJoin(EMPTY_INDEX, 1, 2);
    assert WithChannel(WithChannel(s.sessions, 1, 2), 1, 0) == s.sessions;
    assert multiset{} + multiset{2} == multiset{2};
  }

  lemma Woken(v: World)
    requires v.s.timers == multiset{} && v.firing == multiset{} && v.s.index.Occupants(2) == {}
    ensures Next(v.(s := v.s.(timers := multiset{2})), Wake(2)) == v.(firing := multiset{2})
  {
    assert multiset{2} - multiset{2} == multiset{};
    assert multiset{} + multiset{2} == multiset{2};
  }

  /** Somebody joins between the timer's count and its deletion. */
  lemma OccupiedByTimer() returns (es: seq<Event>)
    ensures Fresh(Start(WITH_ROOM))
    ensures var v := Scheduled(Start(WITH_ROOM), es); AtRest(v) && !AtomicRuns.OccupiedExist(v.s)
  {
    hide Scheduled, AsEvents, Solo, Gos;
    var w, v := Start(WITH_ROOM), Two(In(0, 0), EMPTY_INDEX, WITH_ROOM, Idle(1), Idle(2)).(firing := multiset{2});
    es := TimerAwake();
    MoreOf(w, es, 1, [StartJoin(2)] + Gos(4));
    JoinUninterrupted(v, 1, 1, 2);
    es := es + AsEvents(1, [StartJoin(2)] + Gos(4));
    OneEvent(w, es, Fire(2));
    es := es + [Fire(2)];
    Fired(v);
  }

  lemma Fired(v: World)
    requires v == Two(In(0, 0), EMPTY_INDEX, WITH_ROOM, Idle(1), Idle(2)).(firing := multiset{2})
    ensures var u := Next(v.(s := JoinedChannel(v.s, 1, 2)), Fire(2)); AtRest(u) && !AtomicRuns.OccupiedExist(u.s)
  {
    assert multiset{2} - multiset{2} == multiset{};
    assert EMPTY_INDEX.Joined(1, 2).Occupants(2) == {1};
  }

  // ----- A record that disagrees with the index -----

  const ONE_IN_1 := EMPTY_INDEX.Joined(1, 1)
  const ONE_IN_2 := EMPTY_INDEX.Joined(1, 2)

  lemma JoinedFirst() returns (es: seq<Event>)
    ensures Scheduled(Start(TWO_CHANNELS), es) == Two(In(1, 0), ONE_IN_1, TWO_CHANNELS, Idle(1), Idle(2))
  {
    hide Scheduled, ConnectingEvents, AsEvents, Solo, Gos;
    var w, t := Start(TWO_CHANNELS), TWO_CHANNELS;
    Connecting(t);
    es := ConnectingEvents();
    MoreOf(w, es, 1, [StartJoin(1)] + Gos(4));
    JoinUninterrupted(Two(In(0, 0), EMPTY_INDEX, t, Idle(1), Idle(2)), 1, 1, 1);
    assert WithChannel(In(0, 0), 1, 1) == In(1, 0);
    es := es + AsEvents(1, [StartJoin(1)] + Gos(4));
  }

  lemma Evicting() returns (es: seq<Event>)
    ensures Scheduled(Start(TWO_CHANNELS), es) == Two(In(1, 0), ONE_IN_1, TWO_CHANNELS.Dropped(1), Idle(1), DeleteEvicting(2, [1]))
  {
    hide Scheduled, Table.Dropped;
    var w, t := Start(TWO_CHANNELS), TWO_CHANNELS;
    es := JoinedFirst();
    OneStarts(es, w, Two(In(1, 0), ONE_IN_1, t, Idle(1), Idle(2)), 2, StartDelete(1, true));
    Placed(In(1, 0), ONE_IN_1, t, Idle(1), Idle(2), DeleteChecked(2, 1));
    es := es + [Conn(2, StartDelete(1, true))];
    OneDeletes(es, w, Two(In(1, 0), ONE_IN_1, t, Idle(1), DeleteChecked(2, 1)), 2, Go);
    Placed(In(1, 0), ONE_IN_1, t, Idle(1), DeleteChecked(2, 1), DeleteDropped(2, 1));
    es := es + [Conn(2, Go)];
    assert Elements([1 as SessionId]) == {1} == ONE_IN_1.Occupants(1);
    OneDeletes(es, w, Two(In(1, 0), ONE_IN_1, t.Dropped(1), Idle(1), DeleteDropped(2, 1)), 2, MembersAre([1]));
    Placed(In(1, 0), ONE_IN_1, t.Dropped(1), Idle(1), DeleteDropped(2, 1), DeleteEvicting(2, [1]));
    es := es + [Conn(2, MembersAre([1]))];
  }

  /** A session that is being evicted joins another channel before its record is cleared. */
  lemma MovedMeanwhile() returns (es: seq<Event>)
    ensures Scheduled(Start(TWO_CHANNELS), es) == Two(In(2, 0), ONE_IN_2, TWO_CHANNELS.Dropped(1), Idle(1), DeleteClearing(2, [1]))
  {
    hide Scheduled, AsEvents, Solo, Gos, AtRest;
    var w, t := Start(TWO_CHANNELS), TWO_CHANNELS.Dropped(1);
    es := Evicting();
    OneDeletes(es, w, Two(In(1, 0), ONE_IN_1, t, Idle(1), DeleteEvicting(2, [1])), 2, Go);
    Placed(In(1, 0), ONE_IN_1, t, Idle(1), DeleteEvicting(2, [1]), DeleteClearing(2, [1]));
    assert ONE_IN_1.Left(1) == EMPTY_INDEX;
    es := es + [Conn(2, Go)];
    MoreOf(w, es, 1, [StartJoin(2)] + Gos(4));
    JoinUninterrupted(Two(In(1, 0), EMPTY_INDEX, t, Idle(1), DeleteClearing(2, [1])), 1, 1, 2);
    assert WithChannel(In(1, 0), 1, 2) == In(2, 0);
    es := es + AsEvents(1, [StartJoin(2)] + Gos(4));
  }

  /** In the end the session is in channel 2 and its record says it is in none. */
  lemma RecordDisagrees() returns (es: seq<Event>)
    ensures var v := Scheduled(Start(TWO_CHANNELS), es); AtRest(v) && !AtomicRuns.Agreement(v.s)
  {
    hide Scheduled, Index.Joined, Table.Dropped;
    var w, t := Start(TWO_CHANNELS), TWO_CHANNELS.Dropped(1);
    es := MovedMeanwhile();
    OneDeletes(es, w, Two(In(2, 0), ONE_IN_2, t, Idle(1), DeleteClearing(2, [1])), 2, Go);
    Placed(In(2, 0), ONE_IN_2, t, Idle(1), DeleteClearing(2, [1]), DeleteEvicting(2, []));
    assert WithChannel(In(2, 0), 1, 0) == In(0, 0);
    assert [1 as SessionId][1..] == [];
    es := es + [Conn(2, Go)];
    OneDeletes(es, w, Two(In(0, 0), ONE_IN_2, t, Idle(1), DeleteEvicting(2, [])), 2, Go);
    Placed(In(0, 0), ONE_IN_2, t, Idle(1), DeleteEvicting(2, []), Idle(2));
    es := es + [Conn(2, Go)];
    InTwo();
  }

  lemma InTwo()
    ensures ONE_IN_2.ChannelOf(1) == 2
  {
  }
}
