/** Every run of atomic steps is one of the schedules at lock granularity. */
module RunsAreSchedules {
  import opened Prelude
  import opened ChannelIndex
  import opened Sessions
  import opened Store
  import opened Server
  import opened Interleaving
  import opened Uninterrupted
  import A = AtomicRuns

  /** A connection is handled by a goroutine of the same number, so no number is used twice. */
  ghost predicate OwnConns(acts: seq<A.Action>) {
    forall i, j :: 0 <= i < j < |acts| && acts[i].Connect? && acts[j].Connect? ==> acts[i].conn != acts[j].conn
  }

  /** Between two atomic steps: all goroutines wait, and there is one for each connection so far. */
  ghost predicate Between(w: World, acts: seq<A.Action>) {
    && Inv(w) && AtRest(w)
    && forall g :: g in w.pc ==> exists i :: 0 <= i < |acts| && acts[i].Connect? && acts[i].conn == g
  }

  lemma OwnerIdles(w: World, id: SessionId)
    requires Inv(w) && AtRest(w) && id in w.s.sessions
    ensures id in w.owner && w.owner[id] in w.pc && w.pc[w.owner[id]] == Idle(id)
  {
  }

  lemma {:induction false} Enumerated(s: set<SessionId>) returns (order: seq<SessionId>)
    ensures NoDuplicates(order) && Elements(order) == s
    decreases |s|
  {
    if s == {} {
      order := [];
    } else {
      var x :| x in s;
      var rest := Enumerated(s - {x});
      order := [x] + rest;
      assert x !in Elements(rest);
      assert Elements(order) == {x} + Elements(rest);
    }
  }

  /** What a schedule does to a world that waits: the same state change, and waiting again. */
  ghost predicate Does(w: World, es: seq<Event>, t: State, conns: set<nat>) {
    var v := Scheduled(w, es);
    v.s == t && AtRest(v) && v.pc.Keys <= w.pc.Keys + conns
  }

  /** What a goroutine does by itself once it has read a request. */
  predicate Internal(input: Input) {
    input.Go? || input.NewId? || input.MembersAre? || input.ImportOne? || input.ImportEnd?
  }

  /** The goroutine `g` reads this and then works on its own. */
  ghost predicate Reads(g: nat, first: Input, es: seq<Event>) {
    es != [] && es[0] == Conn(g, first) && forall i :: 1 <= i < |es| ==> es[i].Conn? && es[i].g == g && Internal(es[i].input)
  }

  /** The owner of a live session reads this; nobody asks for a session that is not live. */
  ghost predicate Asks(w: World, id: SessionId, first: Input, es: seq<Event>) {
    if id in w.s.sessions then id in w.owner && Reads(w.owner[id], first, es) else es == []
  }

  lemma {:induction false} AsEventsAt(g: nat, inputs: seq<Input>)
    ensures |AsEvents(g, inputs)| == |inputs| && forall i :: 0 <= i < |inputs| ==> AsEvents(g, inputs)[i] == Conn(g, inputs[i])
    decreases |inputs|
  {
    if inputs != [] { AsEventsAt(g, inputs[1..]); }
  }

  lemma ReadsAlone(g: nat, first: Input, rest: seq<Input>)
    requires forall i :: 0 <= i < |rest| ==> Internal(rest[i])
    ensures Reads(g, first, AsEvents(g, [first] + rest))
  {
    hide AsEvents;
    AsEventsAt(g, [first] + rest);
  }

  lemma NothingDone(w: World)
    requires AtRest(w)
    ensures Does(w, [], w.s, {})
  {
  }

  /** A handler that runs alone and ends where it began. */
  lemma AloneDone(w: World, g: nat, inputs: seq<Input>, t: State)
    requires AtRest(w) && Solo(w, g, inputs) == w.(s := t)
    ensures Does(w, AsEvents(g, inputs), t, {})
  {
    SoloIsSchedule(w, g, inputs);
  }

  lemma DoConnect(w: World, id: SessionId, userID: int, g: nat) returns (es: seq<Event>)
    requires AtRest(w) && g !in w.pc && id != 0 && id !in w.s.sessions
    ensures Does(w, es, Connected(w.s, id, userID, g), {g}) && Reads(g, Accept(userID), es)
  {
    hide Solo, Scheduled, AsEvents;
    assert [Accept(userID), NewId(id), Go] == [Accept(userID)] + [NewId(id), Go];
    ReadsAlone(g, Accept(userID), [NewId(id), Go]);
    es := AsEvents(g, [Accept(userID), NewId(id), Go]);
    SoloIsSchedule(w, g, [Accept(userID), NewId(id), Go]);
    ConnectUninterrupted(w, g, userID, id);
  }

  lemma DoDisconnect(w: World, id: SessionId) returns (es: seq<Event>)
    requires Inv(w) && AtRest(w) && id in w.s.sessions
    ensures Does(w, es, Disconnected(w.s, id), {})
    ensures Asks(w, id, Close, es)
  {
    hide Inv, Solo, Scheduled, AsEvents, Disconnected, Gos;
    OwnerIdles(w, id);
    var g := w.owner[id];
    GosInternal(5);
    ReadsAlone(g, Close, Gos(5));
    es := AsEvents(g, [Close] + Gos(5));
    SoloIsSchedule(w, g, [Close] + Gos(5));
    DisconnectUninterrupted(w, g, id);
  }

  lemma DoJoin(w: World, id: SessionId, c: ChannelId) returns (es: seq<Event>)
    requires Inv(w) && AtRest(w)
    ensures Does(w, es, JoinedChannel(w.s, id, c), {})
    ensures Asks(w, id, StartJoin(c), es)
  {
    hide Solo, Scheduled, AsEvents, Gos, Does, Owned, TempsOnly, Table.WellFormed, AtRest, Index.Coherent;
    if id in w.s.sessions {
      OwnerIdles(w, id);
      JoinUninterrupted(w, w.owner[id], id, c);
      AloneDone(w, w.owner[id], [StartJoin(c)] + Gos(4), JoinedChannel(w.s, id, c));
      GosInternal(4);
      ReadsAlone(w.owner[id], StartJoin(c), Gos(4));
      es := AsEvents(w.owner[id], [StartJoin(c)] + Gos(4));
    } else {
      NothingDone(w);
      es := [];
    }
  }

  lemma DoLeave(w: World, id: SessionId) returns (es: seq<Event>)
    requires Inv(w) && AtRest(w)
    ensures Does(w, es, LeftChannel(w.s, id), {})
    ensures Asks(w, id, StartLeave, es)
  {
    hide Inv, Solo, Scheduled, AsEvents, Gos, Does, AtRest;
    if id in w.s.sessions {
      OwnerIdles(w, id);
      LeaveUninterrupted(w, w.owner[id], id);
      AloneDone(w, w.owner[id], [StartLeave] + Gos(4), LeftChannel(w.s, id));
      GosInternal(4);
      ReadsAlone(w.owner[id], StartLeave, Gos(4));
      es := AsEvents(w.owner[id], [StartLeave] + Gos(4));
    } else {
      NothingDone(w);
      es := [];
    }
  }

  lemma DoCreate(w: World, id: SessionId, req: CreateRequest, allowed: bool, now: int) returns (es: seq<Event>)
    requires Inv(w) && AtRest(w)
    ensures Does(w, es, CreatedChannel(w.s, id, req, allowed, now), {})
    ensures Asks(w, id, StartCreate(req, allowed, now), es)
  {
    hide Inv, Solo, Scheduled, AsEvents, Gos, Does, AtRest, Utf8Length, Validate;
    if id in w.s.sessions {
      OwnerIdles(w, id);
      CreateUninterrupted(w, w.owner[id], id, req, allowed, now);
      AloneDone(w, w.owner[id], [StartCreate(req, allowed, now)] + Gos(3), CreatedChannel(w.s, id, req, allowed, now));
      GosInternal(3);
      ReadsAlone(w.owner[id], StartCreate(req, allowed, now), Gos(3));
      es := AsEvents(w.owner[id], [StartCreate(req, allowed, now)] + Gos(3));
    } else {
      NothingDone(w);
      es := [];
    }
  }

  lemma DoDelete(w: World, id: SessionId, c: ChannelId, allowed: bool) returns (es: seq<Event>)
    requires Inv(w) && AtRest(w)
    ensures Does(w, es, DeletedChannel(w.s, id, c, allowed), {})
    ensures Asks(w, id, StartDelete(c, allowed), es)
  {
    hide Solo, Scheduled, AsEvents, Does, AtRest, Owned, TempsOnly, Table.WellFormed, Index.Coherent, NoDuplicates, Elements, Gos;
    if id in w.s.sessions {
      OwnerIdles(w, id);
      var order := Enumerated(w.s.index.Occupants(c));
      var gos := Gos(2 * |order| + 1);
      var inputs := [StartDelete(c, allowed), Go, MembersAre(order)] + gos;
      DeleteUninterrupted(w, w.owner[id], id, c, allowed, order);
      AloneDone(w, w.owner[id], inputs, DeletedChannel(w.s, id, c, allowed));
      assert inputs == [StartDelete(c, allowed)] + ([Go, MembersAre(order)] + gos);
      GosInternal(2 * |order| + 1);
      ReadsAlone(w.owner[id], StartDelete(c, allowed), [Go, MembersAre(order)] + gos);
      es := AsEvents(w.owner[id], inputs);
    } else {
      NothingDone(w);
      es := [];
    }
  }

  lemma GosInternal(n: nat)
    ensures forall i :: 0 <= i < |Gos(n)| ==> Internal(Gos(n)[i])
  {
  }

  lemma DoSetState(w: World, id: SessionId, muted: bool, deafened: bool) returns (es: seq<Event>)
    requires Inv(w) && AtRest(w)
    ensures Does(w, es, UserStateSet(w.s, id, muted, deafened), {})
    ensures Asks(w, id, SetState(muted, deafened), es)
  {
    if id in w.s.sessions {
      hide Inv, Does, AtRest, AsEvents, Moved;
      OwnerIdles(w, id);
      var g := w.owner[id];
      StartMoves(w, g, SetState(muted, deafened));
      SoloNone(Moved(w, g, SetState(muted, deafened)), g);
      assert [SetState(muted, deafened)][1..] == [];
      AloneDone(w, g, [SetState(muted, deafened)], UserStateSet(w.s, id, muted, deafened));
      assert [SetState(muted, deafened)] + [] == [SetState(muted, deafened)];
      ReadsAlone(g, SetState(muted, deafened), []);
      es := AsEvents(g, [SetState(muted, deafened)]);
    } else {
      NothingDone(w);
      es := [];
    }
  }

  lemma DoTimer(w: World, c: ChannelId) returns (es: seq<Event>)
    requires AtRest(w) && c in w.s.timers
    ensures Does(w, es, TimerFired(w.s, c), {}) && es == [Wake(c), Fire(c)]
  {
    hide Scheduled;
    TimerUninterrupted(w, c);
    es := [Wake(c), Fire(c)];
  }

  lemma DoVoice(w: World, datagram: Bytes, from: UDPAddr) returns (es: seq<Event>)
    requires AtRest(w)
    ensures Does(w, es, Relayed(w.s, datagram, from).0, {}) && forall i :: 0 <= i < |es| ==> es[i].Addr? && es[i].from == from
  {
    hide AtRest;
    var t := Relayed(w.s, datagram, from).0;
    if t == w.s {
      NothingDone(w);
      es := [];
    } else {
      var id := A.VP.Unmarshal(A.VoicePath.ReadUDP(datagram)).value.sessionID;
      es := [Addr(id, from)];
      OneAddr(w, id, from);
    }
  }

  lemma OneAddr(w: World, id: SessionId, from: UDPAddr)
    requires AtRest(w)
    ensures Does(w, [Addr(id, from)], w.s.(sessions := WithAddr(w.s.sessions, id, from)), {})
  {
    assert [Addr(id, from)][1..] == [];
  }

  // ----- Imports -----

  /** The rows an import adds, one store call each, and its end. */
  function RowsFrom(t: Table, from: int): seq<Input>
    requires forall id :: from <= id < t.next ==> id in t.rows
    decreases t.next - from
  {
    if from >= t.next then [ImportEnd] else [ImportOne(t.rows[from])] + RowsFrom(t, from + 1)
  }

  lemma {:induction false} RowsInternal(t: Table, from: int)
    requires forall id :: from <= id < t.next ==> id in t.rows
    ensures forall i :: 0 <= i < |RowsFrom(t, from)| ==> Internal(RowsFrom(t, from)[i])
    decreases t.next - from
  {
    if from < t.next { RowsInternal(t, from + 1); }
  }

  lemma ImportMoves(w: World, g: nat, input: Input)
    requires g in w.pc && w.pc[g].Importing?
    ensures Moved(w, g, input) == CreateStep(w, g, w.pc[g], input)
  {
    hide CreateStep;
  }

  lemma GrownEnd(t: Table, u: Table)
    requires t.GrownTo(u) && t.next >= u.next
    ensures t == u
  {
    hide Validate;
    assert forall id :: id in u.rows ==> id in t.rows;
    assert forall id :: id in t.rows <==> id in u.rows;
    assert forall id :: id in t.rows ==> t.rows[id] == u.rows[id];
    assert t.rows == u.rows;
  }

  lemma GrownByOne(t: Table, u: Table)
    requires t.GrownTo(u) && t.next < u.next && t.WellFormed()
    ensures t.Added(u.rows[t.next]).GrownTo(u) && t.Added(u.rows[t.next]).WellFormed()
    ensures !u.rows[t.next].isTemp && Validate(u.rows[t.next]).None?
  {
    hide Validate;
  }

  lemma {:induction false} ImportRows(w: World, g: nat, id: SessionId, t: Table)
    requires g in w.pc && w.pc[g] == Importing(id) && w.s.store.WellFormed() && w.s.store.GrownTo(t)
    ensures Solo(w, g, RowsFrom(t, w.s.store.next)) == w.At(g, Idle(id)).(s := w.s.(store := t))
    decreases t.next - w.s.store.next
  {
    hide Solo, Moved, Validate, Table.GrownTo, Table.WellFormed;
    assert (forall id :: w.s.store.next <= id < t.next ==> id in t.rows) by { GrownRows(w.s.store, t); }
    if w.s.store.next >= t.next {
      GrownEnd(w.s.store, t);
      assert [ImportEnd] == [ImportEnd] + [];
      SoloStep(w, g, ImportEnd, []);
      ImportMoves(w, g, ImportEnd);
      SoloNone(w.At(g, Idle(id)), g);
    } else {
      var ch := t.rows[w.s.store.next];
      GrownByOne(w.s.store, t);
      SoloStep(w, g, ImportOne(ch), RowsFrom(t, w.s.store.next + 1));
      ImportMoves(w, g, ImportOne(ch));
      ImportRows(w.(s := w.s.(store := w.s.store.Added(ch))), g, id, t);
    }
  }

  lemma GrownRows(t: Table, u: Table)
    requires t.GrownTo(u)
    ensures forall id :: t.next <= id < u.next ==> id in u.rows
  {
  }

  lemma DoImport(w: World, id: SessionId, t: Table) returns (es: seq<Event>)
    requires Inv(w) && AtRest(w) && id in w.s.sessions && w.s.store.GrownTo(t)
    ensures Does(w, es, w.s.(store := t), {})
    ensures Asks(w, id, StartImport(true), es)
  {
    hide Owned, TempsOnly, Index.Coherent, Solo, Moved, Does, AtRest, Table.GrownTo;
    OwnerIdles(w, id);
    GrownRows(w.s.store, t);
    var g := w.owner[id];
    var inputs := [StartImport(true)] + RowsFrom(t, w.s.store.next);
    SoloStep(w, g, StartImport(true), RowsFrom(t, w.s.store.next));
    StartMoves(w, g, StartImport(true));
    ImportRows(w.At(g, Importing(id)), g, id, t);
    BackToIdle(w, w.At(g, Importing(id)), g, id);
    AloneDone(w, g, inputs, w.s.(store := t));
    RowsInternal(t, w.s.store.next);
    ReadsAlone(g, StartImport(true), RowsFrom(t, w.s.store.next));
    es := AsEvents(g, inputs);
  }

  // ----- Runs -----

  /** The events are those of this request: the owner of the session reads it, with the same arguments and the
      same permission, and works it off; a timer counts and then deletes; a datagram at most sets an address. */
  ghost predicate Performs(w: World, a: A.Action, es: seq<Event>) {
    match a
    case Connect(id, userID, conn) => Reads(conn, Accept(userID), es)
    case Disconnect(id) => Asks(w, id, Close, es)
    case Join(id, c) => Asks(w, id, StartJoin(c), es)
    case Leave(id) => Asks(w, id, StartLeave, es)
    case Create(id, req, allowed, now) => Asks(w, id, StartCreate(req, allowed, now), es)
    case Delete(id, c, allowed) => Asks(w, id, StartDelete(c, allowed), es)
    case Import(id, t) => Asks(w, id, StartImport(true), es)
    case SetState(id, muted, deafened) => Asks(w, id, SetState(muted, deafened), es)
    case Voice(datagram, from) => forall i :: 0 <= i < |es| ==> es[i].Addr? && es[i].from == from
    case Timer(c) => es == [Wake(c), Fire(c)]
  }

  /** One atomic step can be done by a schedule of the same request. */
  lemma {:induction false} StepIsSchedule(w: World, a: A.Action) returns (es: seq<Event>)
    requires Inv(w) && AtRest(w) && A.Enabled(w.s, a) && (a.Connect? ==> a.conn !in w.pc)
    ensures Does(w, es, A.Stepped(w.s, a), if a.Connect? then {a.conn} else {})
    ensures Performs(w, a, es)
  {
    hide Inv, AtRest, Does, Asks, Reads;
    match a
    case Connect(id, userID, conn) => es := DoConnect(w, id, userID, conn);
    case Disconnect(id) => es := DoDisconnect(w, id);
    case Join(id, c) => es := DoJoin(w, id, c);
    case Leave(id) => es := DoLeave(w, id);
    case Create(id, req, allowed, now) => es := DoCreate(w, id, req, allowed, now);
    case Delete(id, c, allowed) => es := DoDelete(w, id, c, allowed);
    case Import(id, t) => es := DoImport(w, id, t);
    case SetState(id, muted, deafened) => es := DoSetState(w, id, muted, deafened);
    case Voice(datagram, from) => es := DoVoice(w, datagram, from);
    case Timer(c) => es := DoTimer(w, c);
  }

  lemma FreshIsBetween(w: World)
    requires Fresh(w)
    ensures Between(w, [])
  {
    CoherentMeaning(w.s.index);
  }

  lemma OneFurther(w: World, v: World, init: seq<A.Action>, a: A.Action)
    requires Between(w, init) && Inv(v) && AtRest(v) && v.pc.Keys <= w.pc.Keys + (if a.Connect? then {a.conn} else {})
    ensures Between(v, init + [a])
  {
    hide Inv, AtRest;
    var acts := init + [a];
    forall g | g in v.pc ensures exists i :: 0 <= i < |acts| && acts[i].Connect? && acts[i].conn == g {
      if g in w.pc {
        var i :| 0 <= i < |init| && init[i].Connect? && init[i].conn == g;
        assert acts[i].Connect? && acts[i].conn == g;
      } else {
        assert acts[|init|].Connect? && acts[|init|].conn == g;
      }
    }
  }

  /** Every run of atomic steps ends in a state that the lock-level system reaches too, with every
      handler finished. */
  lemma {:induction false} EveryRunIsSchedule(w: World, acts: seq<A.Action>) returns (es: seq<Event>)
    requires Fresh(w) && A.IsRun(w.s, acts) && OwnConns(acts)
    ensures Scheduled(w, es).s == A.Ran(w.s, acts) && Between(Scheduled(w, es), acts)
    decreases |acts|
  {
    hide Inv, AtRest, A.Enabled, A.Stepped, Scheduled, Fresh;
    if acts == [] {
      es := [];
      FreshIsBetween(w);
      NoEvents(w);
    } else {
      var init, a := acts[..|acts| - 1], acts[|acts| - 1];
      assert acts == init + [a];
      var before := EveryRunIsSchedule(w, init);
      var v := Scheduled(w, before);
      var more := StepIsSchedule(v, a);
      es := before + more;
      ScheduledTwice(w, before, more);
      ScheduleKeepsInv(v, more);
      OneFurther(v, Scheduled(v, more), init, a);
    }
  }

  lemma NoEvents(w: World)
    ensures Scheduled(w, []) == w
  {
  }
}
