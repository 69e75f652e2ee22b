/** The atomic steps are the uninterrupted runs: a handler whose lock-level steps are not interleaved
    with others has exactly the effect of the step in `Server`. */
module Uninterrupted {
  import opened Prelude
  import opened ChannelIndex
  import opened Sessions
  import opened Store
  import opened Server
  import opened Interleaving

  /** Goroutine `g` alone, with these inputs. */
  function Solo(w: World, g: nat, inputs: seq<Input>): World
    decreases |inputs|
  {
    if inputs == [] then w else Solo(Moved(w, g, inputs[0]), g, inputs[1..])
  }

  /** That is one of the schedules. */
  function AsEvents(g: nat, inputs: seq<Input>): seq<Event> {
    if inputs == [] then [] else [Conn(g, inputs[0])] + AsEvents(g, inputs[1..])
  }

  lemma {:induction false} SoloIsSchedule(w: World, g: nat, inputs: seq<Input>)
    ensures Solo(w, g, inputs) == Scheduled(w, AsEvents(g, inputs))
    decreases |inputs|
  {
    hide Moved;
    if inputs != [] {
      SoloIsSchedule(Moved(w, g, inputs[0]), g, inputs[1..]);
      assert AsEvents(g, inputs)[1..] == AsEvents(g, inputs[1..]);
    }
  }

  lemma {:induction false} ScheduledTwice(w: World, a: seq<Event>, b: seq<Event>)
    ensures Scheduled(w, a + b) == Scheduled(Scheduled(w, a), b)
    decreases |a|
  {
    hide Next;
    if a == [] {
      assert a + b == b;
    } else {
      assert (a + b)[0] == a[0] && (a + b)[1..] == a[1..] + b;
      ScheduledTwice(Next(w, a[0]), a[1..], b);
    }
  }

  lemma MoreOf(w: World, es: seq<Event>, g: nat, inputs: seq<Input>)
    ensures Scheduled(w, es + AsEvents(g, inputs)) == Solo(Scheduled(w, es), g, inputs)
  {
    ScheduledTwice(w, es, AsEvents(g, inputs));
    SoloIsSchedule(Scheduled(w, es), g, inputs);
  }

  /** No request is being handled and no timer is about to delete a channel. */
  ghost predicate AtRest(w: World) {
    w.firing == multiset{} && forall g :: g in w.pc ==> w.pc[g].Idle? || w.pc[g].Done?
  }

  lemma SoloStep(w: World, g: nat, first: Input, rest: seq<Input>)
    ensures Solo(w, g, [first] + rest) == Solo(Moved(w, g, first), g, rest)
  {
    assert ([first] + rest)[1..] == rest;
  }

  function Gos(n: nat): seq<Input> {
    seq(n, i => Go)
  }

  lemma GosStep(w: World, g: nat, n: nat)
    requires n > 0
    ensures Solo(w, g, Gos(n)) == Solo(Moved(w, g, Go), g, Gos(n - 1))
  {
    assert Gos(n) == [Go] + Gos(n - 1);
    SoloStep(w, g, Go, Gos(n - 1));
  }

  /** A goroutine waiting for a request, or done, ignores `Go`. */
  lemma {:induction false} RestIdles(w: World, g: nat, n: nat)
    requires g in w.pc && (w.pc[g].Idle? || w.pc[g].Done?)
    ensures Solo(w, g, Gos(n)) == w
  {
    if n > 0 {
      GosStep(w, g, n);
      RestIdles(w, g, n - 1);
    }
  }

  lemma AtAt(w: World, g: nat, p: PC, q: PC)
    ensures w.At(g, p).At(g, q) == w.At(g, q)
  {
    assert w.pc[g := p][g := q] == w.pc[g := q];
  }

  // One step of a goroutine, by the handler it is in.

  /** Whatever is read meanwhile. */
  lemma JoinMoves(w: World, g: nat)
    requires g in w.pc && (w.pc[g].JoinChecked? || w.pc[g].JoinFound? || w.pc[g].JoinAdmitted? || w.pc[g].JoinIndexed?)
    ensures forall input :: Moved(w, g, input) == JoinStep(w, g, w.pc[g])
  {
    hide JoinStep;
  }

  lemma GoJoin(w: World, g: nat, n: nat)
    requires n > 0 && g in w.pc && (w.pc[g].JoinChecked? || w.pc[g].JoinFound? || w.pc[g].JoinAdmitted? || w.pc[g].JoinIndexed?)
    ensures Solo(w, g, Gos(n)) == Solo(JoinStep(w, g, w.pc[g]), g, Gos(n - 1))
  {
    hide JoinStep, Moved;
    GosStep(w, g, n);
    JoinMoves(w, g);
  }

  lemma LeaveMoves(w: World, g: nat)
    requires g in w.pc && (w.pc[g].LeaveChecked? || w.pc[g].LeaveIndexed? || w.pc[g].LeaveCleared? || w.pc[g].LeaveFoundTemp?)
    ensures forall input :: Moved(w, g, input) == LeaveStep(w, g, w.pc[g])
  {
    hide LeaveStep;
  }

  lemma GoLeave(w: World, g: nat, n: nat)
    requires n > 0 && g in w.pc && (w.pc[g].LeaveChecked? || w.pc[g].LeaveIndexed? || w.pc[g].LeaveCleared? || w.pc[g].LeaveFoundTemp?)
    ensures Solo(w, g, Gos(n)) == Solo(LeaveStep(w, g, w.pc[g]), g, Gos(n - 1))
  {
    hide LeaveStep, Moved;
    GosStep(w, g, n);
    LeaveMoves(w, g);
  }

  lemma GoClose(w: World, g: nat, n: nat)
    requires n > 0 && g in w.pc
    requires w.pc[g].Closing? || w.pc[g].ClosingLeft? || w.pc[g].ClosingUnmapped? || w.pc[g].ClosedRemoved? || w.pc[g].ClosedFoundTemp?
    ensures Solo(w, g, Gos(n)) == Solo(CloseStep(w, g, w.pc[g]), g, Gos(n - 1))
  {
    hide CloseStep;
    GosStep(w, g, n);
  }

  lemma GoCreate(w: World, g: nat, n: nat)
    requires n > 0 && g in w.pc && (w.pc[g].CreateChecked? || w.pc[g].CreateParented? || w.pc[g].CreateReady?)
    ensures Solo(w, g, Gos(n)) == Solo(CreateStep(w, g, w.pc[g], Go), g, Gos(n - 1))
  {
    hide CreateStep;
    GosStep(w, g, n);
  }

  lemma GoDelete(w: World, g: nat, n: nat)
    requires n > 0 && g in w.pc && (w.pc[g].DeleteEvicting? || w.pc[g].DeleteClearing?)
    ensures Solo(w, g, Gos(n)) == Solo(DeleteStep(w, g, w.pc[g], Go), g, Gos(n - 1))
  {
    hide DeleteStep;
    GosStep(w, g, n);
  }

  lemma Begin(w: World, g: nat, id: SessionId, first: Input, n: nat)
    requires g in w.pc && w.pc[g] == Idle(id)
    ensures Solo(w, g, [first] + Gos(n)) == Solo(Started(w, g, id, first), g, Gos(n))
  {
    hide Started, Gos;
    SoloStep(w, g, first, Gos(n));
  }

  /** A join. */
  lemma JoinUninterrupted(w: World, g: nat, id: SessionId, c: ChannelId)
    requires w.s.store.WellFormed() && g in w.pc && w.pc[g] == Idle(id)
    ensures Solo(w, g, [StartJoin(c)] + Gos(4)) == w.(s := JoinedChannel(w.s, id, c))
  {
    hide Index.Joined, WithChannel, Solo, Moved, Gos, Table.WellFormed;
    Begin(w, g, id, StartJoin(c), 4);
    if id !in w.s.sessions {
      RestIdles(w, g, 4);
    } else {
      var w1 := w.At(g, JoinChecked(id, c));
      GoJoin(w1, g, 4);
      if c !in w.s.store.rows {
        BackToIdle(w, w1, g, id);
        RestIdles(w, g, 3);
      } else {
        AtAt(w, g, JoinChecked(id, c), JoinFound(id, w.s.store.rows[c]));
        JoinFromFound(w, g, id, c);
      }
    }
  }

  lemma JoinFromFound(w: World, g: nat, id: SessionId, c: ChannelId)
    requires w.s.store.WellFormed() && g in w.pc && w.pc[g] == Idle(id) && id in w.s.sessions && c in w.s.store.rows
    ensures Solo(w.At(g, JoinFound(id, w.s.store.rows[c])), g, Gos(3)) == w.(s := JoinedChannel(w.s, id, c))
  {
    hide Index.Joined, WithChannel, Solo, Moved, Gos, Table.WellFormed;
    OwnId(w.s.store, c);
    var w2 := w.At(g, JoinFound(id, w.s.store.rows[c]));
    GoJoin(w2, g, 3);
    if Full(w.s, c) {
      BackToIdle(w, w2, g, id);
      RestIdles(w, g, 2);
    } else {
      AtAt(w, g, JoinFound(id, w.s.store.rows[c]), JoinAdmitted(id, c));
      JoinFromAdmitted(w, g, id, c);
    }
  }

  lemma JoinFromAdmitted(w: World, g: nat, id: SessionId, c: ChannelId)
    requires g in w.pc && w.pc[g] == Idle(id)
    ensures Solo(w.At(g, JoinAdmitted(id, c)), g, Gos(2)) == w.(s := w.s.(index := w.s.index.Joined(id, c), sessions := WithChannel(w.s.sessions, id, c)))
  {
    hide Index.Joined, WithChannel, Solo, Moved, Gos;
    var w3 := w.At(g, JoinAdmitted(id, c));
    GoJoin(w3, g, 2);
    AtAt(w, g, JoinAdmitted(id, c), JoinIndexed(id, c));
    var v := w.(s := w.s.(index := w.s.index.Joined(id, c)));
    var w4 := v.At(g, JoinIndexed(id, c));
    GoJoin(w4, g, 1);
    BackToIdle(v, w4, g, id);
    RestIdles(v.(s := v.s.(sessions := WithChannel(w.s.sessions, id, c))), g, 0);
  }

  /** Where an interrupted `Idle` was, it is again. */
  lemma BackToIdle(w: World, v: World, g: nat, id: SessionId)
    requires g in w.pc && w.pc[g] == Idle(id) && g in v.pc && v == w.At(g, v.pc[g])
    ensures v.At(g, Idle(id)) == w
  {
    assert w.pc[g := v.pc[g]][g := Idle(id)] == w.pc;
  }

  /** A leave, with the scheduling of the deletion of an emptied temporary channel. */
  lemma LeaveUninterrupted(w: World, g: nat, id: SessionId)
    requires g in w.pc && w.pc[g] == Idle(id)
    ensures Solo(w, g, [StartLeave] + Gos(4)) == w.(s := LeftChannel(w.s, id))
  {
    hide Index.Left, WithChannel, Solo, Moved, Gos, CleanedUp;
    Begin(w, g, id, StartLeave, 4);
    if id !in w.s.sessions {
      RestIdles(w, g, 4);
    } else {
      var c := w.s.index.ChannelOf(id);
      var v1 := w.(s := w.s.(index := w.s.index.Left(id)));
      var v2 := v1.(s := v1.s.(sessions := WithChannel(w.s.sessions, id, 0)));
      GoLeave(w.At(g, LeaveChecked(id)), g, 4);
      AtAt(w, g, LeaveChecked(id), LeaveIndexed(id, c));
      GoLeave(v1.At(g, LeaveIndexed(id, c)), g, 3);
      if c <= 0 {
        BackToIdle(v1, v1.At(g, LeaveIndexed(id, c)), g, id);
        RestIdles(v2, g, 2);
      } else {
        AtAt(v1, g, LeaveIndexed(id, c), LeaveCleared(id, c));
        LeaveFromCleared(v2, g, id, c);
      }
    }
  }

  lemma LeaveFromCleared(w: World, g: nat, id: SessionId, c: ChannelId)
    requires g in w.pc && w.pc[g] == Idle(id)
    ensures Solo(w.At(g, LeaveCleared(id, c)), g, Gos(2)) == w.(s := CleanedUp(w.s, c))
  {
    hide Solo, Moved, Gos;
    var w3 := w.At(g, LeaveCleared(id, c));
    GoLeave(w3, g, 2);
    if c in w.s.store.rows && w.s.store.rows[c].isTemp {
      AtAt(w, g, LeaveCleared(id, c), LeaveFoundTemp(id, c));
      var w4 := w.At(g, LeaveFoundTemp(id, c));
      GoLeave(w4, g, 1);
      BackToIdle(w, w4, g, id);
      RestIdles(w.(s := CleanedUp(w.s, c)), g, 0);
    } else {
      BackToIdle(w, w3, g, id);
      RestIdles(w, g, 1);
    }
  }

  /** A disconnect. */
  lemma DisconnectUninterrupted(w: World, g: nat, id: SessionId)
    requires g in w.pc && w.pc[g] == Idle(id)
    ensures Solo(w, g, [Close] + Gos(5)) == w.At(g, Done).(s := Disconnected(w.s, id), owner := w.owner - {id})
  {
    hide Index.Left, Solo, Moved, Gos, CleanedUp, CloseStep;
    Begin(w, g, id, Close, 5);
    var v := w.(s := w.s.(index := w.s.index.Left(id), conns := w.s.conns - {id}));
    CloseToUnmapped(w, g, id);
    CloseFromUnmapped(v, g, id, w.s.index.ChannelOf(id));
  }

  lemma CloseToUnmapped(w: World, g: nat, id: SessionId)
    ensures var v := w.(s := w.s.(index := w.s.index.Left(id), conns := w.s.conns - {id}));
            Solo(w.At(g, Closing(id)), g, Gos(5)) == Solo(v.At(g, ClosingUnmapped(id, w.s.index.ChannelOf(id))), g, Gos(3))
  {
    hide Index.Left, Solo, Moved, Gos;
    var c := w.s.index.ChannelOf(id);
    var v1 := w.(s := w.s.(index := w.s.index.Left(id)));
    GoClose(w.At(g, Closing(id)), g, 5);
    AtAt(w, g, Closing(id), ClosingLeft(id, c));
    GoClose(v1.At(g, ClosingLeft(id, c)), g, 4);
    AtAt(v1, g, ClosingLeft(id, c), ClosingUnmapped(id, c));
  }

  lemma CloseFromUnmapped(w: World, g: nat, id: SessionId, c: ChannelId)
    ensures var v := w.(s := w.s.(sessions := w.s.sessions - {id}), owner := w.owner - {id});
            Solo(w.At(g, ClosingUnmapped(id, c)), g, Gos(3)) == v.At(g, Done).(s := if c > 0 then CleanedUp(v.s, c) else v.s)
  {
    hide Solo, Moved, Gos, CleanedUp;
    var v := w.(s := w.s.(sessions := w.s.sessions - {id}), owner := w.owner - {id});
    GoClose(w.At(g, ClosingUnmapped(id, c)), g, 3);
    if c <= 0 {
      AtAt(w, g, ClosingUnmapped(id, c), Done);
      RestIdles(v.At(g, Done), g, 2);
    } else {
      AtAt(w, g, ClosingUnmapped(id, c), ClosedRemoved(c));
      CloseFromRemoved(v, g, c);
    }
  }

  lemma CloseFromRemoved(w: World, g: nat, c: ChannelId)
    ensures Solo(w.At(g, ClosedRemoved(c)), g, Gos(2)) == w.At(g, Done).(s := CleanedUp(w.s, c))
  {
    hide Solo, Moved, Gos;
    GoClose(w.At(g, ClosedRemoved(c)), g, 2);
    if c in w.s.store.rows && w.s.store.rows[c].isTemp {
      AtAt(w, g, ClosedRemoved(c), ClosedFoundTemp(c));
      GoClose(w.At(g, ClosedFoundTemp(c)), g, 1);
      AtAt(w, g, ClosedFoundTemp(c), Done);
      RestIdles(w.At(g, Done).(s := CleanedUp(w.s, c)), g, 0);
    } else {
      AtAt(w, g, ClosedRemoved(c), Done);
      RestIdles(w.At(g, Done), g, 1);
    }
  }

  /** Setting up a session. */
  lemma ConnectUninterrupted(w: World, g: nat, userID: int, id: SessionId)
    requires g !in w.pc && id != 0 && id !in w.s.sessions
    ensures Solo(w, g, [Accept(userID), NewId(id), Go]) == w.At(g, Idle(id)).(s := Connected(w.s, id, userID, g), owner := w.owner[id := g])
  {
    hide Solo, Moved;
    var w1 := w.At(g, Authenticated(userID));
    var w2 := w1.At(g, Registering(id)).(s := w.s.(sessions := w.s.sessions[id := NewSession(userID)]), owner := w.owner[id := g]);
    assert [Accept(userID), NewId(id), Go] == [Accept(userID)] + [NewId(id), Go] && [NewId(id), Go] == [NewId(id)] + [Go] && [Go] == [Go] + [];
    AcceptMoves(w, g, userID);
    SoloStep(w, g, Accept(userID), [NewId(id), Go]);
    RegisterMoves(w1, g, NewId(id));
    SoloStep(w1, g, NewId(id), [Go]);
    RegisterMoves(w2, g, Go);
    SoloStep(w2, g, Go, []);
    SoloNone(w2.At(g, Idle(id)).(s := w2.s.(conns := w2.s.conns[id := g])), g);
    assert w.pc[g := Authenticated(userID)][g := Registering(id)][g := Idle(id)] == w.pc[g := Idle(id)];
  }

  lemma AcceptMoves(w: World, g: nat, userID: int)
    requires g !in w.pc
    ensures Moved(w, g, Accept(userID)) == w.At(g, Authenticated(userID))
  {
  }

  lemma RegisterMoves(w: World, g: nat, input: Input)
    requires g in w.pc && (w.pc[g].Authenticated? || w.pc[g].Registering?)
    ensures Moved(w, g, input) == RegisterStep(w, g, w.pc[g], input)
  {
    hide RegisterStep;
  }

  lemma SoloNone(w: World, g: nat)
    ensures Solo(w, g, []) == w
  {
  }

  /** Creating a channel. */
  lemma CreateUninterrupted(w: World, g: nat, id: SessionId, req: CreateRequest, allowed: bool, now: int)
    requires g in w.pc && w.pc[g] == Idle(id)
    ensures Solo(w, g, [StartCreate(req, allowed, now)] + Gos(3)) == w.(s := CreatedChannel(w.s, id, req, allowed, now))
  {
    hide Utf8Length, Validate, Table.Added, Solo, Moved, Gos, TooSoon;
    Begin(w, g, id, StartCreate(req, allowed, now), 3);
    if id !in w.s.sessions || Utf8Length(req.name) == 0 || Utf8Length(req.name) > MAX_NAME_BYTES {
      RestIdles(w, g, 3);
    } else if WantsTempSub(req) {
      CreateFromChecked(w, g, id, req, allowed, now);
    } else if allowed {
      CreateFromReady(w, g, id, req, 3);
    } else {
      RestIdles(w, g, 3);
    }
  }

  lemma CreateFromReady(w: World, g: nat, id: SessionId, req: CreateRequest, n: nat)
    requires g in w.pc && w.pc[g] == Idle(id) && n > 0
    ensures Solo(w.At(g, CreateReady(id, req)), g, Gos(n)) == w.(s := Added(w.s, Requested(req)))
  {
    hide Solo, Moved, Gos, Added;
    GoCreate(w.At(g, CreateReady(id, req)), g, n);
    BackToIdle(w, w.At(g, CreateReady(id, req)), g, id);
    RestIdles(w.(s := Added(w.s, Requested(req))), g, n - 1);
  }

  lemma CreateFromChecked(w: World, g: nat, id: SessionId, req: CreateRequest, allowed: bool, now: int)
    requires g in w.pc && w.pc[g] == Idle(id) && id in w.s.sessions && 0 < Utf8Length(req.name) <= MAX_NAME_BYTES && WantsTempSub(req)
    ensures Solo(w.At(g, CreateChecked(id, req, w.s.sessions[id].userID, now)), g, Gos(3)) == w.(s := CreatedChannel(w.s, id, req, allowed, now))
  {
    hide Utf8Length, Validate, Table.Added, Solo, Moved, Gos, TooSoon, WantsTempSub;
    var user := w.s.sessions[id].userID;
    var w1 := w.At(g, CreateChecked(id, req, user, now));
    GoCreate(w1, g, 3);
    if req.parentID in w.s.store.rows && w.s.store.rows[req.parentID].allowSubChannels {
      AtAt(w, g, CreateChecked(id, req, user, now), CreateParented(id, req, user, now));
      var w2 := w.At(g, CreateParented(id, req, user, now));
      GoCreate(w2, g, 2);
      if TooSoon(w.s, user, now) {
        BackToIdle(w, w2, g, id);
        RestIdles(w, g, 1);
      } else {
        AtAt(w, g, CreateParented(id, req, user, now), CreateReady(id, req));
        CreateFromReady(w.(s := w.s.(tempChanTimes := w.s.tempChanTimes[user := now])), g, id, req, 1);
      }
    } else {
      BackToIdle(w, w1, g, id);
      RestIdles(w, g, 2);
    }
  }

  /** A timer going off. */
  lemma TimerUninterrupted(w: World, c: ChannelId)
    requires c in w.s.timers && w.firing == multiset{}
    ensures Scheduled(w, [Wake(c), Fire(c)]) == w.(s := TimerFired(w.s, c))
  {
    var w1 := Next(w, Wake(c));
    assert [Wake(c), Fire(c)][1..] == [Fire(c)];
    assert Scheduled(w, [Wake(c), Fire(c)]) == Scheduled(w1, [Fire(c)]);
    assert Scheduled(w1, [Fire(c)]) == Next(w1, Fire(c));
    assert multiset{c} - multiset{c} == multiset{};
  }

  // ----- Deleting a channel -----

  /** The eviction loop takes out exactly the sessions of its snapshot. */
  lemma {:induction false} EvictAll(w: World, g: nat, id: SessionId, rest: seq<SessionId>)
    requires w.s.index.Coherent() && g in w.pc && w.pc[g] == DeleteEvicting(id, rest)
    ensures var v := Solo(w, g, Gos(2 * |rest| + 1));
            && v == w.At(g, Idle(id)).(s := w.s.(index := v.s.index, sessions := v.s.sessions))
            && v.s.index.Coherent() && v.s.index.whereIs == w.s.index.whereIs - Elements(rest)
            && v.s.sessions == MovedOut(w.s.sessions, Elements(rest))
    decreases |rest|
  {
    hide Index.Coherent, Index.Left, MovedOut, WithChannel, Solo, Moved, Gos, Elements;
    GoDelete(w, g, 2 * |rest| + 1);
    var w1 := DeleteStep(w, g, w.pc[g], Go);
    if rest == [] {
      RestIdles(w1, g, 0);
      MovedNone(w.s.sessions);
      NoElements();
      assert w.s.index.whereIs - {} == w.s.index.whereIs;
    } else {
      GoDelete(w1, g, 2 * |rest|);
      var w2 := DeleteStep(w1, g, w1.pc[g], Go);
      LeftIsOneRemoval(w.s.index, rest[0]);
      EvictAll(w2, g, id, rest[1..]);
      ElementsSplit(rest);
      assert w.s.index.whereIs - {rest[0]} - Elements(rest[1..]) == w.s.index.whereIs - Elements(rest);
      MovedOneMore(w.s.sessions, rest[0], Elements(rest[1..]));
      AtThrice(w, g, DeleteClearing(id, rest), DeleteEvicting(id, rest[1..]), Idle(id));
    }
  }

  lemma ElementsSplit(rest: seq<SessionId>)
    requires rest != []
    ensures Elements(rest) == {rest[0]} + Elements(rest[1..])
  {
  }

  lemma AtThrice(w: World, g: nat, p: PC, q: PC, r: PC)
    ensures w.pc[g := p][g := q][g := r] == w.pc[g := r]
  {
  }

  lemma NoElements()
    ensures Elements<SessionId>([]) == {}
  {
  }

  lemma MovedNone(t: SessionTable)
    ensures MovedOut(t, Elements<SessionId>([])) == t
  {
  }

  lemma MovedOneMore(t: SessionTable, s: SessionId, ids: set<SessionId>)
    ensures MovedOut(WithChannel(t, s, 0), ids) == MovedOut(t, {s} + ids)
  {
  }

  /** Coherent indexes with the same locations are the same. */
  lemma EmptiedByRemoval(ix: Index, c: ChannelId, jx: Index)
    requires ix.Coherent() && jx.Coherent() && jx.whereIs == ix.whereIs - ix.Occupants(c)
    ensures jx == ix.Emptied(c)
  {
    CoherentMeaning(ix);
    EmptiedIsCoherent(ix, c);
    assert jx.whereIs == ix.Emptied(c).whereIs;
  }

  /** A deletion, whatever the order of the members in the snapshot, permitted or refused. */
  lemma DeleteUninterrupted(w: World, g: nat, id: SessionId, c: ChannelId, allowed: bool, order: seq<SessionId>)
    requires w.s.index.Coherent() && g in w.pc && w.pc[g] == Idle(id)
    requires NoDuplicates(order) && Elements(order) == w.s.index.Occupants(c)
    ensures Solo(w, g, [StartDelete(c, allowed), Go, MembersAre(order)] + Gos(2 * |order| + 1)) == w.(s := DeletedChannel(w.s, id, c, allowed))
  {
    hide Index.Coherent, Index.Emptied, MovedOut, NoDuplicates, Elements, Solo, Moved, Gos, Table.Dropped;
    if id in w.s.sessions && allowed {
      DeletePermitted(w, g, id, c, order);
    } else {
      DeleteRefused(w, g, id, c, allowed, order);
    }
  }

  lemma DeleteRefused(w: World, g: nat, id: SessionId, c: ChannelId, allowed: bool, order: seq<SessionId>)
    requires g in w.pc && w.pc[g] == Idle(id) && (id !in w.s.sessions || !allowed)
    ensures Solo(w, g, [StartDelete(c, allowed), Go, MembersAre(order)] + Gos(2 * |order| + 1)) == w
  {
    hide Solo, Moved, Gos;
    var gos := Gos(2 * |order| + 1);
    assert [StartDelete(c, allowed), Go, MembersAre(order)] + gos == [StartDelete(c, allowed)] + ([Go] + ([MembersAre(order)] + gos));
    StartMoves(w, g, StartDelete(c, allowed));
    SoloStep(w, g, StartDelete(c, allowed), [Go] + ([MembersAre(order)] + gos));
    StartMoves(w, g, Go);
    SoloStep(w, g, Go, [MembersAre(order)] + gos);
    StartMoves(w, g, MembersAre(order));
    SoloStep(w, g, MembersAre(order), gos);
    RestIdles(w, g, 2 * |order| + 1);
  }

  lemma DeletePermitted(w: World, g: nat, id: SessionId, c: ChannelId, order: seq<SessionId>)
    requires w.s.index.Coherent() && g in w.pc && w.pc[g] == Idle(id) && id in w.s.sessions
    requires NoDuplicates(order) && Elements(order) == w.s.index.Occupants(c)
    ensures Solo(w, g, [StartDelete(c, true), Go, MembersAre(order)] + Gos(2 * |order| + 1)) == w.(s := DeletedChannel(w.s, id, c, true))
  {
    hide Index.Coherent, Index.Emptied, MovedOut, NoDuplicates, Elements, Solo, Moved, Gos, Table.Dropped;
    var gos := Gos(2 * |order| + 1);
    var dropped := w.(s := w.s.(store := w.s.store.Dropped(c)));
    var evicting := dropped.At(g, DeleteEvicting(id, order));
    DeleteToEvicting(w, g, id, c, true, order, gos);
    EvictAll(evicting, g, id, order);
    EmptiedByRemoval(w.s.index, c, Solo(evicting, g, gos).s.index);
    BackToIdle(dropped, evicting, g, id);
  }

  /** An import that is refused. */
  lemma ImportRefused(w: World, g: nat, id: SessionId, allowed: bool)
    requires g in w.pc && w.pc[g] == Idle(id) && (id !in w.s.sessions || !allowed)
    ensures Solo(w, g, [StartImport(allowed)]) == w
  {
    hide Solo, Moved;
    StartMoves(w, g, StartImport(allowed));
    assert [StartImport(allowed)] == [StartImport(allowed)] + [];
    SoloStep(w, g, StartImport(allowed), []);
    SoloNone(w, g);
  }

  lemma DeleteToEvicting(w: World, g: nat, id: SessionId, c: ChannelId, allowed: bool, order: seq<SessionId>, gos: seq<Input>)
    requires g in w.pc && w.pc[g] == Idle(id) && id in w.s.sessions && allowed
    requires NoDuplicates(order) && Elements(order) == w.s.index.Occupants(c)
    ensures var dropped := w.(s := w.s.(store := w.s.store.Dropped(c)));
            Solo(w, g, [StartDelete(c, allowed), Go, MembersAre(order)] + gos) == Solo(dropped.At(g, DeleteEvicting(id, order)), g, gos)
  {
    hide NoDuplicates, Elements, Solo, Moved, Gos, Table.Dropped;
    assert [StartDelete(c, allowed), Go, MembersAre(order)] + gos == [StartDelete(c, allowed)] + ([Go] + ([MembersAre(order)] + gos));
    SoloStep(w, g, StartDelete(c, allowed), [Go] + ([MembersAre(order)] + gos));
    StartMoves(w, g, StartDelete(c, allowed));
    DeleteTwoSteps(w, g, id, c, order, gos);
  }

  lemma DeleteTwoSteps(w: World, g: nat, id: SessionId, c: ChannelId, order: seq<SessionId>, gos: seq<Input>)
    requires NoDuplicates(order) && Elements(order) == w.s.index.Occupants(c)
    ensures var dropped := w.(s := w.s.(store := w.s.store.Dropped(c)));
            Solo(w.At(g, DeleteChecked(id, c)), g, [Go] + ([MembersAre(order)] + gos)) == Solo(dropped.At(g, DeleteEvicting(id, order)), g, gos)
  {
    hide NoDuplicates, Elements, Solo, Moved, Gos, Table.Dropped;
    var dropped := w.(s := w.s.(store := w.s.store.Dropped(c)));
    var w1 := w.At(g, DeleteChecked(id, c));
    var w2 := dropped.At(g, DeleteDropped(id, c));
    SoloStep(w1, g, Go, [MembersAre(order)] + gos);
    DeleteMoves(w1, g, Go);
    AtAt(w, g, DeleteChecked(id, c), DeleteDropped(id, c));
    SoloStep(w2, g, MembersAre(order), gos);
    DeleteMoves(w2, g, MembersAre(order));
    AtAt(dropped, g, DeleteDropped(id, c), DeleteEvicting(id, order));
  }

  lemma StartMoves(w: World, g: nat, input: Input)
    requires g in w.pc && w.pc[g].Idle?
    ensures Moved(w, g, input) == Started(w, g, w.pc[g].id, input)
  {
    hide Started;
  }

  lemma DeleteMoves(w: World, g: nat, input: Input)
    requires g in w.pc && (w.pc[g].DeleteChecked? || w.pc[g].DeleteDropped? || w.pc[g].DeleteEvicting? || w.pc[g].DeleteClearing?)
    ensures Moved(w, g, input) == DeleteStep(w, g, w.pc[g], input)
  {
    hide DeleteStep;
  }
}
