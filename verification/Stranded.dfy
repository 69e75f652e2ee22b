/** Exactly when, at lock granularity, a session is left in a channel that does not exist once all handlers
    are done. While a deletion is under way its members are in such a channel for a moment; they count
    only if the deletion does not evict them. */
module Stranded {
  import opened Prelude
  import opened ChannelIndex
  import opened Sessions
  import opened Store
  import opened Server
  import opened Interleaving
  import opened JoinOverlap
  import opened Uninterrupted
  import Windows
  import AtomicRuns

  predicate Gone(s: State, id: SessionId) {
    id in s.index.whereIs && s.index.whereIs[id] !in s.store.rows
  }

  /** A deleter that is going to take `id` out of the index. */
  predicate OwesEviction(p: PC, s: State, id: SessionId) {
    || (p.DeleteDropped? && id in s.index.whereIs && s.index.whereIs[id] == p.c)
    || (p.DeleteEvicting? && id in p.rest)
    || (p.DeleteClearing? && p.rest != [] && id in p.rest[1..])
  }

  ghost predicate Owed(w: World, id: SessionId) {
    exists g :: g in w.pc && OwesEviction(w.pc[g], w.s, id)
  }

  /** The sessions that last entered a channel that was already gone, or whose channel a timer deleted
      while they were in it; whoever leaves the index is dropped. */
  function StrandedAfter(w: World, e: Event, before: set<SessionId>): set<SessionId> {
    var now :=
      if e.Conn? && e.g in w.pc && w.pc[e.g].JoinAdmitted? then
        if w.pc[e.g].c in w.s.store.rows then before - {w.pc[e.g].id} else before + {w.pc[e.g].id}
      else if e.Fire? && e.c in w.firing then before + w.s.index.Occupants(e.c)
      else before;
    now * Next(w, e).s.index.whereIs.Keys
  }

  function StrandedIn(w: World, es: seq<Event>, before: set<SessionId>): set<SessionId>
    decreases |es|
  {
    if es == [] then before else StrandedIn(Next(w, es[0]), es[1..], StrandedAfter(w, es[0], before))
  }

  ghost predicate Right(w: World, stranded: set<SessionId>, id: SessionId) {
    id in w.s.index.whereIs ==> Owed(w, id) || (Gone(w.s, id) <==> id in stranded)
  }

  ghost predicate Tracked(w: World, stranded: set<SessionId>) {
    stranded <= w.s.index.whereIs.Keys && forall id :: Right(w, stranded, id)
  }

  /** A step of `g` that leaves the place of a session and the existence of its channel alone. */
  lemma Untouched(w: World, v: World, g: nat, stranded: set<SessionId>, id: SessionId)
    requires Right(w, stranded, id) && g in w.pc && g in v.pc && v.pc == w.pc[g := v.pc[g]]
    requires id in v.s.index.whereIs ==> id in w.s.index.whereIs && v.s.index.whereIs[id] == w.s.index.whereIs[id]
    requires id in v.s.index.whereIs ==> (Gone(v.s, id) <==> Gone(w.s, id))
    requires id in v.s.index.whereIs ==> (OwesEviction(w.pc[g], w.s, id) ==> OwesEviction(v.pc[g], v.s, id))
    ensures Right(v, stranded * v.s.index.whereIs.Keys, id)
  {
    if id in v.s.index.whereIs && Owed(w, id) {
      var h :| h in w.pc && OwesEviction(w.pc[h], w.s, id);
      assert OwesEviction(v.pc[h], v.s, id);
    }
  }

  lemma JoinedPlace(ix: Index, s: SessionId, c: ChannelId)
    requires ix.Coherent()
    ensures ix.Joined(s, c).whereIs == ix.whereIs[s := c]
  {
    JoinedIsOneMove(ix, s, c);
  }

  lemma LeftPlace(ix: Index, s: SessionId)
    requires ix.Coherent()
    ensures ix.Left(s).whereIs == ix.whereIs - {s}
  {
    LeftIsOneRemoval(ix, s);
  }

  lemma JoinRight(w: World, g: nat, stranded: set<SessionId>, id: SessionId)
    requires w.s.index.Coherent() && Right(w, stranded, id) && g in w.pc && w.pc[g].Kind().Joining?
    ensures var v := JoinStep(w, g, w.pc[g]); var p := w.pc[g];
            var now := if !p.JoinAdmitted? then stranded else if p.c in w.s.store.rows then stranded - {p.id} else stranded + {p.id};
            Right(v, now * v.s.index.whereIs.Keys, id)
  {
    hide Index.Coherent, Index.Joined, Right;
    var v := JoinStep(w, g, w.pc[g]);
    if w.pc[g].JoinAdmitted? {
      JoinedPlace(w.s.index, w.pc[g].id, w.pc[g].c);
      if id == w.pc[g].id {
        EnteredRight(w, v, stranded, id, w.pc[g].c);
      } else {
        Untouched(w, v, g, stranded, id);
        OtherSession(v, stranded, w.pc[g].id, id);
      }
    } else {
      Untouched(w, v, g, stranded, id);
    }
  }

  lemma EnteredRight(w: World, v: World, stranded: set<SessionId>, id: SessionId, c: ChannelId)
    requires v.s.index.whereIs == w.s.index.whereIs[id := c] && v.s.store == w.s.store
    ensures Right(v, (if c in w.s.store.rows then stranded - {id} else stranded + {id}) * v.s.index.whereIs.Keys, id)
  {
  }

  lemma OtherSession(v: World, stranded: set<SessionId>, x: SessionId, id: SessionId)
    requires Right(v, stranded * v.s.index.whereIs.Keys, id) && x != id
    ensures Right(v, (stranded - {x}) * v.s.index.whereIs.Keys, id) && Right(v, (stranded + {x}) * v.s.index.whereIs.Keys, id)
  {
  }

  lemma LeaveRight(w: World, g: nat, stranded: set<SessionId>, id: SessionId)
    requires w.s.index.Coherent() && Right(w, stranded, id) && g in w.pc && w.pc[g].Kind().Leaving?
    ensures Right(LeaveStep(w, g, w.pc[g]), stranded * LeaveStep(w, g, w.pc[g]).s.index.whereIs.Keys, id)
  {
    hide Index.Coherent, Index.Left, Right;
    if w.pc[g].LeaveChecked? { LeftPlace(w.s.index, w.pc[g].id); }
    Untouched(w, LeaveStep(w, g, w.pc[g]), g, stranded, id);
  }

  lemma CloseRight(w: World, g: nat, stranded: set<SessionId>, id: SessionId)
    requires w.s.index.Coherent() && Right(w, stranded, id) && g in w.pc && w.pc[g].Kind().Ending?
    ensures Right(CloseStep(w, g, w.pc[g]), stranded * CloseStep(w, g, w.pc[g]).s.index.whereIs.Keys, id)
  {
    hide Index.Coherent, Index.Left, Right;
    if w.pc[g].Closing? { LeftPlace(w.s.index, w.pc[g].id); }
    assert w.pc[g := w.pc[g]] == w.pc;
    Untouched(w, CloseStep(w, g, w.pc[g]), g, stranded, id);
  }

  lemma DeleteRight(w: World, g: nat, input: Input, stranded: set<SessionId>, id: SessionId)
    requires w.s.index.Coherent() && Right(w, stranded, id) && g in w.pc && w.pc[g].Kind().Deleting?
    ensures Right(DeleteStep(w, g, w.pc[g], input), stranded * DeleteStep(w, g, w.pc[g], input).s.index.whereIs.Keys, id)
  {
    if w.pc[g].DeleteChecked? {
      DropRight(w, g, input, stranded, id);
    } else {
      EvictRight(w, g, input, stranded, id);
    }
  }

  /** Whoever is in a channel that is being dropped is owed an eviction. */
  lemma DropRight(w: World, g: nat, input: Input, stranded: set<SessionId>, id: SessionId)
    requires Right(w, stranded, id) && g in w.pc && w.pc[g].DeleteChecked?
    ensures Right(DeleteStep(w, g, w.pc[g], input), stranded * DeleteStep(w, g, w.pc[g], input).s.index.whereIs.Keys, id)
  {
    var v := DeleteStep(w, g, w.pc[g], input);
    if id in w.s.index.whereIs && w.s.index.whereIs[id] == w.pc[g].c {
      assert OwesEviction(v.pc[g], v.s, id);
    } else {
      hide Right;
      Untouched(w, v, g, stranded, id);
    }
  }

  lemma EvictRight(w: World, g: nat, input: Input, stranded: set<SessionId>, id: SessionId)
    requires w.s.index.Coherent() && Right(w, stranded, id) && g in w.pc && w.pc[g].Kind().Deleting? && !w.pc[g].DeleteChecked?
    ensures Right(DeleteStep(w, g, w.pc[g], input), stranded * DeleteStep(w, g, w.pc[g], input).s.index.whereIs.Keys, id)
  {
    hide Index.Coherent, Index.Left, Right, NoDuplicates, Table.Dropped;
    var v := DeleteStep(w, g, w.pc[g], input);
    assert w.pc[g := w.pc[g]] == w.pc;
    if w.pc[g].DeleteEvicting? && w.pc[g].rest != [] { LeftPlace(w.s.index, w.pc[g].rest[0]); }
    if w.pc[g].DeleteDropped? { SnapshotHolds(w, w.pc[g].c, id, input); }
    Untouched(w, v, g, stranded, id);
  }

  lemma SnapshotHolds(w: World, c: ChannelId, id: SessionId, input: Input)
    requires w.s.index.Coherent()
    ensures input.MembersAre? && Elements(input.order) == w.s.index.Occupants(c) && id in w.s.index.whereIs && w.s.index.whereIs[id] == c ==> id in input.order
  {
    CoherentMeaning(w.s.index);
    if input.MembersAre? && Elements(input.order) == w.s.index.Occupants(c) && id in w.s.index.whereIs && w.s.index.whereIs[id] == c {
      assert id in Elements(input.order);
    }
  }

  lemma CreateRight(w: World, g: nat, input: Input, stranded: set<SessionId>, id: SessionId)
    requires w.s.index.Coherent() && w.s.store.WellFormed() && Known(w) && Right(w, stranded, id) && g in w.pc && w.pc[g].Kind().Creating?
    ensures Right(CreateStep(w, g, w.pc[g], input), stranded * CreateStep(w, g, w.pc[g], input).s.index.whereIs.Keys, id)
  {
    hide Index.Coherent, Right, Validate, TooSoon, Known, Table.WellFormed;
    var v := CreateStep(w, g, w.pc[g], input);
    assert w.pc[g := w.pc[g]] == w.pc;
    PlaceKnown(w, id);
    CreateStays(w, g, input);
    Untouched(w, v, g, stranded, id);
  }

  lemma PlaceKnown(w: World, id: SessionId)
    requires w.s.index.Coherent() && Known(w)
    ensures id in w.s.index.whereIs ==> w.s.index.whereIs[id] < w.s.store.next
  {
    CoherentMeaning(w.s.index);
    if id in w.s.index.whereIs { assert id in w.s.index.Occupants(w.s.index.whereIs[id]); }
  }

  lemma CreateStays(w: World, g: nat, input: Input)
    requires g in w.pc
    ensures var v := CreateStep(w, g, w.pc[g], input);
            && v.s.index == w.s.index && (g in v.pc && v.pc == w.pc[g := v.pc[g]])
            && forall c :: c < w.s.store.next ==> (c in v.s.store.rows <==> c in w.s.store.rows)
  {
    hide Added, TooSoon;
    assert w.pc[g := w.pc[g]] == w.pc;
    AddedAbove(w.s);
  }

  lemma AddedAbove(s: State)
    ensures forall ch :: var t := Added(s, ch); t == s.(store := t.store) && forall c :: c < s.store.next ==> (c in t.store.rows <==> c in s.store.rows)
  {
    hide Validate;
  }

  lemma StartRight(w: World, g: nat, input: Input, stranded: set<SessionId>, id: SessionId)
    requires Right(w, stranded, id) && g in w.pc && w.pc[g].Idle?
    ensures var v := Started(w, g, w.pc[g].id, input); Right(v, stranded * v.s.index.whereIs.Keys, id)
  {
    hide Right, Started, OwesEviction;
    StartedShape(w, g, w.pc[g].id, input);
    IdleOwesNothing(w.pc[g], w.s, id);
    Untouched(w, Started(w, g, w.pc[g].id, input), g, stranded, id);
  }

  lemma IdleOwesNothing(p: PC, s: State, id: SessionId)
    requires p.Idle?
    ensures !OwesEviction(p, s, id)
  {
  }

  lemma RegisterRight(w: World, g: nat, input: Input, stranded: set<SessionId>, id: SessionId)
    requires Right(w, stranded, id) && g in w.pc && w.pc[g].Kind().Register?
    ensures var v := RegisterStep(w, g, w.pc[g], input); Right(v, stranded * v.s.index.whereIs.Keys, id)
  {
    hide Right;
    assert w.pc[g := w.pc[g]] == w.pc;
    Untouched(w, RegisterStep(w, g, w.pc[g], input), g, stranded, id);
  }

  lemma MovedRight(w: World, g: nat, input: Input, stranded: set<SessionId>, id: SessionId)
    requires Inv(w) && Known(w) && Right(w, stranded, id) && g in w.pc
    ensures Right(Moved(w, g, input), StrandedAfter(w, Conn(g, input), stranded), id)
  {
    hide Right, Owned, TempsOnly, Index.Coherent, Table.WellFormed, Known;
    hide Started, RegisterStep, JoinStep, LeaveStep, DeleteStep, CreateStep, CloseStep;
    match w.pc[g].Kind()
    case Register => RegisterRight(w, g, input, stranded, id);
    case Between => StartRight(w, g, input, stranded, id);
    case Joining => JoinRight(w, g, stranded, id);
    case Leaving => LeaveRight(w, g, stranded, id);
    case Deleting => DeleteRight(w, g, input, stranded, id);
    case Creating => CreateRight(w, g, input, stranded, id);
    case Ending => CloseRight(w, g, stranded, id);
  }

  lemma OthersShape(w: World, e: Event)
    requires !(e.Conn? && e.g in w.pc)
    ensures var v := Next(w, e);
            && v.s.index == w.s.index && (forall h :: h in w.pc ==> h in v.pc && v.pc[h] == w.pc[h])
            && v.s.store == (if e.Fire? && e.c in w.firing then w.s.store.Dropped(e.c) else w.s.store)
  {
    hide Moved, Table.Dropped, Index.Occupants, WithAddr;
    match e
    case Conn(g, input) => AcceptShape(w, g, input);
    case Wake(c) =>
    case Fire(c) =>
    case Addr(id, from) =>
  }

  lemma AcceptShape(w: World, g: nat, input: Input)
    requires g !in w.pc
    ensures Moved(w, g, input) == if input.Accept? then w.At(g, Authenticated(input.userID)) else w
  {
    hide PC.Kind, Started, RegisterStep, JoinStep, LeaveStep, DeleteStep, CreateStep, CloseStep;
  }

  /** Timers, addresses and new connections. */
  lemma OthersRight(w: World, e: Event, stranded: set<SessionId>, id: SessionId)
    requires w.s.index.Coherent() && Right(w, stranded, id) && !(e.Conn? && e.g in w.pc)
    ensures Right(Next(w, e), StrandedAfter(w, e, stranded), id)
  {
    hide Index.Coherent, OwesEviction, Next, Index.Occupants;
    var v := Next(w, e);
    OthersShape(w, e);
    if id in w.s.index.whereIs {
      InPlace(w.s.index, id);
      if Owed(w, id) {
        var h :| h in w.pc && OwesEviction(w.pc[h], w.s, id);
        SameDebt(w.pc[h], w.s, v.s, id);
        assert h in v.pc && OwesEviction(v.pc[h], v.s, id);
      }
    }
  }

  lemma InPlace(ix: Index, id: SessionId)
    requires ix.Coherent()
    ensures forall c :: id in ix.Occupants(c) <==> id in ix.whereIs && ix.whereIs[id] == c
  {
    CoherentMeaning(ix);
  }

  lemma SameDebt(p: PC, s: State, t: State, id: SessionId)
    requires s.index == t.index
    ensures OwesEviction(p, s, id) <==> OwesEviction(p, t, id)
  {
  }

  lemma {:induction false} NextTracked(w: World, e: Event, stranded: set<SessionId>)
    requires Inv(w) && Known(w) && Tracked(w, stranded)
    ensures Tracked(Next(w, e), StrandedAfter(w, e, stranded))
  {
    forall id ensures Right(Next(w, e), StrandedAfter(w, e, stranded), id) {
      hide Right, Known, Moved, StrandedAfter;
      assert w.s.index.Coherent() by { Windows.InvCoherent(w); }
      hide Inv;
      if e.Conn? && e.g in w.pc {
        MovedRight(w, e.g, e.input, stranded, id);
      } else {
        OthersRight(w, e, stranded, id);
      }
    }
  }

  lemma {:induction false} ScheduleTracked(w: World, es: seq<Event>, stranded: set<SessionId>)
    requires Inv(w) && Known(w) && Tracked(w, stranded)
    ensures Inv(Scheduled(w, es)) && Tracked(Scheduled(w, es), StrandedIn(w, es, stranded))
    decreases |es|
  {
    hide Inv, Known, Tracked, Next, StrandedAfter;
    if es != [] {
      NextTracked(w, es[0], stranded);
      NextInv(w, es[0]);
      Windows.KnownNext(w, es[0]);
      ScheduleTracked(Next(w, es[0]), es[1..], StrandedAfter(w, es[0], stranded));
    }
  }

  lemma NothingOwed(w: World, id: SessionId)
    requires AtRest(w)
    ensures !Owed(w, id)
  {
  }

  lemma FreshTracked(w: World)
    requires Fresh(w)
    ensures Tracked(w, {})
  {
  }

  /** After every schedule that ends with all handlers done, a session is in a channel that does not exist
      exactly if the channel was gone already when the session entered it, or a timer deleted it while the
      session was in it. */
  lemma {:induction false} GoneIff(w: World, es: seq<Event>, id: SessionId)
    requires Fresh(w) && AtRest(Scheduled(w, es))
    ensures Gone(Scheduled(w, es).s, id) <==> id in StrandedIn(w, es, {})
    ensures Inv(Scheduled(w, es))
  {
    hide Scheduled, StrandedIn, Inv, Known, Owed, AtRest;
    FreshHasRoom(w);
    FreshTracked(w);
    ScheduleTracked(w, es, {});
    NothingOwed(Scheduled(w, es), id);
    assert Right(Scheduled(w, es), StrandedIn(w, es, {}), id);
  }

  /** So occupied channels exist at rest exactly if nobody is stranded. */
  lemma {:induction false} ExistenceAtRestIff(w: World, es: seq<Event>)
    requires Fresh(w) && AtRest(Scheduled(w, es))
    ensures AtomicRuns.OccupiedExist(Scheduled(w, es).s) <==> StrandedIn(w, es, {}) == {}
  {
    hide Scheduled, StrandedIn, AtRest, Inv;
    var v := Scheduled(w, es);
    forall id ensures Gone(v.s, id) <==> id in StrandedIn(w, es, {}) {
      GoneIff(w, es, id);
    }
    assert v.s.index.Coherent() by { GoneIff(w, es, 0); Windows.InvCoherent(v); }
    NoneGone(v.s);
  }

  lemma NoneGone(s: State)
    requires s.index.Coherent()
    ensures AtomicRuns.OccupiedExist(s) <==> forall id :: !Gone(s, id)
  {
    CoherentMeaning(s.index);
    if !AtomicRuns.OccupiedExist(s) {
      var c :| s.index.Occupants(c) != {} && c !in s.store.rows;
      var id :| id in s.index.Occupants(c);
      assert Gone(s, id);
    }
    if id :| Gone(s, id) {
      assert id in s.index.Occupants(s.index.whereIs[id]);
    }
  }
}
