/** Timers at lock granularity: between the departure that empties a temporary channel and the start of its
    timer, other goroutines may run. */
module LateTimers {
  import opened Prelude
  import opened ChannelIndex
  import opened Sessions
  import opened Store
  import opened Server
  import opened Interleaving
  import opened JoinOverlap
  import opened Uninterrupted
  import Windows

  /** A goroutine whose session has left `c` and who has yet to look whether a timer is needed. */
  predicate OnWay(p: PC, c: ChannelId) {
    (p.LeaveIndexed? || p.LeaveCleared? || p.LeaveFoundTemp? || p.ClosingLeft? || p.ClosingUnmapped? || p.ClosedRemoved? || p.ClosedFoundTemp?) && p.c == c
  }

  ghost predicate Coming(w: World, c: ChannelId) {
    exists g :: g in w.pc && OnWay(w.pc[g], c)
  }

  predicate Vacant(s: State, c: ChannelId) {
    c in s.store.rows && s.store.rows[c].isTemp && s.index.Occupants(c) == {}
  }

  /** The channels whose last departure was a leave or a disconnect, rather than a switch to another
      channel or an eviction. */
  function DepartedAfter(w: World, e: Event, before: set<ChannelId>): set<ChannelId> {
    if e.Conn? && e.g in w.pc then
      match w.pc[e.g]
      case LeaveChecked(id) => if id in w.s.index.whereIs then before + {w.s.index.whereIs[id]} else before
      case Closing(id) => if id in w.s.index.whereIs then before + {w.s.index.whereIs[id]} else before
      case JoinAdmitted(id, c) => if id in w.s.index.whereIs && w.s.index.whereIs[id] != c then before - {w.s.index.whereIs[id]} else before
      case DeleteEvicting(_, rest) => if rest != [] && rest[0] in w.s.index.whereIs then before - {w.s.index.whereIs[rest[0]]} else before
      case _ => before
    else before
  }

  function DepartedIn(w: World, es: seq<Event>, before: set<ChannelId>): set<ChannelId>
    decreases |es|
  {
    if es == [] then before else DepartedIn(Next(w, es[0]), es[1..], DepartedAfter(w, es[0], before))
  }

  /** Every such channel that is vacant has a timer, is about to be deleted, or is about to be looked at. */
  ghost predicate Watched(w: World, departed: set<ChannelId>, c: ChannelId) {
    c in departed ==> c < w.s.store.next && (Vacant(w.s, c) ==> c in w.s.timers || c in w.firing || Coming(w, c))
  }

  ghost predicate AllWatched(w: World, departed: set<ChannelId>) {
    forall c :: Watched(w, departed, c)
  }

  /** A step of `g` by which `c` is not emptied. */
  lemma Untouched(w: World, v: World, g: nat, departed: set<ChannelId>, c: ChannelId)
    requires Watched(w, departed, c) && g in w.pc && g in v.pc && v.pc == w.pc[g := v.pc[g]] && v.firing == w.firing
    requires RowsEvolve(w.s.store, v.s.store)
    requires v.s.index.Occupants(c) == {} ==> w.s.index.Occupants(c) == {}
    requires c in w.s.timers ==> c in v.s.timers
    requires OnWay(w.pc[g], c) && Vacant(v.s, c) ==> OnWay(v.pc[g], c) || c in v.s.timers
    ensures Watched(v, departed, c)
  {
    hide OnWay;
    if Vacant(v.s, c) && c in departed && Coming(w, c) {
      var h :| h in w.pc && OnWay(w.pc[h], c);
      if h != g { assert OnWay(v.pc[h], c); }
    }
  }

  lemma Left(ix: Index, s: SessionId, c: ChannelId)
    requires ix.Coherent()
    ensures !(s in ix.whereIs && ix.whereIs[s] == c) ==> ix.Left(s).Occupants(c) == ix.Occupants(c)
  {
    LeftIsOneRemoval(ix, s);
    CoherentMeaning(ix);
  }

  lemma Entered(ix: Index, s: SessionId, d: ChannelId, c: ChannelId)
    requires ix.Coherent()
    ensures ix.Joined(s, d).Occupants(d) != {}
    ensures c != d && !(s in ix.whereIs && ix.whereIs[s] == c) ==> ix.Joined(s, d).Occupants(c) == ix.Occupants(c)
  {
    JoinedIsOneMove(ix, s, d);
    CoherentMeaning(ix);
    assert s in ix.Joined(s, d).Occupants(d);
  }

  lemma PlaceKnown(w: World, id: SessionId)
    requires w.s.index.Coherent() && Known(w) && id in w.s.index.whereIs
    ensures w.s.index.whereIs[id] < w.s.store.next
  {
    CoherentMeaning(w.s.index);
    assert id in w.s.index.Occupants(w.s.index.whereIs[id]);
  }

  lemma NowComing(v: World, g: nat, departed: set<ChannelId>, c: ChannelId)
    requires g in v.pc && OnWay(v.pc[g], c) && c < v.s.store.next
    ensures Watched(v, departed, c)
  {
  }

  lemma JoinWatched(w: World, g: nat, input: Input, departed: set<ChannelId>, c: ChannelId)
    requires w.s.index.Coherent() && Watched(w, departed, c) && g in w.pc && w.pc[g].Kind().Joining?
    ensures Watched(JoinStep(w, g, w.pc[g]), DepartedAfter(w, Conn(g, input), departed), c)
  {
    hide Index.Coherent, Index.Joined, Watched, RowsEvolve;
    var v := JoinStep(w, g, w.pc[g]);
    EvolvesToItself(w.s.store);
    if w.pc[g].JoinAdmitted? {
      var id, d := w.pc[g].id, w.pc[g].c;
      Entered(w.s.index, id, d, c);
      if id in w.s.index.whereIs && w.s.index.whereIs[id] == c != d {
        NotDeparted(v, departed - {c}, c);
      } else {
        Untouched(w, v, g, departed, c);
        Fewer(v, departed, w.s.index.ChannelOf(id), c);
      }
    } else {
      Untouched(w, v, g, departed, c);
    }
  }

  lemma NotDeparted(v: World, departed: set<ChannelId>, c: ChannelId)
    requires c !in departed
    ensures Watched(v, departed, c)
  {
  }

  lemma Fewer(v: World, departed: set<ChannelId>, d: ChannelId, c: ChannelId)
    requires Watched(v, departed, c)
    ensures Watched(v, departed - {d}, c)
  {
  }

  lemma More(v: World, departed: set<ChannelId>, d: ChannelId, c: ChannelId)
    requires Watched(v, departed, c) && c != d
    ensures Watched(v, departed + {d}, c)
  {
  }

  lemma LeaveWatched(w: World, g: nat, input: Input, departed: set<ChannelId>, c: ChannelId)
    requires w.s.index.Coherent() && w.s.store.WellFormed() && Known(w) && Watched(w, departed, c) && g in w.pc && w.pc[g].Kind().Leaving?
    ensures Watched(LeaveStep(w, g, w.pc[g]), DepartedAfter(w, Conn(g, input), departed), c)
  {
    hide Index.Coherent, Index.Left, Watched, RowsEvolve, Known;
    var v := LeaveStep(w, g, w.pc[g]);
    EvolvesToItself(w.s.store);
    if w.pc[g].LeaveChecked? {
      var id := w.pc[g].id;
      Left(w.s.index, id, c);
      if id in w.s.index.whereIs && w.s.index.whereIs[id] == c {
        PlaceKnown(w, id);
        NowComing(v, g, departed + {c}, c);
      } else {
        Untouched(w, v, g, departed, c);
        if id in w.s.index.whereIs { More(v, departed, w.s.index.whereIs[id], c); }
      }
    } else {
      Untouched(w, v, g, departed, c);
    }
  }

  lemma CloseWatched(w: World, g: nat, input: Input, departed: set<ChannelId>, c: ChannelId)
    requires w.s.index.Coherent() && w.s.store.WellFormed() && Known(w) && Watched(w, departed, c) && g in w.pc && w.pc[g].Kind().Ending?
    ensures Watched(CloseStep(w, g, w.pc[g]), DepartedAfter(w, Conn(g, input), departed), c)
  {
    hide Index.Coherent, Index.Left, Watched, RowsEvolve, Known;
    var v := CloseStep(w, g, w.pc[g]);
    EvolvesToItself(w.s.store);
    assert w.pc[g := w.pc[g]] == w.pc;
    if w.pc[g].Closing? {
      var id := w.pc[g].id;
      Left(w.s.index, id, c);
      if id in w.s.index.whereIs && w.s.index.whereIs[id] == c {
        PlaceKnown(w, id);
        NowComing(v, g, departed + {c}, c);
      } else {
        Untouched(w, v, g, departed, c);
        if id in w.s.index.whereIs { More(v, departed, w.s.index.whereIs[id], c); }
      }
    } else {
      Untouched(w, v, g, departed, c);
    }
  }

  lemma DeleteWatched(w: World, g: nat, input: Input, departed: set<ChannelId>, c: ChannelId)
    requires w.s.index.Coherent() && Watched(w, departed, c) && g in w.pc && w.pc[g].Kind().Deleting?
    ensures Watched(DeleteStep(w, g, w.pc[g], input), DepartedAfter(w, Conn(g, input), departed), c)
  {
    if w.pc[g].DeleteEvicting? && w.pc[g].rest != [] {
      EvictWatched(w, g, input, departed, c);
    } else {
      hide Watched, RowsEvolve, DeleteStep;
      DeleteShape(w, g, input);
      Untouched(w, DeleteStep(w, g, w.pc[g], input), g, departed, c);
    }
  }

  lemma DeleteShape(w: World, g: nat, input: Input)
    requires g in w.pc && w.pc[g].Kind().Deleting? && !(w.pc[g].DeleteEvicting? && w.pc[g].rest != [])
    ensures var v := DeleteStep(w, g, w.pc[g], input);
            && v.s.index == w.s.index && v.s.timers == w.s.timers && v.firing == w.firing && RowsEvolve(w.s.store, v.s.store)
            && g in v.pc && v.pc == w.pc[g := v.pc[g]]
  {
    hide NoDuplicates, Elements, WithChannel;
    assert w.pc[g := w.pc[g]] == w.pc;
  }

  lemma EvictWatched(w: World, g: nat, input: Input, departed: set<ChannelId>, c: ChannelId)
    requires w.s.index.Coherent() && Watched(w, departed, c) && g in w.pc && w.pc[g].DeleteEvicting? && w.pc[g].rest != []
    ensures Watched(DeleteStep(w, g, w.pc[g], input), DepartedAfter(w, Conn(g, input), departed), c)
  {
    hide Index.Coherent, Index.Left, Watched, RowsEvolve;
    var v := DeleteStep(w, g, w.pc[g], input);
    var id := w.pc[g].rest[0];
    EvolvesToItself(w.s.store);
    Left(w.s.index, id, c);
    if id in w.s.index.whereIs && w.s.index.whereIs[id] == c {
      NotDeparted(v, departed - {c}, c);
    } else {
      Untouched(w, v, g, departed, c);
      Fewer(v, departed, w.s.index.ChannelOf(id), c);
    }
  }

  lemma CreateWatched(w: World, g: nat, input: Input, departed: set<ChannelId>, c: ChannelId)
    requires w.s.store.WellFormed() && Watched(w, departed, c) && g in w.pc && w.pc[g].Kind().Creating?
    ensures Watched(CreateStep(w, g, w.pc[g], input), departed, c)
  {
    hide Watched, RowsEvolve, CreateStep, Table.WellFormed;
    var v := CreateStep(w, g, w.pc[g], input);
    CreateShape(w, g, input);
    CreateNoCloser(w, g, input);
    Untouched(w, v, g, departed, c);
  }

  lemma CreateShape(w: World, g: nat, input: Input)
    requires g in w.pc
    ensures var v := CreateStep(w, g, w.pc[g], input);
            v.s.index == w.s.index && v.s.timers == w.s.timers && v.firing == w.firing && g in v.pc && v.pc == w.pc[g := v.pc[g]]
  {
    hide Validate, TooSoon, Table.Added;
    assert w.pc[g := w.pc[g]] == w.pc;
  }

  lemma StartWatched(w: World, g: nat, input: Input, departed: set<ChannelId>, c: ChannelId)
    requires Watched(w, departed, c) && g in w.pc && w.pc[g].Idle?
    ensures Watched(Started(w, g, w.pc[g].id, input), departed, c)
  {
    hide Watched, Started, RowsEvolve;
    EvolvesToItself(w.s.store);
    StartedShape(w, g, w.pc[g].id, input);
    Untouched(w, Started(w, g, w.pc[g].id, input), g, departed, c);
  }

  lemma RegisterWatched(w: World, g: nat, input: Input, departed: set<ChannelId>, c: ChannelId)
    requires Watched(w, departed, c) && g in w.pc && w.pc[g].Kind().Register?
    ensures Watched(RegisterStep(w, g, w.pc[g], input), departed, c)
  {
    hide Watched, RowsEvolve;
    assert w.pc[g := w.pc[g]] == w.pc;
    EvolvesToItself(w.s.store);
    Untouched(w, RegisterStep(w, g, w.pc[g], input), g, departed, c);
  }

  lemma MovedWatched(w: World, g: nat, input: Input, departed: set<ChannelId>, c: ChannelId)
    requires Inv(w) && Known(w) && Watched(w, departed, c) && g in w.pc
    ensures Watched(Moved(w, g, input), DepartedAfter(w, Conn(g, input), departed), c)
  {
    hide Watched, Owned, TempsOnly, Index.Coherent, Table.WellFormed, Known;
    hide Started, RegisterStep, JoinStep, LeaveStep, DeleteStep, CreateStep, CloseStep;
    match w.pc[g].Kind()
    case Register => RegisterWatched(w, g, input, departed, c);
    case Between => StartWatched(w, g, input, departed, c);
    case Joining => JoinWatched(w, g, input, departed, c);
    case Leaving => LeaveWatched(w, g, input, departed, c);
    case Deleting => DeleteWatched(w, g, input, departed, c);
    case Creating => CreateWatched(w, g, input, departed, c);
    case Ending => CloseWatched(w, g, input, departed, c);
  }

  /** Timers, addresses and new connections. */
  lemma OthersWatched(w: World, e: Event, departed: set<ChannelId>, c: ChannelId)
    requires Watched(w, departed, c) && !(e.Conn? && e.g in w.pc)
    ensures Watched(Next(w, e), departed, c)
  {
    hide OnWay, Moved;
    var v := Next(w, e);
    OthersPC(w, e);
    if Coming(w, c) {
      var h :| h in w.pc && OnWay(w.pc[h], c);
      assert h in v.pc && OnWay(v.pc[h], c);
    }
  }

  lemma OthersPC(w: World, e: Event)
    requires !(e.Conn? && e.g in w.pc)
    ensures var v := Next(w, e);
            && (forall h :: h in w.pc ==> h in v.pc && v.pc[h] == w.pc[h])
            && (e.Conn? ==> v.s == w.s && v.firing == w.firing)
  {
    hide PC.Kind, Started, RegisterStep, JoinStep, LeaveStep, DeleteStep, CreateStep, CloseStep, Index.Occupants, WithAddr, Table.Dropped;
  }

  lemma {:induction false} ScheduleWatched(w: World, es: seq<Event>, departed: set<ChannelId>)
    requires Inv(w) && Known(w) && AllWatched(w, departed)
    ensures AllWatched(Scheduled(w, es), DepartedIn(w, es, departed))
    decreases |es|
  {
    if es != [] {
      var v, after := Next(w, es[0]), DepartedAfter(w, es[0], departed);
      forall c ensures Watched(v, after, c) {
        hide Inv, Known, Watched, Next, DepartedAfter;
        NextWatched(w, es[0], departed, c);
      }
      hide Inv, Known, Watched, Next, DepartedAfter;
      NextInv(w, es[0]);
      Windows.KnownNext(w, es[0]);
      ScheduleWatched(v, es[1..], after);
    }
  }

  lemma NextWatched(w: World, e: Event, departed: set<ChannelId>, c: ChannelId)
    requires Inv(w) && Known(w) && Watched(w, departed, c)
    ensures Watched(Next(w, e), DepartedAfter(w, e, departed), c)
  {
    hide Inv, Known, Watched, Moved;
    if e.Conn? && e.g in w.pc {
      MovedWatched(w, e.g, e.input, departed, c);
    } else {
      OthersWatched(w, e, departed, c);
    }
  }

  lemma NobodyComing(w: World, c: ChannelId)
    requires AtRest(w)
    ensures !Coming(w, c)
  {
  }

  /** After every schedule that ends with all handlers done: a temporary channel that exists, is empty and was
      last left by a leave or a disconnect has a timer pending. */
  lemma {:induction false} VacantAreWatched(w: World, es: seq<Event>, c: ChannelId)
    requires Fresh(w) && AtRest(Scheduled(w, es)) && c in DepartedIn(w, es, {}) && Vacant(Scheduled(w, es).s, c)
    ensures c in Scheduled(w, es).s.timers
  {
    hide Scheduled, DepartedIn, Inv, Known, Coming, Vacant;
    FreshHasRoom(w);
    ScheduleWatched(w, es, {});
    NobodyComing(Scheduled(w, es), c);
    assert Watched(Scheduled(w, es), DepartedIn(w, es, {}), c);
  }
}
