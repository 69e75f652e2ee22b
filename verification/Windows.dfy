/** Exactly which step, at lock granularity, breaks an invariant of the atomic runs. */
module Windows {
  import opened Prelude
  import opened ChannelIndex
  import opened Sessions
  import opened Store
  import opened Server
  import opened Interleaving
  import opened JoinOverlap
  import AtomicRuns

  /** A goroutine that was admitted earlier now enters. */
  ghost predicate Entering(w: World, e: Event) {
    e.Conn? && e.g in w.pc && w.pc[e.g].JoinAdmitted?
  }

  /** The channel it enters has filled up in the meantime. */
  ghost predicate EntersFull(w: World, e: Event) {
    Entering(w, e) && Full(w.s, w.pc[e.g].c) && w.pc[e.g].id !in w.s.index.Occupants(w.pc[e.g].c)
  }

  /** The channel it enters has been deleted in the meantime, or an occupied one is being deleted. */
  ghost predicate LosesChannel(w: World, e: Event) {
    || (Entering(w, e) && w.pc[e.g].c !in w.s.store.rows)
    || (e.Conn? && e.g in w.pc && w.pc[e.g].DeleteChecked? && w.s.index.Occupants(w.pc[e.g].c) != {})
    || (e.Fire? && e.c in w.firing && w.s.index.Occupants(e.c) != {})
  }

  /** Every other step leaves the channels' occupants in place or takes some away. */
  lemma OthersShrink(w: World, e: Event)
    requires Inv(w) && !Entering(w, e)
    ensures var v := Next(w, e);
            RowsEvolve(w.s.store, v.s.store) && forall c :: v.s.index.Occupants(c) <= w.s.index.Occupants(c)
  {
    hide Owned, TempsOnly, Index.Coherent, Table.WellFormed;
    hide Started, RegisterStep, LeaveStep, DeleteStep, CreateStep, CloseStep;
    if e.Conn? && e.g in w.pc {
      var g, input := e.g, e.input;
      match w.pc[g].Kind() {
        case Register => RegisterNoCloser(w, g, input);
        case Between => StartNoCloser(w, g, input);
        case Joining => EvolvesToItself(w.s.store);
        case Leaving => LeaveNoCloser(w, g);
        case Deleting => DeleteNoCloser(w, g, input);
        case Creating => CreateNoCloser(w, g, input);
        case Ending => CloseNoCloser(w, g);
      }
    }
  }

  // ----- Capacity -----

  /** Channels that do not exist yet are empty, and a goroutine that found or may enter one found it
      in the store. */
  lemma KnownKept(w: World, v: World)
    requires Known(w) && NoCloser(w, v)
    ensures Known(v)
  {
  }

  lemma KnownNext(w: World, e: Event)
    requires Inv(w) && Known(w)
    ensures Known(Next(w, e))
  {
    hide Known, Owned, TempsOnly, Index.Coherent, Table.WellFormed;
    hide Started, RegisterStep, JoinStep, LeaveStep, DeleteStep, CreateStep, CloseStep;
    if e.Conn? && e.g in w.pc {
      var g, input := e.g, e.input;
      match w.pc[g].Kind() {
        case Joining => KnownJoin(w, g);
        case Register => RegisterNoCloser(w, g, input);
        case Between => StartNoCloser(w, g, input);
        case Leaving => LeaveNoCloser(w, g);
        case Deleting => DeleteNoCloser(w, g, input);
        case Creating => CreateNoCloser(w, g, input);
        case Ending => CloseNoCloser(w, g);
      }
      if !w.pc[g].Kind().Joining? { KnownKept(w, Next(w, e)); }
    } else {
      OthersShrink(w, e);
      KnownKept(w, Next(w, e));
    }
  }

  lemma KnownJoin(w: World, g: nat)
    requires Inv(w) && Known(w) && g in w.pc && w.pc[g].Kind().Joining?
    ensures Known(JoinStep(w, g, w.pc[g]))
  {
    hide Owned, TempsOnly, Index.Coherent, Index.Joined;
    if w.pc[g].JoinAdmitted? { JoinedIsOneMove(w.s.index, w.pc[g].id, w.pc[g].c); }
  }

  lemma ShrinkKeepsCapacity(w: World, v: World)
    requires Known(w) && AtomicRuns.WithinCapacity(w.s) && RowsEvolve(w.s.store, v.s.store)
    requires forall c :: v.s.index.Occupants(c) <= w.s.index.Occupants(c)
    ensures AtomicRuns.WithinCapacity(v.s)
  {
    forall c | c in v.s.store.rows && v.s.store.rows[c].maxUsers > 0 ensures |v.s.index.Occupants(c)| <= v.s.store.rows[c].maxUsers {
      SubsetSize(v.s.index.Occupants(c), w.s.index.Occupants(c));
      if c >= w.s.store.next { assert w.s.index.Occupants(c) == {}; }
    }
  }

  lemma EntryFills(w: World, g: nat)
    requires w.s.index.Coherent() && AtomicRuns.WithinCapacity(w.s) && g in w.pc && w.pc[g].JoinAdmitted?
    ensures var c := w.pc[g].c;
            AtomicRuns.WithinCapacity(JoinStep(w, g, w.pc[g]).s) <==> !(Full(w.s, c) && w.pc[g].id !in w.s.index.Occupants(c))
  {
    hide Index.Joined, Index.Coherent;
    var id, c, v := w.pc[g].id, w.pc[g].c, JoinStep(w, g, w.pc[g]);
    JoinedIsOneMove(w.s.index, id, c);
    assert id in w.s.index.Occupants(c) ==> v.s.index.Occupants(c) == w.s.index.Occupants(c);
    assert id !in w.s.index.Occupants(c) ==> |v.s.index.Occupants(c)| == |w.s.index.Occupants(c)| + 1;
    forall d | d != c ensures |v.s.index.Occupants(d)| <= |w.s.index.Occupants(d)| {
      SubsetSize(v.s.index.Occupants(d), w.s.index.Occupants(d));
    }
  }

  /** One step leaves the capacities respected exactly unless it enters a channel that is full by then. */
  lemma {:induction false} StepKeepsCapacityIff(w: World, e: Event)
    requires Inv(w) && Known(w) && AtomicRuns.WithinCapacity(w.s)
    ensures AtomicRuns.WithinCapacity(Next(w, e).s) <==> !EntersFull(w, e)
  {
    hide Inv, Known, Full, AtomicRuns.WithinCapacity, JoinStep;
    if Entering(w, e) {
      assert w.s.index.Coherent() by { InvCoherent(w); }
      EntryFills(w, e.g);
    } else {
      OthersShrink(w, e);
      ShrinkKeepsCapacity(w, Next(w, e));
    }
  }

  lemma InvCoherent(w: World)
    requires Inv(w)
    ensures w.s.index.Coherent()
  {
  }

  ghost predicate CapacityThroughout(w: World, es: seq<Event>)
    decreases |es|
  {
    AtomicRuns.WithinCapacity(w.s) && (es != [] ==> CapacityThroughout(Next(w, es[0]), es[1..]))
  }

  ghost predicate NeverEntersFull(w: World, es: seq<Event>)
    decreases |es|
  {
    es != [] ==> !EntersFull(w, es[0]) && NeverEntersFull(Next(w, es[0]), es[1..])
  }

  lemma {:induction false} CapacityFromHere(w: World, es: seq<Event>)
    requires Inv(w) && Known(w) && AtomicRuns.WithinCapacity(w.s)
    ensures CapacityThroughout(w, es) <==> NeverEntersFull(w, es)
    decreases |es|
  {
    hide Inv, Known, Next, EntersFull, AtomicRuns.WithinCapacity;
    if es != [] {
      StepKeepsCapacityIff(w, es[0]);
      NextInv(w, es[0]);
      KnownNext(w, es[0]);
      if !EntersFull(w, es[0]) { CapacityFromHere(Next(w, es[0]), es[1..]); }
    }
  }

  /** Over every schedule: capacities are respected throughout exactly if no step enters a channel that
      has become full since the capacity check. */
  lemma {:induction false} CapacityThroughoutIff(w: World, es: seq<Event>)
    requires Fresh(w)
    ensures CapacityThroughout(w, es) <==> NeverEntersFull(w, es)
  {
    hide CapacityThroughout, NeverEntersFull;
    FreshHasRoom(w);
    CapacityFromHere(w, es);
  }

  // ----- Existence -----

  lemma DropKeepsExistence(s: State, t: State, c: ChannelId)
    requires AtomicRuns.OccupiedExist(s) && t.index == s.index && t.store == s.store.Dropped(c)
    ensures AtomicRuns.OccupiedExist(t) <==> s.index.Occupants(c) == {}
  {
  }

  lemma EntryExists(w: World, g: nat)
    requires w.s.index.Coherent() && AtomicRuns.OccupiedExist(w.s) && g in w.pc && w.pc[g].JoinAdmitted?
    ensures AtomicRuns.OccupiedExist(JoinStep(w, g, w.pc[g]).s) <==> w.pc[g].c in w.s.store.rows
  {
    hide Index.Joined, Index.Coherent;
    var id, c, v := w.pc[g].id, w.pc[g].c, JoinStep(w, g, w.pc[g]);
    JoinedIsOneMove(w.s.index, id, c);
    assert id in v.s.index.Occupants(c);
    assert forall d :: d != c ==> v.s.index.Occupants(d) <= w.s.index.Occupants(d);
  }

  lemma ShrinkKeepsExistence(w: World, v: World)
    requires AtomicRuns.OccupiedExist(w.s) && w.s.store.rows.Keys <= v.s.store.rows.Keys
    requires forall c :: v.s.index.Occupants(c) <= w.s.index.Occupants(c)
    ensures AtomicRuns.OccupiedExist(v.s)
  {
  }

  lemma QuietSteps(w: World, g: nat, p: PC, input: Input)
    ensures RegisterStep(w, g, p, input).s.store == JoinStep(w, g, p).s.store == LeaveStep(w, g, p).s.store == CloseStep(w, g, p).s.store == w.s.store
    ensures !p.DeleteChecked? ==> DeleteStep(w, g, p, input).s.store == w.s.store
  {
    hide Index.Joined, Index.Left, NoDuplicates, Elements;
  }

  lemma CreateStays(w: World, g: nat, p: PC, input: Input)
    ensures w.s.store.rows.Keys <= CreateStep(w, g, p, input).s.store.rows.Keys
  {
    hide Validate, TooSoon;
  }

  lemma StartStays(w: World, g: nat, id: SessionId, input: Input)
    ensures Started(w, g, id, input).s.store == w.s.store
  {
    hide Utf8Length, WantsTempSub;
  }

  /** Steps other than the two deletions drop no channel. */
  lemma RowsStay(w: World, e: Event)
    requires !(e.Conn? && e.g in w.pc && w.pc[e.g].DeleteChecked?) && !(e.Fire? && e.c in w.firing)
    ensures w.s.store.rows.Keys <= Next(w, e).s.store.rows.Keys
  {
    hide Started, RegisterStep, JoinStep, LeaveStep, DeleteStep, CreateStep, CloseStep;
    if e.Conn? && e.g in w.pc {
      QuietSteps(w, e.g, w.pc[e.g], e.input);
      CreateStays(w, e.g, w.pc[e.g], e.input);
      if w.pc[e.g].Idle? { StartStays(w, e.g, w.pc[e.g].id, e.input); }
    }
  }

  /** One step leaves every occupied channel in the store exactly unless it enters a channel that is
      gone or deletes one that is occupied. */
  lemma {:induction false} StepKeepsExistenceIff(w: World, e: Event)
    requires Inv(w) && AtomicRuns.OccupiedExist(w.s)
    ensures AtomicRuns.OccupiedExist(Next(w, e).s) <==> !LosesChannel(w, e)
  {
    hide Inv, AtomicRuns.OccupiedExist, JoinStep;
    if Entering(w, e) {
      assert w.s.index.Coherent() by { InvCoherent(w); }
      EntryExists(w, e.g);
    } else if e.Conn? && e.g in w.pc && w.pc[e.g].DeleteChecked? {
      DropKeepsExistence(w.s, Next(w, e).s, w.pc[e.g].c);
    } else if e.Fire? && e.c in w.firing {
      DropKeepsExistence(w.s, Next(w, e).s, e.c);
    } else {
      OthersShrink(w, e);
      RowsStay(w, e);
      ShrinkKeepsExistence(w, Next(w, e));
    }
  }

  ghost predicate ExistenceThroughout(w: World, es: seq<Event>)
    decreases |es|
  {
    AtomicRuns.OccupiedExist(w.s) && (es != [] ==> ExistenceThroughout(Next(w, es[0]), es[1..]))
  }

  ghost predicate NeverLosesChannel(w: World, es: seq<Event>)
    decreases |es|
  {
    es != [] ==> !LosesChannel(w, es[0]) && NeverLosesChannel(Next(w, es[0]), es[1..])
  }

  lemma {:induction false} ExistenceFromHere(w: World, es: seq<Event>)
    requires Inv(w) && AtomicRuns.OccupiedExist(w.s)
    ensures ExistenceThroughout(w, es) <==> NeverLosesChannel(w, es)
    decreases |es|
  {
    hide Inv, Next, LosesChannel, AtomicRuns.OccupiedExist;
    if es != [] {
      StepKeepsExistenceIff(w, es[0]);
      NextInv(w, es[0]);
      if !LosesChannel(w, es[0]) { ExistenceFromHere(Next(w, es[0]), es[1..]); }
    }
  }

  /** Over every schedule: occupied channels exist throughout exactly if no step enters a channel that
      is gone or deletes one that is occupied. */
  lemma {:induction false} ExistenceThroughoutIff(w: World, es: seq<Event>)
    requires Fresh(w)
    ensures ExistenceThroughout(w, es) <==> NeverLosesChannel(w, es)
  {
    hide ExistenceThroughout, NeverLosesChannel;
    FreshHasRoom(w);
    ExistenceFromHere(w, es);
  }
}
