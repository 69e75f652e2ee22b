/** Channel capacity at lock granularity: it is kept as long as joins do not overlap. */
module JoinOverlap {
  import opened Prelude
  import opened ChannelIndex
  import opened Sessions
  import opened Store
  import opened Server
  import opened Interleaving
  import AtomicRuns


  ghost predicate AdmittedTo(w: World, g: nat, c: ChannelId) {
    g in w.pc && w.pc[g].JoinAdmitted? && w.pc[g].c == c
  }

  /** No two goroutines stand between the capacity check and the join for the same channel. */
  ghost predicate JoinsApart(w: World) {
    forall g, h, c :: AdmittedTo(w, g, c) && AdmittedTo(w, h, c) ==> g == h
  }

  ghost predicate JoinsApartThroughout(w: World, es: seq<Event>)
    decreases |es|
  {
    JoinsApart(w) && (es != [] ==> JoinsApartThroughout(Next(w, es[0]), es[1..]))
  }

  ghost function Pending(w: World, c: ChannelId): nat {
    if exists g :: AdmittedTo(w, g, c) then 1 else 0
  }

  ghost predicate RowKnown(t: Table, ch: Channel) {
    ch.id < t.next && (ch.id in t.rows ==> t.rows[ch.id] == ch)
  }

  /** Nobody is in, or on the way into, a channel that has not been created yet. */
  ghost predicate Known(w: World) {
    && (forall c :: w.s.index.Occupants(c) != {} ==> c < w.s.store.next)
    && (forall g :: g in w.pc && w.pc[g].JoinFound? ==> RowKnown(w.s.store, w.pc[g].ch))
    && (forall g :: g in w.pc && w.pc[g].JoinAdmitted? ==> w.pc[g].c < w.s.store.next)
  }

  ghost predicate RoomLeft(w: World) {
    forall c :: c in w.s.store.rows && w.s.store.rows[c].maxUsers > 0 ==> |w.s.index.Occupants(c)| + Pending(w, c) <= w.s.store.rows[c].maxUsers
  }

  /** Steps that neither join nor come closer to it. */
  lemma RoomKept(w: World, v: World)
    requires Known(w) && RoomLeft(w) && RowsEvolve(w.s.store, v.s.store)
    requires forall c :: v.s.index.Occupants(c) <= w.s.index.Occupants(c)
    requires forall g :: g in v.pc && (v.pc[g].JoinFound? || v.pc[g].JoinAdmitted?) ==> g in w.pc && w.pc[g] == v.pc[g]
    ensures Known(v) && RoomLeft(v)
  {
    forall c ensures Pending(v, c) <= Pending(w, c) && |v.s.index.Occupants(c)| <= |w.s.index.Occupants(c)| {
      if g :| AdmittedTo(v, g, c) { assert AdmittedTo(w, g, c); }
      SubsetSize(v.s.index.Occupants(c), w.s.index.Occupants(c));
    }
    forall c | c in v.s.store.rows && c >= w.s.store.next ensures v.s.index.Occupants(c) == {} && Pending(v, c) == 0 {
      assert w.s.index.Occupants(c) == {};
      assert forall g :: !AdmittedTo(w, g, c);
    }
  }

  lemma JoinStepRoom(w: World, g: nat)
    requires w.s.index.Coherent() && w.s.store.WellFormed() && Known(w) && RoomLeft(w)
    requires g in w.pc && w.pc[g].Kind().Joining? && JoinsApart(JoinStep(w, g, w.pc[g])) && JoinsApart(w)
    ensures Known(JoinStep(w, g, w.pc[g])) && RoomLeft(JoinStep(w, g, w.pc[g]))
  {
    if w.pc[g].JoinFound? {
      AdmitRoom(w, g);
    } else if w.pc[g].JoinAdmitted? {
      EnterRoom(w, g);
    } else {
      PassRoom(w, g);
    }
  }

  lemma PassRoom(w: World, g: nat)
    requires w.s.store.WellFormed() && Known(w) && RoomLeft(w) && g in w.pc && (w.pc[g].JoinChecked? || w.pc[g].JoinIndexed?)
    ensures Known(JoinStep(w, g, w.pc[g])) && RoomLeft(JoinStep(w, g, w.pc[g]))
  {
    var v := JoinStep(w, g, w.pc[g]);
    forall c ensures Pending(v, c) <= Pending(w, c) {
      if h :| AdmittedTo(v, h, c) { assert AdmittedTo(w, h, c); }
    }
  }

  lemma AdmitRoom(w: World, g: nat)
    requires Known(w) && RoomLeft(w) && g in w.pc && w.pc[g].JoinFound? && JoinsApart(JoinStep(w, g, w.pc[g]))
    ensures Known(JoinStep(w, g, w.pc[g])) && RoomLeft(JoinStep(w, g, w.pc[g]))
  {
    var v := JoinStep(w, g, w.pc[g]);
    var ch := w.pc[g].ch;
    forall c | c in v.s.store.rows && v.s.store.rows[c].maxUsers > 0
      ensures |v.s.index.Occupants(c)| + Pending(v, c) <= v.s.store.rows[c].maxUsers
    {
      if c != ch.id || v.pc[g].Idle? {
        if h :| AdmittedTo(v, h, c) { assert AdmittedTo(w, h, c); }
      }
    }
  }

  lemma EnterRoom(w: World, g: nat)
    requires w.s.index.Coherent() && Known(w) && RoomLeft(w) && g in w.pc && w.pc[g].JoinAdmitted? && JoinsApart(w)
    ensures Known(JoinStep(w, g, w.pc[g])) && RoomLeft(JoinStep(w, g, w.pc[g]))
  {
    hide Index.Joined, Index.Coherent, RowKnown, AdmittedTo, JoinsApart, Pending;
    var v := JoinStep(w, g, w.pc[g]);
    JoinedIsOneMove(w.s.index, w.pc[g].id, w.pc[g].c);
    forall c ensures |v.s.index.Occupants(c)| + Pending(v, c) <= |w.s.index.Occupants(c)| + Pending(w, c) {
      EnterOne(w, g, c);
    }
  }

  /** Entering turns a pending join into one member; other channels gain nothing. */
  lemma EnterOne(w: World, g: nat, c: ChannelId)
    requires w.s.index.Coherent() && g in w.pc && w.pc[g].JoinAdmitted? && JoinsApart(w)
    ensures var v := JoinStep(w, g, w.pc[g]); |v.s.index.Occupants(c)| + Pending(v, c) <= |w.s.index.Occupants(c)| + Pending(w, c)
  {
    hide Index.Joined, Index.Coherent;
    var v := JoinStep(w, g, w.pc[g]);
    var id, d := w.pc[g].id, w.pc[g].c;
    JoinedIsOneMove(w.s.index, id, d);
    assert AdmittedTo(w, g, d);
    if h :| AdmittedTo(v, h, c) { assert AdmittedTo(w, h, c); }
    SubsetSize(v.s.index.Occupants(c), if c == d then w.s.index.Occupants(c) + {id} else w.s.index.Occupants(c));
  }

  /** The three conditions of `RoomKept`. */
  ghost predicate NoCloser(w: World, v: World) {
    && RowsEvolve(w.s.store, v.s.store)
    && (forall c :: v.s.index.Occupants(c) <= w.s.index.Occupants(c))
    && (forall g :: g in v.pc && (v.pc[g].JoinFound? || v.pc[g].JoinAdmitted?) ==> g in w.pc && w.pc[g] == v.pc[g])
  }

  lemma OccupantsShrink(ix: Index, s: SessionId)
    requires ix.Coherent()
    ensures forall c :: ix.Left(s).Occupants(c) <= ix.Occupants(c)
  {
    LeftIsOneRemoval(ix, s);
  }

  lemma StartNoCloser(w: World, g: nat, input: Input)
    requires g in w.pc && w.pc[g].Idle?
    ensures NoCloser(w, Started(w, g, w.pc[g].id, input))
  {
    hide Utf8Length, WantsTempSub;
    EvolvesToItself(w.s.store);
  }

  lemma LeaveNoCloser(w: World, g: nat)
    requires g in w.pc && w.s.index.Coherent()
    ensures NoCloser(w, LeaveStep(w, g, w.pc[g]))
  {
    hide Index.Left, Index.Coherent, RowsEvolve;
    EvolvesToItself(w.s.store);
    if w.pc[g].LeaveChecked? { OccupantsShrink(w.s.index, w.pc[g].id); }
  }

  lemma DeleteNoCloser(w: World, g: nat, input: Input)
    requires g in w.pc && w.s.index.Coherent()
    ensures NoCloser(w, DeleteStep(w, g, w.pc[g], input))
  {
    hide Index.Left, Index.Coherent;
    if w.pc[g].DeleteEvicting? && w.pc[g].rest != [] { OccupantsShrink(w.s.index, w.pc[g].rest[0]); }
  }

  lemma CreateNoCloser(w: World, g: nat, input: Input)
    requires g in w.pc && w.s.store.WellFormed()
    ensures NoCloser(w, CreateStep(w, g, w.pc[g], input))
  {
    hide Added, Table.WellFormed, RowsEvolve, TooSoon;
    EvolvesToItself(w.s.store);
    if w.pc[g].CreateReady? { AddedEvolves(w.s, Requested(w.pc[g].req)); }
    if input.ImportOne? { AddedEvolves(w.s, input.ch); }
  }

  lemma CloseNoCloser(w: World, g: nat)
    requires g in w.pc && w.s.index.Coherent()
    ensures NoCloser(w, CloseStep(w, g, w.pc[g]))
  {
    hide Index.Left, Index.Coherent, RowsEvolve;
    EvolvesToItself(w.s.store);
    if w.pc[g].Closing? { OccupantsShrink(w.s.index, w.pc[g].id); }
  }

  lemma RegisterNoCloser(w: World, g: nat, input: Input)
    requires g in w.pc
    ensures NoCloser(w, RegisterStep(w, g, w.pc[g], input))
  {
    hide RowsEvolve;
    EvolvesToItself(w.s.store);
  }

  lemma OtherStepRoom(w: World, g: nat, input: Input)
    requires Inv(w) && Known(w) && RoomLeft(w) && (g in w.pc ==> !w.pc[g].Kind().Joining?)
    ensures Known(Moved(w, g, input)) && RoomLeft(Moved(w, g, input))
  {
    hide Known, RoomLeft, Owned, TempsOnly, Index.Coherent, Table.WellFormed;
    hide Started, RegisterStep, LeaveStep, DeleteStep, CreateStep, CloseStep;
    if g in w.pc {
      match w.pc[g].Kind() {
        case Register => RegisterNoCloser(w, g, input);
        case Between => StartNoCloser(w, g, input);
        case Leaving => LeaveNoCloser(w, g);
        case Deleting => DeleteNoCloser(w, g, input);
        case Creating => CreateNoCloser(w, g, input);
        case Ending => CloseNoCloser(w, g);
        case _ =>
      }
    }
    RoomKept(w, Moved(w, g, input));
  }

  lemma NextRoom(w: World, e: Event)
    requires Inv(w) && Known(w) && RoomLeft(w) && JoinsApart(w) && JoinsApart(Next(w, e))
    ensures Known(Next(w, e)) && RoomLeft(Next(w, e))
  {
    hide Known, RoomLeft, Owned, TempsOnly, JoinsApart;
    match e
    case Conn(g, input) =>
      if g in w.pc && w.pc[g].Kind().Joining? { JoinStepRoom(w, g); } else { OtherStepRoom(w, g, input); }
    case _ =>
      hide Moved;
      RoomKept(w, Next(w, e));
  }

  /** At lock granularity a channel's capacity is kept by every schedule in which no two joins of one
      channel overlap between their check and their entry. (`Races.CapacityOverrun` shows what one
      overlap does.) */
  lemma {:induction false} CapacityWhenJoinsApart(w: World, es: seq<Event>)
    requires Inv(w) && Known(w) && RoomLeft(w) && JoinsApartThroughout(w, es)
    ensures AtomicRuns.WithinCapacity(Scheduled(w, es).s)
    decreases |es|
  {
    if es != [] {
      NextInv(w, es[0]);
      NextRoom(w, es[0]);
      CapacityWhenJoinsApart(Next(w, es[0]), es[1..]);
    }
  }

  lemma {:induction false} FreshHasRoom(w: World)
    requires Fresh(w)
    ensures Inv(w) && Known(w) && RoomLeft(w) && JoinsApart(w)
  {
    CoherentMeaning(w.s.index);
  }
}
