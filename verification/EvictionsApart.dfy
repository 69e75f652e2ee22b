/** Records at lock granularity: they are right at rest as long as no session is evicted while it is
    joining a channel. */
module EvictionsApart {
  import opened Prelude
  import opened ChannelIndex
  import opened Sessions
  import opened Store
  import opened Server
  import opened Interleaving
  import opened Uninterrupted
  import opened Records
  import Windows

  /** The owner of a session is between entering a channel and writing the record, and a deleter is between
      evicting the same session and writing the record. */
  ghost predicate Overlap(w: World, g: nat, h: nat) {
    && g in w.pc && w.pc[g].JoinIndexed?
    && h in w.pc && w.pc[h].DeleteClearing? && w.pc[h].rest != [] && w.pc[h].rest[0] == w.pc[g].id
  }

  ghost predicate Apart(w: World) {
    forall g, h :: !Overlap(w, g, h)
  }

  ghost predicate ApartThroughout(w: World, es: seq<Event>)
    decreases |es|
  {
    Apart(w) && (es != [] ==> ApartThroughout(Next(w, es[0]), es[1..]))
  }

  /** What a goroutine is about to write is where the session is. */
  ghost predicate Fits(s: State, p: PC) {
    NextWrite(p).Some? ==> s.index.ChannelOf(NextWrite(p).value.0) == NextWrite(p).value.1
  }

  ghost predicate AllFit(w: World) {
    forall g :: g in w.pc ==> Fits(w.s, w.pc[g])
  }

  /** The session whose place a step changes. */
  function Placed(p: PC): Option<SessionId> {
    match p
    case JoinAdmitted(id, _) => Some(id)
    case LeaveChecked(id) => Some(id)
    case Closing(id) => Some(id)
    case DeleteEvicting(_, rest) => if rest == [] then None else Some(rest[0])
    case _ => None
  }

  lemma PlaceAfterJoin(ix: Index, s: SessionId, c: ChannelId)
    requires ix.Coherent()
    ensures ix.Joined(s, c).ChannelOf(s) == c && forall t: SessionId :: t != s ==> ix.Joined(s, c).ChannelOf(t) == ix.ChannelOf(t)
  {
    JoinedIsOneMove(ix, s, c);
  }

  lemma PlaceAfterLeave(ix: Index, s: SessionId)
    requires ix.Coherent()
    ensures ix.Left(s).ChannelOf(s) == 0 && forall t: SessionId :: t != s ==> ix.Left(s).ChannelOf(t) == ix.ChannelOf(t)
  {
    LeftIsOneRemoval(ix, s);
  }

  /** The goroutine that moved fits, and every session but the placed one stays where it is. */
  ghost predicate OwnStep(w: World, v: World, g: nat) {
    && g in w.pc && g in v.pc && v.pc == w.pc[g := v.pc[g]] && Fits(v.s, v.pc[g])
    && (forall x: SessionId :: Placed(w.pc[g]) != Some(x) ==> v.s.index.ChannelOf(x) == w.s.index.ChannelOf(x))
    && (Placed(w.pc[g]).Some? && !w.pc[g].JoinAdmitted? ==> v.s.index.ChannelOf(Placed(w.pc[g]).value) == 0)
    && (w.pc[g].JoinAdmitted? ==> v.pc[g] == JoinIndexed(w.pc[g].id, w.pc[g].c))
    && (w.pc[g].DeleteEvicting? && w.pc[g].rest != [] ==> v.pc[g] == DeleteClearing(w.pc[g].id, w.pc[g].rest))
  }

  lemma JoinOwn(w: World, g: nat)
    requires w.s.index.Coherent() && g in w.pc && w.pc[g].Kind().Joining?
    ensures OwnStep(w, JoinStep(w, g, w.pc[g]), g)
  {
    hide Index.Coherent, Index.Joined, Index.ChannelOf;
    if w.pc[g].JoinAdmitted? { PlaceAfterJoin(w.s.index, w.pc[g].id, w.pc[g].c); }
  }

  lemma LeaveOwn(w: World, g: nat)
    requires w.s.index.Coherent() && g in w.pc && w.pc[g].Kind().Leaving?
    ensures OwnStep(w, LeaveStep(w, g, w.pc[g]), g)
  {
    hide Index.Coherent, Index.Left, Index.ChannelOf;
    if w.pc[g].LeaveChecked? { PlaceAfterLeave(w.s.index, w.pc[g].id); }
  }

  lemma CloseOwn(w: World, g: nat)
    requires w.s.index.Coherent() && g in w.pc && w.pc[g].Kind().Ending?
    ensures OwnStep(w, CloseStep(w, g, w.pc[g]), g)
  {
    hide Index.Coherent, Index.Left, Index.ChannelOf;
    assert w.pc[g := w.pc[g]] == w.pc;
    if w.pc[g].Closing? { PlaceAfterLeave(w.s.index, w.pc[g].id); }
  }

  lemma DeleteOwn(w: World, g: nat, input: Input)
    requires w.s.index.Coherent() && g in w.pc && w.pc[g].Kind().Deleting?
    ensures OwnStep(w, DeleteStep(w, g, w.pc[g], input), g)
  {
    hide Index.Coherent, Index.Left, Index.ChannelOf, NoDuplicates, Elements, WithChannel, Table.Dropped;
    assert w.pc[g := w.pc[g]] == w.pc;
    if w.pc[g].DeleteEvicting? && w.pc[g].rest != [] { PlaceAfterLeave(w.s.index, w.pc[g].rest[0]); }
  }

  lemma CreateOwn(w: World, g: nat, input: Input)
    requires g in w.pc && w.pc[g].Kind().Creating?
    ensures OwnStep(w, CreateStep(w, g, w.pc[g], input), g)
  {
    hide Index.ChannelOf, Added, TooSoon;
    assert w.pc[g := w.pc[g]] == w.pc;
    AddedPlaces(w.s);
  }

  lemma AddedPlaces(s: State)
    ensures forall ch :: Added(s, ch).index == s.index
  {
    hide Validate;
  }

  lemma StartOwn(w: World, g: nat, input: Input)
    requires g in w.pc && w.pc[g].Idle?
    ensures OwnStep(w, Started(w, g, w.pc[g].id, input), g)
  {
    hide Index.ChannelOf, Utf8Length, WantsTempSub;
    assert w.pc[g := w.pc[g]] == w.pc;
  }

  lemma RegisterOwn(w: World, g: nat, input: Input)
    requires g in w.pc && w.pc[g].Kind().Register?
    ensures OwnStep(w, RegisterStep(w, g, w.pc[g], input), g)
  {
    hide Index.ChannelOf;
    assert w.pc[g := w.pc[g]] == w.pc;
  }

  lemma MovedOwn(w: World, g: nat, input: Input)
    requires w.s.index.Coherent() && g in w.pc
    ensures OwnStep(w, Moved(w, g, input), g)
  {
    hide OwnStep, Index.Coherent, Started, RegisterStep, JoinStep, LeaveStep, DeleteStep, CreateStep, CloseStep;
    match w.pc[g].Kind()
    case Register => RegisterOwn(w, g, input);
    case Between => StartOwn(w, g, input);
    case Joining => JoinOwn(w, g);
    case Leaving => LeaveOwn(w, g);
    case Deleting => DeleteOwn(w, g, input);
    case Creating => CreateOwn(w, g, input);
    case Ending => CloseOwn(w, g);
  }

  lemma OneOwner(w: World, g: nat, h: nat)
    requires Owned(w) && g in w.pc && h in w.pc && w.pc[g].SessionOf().Some? && w.pc[g].SessionOf() == w.pc[h].SessionOf()
    ensures g == h
  {
  }

  /** Nobody else's pending write is upset, unless an eviction overlaps a join. */
  lemma OtherFits(w: World, v: World, g: nat, h: nat)
    requires Owned(w) && OwnStep(w, v, g) && h in w.pc && h != g && Fits(w.s, w.pc[h])
    requires !Overlap(v, g, h) && !Overlap(v, h, g)
    ensures h in v.pc && Fits(v.s, v.pc[h])
  {
    hide Owned, Index.ChannelOf;
    var p, q := w.pc[g], w.pc[h];
    if NextWrite(q).Some? && Placed(p) == Some(NextWrite(q).value.0) {
      if q.SessionOf() == p.SessionOf() { OneOwner(w, g, h); }
    }
  }

  lemma {:induction false} NextFits(w: World, e: Event)
    requires Inv(w) && AllFit(w) && Apart(Next(w, e))
    ensures AllFit(Next(w, e))
  {
    var v := Next(w, e);
    assert w.s.index.Coherent() by { Windows.InvCoherent(w); }
    if e.Conn? && e.g in w.pc {
      hide Moved, OwnStep, Overlap, Fits, Index.Coherent, Owned;
      MovedOwn(w, e.g, e.input);
      StepShape(w, v, e.g);
      forall h | h in v.pc ensures Fits(v.s, v.pc[h]) {
        if h != e.g { OtherFits(w, v, e.g, h); }
      }
    } else {
      hide Moved, Fits, Index.ChannelOf;
      OthersFit(w, e);
    }
  }

  lemma StepShape(w: World, v: World, g: nat)
    requires OwnStep(w, v, g)
    ensures g in v.pc && v.pc == w.pc[g := v.pc[g]] && Fits(v.s, v.pc[g])
  {
  }

  lemma OthersFit(w: World, e: Event)
    requires AllFit(w) && !(e.Conn? && e.g in w.pc)
    ensures AllFit(Next(w, e))
  {
    hide Index.ChannelOf, NextWrite;
    forall h | h in Next(w, e).pc ensures Fits(Next(w, e).s, Next(w, e).pc[h]) {
      NoWriteYet(w, e, h);
    }
  }

  lemma NoWriteYet(w: World, e: Event, h: nat)
    requires !(e.Conn? && e.g in w.pc) && h in Next(w, e).pc
    ensures Next(w, e).s.index == w.s.index
    ensures if h in w.pc then Next(w, e).pc[h] == w.pc[h] else NextWrite(Next(w, e).pc[h]).None?
  {
    hide PC.Kind, Started, RegisterStep, JoinStep, LeaveStep, DeleteStep, CreateStep, CloseStep, Index.Occupants, WithAddr, Table.Dropped;
  }

  lemma {:induction false} NeverStale(w: World, es: seq<Event>)
    requires Inv(w) && AllFit(w) && ApartThroughout(w, es)
    ensures StaleIn(w, es, {}) == {}
    decreases |es|
  {
    hide Inv, Next, Apart, Fits;
    if es != [] {
      NextInv(w, es[0]);
      assert Apart(Next(w, es[0]));
      NextFits(w, es[0]);
      NotStale(w, es[0]);
      NeverStale(Next(w, es[0]), es[1..]);
    }
  }

  lemma NotStale(w: World, e: Event)
    requires AllFit(w)
    ensures StaleAfter(w, e, {}) == {}
  {
    hide Next, Index.ChannelOf, NextWrite;
    if e.Conn? && e.g in w.pc { assert Fits(w.s, w.pc[e.g]); }
  }

  /** After every schedule in which no eviction of a session overlaps its own join, and that ends with all
      handlers done, the record of every live session agrees with the index. */
  lemma {:induction false} RecordsRightWhenApart(w: World, es: seq<Event>, id: SessionId)
    requires Fresh(w) && ApartThroughout(w, es) && AtRest(Scheduled(w, es)) && id in Scheduled(w, es).s.sessions
    ensures Agrees(Scheduled(w, es).s, id)
  {
    hide Scheduled, StaleIn, Agrees, AtRest, ApartThroughout, Inv;
    FreshTracked(w);
    NeverStale(w, es);
    RecordAgreesIff(w, es, id);
  }
}
