/** Exactly when, at lock granularity, a session's own record of its channel agrees with the index once
    all handlers are done. */
module Records {
  import opened Prelude
  import opened ChannelIndex
  import opened Sessions
  import opened Store
  import opened Server
  import opened Interleaving
  import opened Uninterrupted

  ghost predicate Agrees(s: State, id: SessionId)
    requires id in s.sessions
  {
    s.sessions[id].channelID == s.index.ChannelOf(id)
  }

  /** The record a goroutine is about to write, and what. */
  function NextWrite(p: PC): Option<(SessionId, ChannelId)> {
    match p
    case JoinIndexed(id, c) => Some((id, c))
    case LeaveIndexed(id, _) => Some((id, 0))
    case DeleteClearing(_, rest) => if rest == [] then None else Some((rest[0], 0))
    case _ => None
  }

  /** It has changed where `id` is and not yet written the record, or is ending that session. */
  predicate Owes(p: PC, id: SessionId) {
    || (NextWrite(p).Some? && NextWrite(p).value.0 == id)
    || ((p.ClosingLeft? || p.ClosingUnmapped?) && p.id == id)
  }

  ghost predicate Owed(w: World, id: SessionId) {
    exists g :: g in w.pc && Owes(w.pc[g], id)
  }

  function Write(w: World, e: Event): Option<(SessionId, ChannelId)> {
    if e.Conn? && e.g in w.pc then NextWrite(w.pc[e.g]) else None
  }

  /** The live sessions whose last record write named another channel than the index did at that moment. */
  function StaleAfter(w: World, e: Event, stale: set<SessionId>): set<SessionId> {
    var written := match Write(w, e)
      case Some((id, c)) => if c == w.s.index.ChannelOf(id) then stale - {id} else stale + {id}
      case None => stale;
    written * Next(w, e).s.sessions.Keys
  }

  function StaleIn(w: World, es: seq<Event>, stale: set<SessionId>): set<SessionId>
    decreases |es|
  {
    if es == [] then stale else StaleIn(Next(w, es[0]), es[1..], StaleAfter(w, es[0], stale))
  }

  ghost predicate Right(w: World, stale: set<SessionId>, id: SessionId)
    requires id in w.s.sessions
  {
    Owed(w, id) || (Agrees(w.s, id) <==> id !in stale)
  }

  /** Unless somebody still owes the record, it agrees exactly if its last write was not stale. */
  ghost predicate Tracked(w: World, stale: set<SessionId>) {
    stale <= w.s.sessions.Keys && forall id :: id in w.s.sessions ==> Right(w, stale, id)
  }

  /** A step that leaves place and record of a session alone. */
  lemma Untouched(w: World, v: World, g: nat, stale: set<SessionId>, id: SessionId)
    requires id in w.s.sessions && id in v.s.sessions && Right(w, stale, id) && g in w.pc && g in v.pc && v.pc == w.pc[g := v.pc[g]]
    requires v.s.sessions[id].channelID == w.s.sessions[id].channelID && v.s.index.ChannelOf(id) == w.s.index.ChannelOf(id)
    requires Owes(w.pc[g], id) ==> Owes(v.pc[g], id)
    ensures Right(v, stale * v.s.sessions.Keys, id)
  {
    hide Owes;
    if Owed(w, id) {
      var h :| h in w.pc && Owes(w.pc[h], id);
      assert Owes(v.pc[h], id);
    }
  }

  lemma NowOwed(v: World, g: nat, stale: set<SessionId>, id: SessionId)
    requires id in v.s.sessions && g in v.pc && Owes(v.pc[g], id)
    ensures Right(v, stale, id)
  {
  }

  lemma LeftElsewhere(ix: Index, s: SessionId, id: SessionId)
    requires ix.Coherent() && id != s
    ensures ix.Left(s).ChannelOf(id) == ix.ChannelOf(id)
  {
    LeftIsOneRemoval(ix, s);
  }

  lemma JoinedElsewhere(ix: Index, s: SessionId, c: ChannelId, id: SessionId)
    requires ix.Coherent() && id != s
    ensures ix.Joined(s, c).ChannelOf(id) == ix.ChannelOf(id)
  {
    JoinedIsOneMove(ix, s, c);
  }

  /** A step that writes a record. */
  lemma WriteRight(w: World, v: World, g: nat, stale: set<SessionId>, id: SessionId)
    requires Tracked(w, stale) && id in v.s.sessions && g in w.pc && g in v.pc && v.pc == w.pc[g := v.pc[g]]
    requires NextWrite(w.pc[g]).Some? && v.s.index == w.s.index
    requires v.s.sessions == WithChannel(w.s.sessions, NextWrite(w.pc[g]).value.0, NextWrite(w.pc[g]).value.1)
    ensures var (x, c) := NextWrite(w.pc[g]).value;
            Right(v, (if c == w.s.index.ChannelOf(x) then stale - {x} else stale + {x}) * v.s.sessions.Keys, id)
  {
    hide Index.Coherent;
    var (x, c) := NextWrite(w.pc[g]).value;
    if id != x {
      Untouched(w, v, g, stale, id);
    }
  }

  lemma JoinRight(w: World, g: nat, stale: set<SessionId>, id: SessionId)
    requires w.s.index.Coherent() && Tracked(w, stale) && g in w.pc && w.pc[g].Kind().Joining? && !w.pc[g].JoinIndexed? && id in w.s.sessions
    ensures Right(JoinStep(w, g, w.pc[g]), stale * JoinStep(w, g, w.pc[g]).s.sessions.Keys, id)
  {
    hide Index.Coherent, Index.Joined;
    var v := JoinStep(w, g, w.pc[g]);
    if w.pc[g].JoinAdmitted? {
      if id == w.pc[g].id {
        NowOwed(v, g, stale * v.s.sessions.Keys, id);
      } else {
        JoinedElsewhere(w.s.index, w.pc[g].id, w.pc[g].c, id);
        Untouched(w, v, g, stale, id);
      }
    } else {
      Untouched(w, v, g, stale, id);
    }
  }

  lemma LeaveRight(w: World, g: nat, stale: set<SessionId>, id: SessionId)
    requires w.s.index.Coherent() && Tracked(w, stale) && g in w.pc && w.pc[g].Kind().Leaving? && !w.pc[g].LeaveIndexed? && id in w.s.sessions
    ensures Right(LeaveStep(w, g, w.pc[g]), stale * LeaveStep(w, g, w.pc[g]).s.sessions.Keys, id)
  {
    hide Index.Coherent, Index.Left;
    var v := LeaveStep(w, g, w.pc[g]);
    if w.pc[g].LeaveChecked? && id == w.pc[g].id {
      NowOwed(v, g, stale * v.s.sessions.Keys, id);
    } else {
      if w.pc[g].LeaveChecked? { LeftElsewhere(w.s.index, w.pc[g].id, id); }
      Untouched(w, v, g, stale, id);
    }
  }

  lemma DeleteRight(w: World, g: nat, input: Input, stale: set<SessionId>, id: SessionId)
    requires w.s.index.Coherent() && Tracked(w, stale) && g in w.pc && w.pc[g].Kind().Deleting? && NextWrite(w.pc[g]).None? && id in w.s.sessions
    ensures Right(DeleteStep(w, g, w.pc[g], input), stale * DeleteStep(w, g, w.pc[g], input).s.sessions.Keys, id)
  {
    hide Index.Coherent, Index.Left, Tracked, Table.Dropped, NoDuplicates, Elements;
    var v := DeleteStep(w, g, w.pc[g], input);
    assert w.pc[g := w.pc[g]] == w.pc;
    RightHere(w, stale, id);
    if w.pc[g].DeleteEvicting? && w.pc[g].rest != [] {
      if id == w.pc[g].rest[0] {
        NowOwed(v, g, stale * v.s.sessions.Keys, id);
      } else {
        LeftElsewhere(w.s.index, w.pc[g].rest[0], id);
        Untouched(w, v, g, stale, id);
      }
    } else {
      Untouched(w, v, g, stale, id);
    }
  }

  lemma RightHere(w: World, stale: set<SessionId>, id: SessionId)
    requires Tracked(w, stale) && id in w.s.sessions
    ensures Right(w, stale, id)
  {
  }

  lemma CreateRight(w: World, g: nat, input: Input, stale: set<SessionId>, id: SessionId)
    requires Tracked(w, stale) && g in w.pc && w.pc[g].Kind().Creating? && id in w.s.sessions
    ensures var v := CreateStep(w, g, w.pc[g], input); id in v.s.sessions && Right(v, stale * v.s.sessions.Keys, id)
  {
    hide Tracked, Validate, TooSoon, Table.Added;
    var v := CreateStep(w, g, w.pc[g], input);
    assert w.pc[g := w.pc[g]] == w.pc;
    RightHere(w, stale, id);
    Untouched(w, v, g, stale, id);
  }

  lemma StartRight(w: World, g: nat, input: Input, stale: set<SessionId>, id: SessionId)
    requires Tracked(w, stale) && g in w.pc && w.pc[g].Idle? && id in w.s.sessions
    ensures var v := Started(w, g, w.pc[g].id, input); id in v.s.sessions && Right(v, stale * v.s.sessions.Keys, id)
  {
    hide Tracked, Utf8Length, WantsTempSub;
    var v := Started(w, g, w.pc[g].id, input);
    assert w.pc[g := w.pc[g]] == w.pc;
    RightHere(w, stale, id);
    Untouched(w, v, g, stale, id);
  }

  lemma CloseRight(w: World, g: nat, stale: set<SessionId>, id: SessionId)
    requires w.s.index.Coherent() && Tracked(w, stale) && g in w.pc && w.pc[g].Kind().Ending?
    requires id in CloseStep(w, g, w.pc[g]).s.sessions
    ensures Right(CloseStep(w, g, w.pc[g]), stale * CloseStep(w, g, w.pc[g]).s.sessions.Keys, id)
  {
    hide Index.Coherent, Index.Left, Tracked;
    var v := CloseStep(w, g, w.pc[g]);
    assert w.pc[g := w.pc[g]] == w.pc;
    RightHere(w, stale, id);
    if w.pc[g].Closing? && id == w.pc[g].id {
      NowOwed(v, g, stale * v.s.sessions.Keys, id);
    } else {
      if w.pc[g].Closing? { LeftElsewhere(w.s.index, w.pc[g].id, id); }
      Untouched(w, v, g, stale, id);
    }
  }

  /** A new session is in no channel, and its record says so. */
  lemma RegisterRight(w: World, g: nat, input: Input, stale: set<SessionId>, id: SessionId)
    requires Owned(w) && Tracked(w, stale) && g in w.pc && w.pc[g].Kind().Register?
    requires id in RegisterStep(w, g, w.pc[g], input).s.sessions
    ensures Right(RegisterStep(w, g, w.pc[g], input), stale * RegisterStep(w, g, w.pc[g], input).s.sessions.Keys, id)
  {
    var v := RegisterStep(w, g, w.pc[g], input);
    assert w.pc[g := w.pc[g]] == w.pc;
    if id in w.s.sessions {
      Untouched(w, v, g, stale, id);
    } else {
      assert id !in w.s.index.whereIs;
    }
  }

  /** A step that writes no record. */
  lemma MoveRight(w: World, g: nat, input: Input, stale: set<SessionId>, id: SessionId)
    requires Inv(w) && Tracked(w, stale) && g in w.pc && NextWrite(w.pc[g]).None? && id in Moved(w, g, input).s.sessions
    ensures Right(Moved(w, g, input), stale * Moved(w, g, input).s.sessions.Keys, id)
  {
    hide Tracked, Right, Owned, TempsOnly, Index.Coherent, Table.WellFormed;
    hide Started, RegisterStep, JoinStep, LeaveStep, DeleteStep, CreateStep, CloseStep;
    LiveBefore(w, g, input, id);
    match w.pc[g].Kind()
    case Register => RegisterRight(w, g, input, stale, id);
    case Between => StartRight(w, g, input, stale, id);
    case Joining => JoinRight(w, g, stale, id);
    case Leaving => LeaveRight(w, g, stale, id);
    case Deleting => DeleteRight(w, g, input, stale, id);
    case Creating => CreateRight(w, g, input, stale, id);
    case Ending => CloseRight(w, g, stale, id);
  }

  lemma LiveAfter(w: World, g: nat, p: PC, input: Input)
    ensures JoinStep(w, g, p).s.sessions.Keys == LeaveStep(w, g, p).s.sessions.Keys == w.s.sessions.Keys
    ensures CloseStep(w, g, p).s.sessions.Keys <= w.s.sessions.Keys
  {
    hide Index.Left, Index.Joined;
  }

  lemma LiveAfterToo(w: World, g: nat, p: PC, input: Input)
    ensures DeleteStep(w, g, p, input).s.sessions.Keys == CreateStep(w, g, p, input).s.sessions.Keys == w.s.sessions.Keys
  {
    hide Index.Left, Validate, TooSoon, NoDuplicates, Elements;
  }

  /** Sessions begin in registration only. */
  lemma LiveBefore(w: World, g: nat, input: Input, id: SessionId)
    requires g in w.pc && id in Moved(w, g, input).s.sessions
    ensures id in w.s.sessions || w.pc[g].Kind().Register?
  {
    hide Started, RegisterStep, JoinStep, LeaveStep, DeleteStep, CreateStep, CloseStep;
    LiveAfter(w, g, w.pc[g], input);
    LiveAfterToo(w, g, w.pc[g], input);
    if w.pc[g].Idle? { StartedShape(w, g, w.pc[g].id, input); }
  }

  lemma OthersRight(w: World, e: Event, stale: set<SessionId>, id: SessionId)
    requires Tracked(w, stale) && !(e.Conn? && e.g in w.pc) && id in Next(w, e).s.sessions
    ensures Right(Next(w, e), stale * Next(w, e).s.sessions.Keys, id)
  {
    hide Owes;
    var v := Next(w, e);
    RightHere(w, stale, id);
    if Owed(w, id) {
      var h :| h in w.pc && Owes(w.pc[h], id);
      assert h in v.pc && Owes(v.pc[h], id);
    }
  }

  lemma WriteMoves(w: World, g: nat, input: Input)
    requires g in w.pc && NextWrite(w.pc[g]).Some?
    ensures var v := Moved(w, g, input); var (x, c) := NextWrite(w.pc[g]).value;
            && g in v.pc && v.pc == w.pc[g := v.pc[g]] && v.s.index == w.s.index
            && v.s.sessions == WithChannel(w.s.sessions, x, c)
  {
    hide WithChannel, JoinStep, LeaveStep, DeleteStep;
    match w.pc[g] {
      case JoinIndexed(_, _) => JoinMoves(w, g);
      case LeaveIndexed(_, _) => LeaveMoves(w, g);
      case DeleteClearing(_, _) => DeleteMoves(w, g, input);
    }
    WriteSteps(w, g, input);
  }

  lemma WriteSteps(w: World, g: nat, input: Input)
    requires g in w.pc && NextWrite(w.pc[g]).Some?
    ensures var (x, c) := NextWrite(w.pc[g]).value; var t := WithChannel(w.s.sessions, x, c);
            && (w.pc[g].JoinIndexed? ==> JoinStep(w, g, w.pc[g]) == w.At(g, Idle(x)).(s := w.s.(sessions := t)))
            && (w.pc[g].LeaveIndexed? ==> LeaveStep(w, g, w.pc[g]).s == w.s.(sessions := t) && g in LeaveStep(w, g, w.pc[g]).pc && LeaveStep(w, g, w.pc[g]).pc == w.pc[g := LeaveStep(w, g, w.pc[g]).pc[g]])
            && (w.pc[g].DeleteClearing? ==> DeleteStep(w, g, w.pc[g], input) == w.At(g, DeleteEvicting(w.pc[g].id, w.pc[g].rest[1..])).(s := w.s.(sessions := t)))
  {
    hide WithChannel;
  }

  lemma {:induction false} NextTracked(w: World, e: Event, stale: set<SessionId>)
    requires Inv(w) && Tracked(w, stale)
    ensures Tracked(Next(w, e), StaleAfter(w, e, stale))
  {
    var v := Next(w, e);
    forall id | id in v.s.sessions ensures Right(v, StaleAfter(w, e, stale), id) {
      hide Inv, Right, Tracked, Moved, NextWrite;
      if e.Conn? && e.g in w.pc {
        if NextWrite(w.pc[e.g]).Some? {
          WriteMoves(w, e.g, e.input);
          WriteRight(w, v, e.g, stale, id);
        } else {
          MoveRight(w, e.g, e.input, stale, id);
        }
      } else {
        OthersRight(w, e, stale, id);
      }
    }
  }

  lemma {:induction false} ScheduleTracked(w: World, es: seq<Event>, stale: set<SessionId>)
    requires Inv(w) && Tracked(w, stale)
    ensures Tracked(Scheduled(w, es), StaleIn(w, es, stale))
    decreases |es|
  {
    hide Inv, Tracked, Next, StaleAfter;
    if es != [] {
      NextTracked(w, es[0], stale);
      NextInv(w, es[0]);
      ScheduleTracked(Next(w, es[0]), es[1..], StaleAfter(w, es[0], stale));
    }
  }

  lemma NothingOwed(w: World, id: SessionId)
    requires AtRest(w)
    ensures !Owed(w, id)
  {
  }

  /** After every schedule that ends with all handlers done, the record of a live session agrees with
      the index exactly if the last write to it named the channel the index did at that moment. */
  lemma {:induction false} RecordAgreesIff(w: World, es: seq<Event>, id: SessionId)
    requires Fresh(w) && AtRest(Scheduled(w, es)) && id in Scheduled(w, es).s.sessions
    ensures Agrees(Scheduled(w, es).s, id) <==> id !in StaleIn(w, es, {})
  {
    hide Scheduled, StaleIn, Inv, Owed, AtRest;
    FreshTracked(w);
    ScheduleTracked(w, es, {});
    NothingOwed(Scheduled(w, es), id);
    RightHere(Scheduled(w, es), StaleIn(w, es, {}), id);
  }

  lemma FreshTracked(w: World)
    requires Fresh(w)
    ensures Inv(w) && Tracked(w, {})
  {
    CoherentMeaning(w.s.index);
  }
}
