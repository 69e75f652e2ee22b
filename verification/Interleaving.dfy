/** The server at the granularity of its locks: every call of a manager or of the store is a step of
    its own, and each connection goroutine has a program counter (pkg/server/control.go). */
module Interleaving {
  import opened Prelude
  import opened ChannelIndex
  import opened Sessions
  import opened Store
  import opened Server

  /** Where a connection goroutine stands. `id` is its session; the other arguments are its local
      variables. The name says what has just been done. */
  datatype PC =
    | Authenticated(userID: int)
    | Registering(id: SessionId)
    | Idle(id: SessionId)
    | JoinChecked(id: SessionId, c: ChannelId)
    | JoinFound(id: SessionId, ch: Channel)
    | JoinAdmitted(id: SessionId, c: ChannelId)
    | JoinIndexed(id: SessionId, c: ChannelId)
    | LeaveChecked(id: SessionId)
    | LeaveIndexed(id: SessionId, c: ChannelId)
    | LeaveCleared(id: SessionId, c: ChannelId)
    | LeaveFoundTemp(id: SessionId, c: ChannelId)
    | DeleteChecked(id: SessionId, c: ChannelId)
    | DeleteDropped(id: SessionId, c: ChannelId)
    | DeleteEvicting(id: SessionId, rest: seq<SessionId>)
    | DeleteClearing(id: SessionId, rest: seq<SessionId>)
    | CreateChecked(id: SessionId, req: CreateRequest, userID: int, now: int)
    | CreateParented(id: SessionId, req: CreateRequest, userID: int, now: int)
    | CreateReady(id: SessionId, req: CreateRequest)
    | Importing(id: SessionId)
    | Closing(id: SessionId)
    | ClosingLeft(id: SessionId, c: ChannelId)
    | ClosingUnmapped(id: SessionId, c: ChannelId)
    | ClosedRemoved(c: ChannelId)
    | ClosedFoundTemp(c: ChannelId)
    | Done
  {
    function Kind(): (k: Kind)
      ensures k.Between? ==> Idle?
    {
      if Authenticated? || Registering? then Register
      else if Idle? then Between
      else if JoinChecked? || JoinFound? || JoinAdmitted? || JoinIndexed? then Joining
      else if LeaveChecked? || LeaveIndexed? || LeaveCleared? || LeaveFoundTemp? then Leaving
      else if DeleteChecked? || DeleteDropped? || DeleteEvicting? || DeleteClearing? then Deleting
      else if CreateChecked? || CreateParented? || CreateReady? || Importing? then Creating
      else Ending
    }

    /** The live session the goroutine owns. */
    function SessionOf(): Option<SessionId> {
      if Authenticated? || ClosedRemoved? || ClosedFoundTemp? || Done? then None else Some(id)
    }

    /** Its session may be in the index: the cleanup has not run `Leave` yet. */
    predicate MayBeIndexed() {
      SessionOf().Some? && !ClosingLeft? && !ClosingUnmapped?
    }

    /** Its connection may be registered: after `setConn`, before `removeConn`. */
    predicate MayBeMapped() {
      SessionOf().Some? && !Registering? && !ClosingUnmapped?
    }

    /** The channel it has found to be temporary. */
    function FoundTemp(): Option<ChannelId> {
      if LeaveFoundTemp? || ClosedFoundTemp? then Some(c) else None
    }
  }

  /** The handler a goroutine is in. */
  datatype Kind = Register | Between | Joining | Leaving | Deleting | Creating | Ending

  /** `firing` are timer goroutines that found their channel empty and are about to delete it.
      `owner` is a history variable: which goroutine created a live session. */
  datatype World = World(s: State, pc: map<nat, PC>, firing: multiset<ChannelId>, owner: map<SessionId, nat>) {
    function At(g: nat, p: PC): World {
      this.(pc := pc[g := p])
    }
  }

  /** What the outside decides: requests, closed connections, random ids, the order of a snapshot,
      the next channel of an import. */
  datatype Input =
    | Go
    | Accept(userID: int)
    | NewId(id: SessionId)
    | StartJoin(c: ChannelId)
    | StartLeave
    | StartDelete(c: ChannelId, allowed: bool)
    | StartCreate(req: CreateRequest, allowed: bool, now: int)
    | StartImport(allowed: bool)
    | ImportOne(ch: Channel)
    | ImportEnd
    | SetState(muted: bool, deafened: bool)
    | Close
    | MembersAre(order: seq<SessionId>)

  /** One step of a request that has just been read. Each begins with a session snapshot. */
  function Started(w: World, g: nat, id: SessionId, input: Input): World {
    var live := id in w.s.sessions;
    match input
    case StartJoin(c) => if live then w.At(g, JoinChecked(id, c)) else w
    case StartLeave => if live then w.At(g, LeaveChecked(id)) else w
    case StartDelete(c, allowed) => if live && allowed then w.At(g, DeleteChecked(id, c)) else w
    case StartCreate(req, allowed, now) =>
      if !live || Utf8Length(req.name) == 0 || Utf8Length(req.name) > MAX_NAME_BYTES then w
      else if WantsTempSub(req) then w.At(g, CreateChecked(id, req, w.s.sessions[id].userID, now))
      else if allowed then w.At(g, CreateReady(id, req)) else w
    case StartImport(allowed) => if live && allowed then w.At(g, Importing(id)) else w
    case SetState(muted, deafened) => w.(s := UserStateSet(w.s, id, muted, deafened))
    case Close => w.At(g, Closing(id))
    case _ => w
  }

  function RegisterStep(w: World, g: nat, p: PC, input: Input): World {
    match p
    case Authenticated(userID) =>
      if input.NewId? && input.id != 0 && input.id !in w.s.sessions
      then w.At(g, Registering(input.id)).(s := w.s.(sessions := w.s.sessions[input.id := NewSession(userID)]), owner := w.owner[input.id := g])
      else w
    case Registering(id) => w.At(g, Idle(id)).(s := w.s.(conns := w.s.conns[id := g]))
    case _ => w
  }

  function JoinStep(w: World, g: nat, p: PC): World {
    match p
    case JoinChecked(id, c) => w.At(g, if c in w.s.store.rows then JoinFound(id, w.s.store.rows[c]) else Idle(id))
    case JoinFound(id, ch) =>
      w.At(g, if ch.maxUsers > 0 && |w.s.index.Occupants(ch.id)| >= ch.maxUsers then Idle(id) else JoinAdmitted(id, ch.id))
    case JoinAdmitted(id, c) => w.At(g, JoinIndexed(id, c)).(s := w.s.(index := w.s.index.Joined(id, c)))
    case JoinIndexed(id, c) => w.At(g, Idle(id)).(s := w.s.(sessions := WithChannel(w.s.sessions, id, c)))
    case _ => w
  }

  function LeaveStep(w: World, g: nat, p: PC): World {
    match p
    case LeaveChecked(id) =>
      w.At(g, LeaveIndexed(id, w.s.index.ChannelOf(id))).(s := w.s.(index := w.s.index.Left(id)))
    case LeaveIndexed(id, c) =>
      w.At(g, if c > 0 then LeaveCleared(id, c) else Idle(id)).(s := w.s.(sessions := WithChannel(w.s.sessions, id, 0)))
    case LeaveCleared(id, c) =>
      w.At(g, if c in w.s.store.rows && w.s.store.rows[c].isTemp then LeaveFoundTemp(id, c) else Idle(id))
    case LeaveFoundTemp(id, c) => Armed(w.At(g, Idle(id)), c)
    case _ => w
  }

  function DeleteStep(w: World, g: nat, p: PC, input: Input): World {
    match p
    case DeleteChecked(id, c) => w.At(g, DeleteDropped(id, c)).(s := w.s.(store := w.s.store.Dropped(c)))
    case DeleteDropped(id, c) =>
      if input.MembersAre? && NoDuplicates(input.order) && Elements(input.order) == w.s.index.Occupants(c)
      then w.At(g, DeleteEvicting(id, input.order)) else w
    case DeleteEvicting(id, rest) =>
      if rest == [] then w.At(g, Idle(id))
      else w.At(g, DeleteClearing(id, rest)).(s := w.s.(index := w.s.index.Left(rest[0])))
    case DeleteClearing(id, rest) =>
      if rest == [] then w.At(g, Idle(id))
      else w.At(g, DeleteEvicting(id, rest[1..])).(s := w.s.(sessions := WithChannel(w.s.sessions, rest[0], 0)))
    case _ => w
  }

  function CreateStep(w: World, g: nat, p: PC, input: Input): World {
    match p
    case CreateChecked(id, req, userID, now) =>
      w.At(g, if req.parentID in w.s.store.rows && w.s.store.rows[req.parentID].allowSubChannels then CreateParented(id, req, userID, now) else Idle(id))
    case CreateParented(id, req, userID, now) =>
      if TooSoon(w.s, userID, now) then w.At(g, Idle(id))
      else w.At(g, CreateReady(id, req)).(s := w.s.(tempChanTimes := w.s.tempChanTimes[userID := now]))
    case CreateReady(id, req) => w.At(g, Idle(id)).(s := Added(w.s, Requested(req)))
    case Importing(id) =>
      if input.ImportEnd? then w.At(g, Idle(id))
      else if input.ImportOne? && !input.ch.isTemp then w.(s := Added(w.s, input.ch))
      else w
    case _ => w
  }

  function CloseStep(w: World, g: nat, p: PC): World {
    match p
    case Closing(id) => w.At(g, ClosingLeft(id, w.s.index.ChannelOf(id))).(s := w.s.(index := w.s.index.Left(id)))
    case ClosingLeft(id, c) => w.At(g, ClosingUnmapped(id, c)).(s := w.s.(conns := w.s.conns - {id}))
    case ClosingUnmapped(id, c) =>
      w.At(g, if c > 0 then ClosedRemoved(c) else Done).(s := w.s.(sessions := w.s.sessions - {id}), owner := w.owner - {id})
    case ClosedRemoved(c) =>
      w.At(g, if c in w.s.store.rows && w.s.store.rows[c].isTemp then ClosedFoundTemp(c) else Done)
    case ClosedFoundTemp(c) => Armed(w.At(g, Done), c)
    case _ => w
  }

  /** One step of goroutine `g`. An input that does not fit changes nothing. */
  function Moved(w: World, g: nat, input: Input): World {
    if g !in w.pc then (if input.Accept? then w.At(g, Authenticated(input.userID)) else w)
    else
      var p := w.pc[g];
      match p.Kind()
      case Register => RegisterStep(w, g, p, input)
      case Between => Started(w, g, p.id, input)
      case Joining => JoinStep(w, g, p)
      case Leaving => LeaveStep(w, g, p)
      case Deleting => DeleteStep(w, g, p, input)
      case Creating => CreateStep(w, g, p, input)
      case Ending => CloseStep(w, g, p)
  }

  function Armed(w: World, c: ChannelId): World {
    if w.s.index.Occupants(c) == {} then w.(s := w.s.(timers := w.s.timers + multiset{c})) else w
  }

  function Added(s: State, ch: Channel): State {
    if Validate(ch).Some? then s else s.(store := s.store.Added(ch))
  }

  /** A step of some connection, of a timer goroutine (counting the members, then deleting the channel), or
      the voice goroutine setting an address. */
  datatype Event = Conn(g: nat, input: Input) | Wake(c: ChannelId) | Fire(c: ChannelId) | Addr(id: SessionId, from: UDPAddr)

  function Next(w: World, e: Event): World {
    match e
    case Conn(g, input) => Moved(w, g, input)
    case Wake(c) =>
      if c !in w.s.timers then w
      else
        var v := w.(s := w.s.(timers := w.s.timers - multiset{c}));
        if w.s.index.Occupants(c) == {} then v.(firing := w.firing + multiset{c}) else v
    case Fire(c) =>
      if c !in w.firing then w
      else w.(s := w.s.(store := w.s.store.Dropped(c)), firing := w.firing - multiset{c})
    case Addr(id, from) => w.(s := w.s.(sessions := WithAddr(w.s.sessions, id, from)))
  }

  function Scheduled(w: World, es: seq<Event>): World
    decreases |es|
  {
    if es == [] then w else Scheduled(Next(w, es[0]), es[1..])
  }

  ghost predicate Fresh(w: World) {
    && w.s.sessions == map[] && w.s.index == EMPTY_INDEX && w.s.conns == map[] && w.s.timers == multiset{}
    && w.s.store.WellFormed() && w.pc == map[] && w.firing == multiset{} && w.owner == map[]
  }

  // ----- What interleaving cannot break -----

  /** Live sessions and the goroutines that own them correspond one to one; only an owner that has
      not yet run the matching part of its cleanup has its session in the index or its connection
      registered. */
  ghost predicate Owned(w: World) {
    Paired(w) && IndexedOwned(w) && MappedOwned(w)
  }

  ghost predicate Paired(w: World) {
    && w.owner.Keys == w.s.sessions.Keys
    && (forall id :: id in w.owner ==> w.owner[id] in w.pc && w.pc[w.owner[id]].SessionOf() == Some(id))
    && (forall g :: g in w.pc && w.pc[g].SessionOf().Some? ==> w.pc[g].SessionOf().value in w.owner && w.owner[w.pc[g].SessionOf().value] == g)
  }

  ghost predicate IndexedOwned(w: World) {
    forall id :: id in w.s.index.whereIs ==> id in w.owner && w.owner[id] in w.pc && w.pc[w.owner[id]].MayBeIndexed()
  }

  ghost predicate MappedOwned(w: World) {
    forall id :: id in w.s.conns ==> id in w.owner && w.owner[id] in w.pc && w.pc[w.owner[id]].MayBeMapped()
  }

  /** An id once seen to be a temporary channel's never becomes another channel's. */
  ghost predicate TempOrGone(t: Table, c: ChannelId) {
    c < t.next && (c in t.rows ==> t.rows[c].isTemp)
  }

  ghost predicate TempsOnly(w: World) {
    && (forall c :: c in w.s.timers ==> TempOrGone(w.s.store, c))
    && (forall c :: c in w.firing ==> TempOrGone(w.s.store, c))
    && (forall g :: g in w.pc && w.pc[g].FoundTemp().Some? ==> TempOrGone(w.s.store, w.pc[g].FoundTemp().value))
  }

  ghost predicate Inv(w: World) {
    w.s.index.Coherent() && w.s.store.WellFormed() && Owned(w) && TempsOnly(w)
  }

  /** A step in which `g` moves on within the life of its session keeps the ownership. */
  lemma OwnerMovesOn(w: World, v: World, g: nat, p: PC)
    requires Owned(w) && g in w.pc && v.pc == w.pc[g := p] && v.owner == w.owner
    requires p.SessionOf() == w.pc[g].SessionOf() && v.s.sessions.Keys == w.s.sessions.Keys
    requires forall id :: id in v.s.index.whereIs && Some(id) != p.SessionOf() ==> id in w.s.index.whereIs
    requires forall id :: id in v.s.conns && Some(id) != p.SessionOf() ==> id in w.s.conns
    requires p.SessionOf().Some? ==> (p.SessionOf().value in v.s.index.whereIs ==> p.MayBeIndexed()) && (p.SessionOf().value in v.s.conns ==> p.MayBeMapped())
    ensures Owned(v)
  {
    hide Paired, IndexedOwned, MappedOwned, PC.SessionOf, PC.MayBeIndexed, PC.MayBeMapped;
    PairedMovesOn(w, v, g, p);
    PlacesMoveOn(w, v, g, p);
  }

  lemma PairedMovesOn(w: World, v: World, g: nat, p: PC)
    requires Owned(w) && g in w.pc && v.pc == w.pc[g := p] && v.owner == w.owner
    requires p.SessionOf() == w.pc[g].SessionOf() && v.s.sessions.Keys == w.s.sessions.Keys
    ensures Paired(v)
  {
    hide IndexedOwned, MappedOwned, PC.SessionOf;
  }

  lemma PlacesMoveOn(w: World, v: World, g: nat, p: PC)
    requires Owned(w) && g in w.pc && v.pc == w.pc[g := p] && v.owner == w.owner
    requires p.SessionOf() == w.pc[g].SessionOf() && v.s.sessions.Keys == w.s.sessions.Keys
    requires forall id :: id in v.s.index.whereIs && Some(id) != p.SessionOf() ==> id in w.s.index.whereIs
    requires forall id :: id in v.s.conns && Some(id) != p.SessionOf() ==> id in w.s.conns
    requires p.SessionOf().Some? ==> (p.SessionOf().value in v.s.index.whereIs ==> p.MayBeIndexed()) && (p.SessionOf().value in v.s.conns ==> p.MayBeMapped())
    ensures IndexedOwned(v) && MappedOwned(v)
  {
    hide PC.SessionOf, PC.MayBeIndexed, PC.MayBeMapped;
  }

  lemma Unindexed(w: World, s: SessionId)
    requires w.s.index.Coherent()
    ensures w.s.index.Left(s).Coherent() && w.s.index.Left(s).whereIs == w.s.index.whereIs - {s}
  {
    LeftIsOneRemoval(w.s.index, s);
  }

  /** The store only gains channels with new ids and loses others. */
  ghost predicate RowsEvolve(t: Table, u: Table) {
    && t.next <= u.next
    && forall c :: c in u.rows && c < t.next ==> c in t.rows && u.rows[c] == t.rows[c]
  }

  lemma TempStays(t: Table, u: Table, c: ChannelId)
    requires RowsEvolve(t, u) && TempOrGone(t, c)
    ensures TempOrGone(u, c)
  {
  }

  /** A step that arms no timer, and finds no channel temporary that is not, keeps `TempsOnly`. */
  lemma TempsKept(w: World, v: World, g: nat, p: PC)
    requires TempsOnly(w) && RowsEvolve(w.s.store, v.s.store) && g in w.pc && v.pc == w.pc[g := p] && v.firing == w.firing
    requires forall c :: c in v.s.timers ==> c in w.s.timers || w.pc[g].FoundTemp() == Some(c)
    requires p.FoundTemp().Some? ==> TempOrGone(v.s.store, p.FoundTemp().value)
    ensures TempsOnly(v)
  {
    forall c | TempOrGone(w.s.store, c) ensures TempOrGone(v.s.store, c) {
      TempStays(w.s.store, v.s.store, c);
    }
  }

  /** A step within the life of a session that leaves the store alone. */
  lemma MovesOn(w: World, v: World, g: nat, p: PC)
    requires Inv(w) && g in w.pc && v.pc == w.pc[g := p] && v.owner == w.owner && v.firing == w.firing
    requires v.s.store == w.s.store && v.s.index.Coherent()
    requires p.SessionOf() == w.pc[g].SessionOf() && v.s.sessions.Keys == w.s.sessions.Keys
    requires forall id :: id in v.s.index.whereIs && Some(id) != p.SessionOf() ==> id in w.s.index.whereIs
    requires forall id :: id in v.s.conns && Some(id) != p.SessionOf() ==> id in w.s.conns
    requires p.SessionOf().Some? ==> (p.SessionOf().value in v.s.index.whereIs ==> p.MayBeIndexed()) && (p.SessionOf().value in v.s.conns ==> p.MayBeMapped())
    requires forall c :: c in v.s.timers ==> c in w.s.timers || w.pc[g].FoundTemp() == Some(c)
    requires p.FoundTemp().Some? ==> TempOrGone(v.s.store, p.FoundTemp().value)
    ensures Inv(v)
  {
    hide Owned, TempsOnly, Index.Coherent, Table.WellFormed;
    assert RowsEvolve(w.s.store, v.s.store);
    OwnerMovesOn(w, v, g, p);
    TempsKept(w, v, g, p);
  }

  /** Reading a request changes at most the two flags of a session and where `g` stands. */
  lemma StartedShape(w: World, g: nat, id: SessionId, input: Input)
    requires g in w.pc && w.pc[g] == Idle(id)
    ensures var v := Started(w, g, id, input);
            && v == World(w.s.(sessions := v.s.sessions), v.pc, w.firing, w.owner) && v.s.sessions.Keys == w.s.sessions.Keys
            && g in v.pc && v.pc == w.pc[g := v.pc[g]] && v.pc[g].SessionOf() == Some(id)
            && v.pc[g].MayBeIndexed() && v.pc[g].MayBeMapped() && v.pc[g].FoundTemp().None?
  {
    hide Utf8Length, WantsTempSub;
    assert w.pc[g := Idle(id)] == w.pc;
  }

  lemma StartInv(w: World, g: nat, id: SessionId, input: Input)
    requires Inv(w) && g in w.pc && w.pc[g] == Idle(id)
    ensures Inv(Started(w, g, id, input))
  {
    hide Inv, Owned, TempsOnly, Started, Index.Coherent, Table.WellFormed, TempOrGone;
    var v := Started(w, g, id, input);
    StartedShape(w, g, id, input);
    WellKept(w);
    MovesOn(w, v, g, v.pc[g]);
  }

  /** The parts of the invariant a caller of `MovesOn` refers to. */
  lemma WellKept(w: World)
    requires Inv(w)
    ensures w.s.index.Coherent() && w.s.store.WellFormed()
    ensures forall g :: g in w.pc && w.pc[g].SessionOf().Some? ==>
              var id := w.pc[g].SessionOf().value;
              (id in w.s.index.whereIs ==> w.pc[g].MayBeIndexed()) && (id in w.s.conns ==> w.pc[g].MayBeMapped())
    ensures forall c :: c in w.s.store.rows ==> c < w.s.store.next
  {
  }

  lemma JoinStepInv(w: World, g: nat)
    requires Inv(w) && g in w.pc && w.pc[g].Kind().Joining?
    ensures Inv(JoinStep(w, g, w.pc[g]))
  {
    hide Inv, Index.Coherent;
    var v := JoinStep(w, g, w.pc[g]);
    WellKept(w);
    if w.pc[g].JoinAdmitted? { JoinedIsOneMove(w.s.index, w.pc[g].id, w.pc[g].c); }
    MovesOn(w, v, g, v.pc[g]);
  }

  lemma LeaveStepInv(w: World, g: nat)
    requires Inv(w) && g in w.pc && w.pc[g].Kind().Leaving?
    ensures Inv(LeaveStep(w, g, w.pc[g]))
  {
    hide Inv, Index.Coherent;
    var v := LeaveStep(w, g, w.pc[g]);
    WellKept(w);
    if w.pc[g].LeaveChecked? { Unindexed(w, w.pc[g].id); }
    MovesOn(w, v, g, v.pc[g]);
  }

  lemma DeleteStepInv(w: World, g: nat, input: Input)
    requires Inv(w) && g in w.pc && w.pc[g].Kind().Deleting?
    ensures Inv(DeleteStep(w, g, w.pc[g], input))
  {
    if w.pc[g].DeleteChecked? {
      DropStepInv(w, g, input);
    } else {
      EvictStepInv(w, g, input);
    }
  }

  lemma EvictStepInv(w: World, g: nat, input: Input)
    requires Inv(w) && g in w.pc && w.pc[g].Kind().Deleting? && !w.pc[g].DeleteChecked?
    ensures Inv(DeleteStep(w, g, w.pc[g], input))
  {
    hide Inv, Owned, TempsOnly, Index.Coherent, Table.WellFormed, TempOrGone, Index.Left, NoDuplicates, Elements;
    var p := w.pc[g];
    var v := DeleteStep(w, g, p, input);
    assert w.pc[g := p] == w.pc;
    WellKept(w);
    if p.DeleteEvicting? && p.rest != [] { Unindexed(w, p.rest[0]); }
    MovesOn(w, v, g, v.pc[g]);
  }

  lemma DropStepInv(w: World, g: nat, input: Input)
    requires Inv(w) && g in w.pc && w.pc[g].DeleteChecked?
    ensures Inv(DeleteStep(w, g, w.pc[g], input))
  {
    hide Owned, TempsOnly, Index.Coherent;
    var v := DeleteStep(w, g, w.pc[g], input);
    WellKept(w);
    OwnerMovesOn(w, v, g, v.pc[g]);
    TempsKept(w, v, g, v.pc[g]);
  }

  lemma AddedEvolves(s: State, ch: Channel)
    requires s.store.WellFormed()
    ensures var t := Added(s, ch); t == s.(store := t.store) && t.store.WellFormed() && RowsEvolve(s.store, t.store)
  {
    hide Validate;
  }

  lemma CreateStepInv(w: World, g: nat, input: Input)
    requires Inv(w) && g in w.pc && w.pc[g].Kind().Creating?
    ensures Inv(CreateStep(w, g, w.pc[g], input))
  {
    hide Index.Coherent, Owned, TempsOnly, Added, Table.WellFormed, RowsEvolve;
    var v := CreateStep(w, g, w.pc[g], input);
    assert w.pc[g := w.pc[g]] == w.pc;
    EvolvesToItself(w.s.store);
    match w.pc[g] {
      case CreateReady(id, req) => AddedEvolves(w.s, Requested(req));
      case Importing(id) => if input.ImportOne? { AddedEvolves(w.s, input.ch); }
      case _ =>
    }
    WellKept(w);
    OwnerMovesOn(w, v, g, v.pc[g]);
    TempsKept(w, v, g, v.pc[g]);
  }

  lemma EvolvesToItself(t: Table)
    ensures RowsEvolve(t, t)
  {
  }

  lemma CloseStepInv(w: World, g: nat)
    requires Inv(w) && g in w.pc && w.pc[g].Kind().Ending?
    ensures Inv(CloseStep(w, g, w.pc[g]))
  {
    if w.pc[g].ClosingUnmapped? {
      RemoveStepInv(w, g);
    } else if w.pc[g].Closing? || w.pc[g].ClosingLeft? {
      UnregisterStepInv(w, g);
    } else {
      ClosedStepInv(w, g);
    }
  }

  lemma UnregisterStepInv(w: World, g: nat)
    requires Inv(w) && g in w.pc && (w.pc[g].Closing? || w.pc[g].ClosingLeft?)
    ensures Inv(CloseStep(w, g, w.pc[g]))
  {
    hide Inv, Index.Coherent, Table.WellFormed, Owned, TempsOnly, TempOrGone, Index.Left;
    var v := CloseStep(w, g, w.pc[g]);
    WellKept(w);
    Unindexed(w, w.pc[g].id);
    MovesOn(w, v, g, v.pc[g]);
  }

  lemma ClosedStepInv(w: World, g: nat)
    requires Inv(w) && g in w.pc && (w.pc[g].ClosedRemoved? || w.pc[g].ClosedFoundTemp? || w.pc[g].Done?)
    ensures Inv(CloseStep(w, g, w.pc[g]))
  {
    hide Inv, Index.Coherent, Table.WellFormed, Owned, TempsOnly;
    var v := CloseStep(w, g, w.pc[g]);
    WellKept(w);
    assert w.pc[g := w.pc[g]] == w.pc;
    MovesOn(w, v, g, v.pc[g]);
  }

  /** By the time a session is removed it is in neither the index nor the connection map. */
  lemma RemoveStepInv(w: World, g: nat)
    requires Inv(w) && g in w.pc && w.pc[g].ClosingUnmapped?
    ensures Inv(CloseStep(w, g, w.pc[g]))
  {
    hide Index.Coherent, Table.WellFormed, TempsOnly;
    var v := CloseStep(w, g, w.pc[g]);
    EvolvesToItself(w.s.store);
    TempsKept(w, v, g, v.pc[g]);
    OwnerGone(w, v, g, v.pc[g]);
  }

  lemma OwnerGone(w: World, v: World, g: nat, p: PC)
    requires Owned(w) && g in w.pc && w.pc[g].ClosingUnmapped? && p.SessionOf().None?
    requires var id := w.pc[g].id;
             v.pc == w.pc[g := p] && v.owner == w.owner - {id} && v.s.sessions == w.s.sessions - {id}
             && v.s.index == w.s.index && v.s.conns == w.s.conns
    ensures Owned(v)
  {
    hide Paired, IndexedOwned, MappedOwned;
    PairedGone(w, v, g, p);
    NowhereGone(w, v, g, p);
  }

  lemma PairedGone(w: World, v: World, g: nat, p: PC)
    requires Owned(w) && g in w.pc && w.pc[g].ClosingUnmapped? && p.SessionOf().None?
    requires var id := w.pc[g].id;
             v.pc == w.pc[g := p] && v.owner == w.owner - {id} && v.s.sessions == w.s.sessions - {id}
             && v.s.index == w.s.index && v.s.conns == w.s.conns
    ensures Paired(v)
  {
    hide IndexedOwned, MappedOwned;
  }

  lemma NowhereGone(w: World, v: World, g: nat, p: PC)
    requires Owned(w) && g in w.pc && w.pc[g].ClosingUnmapped? && p.SessionOf().None?
    requires var id := w.pc[g].id;
             v.pc == w.pc[g := p] && v.owner == w.owner - {id} && v.s.sessions == w.s.sessions - {id}
             && v.s.index == w.s.index && v.s.conns == w.s.conns
    ensures IndexedOwned(v) && MappedOwned(v)
  {
    assert w.owner[w.pc[g].id] == g;
  }

  lemma CreateSessionInv(w: World, g: nat, input: Input)
    requires Inv(w) && g in w.pc && w.pc[g].Authenticated?
    ensures Inv(RegisterStep(w, g, w.pc[g], input))
  {
    hide Index.Coherent, Table.WellFormed, TempsOnly, Owned;
    var v := RegisterStep(w, g, w.pc[g], input);
    if v != w {
      EvolvesToItself(w.s.store);
      TempsKept(w, v, g, v.pc[g]);
      OwnerBorn(w, v, g, input.id);
    }
  }

  lemma OwnerBorn(w: World, v: World, g: nat, id: SessionId)
    requires Owned(w) && g in w.pc && w.pc[g].Authenticated? && id !in w.s.sessions
    requires v.pc == w.pc[g := Registering(id)] && v.owner == w.owner[id := g] && v.s.sessions.Keys == w.s.sessions.Keys + {id}
    requires v.s.index == w.s.index && v.s.conns == w.s.conns
    ensures Owned(v)
  {
    hide Paired, IndexedOwned, MappedOwned;
    PairedBorn(w, v, g, id);
    NowhereBorn(w, v, g, id);
  }

  lemma PairedBorn(w: World, v: World, g: nat, id: SessionId)
    requires Owned(w) && g in w.pc && w.pc[g].Authenticated? && id !in w.s.sessions
    requires v.pc == w.pc[g := Registering(id)] && v.owner == w.owner[id := g] && v.s.sessions.Keys == w.s.sessions.Keys + {id}
    requires v.s.index == w.s.index && v.s.conns == w.s.conns
    ensures Paired(v)
  {
    hide PC.SessionOf, IndexedOwned, MappedOwned;
    Newborn(w.pc[g].userID, id);
    assert v.owner.Keys == v.s.sessions.Keys;
    assert forall x :: x in w.owner ==> w.owner[x] != g;
  }

  lemma NowhereBorn(w: World, v: World, g: nat, id: SessionId)
    requires Owned(w) && g in w.pc && w.pc[g].Authenticated? && id !in w.s.sessions
    requires v.pc == w.pc[g := Registering(id)] && v.owner == w.owner[id := g] && v.s.sessions.Keys == w.s.sessions.Keys + {id}
    requires v.s.index == w.s.index && v.s.conns == w.s.conns
    ensures IndexedOwned(v) && MappedOwned(v)
  {
    hide PC.MayBeIndexed, PC.MayBeMapped, PC.SessionOf;
    Newborn(w.pc[g].userID, id);
    assert forall x :: x in w.owner ==> w.owner[x] != g;
  }

  lemma Newborn(userID: int, id: SessionId)
    ensures Authenticated(userID).SessionOf() == None && Registering(id).SessionOf() == Some(id)
  {
  }

  lemma RegisterStepInv(w: World, g: nat, input: Input)
    requires Inv(w) && g in w.pc && w.pc[g].Kind().Register?
    ensures Inv(RegisterStep(w, g, w.pc[g], input))
  {
    if w.pc[g].Authenticated? {
      CreateSessionInv(w, g, input);
    } else {
      hide Inv, Index.Coherent, Table.WellFormed, Owned, TempsOnly;
      var v := RegisterStep(w, g, w.pc[g], input);
      WellKept(w);
      MovesOn(w, v, g, v.pc[g]);
    }
  }

  lemma WakeInv(w: World, c: ChannelId)
    requires Inv(w)
    ensures Inv(Next(w, Wake(c)))
  {
    hide Index.Coherent, Table.WellFormed, TempOrGone, Moved;
  }

  lemma FireInv(w: World, c: ChannelId)
    requires Inv(w)
    ensures Inv(Next(w, Fire(c)))
  {
    hide Index.Coherent, Moved;
  }

  lemma AcceptInv(w: World, g: nat, userID: int)
    requires Inv(w) && g !in w.pc
    ensures Inv(w.At(g, Authenticated(userID)))
  {
    hide Index.Coherent, Table.WellFormed, TempOrGone, Owned, TempsOnly;
    AcceptOwned(w, g, userID);
    AcceptTemps(w, g, userID);
  }

  lemma AcceptOwned(w: World, g: nat, userID: int)
    requires Owned(w) && g !in w.pc
    ensures Owned(w.At(g, Authenticated(userID)))
  {
    hide PC.MayBeIndexed, PC.MayBeMapped;
  }

  lemma AcceptTemps(w: World, g: nat, userID: int)
    requires TempsOnly(w) && g !in w.pc
    ensures TempsOnly(w.At(g, Authenticated(userID)))
  {
    hide TempOrGone;
  }

  lemma {:induction false} MovedInv(w: World, g: nat, input: Input)
    requires Inv(w)
    ensures Inv(Moved(w, g, input))
  {
    if g !in w.pc {
      if input.Accept? { AcceptInv(w, g, input.userID); }
    } else {
      hide Inv, Started, RegisterStep, JoinStep, LeaveStep, DeleteStep, CreateStep, CloseStep;
      match w.pc[g].Kind()
      case Register => RegisterStepInv(w, g, input);
      case Between => StartInv(w, g, w.pc[g].id, input);
      case Joining => JoinStepInv(w, g);
      case Leaving => LeaveStepInv(w, g);
      case Deleting => DeleteStepInv(w, g, input);
      case Creating => CreateStepInv(w, g, input);
      case Ending => CloseStepInv(w, g);
    }
  }

  lemma {:induction false} NextInv(w: World, e: Event)
    requires Inv(w)
    ensures Inv(Next(w, e))
  {
    match e
    case Conn(g, input) => MovedInv(w, g, input);
    case Wake(c) => WakeInv(w, c);
    case Fire(c) => FireInv(w, c);
    case Addr(id, from) => hide Index.Coherent, Table.WellFormed, TempsOnly, Moved;
  }

  lemma {:induction false} ScheduleKeepsInv(w: World, es: seq<Event>)
    requires Inv(w)
    ensures Inv(Scheduled(w, es))
    decreases |es|
  {
    if es != [] {
      NextInv(w, es[0]);
      ScheduleKeepsInv(Next(w, es[0]), es[1..]);
    }
  }

  /** Under every interleaving: the two halves of the index are exact inverses, whoever is in the index
      or has a registered connection is a live session, and only temporary channels have timers. */
  lemma {:induction false} EveryScheduleIsSafe(w: World, es: seq<Event>)
    requires Fresh(w)
    ensures var v := Scheduled(w, es);
            && v.s.index.Coherent()
            && v.s.index.whereIs.Keys <= v.s.sessions.Keys && v.s.conns.Keys <= v.s.sessions.Keys
            && (forall c :: c in v.s.timers || c in v.firing ==> TempOrGone(v.s.store, c))
  {
    CoherentMeaning(w.s.index);
    ScheduleKeepsInv(w, es);
  }

  /** Even when joins race with it, a timer goroutine never deletes a permanent channel. */
  lemma {:induction false} FireSparesPermanent(w: World, es: seq<Event>, c: ChannelId, d: ChannelId)
    requires Fresh(w)
    ensures var v := Scheduled(w, es);
            d in v.s.store.rows && d !in Next(v, Fire(c)).s.store.rows ==> d == c && v.s.store.rows[d].isTemp
  {
    EveryScheduleIsSafe(w, es);
  }
}
