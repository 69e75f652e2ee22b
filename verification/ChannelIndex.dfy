/** Channel membership (pkg/server/channels.go).
    `ChannelManager` keeps a two-way index between channels and sessions. The index is
    meant to be one fact stored twice: who is where, and its inverse. */
module ChannelIndex {
  import opened Prelude

  type SessionId = uint32
  type ChannelId = int

  /** The state of a `ChannelManager`. */
  datatype Index = Index(members: map<ChannelId, set<SessionId>>, whereIs: map<SessionId, ChannelId>) {
    function Occupants(c: ChannelId): set<SessionId> {
      if c in members then members[c] else {}
    }

    /** 0 stands for "no channel". */
    function ChannelOf(s: SessionId): ChannelId {
      if s in whereIs then whereIs[s] else 0
    }

    /** The two halves are exact inverses; in particular no member set is empty. */
    ghost predicate Coherent() {
      members == Inverse(whereIs)
    }

    function Joined(s: SessionId, c: ChannelId): Index {
      var without := if s in whereIs then Without(members, whereIs[s], s) else members;
      var there := if c in without then without[c] else {};
      Index(without[c := there + {s}], whereIs[s := c])
    }

    /** Nobody is in `c` any more. */
    function Emptied(c: ChannelId): Index {
      Index(members - {c}, map s | s in whereIs && whereIs[s] != c :: whereIs[s])
    }

    function Left(s: SessionId): Index {
      if s in whereIs then Index(Without(members, whereIs[s], s), whereIs - {s}) else this
    }
  }

  const EMPTY_INDEX := Index(map[], map[])

  /** Removing a member also removes a set that becomes empty. */
  function Without(members: map<ChannelId, set<SessionId>>, c: ChannelId, s: SessionId): map<ChannelId, set<SessionId>> {
    if c !in members then members
    else if members[c] - {s} == {} then members - {c}
    else members[c := members[c] - {s}]
  }

  ghost function Inverse(whereIs: map<SessionId, ChannelId>): map<ChannelId, set<SessionId>> {
    map c | c in whereIs.Values :: set s | s in whereIs && whereIs[s] == c
  }

  /** What coherence means pointwise. */
  lemma CoherentMeaning(ix: Index)
    ensures ix.Coherent() <==>
            && (forall c :: c in ix.members ==> ix.members[c] != {})
            && (forall s, c :: s in ix.Occupants(c) <==> s in ix.whereIs && ix.whereIs[s] == c)
  {
    if ix.Coherent() {
      forall c | c in ix.members ensures ix.members[c] != {} {
        var s :| s in ix.whereIs && ix.whereIs[s] == c;
        assert s in ix.members[c];
      }
      forall s, c ensures s in ix.Occupants(c) <==> s in ix.whereIs && ix.whereIs[s] == c {
        if s in ix.whereIs && ix.whereIs[s] == c {
          assert c in ix.whereIs.Values;
        }
      }
    }
    if (forall c :: c in ix.members ==> ix.members[c] != {}) &&
       (forall s, c :: s in ix.Occupants(c) <==> s in ix.whereIs && ix.whereIs[s] == c) {
      var inv := Inverse(ix.whereIs);
      forall c ensures c in ix.members <==> c in inv {
        if c in ix.members {
          var s :| s in ix.members[c];
          assert s in ix.Occupants(c);
          assert ix.whereIs[s] in ix.whereIs.Values;
        }
        if c in inv {
          var s :| s in ix.whereIs && ix.whereIs[s] == c;
          assert s in ix.Occupants(c);
        }
      }
      forall c | c in inv ensures ix.members[c] == inv[c] {
        forall s ensures s in ix.members[c] <==> s in inv[c] {
          assert s in ix.Occupants(c) <==> s in ix.whereIs && ix.whereIs[s] == c;
        }
      }
      assert ix.members == inv;
    }
  }

  /** Joining a coherent index moves exactly one session: the membership half of the
      result is the inverse of the updated location map. */
  lemma JoinedIsOneMove(ix: Index, s: SessionId, c: ChannelId)
    requires ix.Coherent()
    ensures ix.Joined(s, c).Coherent()
    ensures ix.Joined(s, c).whereIs == ix.whereIs[s := c]
    ensures forall d :: ix.Joined(s, c).Occupants(d) == if d == c then ix.Occupants(d) + {s} else ix.Occupants(d) - {s}
  {
    hide Inverse;
    CoherentMeaning(ix);
    JoinedOccupants(ix, s, c);
    CoherentMeaning(ix.Joined(s, c));
  }

  lemma JoinedOccupants(ix: Index, s: SessionId, c: ChannelId)
    requires forall d :: d in ix.members ==> ix.members[d] != {}
    requires forall t, d :: t in ix.Occupants(d) <==> t in ix.whereIs && ix.whereIs[t] == d
    ensures forall d :: d in ix.Joined(s, c).members ==> ix.Joined(s, c).members[d] != {}
    ensures forall d :: ix.Joined(s, c).Occupants(d) == if d == c then ix.Occupants(d) + {s} else ix.Occupants(d) - {s}
  {
    if s in ix.whereIs {
      assert s in ix.Occupants(ix.whereIs[s]);
    }
  }

  /** Leaving a coherent index forgets exactly one session. */
  lemma LeftIsOneRemoval(ix: Index, s: SessionId)
    requires ix.Coherent()
    ensures ix.Left(s).Coherent()
    ensures ix.Left(s).whereIs == ix.whereIs - {s}
    ensures forall d :: ix.Left(s).Occupants(d) == ix.Occupants(d) - {s}
  {
    CoherentMeaning(ix);
    CoherentMeaning(ix.Left(s));
  }

  /** What the class needs of the two lemmas above. */
  lemma StepsKeepCoherence(ix: Index, s: SessionId, c: ChannelId)
    requires ix.Coherent()
    ensures ix.Joined(s, c).Coherent() && ix.Left(s).Coherent()
  {
    JoinedIsOneMove(ix, s, c);
    LeftIsOneRemoval(ix, s);
  }

  /** Joining and leaving again undoes the join, up to the session's earlier place. */
  lemma LeaveUndoesJoin(ix: Index, s: SessionId, c: ChannelId)
    requires ix.Coherent()
    ensures ix.Joined(s, c).Left(s) == ix.Left(s)
    ensures s !in ix.whereIs ==> ix.Joined(s, c).Left(s) == ix
    ensures s in ix.whereIs ==> ix.Left(s).Joined(s, ix.whereIs[s]) == ix
  {
    JoinedIsOneMove(ix, s, c);
    LeftIsOneRemoval(ix.Joined(s, c), s);
    LeftIsOneRemoval(ix, s);
    assert ix.whereIs[s := c] - {s} == ix.whereIs - {s};
    if s in ix.whereIs {
      JoinedIsOneMove(ix.Left(s), s, ix.whereIs[s]);
      assert (ix.whereIs - {s})[s := ix.whereIs[s]] == ix.whereIs;
    }
  }

  lemma EmptiedIsCoherent(ix: Index, c: ChannelId)
    requires ix.Coherent()
    ensures ix.Emptied(c).Coherent()
    ensures forall d :: ix.Emptied(c).Occupants(d) == if d == c then {} else ix.Occupants(d)
  {
    CoherentMeaning(ix);
    CoherentMeaning(ix.Emptied(c));
  }

  function LeftAll(ix: Index, sids: seq<SessionId>): Index {
    if sids == [] then ix else LeftAll(ix, sids[..|sids| - 1]).Left(sids[|sids| - 1])
  }

  /** Removing a channel's occupants one by one, in any order, empties the channel. */
  lemma {:induction false} LeftAllEmpties(ix: Index, c: ChannelId, sids: seq<SessionId>)
    requires ix.Coherent() && Elements(sids) == ix.Occupants(c)
    ensures LeftAll(ix, sids) == ix.Emptied(c)
  {
    LeftAllRemoves(ix, sids);
    CoherentMeaning(ix);
    EmptiedIsCoherent(ix, c);
    assert LeftAll(ix, sids).whereIs == ix.Emptied(c).whereIs;
  }

  lemma {:induction false} LeftAllRemoves(ix: Index, sids: seq<SessionId>)
    requires ix.Coherent()
    ensures LeftAll(ix, sids).Coherent() && LeftAll(ix, sids).whereIs == ix.whereIs - Elements(sids)
  {
    if sids != [] {
      var init, s := sids[..|sids| - 1], sids[|sids| - 1];
      LeftAllRemoves(ix, init);
      LeftIsOneRemoval(LeftAll(ix, init), s);
      assert sids == init + [s];
      assert Elements(sids) == Elements(init) + {s};
    }
  }

  class ChannelManager {
    var members: map<ChannelId, set<SessionId>>
    var sessionToChannel: map<SessionId, ChannelId>

    ghost function View(): Index
      reads this
    {
      Index(members, sessionToChannel)
    }

    constructor ()
      ensures View() == EMPTY_INDEX
    {
      members, sessionToChannel := map[], map[];
    }

    /** Adds a session to a channel, removing it from any previous one. */
    method Join(sessionID: SessionId, channelID: ChannelId) returns (prevChannelID: ChannelId)
      modifies this
      ensures View() == old(View()).Joined(sessionID, channelID)
      ensures prevChannelID == old(View()).ChannelOf(sessionID)
    {
      prevChannelID := 0;
      if sessionID in sessionToChannel {
        var current := sessionToChannel[sessionID];
        if current in members {
          members := members[current := members[current] - {sessionID}];
          if members[current] == {} {
            members := members - {current};
          }
        }
        prevChannelID := current;
      }
      assert members == if sessionID in old(sessionToChannel)
                        then Without(old(members), old(sessionToChannel)[sessionID], sessionID) else old(members);
      if channelID !in members {
        members := members[channelID := {}];
      }
      members := members[channelID := members[channelID] + {sessionID}];
      sessionToChannel := sessionToChannel[sessionID := channelID];
    }

    /** Removes a session from its current channel, which is returned (0 for none). */
    method Leave(sessionID: SessionId) returns (channelID: ChannelId)
      modifies this
      ensures View() == old(View()).Left(sessionID)
      ensures channelID == old(View()).ChannelOf(sessionID)
    {
      if sessionID !in sessionToChannel {
        return 0;
      }
      channelID := sessionToChannel[sessionID];
      sessionToChannel := sessionToChannel - {sessionID};
      if channelID in members {
        members := members[channelID := members[channelID] - {sessionID}];
        if members[channelID] == {} {
          members := members - {channelID};
        }
      }
      assert members == Without(old(members), channelID, sessionID);
    }

    /** Every occupant exactly once; the order is that of a Go map, so it is unspecified. */
    method Members(channelID: ChannelId) returns (result: seq<SessionId>)
      ensures NoDuplicates(result)
      ensures Elements(result) == View().Occupants(channelID)
    {
      var sessions := if channelID in members then members[channelID] else {};
      result := [];
      while sessions != {}
        invariant NoDuplicates(result)
        invariant Elements(result) !! sessions
        invariant Elements(result) + sessions == View().Occupants(channelID)
        decreases sessions
      {
        var sid :| sid in sessions;
        result := result + [sid];
        sessions := sessions - {sid};
      }
    }

    method ChannelOf(sessionID: SessionId) returns (channelID: ChannelId)
      ensures channelID == View().ChannelOf(sessionID)
    {
      channelID := if sessionID in sessionToChannel then sessionToChannel[sessionID] else 0;
    }

    method MembersCount(channelID: ChannelId) returns (count: nat)
      ensures count == |View().Occupants(channelID)|
    {
      count := if channelID in members then |members[channelID]| else 0;
    }
  }
}
