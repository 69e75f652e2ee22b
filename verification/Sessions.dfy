/** Live sessions (pkg/server/session.go): a map from session id to a heap record whose
    fields are updated in place. */
module Sessions {
  import opened Prelude

  type SessionId = uint32

  datatype UDPAddr = UDPAddr(ip: Bytes, port: int)

  /** An IPv4 address may be stored in 4 bytes or in its 16-byte mapped form. */
  function CanonicalIP(ip: Bytes): Bytes {
    if |ip| == 16 && ip[..12] == [0, 0, 0, 0, 0, 0, 0, 0, 0, 0, 255, 255] then ip[12..] else ip
  }

  predicate SameSource(a: UDPAddr, b: UDPAddr) {
    CanonicalIP(a.ip) == CanonicalIP(b.ip) && a.port == b.port
  }

  /** The mapped form of an IPv4 address: ten zero bytes, two bytes 255, the address. */
  predicate Mapped(ip: Bytes, ip4: Bytes) {
    |ip4| == 4 && |ip| == 16 && (forall i :: 0 <= i < 10 ==> ip[i] == 0) && ip[10] == ip[11] == 255 && ip[12..] == ip4
  }

  /** Two addresses are the same source exactly if their ports are equal and their IP addresses are, or one is
      the mapped form of the other. */
  lemma SameSourceIff(a: UDPAddr, b: UDPAddr)
    ensures SameSource(a, b) <==> a.port == b.port && (a.ip == b.ip || Mapped(a.ip, b.ip) || Mapped(b.ip, a.ip))
  {
    MappedIff(a.ip);
    MappedIff(b.ip);
    if CanonicalIP(a.ip) == CanonicalIP(b.ip) && CanonicalIP(a.ip) != a.ip && CanonicalIP(b.ip) != b.ip {
      SameMapped(a.ip, b.ip);
    }
  }

  lemma MappedIff(ip: Bytes)
    ensures CanonicalIP(ip) == ip || Mapped(ip, CanonicalIP(ip))
    ensures forall ip4 :: Mapped(ip, ip4) ==> CanonicalIP(ip) == ip4 && CanonicalIP(ip4) == ip4
  {
    var p := [0, 0, 0, 0, 0, 0, 0, 0, 0, 0, 255, 255];
    if ip4 :| Mapped(ip, ip4) {
      assert ip[..12] == p;
    }
    if |ip| == 16 && ip[..12] == p {
      assert forall i :: 0 <= i < 12 ==> ip[i] == p[i];
    }
  }

  lemma SameMapped(a: Bytes, b: Bytes)
    requires |a| == |b| == 16 && a[..12] == b[..12] && a[12..] == b[12..]
    ensures a == b
  {
    assert a == a[..12] + a[12..] && b == b[..12] + b[12..];
  }

  /** The fields of one session, as a snapshot returns them. */
  datatype Snapshot = Snapshot(userID: int, channelID: int, udpAddr: Option<UDPAddr>, muted: bool, deafened: bool)

  type SessionTable = map<SessionId, Snapshot>

  function NewSession(userID: int): Snapshot {
    Snapshot(userID, 0, None, false, false)
  }

  function WithChannel(t: SessionTable, id: SessionId, channelID: int): SessionTable {
    if id in t then t[id := t[id].(channelID := channelID)] else t
  }

  function WithAddr(t: SessionTable, id: SessionId, addr: UDPAddr): SessionTable {
    if id in t then t[id := t[id].(udpAddr := Some(addr))] else t
  }

  function WithState(t: SessionTable, id: SessionId, muted: bool, deafened: bool): SessionTable {
    if id in t then t[id := t[id].(muted := muted, deafened := deafened)] else t
  }

  class Session {
    const id: SessionId
    const userID: int
    var channelID: int
    var udpAddr: Option<UDPAddr>
    var muted: bool
    var deafened: bool

    constructor (id: SessionId, userID: int)
      ensures this.id == id && Fields() == NewSession(userID)
    {
      this.id, this.userID := id, userID;
      channelID, udpAddr, muted, deafened := 0, None, false, false;
    }

    function Fields(): Snapshot
      reads this
    {
      Snapshot(userID, channelID, udpAddr, muted, deafened)
    }
  }

  class SessionManager {
    var sessions: map<SessionId, Session>

    /** Records are filed under their own id, so no record is filed twice. */
    ghost predicate Valid()
      reads this, sessions.Values
    {
      forall id :: id in sessions ==> sessions[id].id == id
    }

    ghost function View(): SessionTable
      reads this, sessions.Values
    {
      map id | id in sessions :: sessions[id].Fields()
    }

    constructor ()
      ensures Valid() && View() == map[]
    {
      sessions := map[];
    }

    /** Draws ids until one is nonzero and unused. `draws` is what the random source
        yields; `None` means that all of them were used up without success, where the
        source would keep drawing. */
    method Create(userID: int, draws: seq<SessionId>) returns (r: Option<SessionId>)
      requires Valid()
      modifies this
      ensures Valid() && fresh(sessions.Values - old(sessions.Values))
      ensures r.None? ==> View() == old(View()) && forall i :: 0 <= i < |draws| ==> draws[i] == 0 || draws[i] in old(View())
      ensures r.Some? ==> r.value != 0 && r.value !in old(View())
      ensures r.Some? ==> exists i :: 0 <= i < |draws| && draws[i] == r.value && forall j :: 0 <= j < i ==> draws[j] == 0 || draws[j] in old(View())
      ensures r.Some? ==> View() == old(View())[r.value := NewSession(userID)]
      ensures r.Some? ==> View()[r.value] == Snapshot(userID, 0, None, false, false)
    {
      var i := 0;
      while i < |draws| && (draws[i] == 0 || draws[i] in sessions)
        invariant 0 <= i <= |draws|
        invariant forall j :: 0 <= j < i ==> draws[j] == 0 || draws[j] in sessions
      {
        i := i + 1;
      }
      if i == |draws| {
        return None;
      }
      var session := new Session(draws[i], userID);
      sessions := sessions[draws[i] := session];
      r := Some(draws[i]);
    }

    method GetSnapshot(id: SessionId) returns (r: Option<Snapshot>)
      ensures r == if id in View() then Some(View()[id]) else None
    {
      r := if id in sessions then Some(sessions[id].Fields()) else None;
    }

    method Remove(id: SessionId)
      requires Valid()
      modifies this
      ensures Valid() && sessions.Values <= old(sessions.Values)
      ensures View() == old(View()) - {id}
    {
      sessions := sessions - {id};
    }

    method SetUDPAddr(id: SessionId, addr: UDPAddr)
      requires Valid()
      modifies sessions.Values
      ensures Valid() && View() == WithAddr(old(View()), id, addr)
      ensures id in View() ==> View()[id] == old(View())[id].(udpAddr := Some(addr))
    {
      if id in sessions {
        sessions[id].udpAddr := Some(addr);
      }
    }

    method UpdateUserState(id: SessionId, muted: bool, deafened: bool)
      requires Valid()
      modifies sessions.Values
      ensures Valid() && View() == WithState(old(View()), id, muted, deafened)
      ensures id in View() ==> View()[id].muted == muted && View()[id].deafened == deafened
    {
      if id in sessions {
        sessions[id].muted := muted;
        sessions[id].deafened := deafened;
      }
    }

    method SetChannel(id: SessionId, channelID: int)
      requires Valid()
      modifies sessions.Values
      ensures Valid() && View() == WithChannel(old(View()), id, channelID)
      ensures id in View() ==> View()[id].channelID == channelID
    {
      if id in sessions {
        sessions[id].channelID := channelID;
      }
    }
  }
}
