/** Channel records and the channel half of the in-memory store
    (pkg/model/model.go, pkg/store/memory.go). */
module Store {
  import opened Prelude

  const MAX_CHANNEL_NAME_LENGTH := 64
  const MAX_CHANNEL_DESC_LENGTH := 256
  const MAX_CHANNEL_USERS := 256

  datatype Channel = Channel(
    id: int, name: string, description: string, maxUsers: int, parentID: int, isTemp: bool, allowSubChannels: bool)

  datatype ChannelError = NameEmpty | NameTooLong | DescTooLong | MaxUsersOutOfRange | ParentOutOfRange

  /** Unicode white space, as `strings.TrimSpace` strips it. */
  predicate IsSpace(c: char) {
    c in "\t\n\r " || c as int in {0x0B, 0x0C, 0x85, 0xA0, 0x1680, 0x2028, 0x2029, 0x202F, 0x205F, 0x3000}
    || 0x2000 <= c as int <= 0x200A
  }

  /** `Channel.Validate`: the first rule that is broken, if any. */
  function Validate(ch: Channel): Option<ChannelError> {
    if forall i :: 0 <= i < |ch.name| ==> IsSpace(ch.name[i]) then Some(NameEmpty)
    else if |ch.name| > MAX_CHANNEL_NAME_LENGTH then Some(NameTooLong)
    else if |ch.description| > MAX_CHANNEL_DESC_LENGTH then Some(DescTooLong)
    else if ch.maxUsers < 0 || ch.maxUsers > MAX_CHANNEL_USERS then Some(MaxUsersOutOfRange)
    else if ch.parentID < 0 then Some(ParentOutOfRange)
    else None
  }

  /** The characters that are white space, by code point. */
  lemma SpaceIs(c: char)
    ensures IsSpace(c) <==> var n := c as int;
              9 <= n <= 13 || n == 0x20 || n == 0x85 || n == 0xA0 || n == 0x1680 || 0x2000 <= n <= 0x200A || 0x2028 <= n <= 0x2029 || n == 0x202F || n == 0x205F || n == 0x3000
  {
  }

  /** A name that is empty or all white space. */
  predicate Blank(name: string) {
    forall i :: 0 <= i < |name| ==> IsSpace(name[i])
  }

  /** The rules in numbers: a name of at most 64 characters that is not blank, a description of at most 256,
      0 to 256 users, a parent that is not negative. The first broken rule is reported. */
  lemma ValidateIs(ch: Channel)
    ensures Validate(ch) == Some(NameEmpty) <==> Blank(ch.name)
    ensures Validate(ch) == Some(NameTooLong) <==> !Blank(ch.name) && |ch.name| > 64
    ensures Validate(ch) == Some(DescTooLong) <==> !Blank(ch.name) && |ch.name| <= 64 < 256 < |ch.description|
    ensures Validate(ch) == Some(MaxUsersOutOfRange) <==>
              !Blank(ch.name) && |ch.name| <= 64 && |ch.description| <= 256 && !(0 <= ch.maxUsers <= 256)
    ensures Validate(ch) == Some(ParentOutOfRange) <==>
              !Blank(ch.name) && |ch.name| <= 64 && |ch.description| <= 256 && 0 <= ch.maxUsers <= 256 && ch.parentID < 0
    ensures Validate(ch).None? <==> !Blank(ch.name) && |ch.name| <= 64 && |ch.description| <= 256 && 0 <= ch.maxUsers <= 256 && ch.parentID >= 0
  {
  }

  /** The channels of a store and the id the next one will get. */
  datatype Table = Table(rows: map<int, Channel>, next: int) {
    ghost predicate WellFormed() {
      1 <= next && forall id :: id in rows ==> rows[id].id == id && 1 <= id < next
    }

    predicate Matches(id: int, name: string, parentID: int) {
      id in rows && rows[id].name == name && rows[id].parentID == parentID
    }

    /** No two channels share a name under one parent. The store does not enforce it. */
    ghost predicate UniqueNames() {
      forall i, j :: i in rows && j in rows && rows[i].name == rows[j].name && rows[i].parentID == rows[j].parentID ==> i == j
    }

    /** The id under which a channel of this name and parent is found. */
    ghost function Find(name: string, parentID: int): (r: Option<int>)
      ensures r.Some? ==> Matches(r.value, name, parentID)
      ensures r.None? ==> forall id :: !Matches(id, name, parentID)
    {
      if id :| Matches(id, name, parentID) then Some(id) else None
    }

    function Added(ch: Channel): Table {
      Table(rows[next := ch.(id := next)], next + 1)
    }

    function Dropped(id: int): Table {
      Table(rows - {id}, next)
    }

    /** Grown by channels that are new, valid and permanent; nothing else changed. */
    ghost predicate GrownTo(t: Table) {
      && next <= t.next
      && rows.Keys <= t.rows.Keys
      && (forall id :: next <= id < t.next ==> id in t.rows)
      && (forall id :: id in rows ==> t.rows[id] == rows[id])
      && (forall id :: id in t.rows && id !in rows ==> next <= id < t.next && t.rows[id].id == id && !t.rows[id].isTemp && Validate(t.rows[id]).None?)
    }
  }

  const EMPTY_TABLE := Table(map[], 1)

  /** Listing order: by parent, then by id. */
  predicate Before(a: Channel, b: Channel) {
    a.parentID < b.parentID || (a.parentID == b.parentID && a.id < b.id)
  }

  ghost predicate Sorted(l: seq<Channel>) {
    forall i, j :: 0 <= i < j < |l| ==> Before(l[i], l[j])
  }

  /** `l` is what `ListChannels` returns for these rows. */
  ghost predicate IsListing(rows: map<int, Channel>, l: seq<Channel>) {
    Sorted(l) && forall c :: c in l <==> c.id in rows && rows[c.id] == c
  }

  lemma TailMembers(l: seq<Channel>, c: Channel)
    requires Sorted(l) && l != []
    ensures c in l[1..] <==> c in l && c != l[0]
  {
    assert l == [l[0]] + l[1..];
    if c in l[1..] {
      var i :| 0 <= i < |l[1..]| && l[1..][i] == c;
      assert Before(l[0], l[i + 1]);
    }
  }

  /** There is only one listing, whatever order the map was walked in. */
  lemma {:induction false} SortedUnique(a: seq<Channel>, b: seq<Channel>)
    requires Sorted(a) && Sorted(b)
    requires forall c :: c in a <==> c in b
    ensures a == b
  {
    if a == [] {
      HasMember(b);
    } else {
      assert a[0] in b;
      assert b[0] in a;
      assert a[0] == b[0];
      forall c ensures c in a[1..] <==> c in b[1..] {
        TailMembers(a, c);
        TailMembers(b, c);
      }
      SortedUnique(a[1..], b[1..]);
    }
  }

  lemma ListingUnique(rows: map<int, Channel>, a: seq<Channel>, b: seq<Channel>)
    requires IsListing(rows, a) && IsListing(rows, b)
    ensures a == b
  {
    SortedUnique(a, b);
  }

  lemma ListingIdsDistinct(rows: map<int, Channel>, l: seq<Channel>, i: nat, j: nat)
    requires IsListing(rows, l) && i < |l| && j < |l| && l[i].id == l[j].id
    ensures i == j
  {
    assert l[i] in l && l[j] in l;
    assert l[i] == l[j];
  }

  lemma Placed(l: seq<Channel>, c: Channel, i: nat)
    requires Sorted(l) && i <= |l|
    requires forall j :: 0 <= j < i ==> Before(l[j], c)
    requires forall j :: i <= j < |l| ==> Before(c, l[j])
    ensures Sorted(l[..i] + [c] + l[i..])
    ensures forall x :: x in l[..i] + [c] + l[i..] <==> x in l || x == c
  {
    hide Before;
    assert l == l[..i] + l[i..];
  }

  /** Puts one more channel in its place in a sorted list. */
  method InsertSorted(l: seq<Channel>, c: Channel) returns (r: seq<Channel>)
    requires Sorted(l)
    requires forall x :: x in l ==> x.id != c.id
    ensures Sorted(r)
    ensures forall x :: x in r <==> x in l || x == c
  {
    var i := |l|;
    while i > 0 && Before(c, l[i - 1])
      invariant 0 <= i <= |l|
      invariant forall j :: i <= j < |l| ==> Before(c, l[j])
    {
      i := i - 1;
    }
    if i > 0 {
      assert l[i - 1] in l;
    }
    Placed(l, c, i);
    r := l[..i] + [c] + l[i..];
  }

  class MemoryStore {
    var channelsByID: map<int, Channel>
    var nextChannelID: int

    ghost function View(): Table
      reads this
    {
      Table(channelsByID, nextChannelID)
    }

    constructor ()
      ensures View() == EMPTY_TABLE && View().WellFormed() && View().UniqueNames()
    {
      channelsByID, nextChannelID := map[], 1;
    }

    /** A valid channel gets the next id, an invalid one changes nothing. */
    method CreateChannel(channel: Channel) returns (id: int, err: Option<ChannelError>)
      modifies this
      ensures err == Validate(channel)
      ensures err.Some? ==> View() == old(View()) && id == channel.id
      ensures err.None? ==> View() == old(View()).Added(channel) && id == old(View()).next
      ensures err.None? ==> View().next == id + 1 && View().rows == old(View()).rows[id := channel.(id := id)]
      ensures old(View()).WellFormed() ==> View().WellFormed()
    {
      err := Validate(channel);
      if err.Some? {
        return channel.id, err;
      }
      id := nextChannelID;
      nextChannelID := nextChannelID + 1;
      channelsByID := channelsByID[id := channel.(id := id)];
    }

    method DeleteChannel(id: int)
      modifies this
      ensures View() == old(View()).Dropped(id)
      ensures View().next == old(View()).next && View().rows == old(View()).rows - {id}
      ensures old(View()).WellFormed() ==> View().WellFormed()
    {
      channelsByID := channelsByID - {id};
    }

    method ListChannels() returns (channels: seq<Channel>)
      requires View().WellFormed()
      ensures IsListing(View().rows, channels)
      ensures forall c :: c in channels <==> c.id in View().rows && View().rows[c.id] == c
      ensures forall i, j :: 0 <= i < j < |channels| ==>
                channels[i].parentID < channels[j].parentID || (channels[i].parentID == channels[j].parentID && channels[i].id < channels[j].id)
    {
      channels := [];
      var rest := channelsByID.Keys;
      while rest != {}
        invariant rest <= channelsByID.Keys
        invariant Sorted(channels)
        invariant forall c :: c in channels <==> c.id in channelsByID && c.id !in rest && channelsByID[c.id] == c
        decreases rest
      {
        HasElement(rest);
        var id :| id in rest;
        channels := InsertSorted(channels, channelsByID[id]);
        rest := rest - {id};
      }
    }

    method GetChannel(id: int) returns (r: Option<Channel>)
      ensures r == if id in View().rows then Some(View().rows[id]) else None
    {
      r := if id in channelsByID then Some(channelsByID[id]) else None;
    }

    /** Some match, if there is one; with several matches the choice is not determined. */
    method GetChannelByNameAndParent(name: string, parentID: int) returns (r: Option<Channel>)
      requires View().WellFormed()
      ensures r.Some? ==> View().Matches(r.value.id, name, parentID)
      ensures r.None? <==> forall id :: !View().Matches(id, name, parentID)
      ensures View().UniqueNames() ==> (r.Some? <==> View().Find(name, parentID).Some?) && (r.Some? ==> View().Find(name, parentID) == Some(r.value.id))
    {
      r := None;
      var rest := channelsByID.Keys;
      while rest != {}
        invariant rest <= channelsByID.Keys
        invariant forall id :: id in channelsByID && id !in rest ==> !View().Matches(id, name, parentID)
        decreases rest
      {
        HasElement(rest);
        var id :| id in rest;
        if channelsByID[id].name == name && channelsByID[id].parentID == parentID {
          assert View().Matches(id, name, parentID);
          return Some(channelsByID[id]);
        }
        rest := rest - {id};
      }
    }
  }
}
