/** The client's channel list: channels and their users in display order (ui/app.go:749-780). */
module Flatten {
  import opened Prelude
  import opened TreeWalk

  datatype UserInfo = UserInfo(id: int, username: string)
  datatype ChannelInfo = ChannelInfo(id: int, name: string, parentID: int, users: seq<UserInfo>)
  datatype FlatItem =
    | ChannelItem(channel: ChannelInfo, depth: nat)
    | UserItem(user: UserInfo, channelID: int, depth: nat)

  function LinksOf(chs: seq<ChannelInfo>): seq<Link> {
    seq(|chs|, i requires 0 <= i < |chs| => Link(chs[i].id, chs[i].parentID, true))
  }

  function UserItems(us: seq<UserInfo>, c: int, d: nat): seq<FlatItem> {
    if us == [] then [] else [UserItem(us[0], c, d)] + UserItems(us[1..], c, d)
  }

  /** A channel's heading and its users. */
  function Block(ch: ChannelInfo, d: nat): seq<FlatItem> {
    [ChannelItem(ch, d)] + UserItems(ch.users, ch.id, d)
  }

  /** The blocks of the visited channels, one after the other. */
  ghost function Lines(chs: seq<ChannelInfo>, w: seq<Visit>): seq<FlatItem> {
    if w == [] then []
    else (if w[0].pos < |chs| then Block(chs[w[0].pos], w[0].depth) else []) + Lines(chs, w[1..])
  }

  lemma {:induction false} LinesAppend(chs: seq<ChannelInfo>, v: seq<Visit>, w: seq<Visit>)
    ensures Lines(chs, v + w) == Lines(chs, v) + Lines(chs, w)
  {
    if v == [] {
      assert v + w == w;
    } else {
      assert (v + w)[1..] == v[1..] + w;
      LinesAppend(chs, v[1..], w);
    }
  }

  lemma NoLines(chs: seq<ChannelInfo>)
    ensures Lines(chs, []) == []
  {
  }

  function Children(chs: seq<ChannelInfo>, p: int): seq<ChannelInfo> {
    if chs == [] then []
    else if chs[0].parentID == p then [chs[0]] + Children(chs[1..], p)
    else Children(chs[1..], p)
  }

  lemma NoChildren(p: int)
    ensures Children([], p) == []
  {
  }

  lemma {:induction false} ChildrenAppend(a: seq<ChannelInfo>, b: seq<ChannelInfo>, p: int)
    ensures Children(a + b, p) == Children(a, p) + Children(b, p)
  {
    if a == [] {
      assert a + b == b;
    } else {
      assert (a + b)[1..] == a[1..] + b;
      ChildrenAppend(a[1..], b, p);
    }
  }

  lemma ChildrenSnoc(chs: seq<ChannelInfo>, i: nat, p: int)
    requires i < |chs|
    ensures Children(chs[..i + 1], p) == Children(chs[..i], p) + (if chs[i].parentID == p then [chs[i]] else [])
  {
    assert chs[..i + 1] == chs[..i] + [chs[i]];
    ChildrenAppend(chs[..i], [chs[i]], p);
  }

  lemma {:induction false} NoMoreLines(chs: seq<ChannelInfo>, p: int, d: nat, from: nat)
    requires Distinct(LinksOf(chs)) && AtDepth(LinksOf(chs), p, d) && from <= |chs|
    requires Children(chs[from..], p) == []
    ensures Walk(LinksOf(chs), p, d, from) == []
    decreases |chs| - from
  {
    if from < |chs| {
      assert chs[from..][1..] == chs[from + 1..];
      NoMoreLines(chs, p, d, from + 1);
    }
  }

  lemma LinesOfVisit(chs: seq<ChannelInfo>, k: nat, d: nat, sub: seq<Visit>, tail: seq<Visit>)
    requires k < |chs|
    ensures Lines(chs, [Visit(k, d)] + sub + tail) == Block(chs[k], d) + Lines(chs, sub) + Lines(chs, tail)
  {
    LinesAppend(chs, [Visit(k, d)], sub);
    LinesAppend(chs, [Visit(k, d)] + sub, tail);
    assert Lines(chs, [Visit(k, d)]) == Block(chs[k], d);
  }

  /** The lines from position `from` on are the block of the next child, what hangs below it, and the rest. */
  lemma {:induction false} NextChild(chs: seq<ChannelInfo>, p: int, d: nat, from: nat) returns (k: nat)
    requires Distinct(LinksOf(chs)) && AtDepth(LinksOf(chs), p, d) && from <= |chs|
    requires Children(chs[from..], p) != []
    ensures from <= k < |chs| && chs[k] == Children(chs[from..], p)[0] && Children(chs[k + 1..], p) == Children(chs[from..], p)[1..]
    ensures AtDepth(LinksOf(chs), chs[k].id, d + 1) && d + 1 <= |chs|
    ensures Lines(chs, Walk(LinksOf(chs), p, d, from))
            == Block(chs[k], d) + Lines(chs, Walk(LinksOf(chs), chs[k].id, d + 1, 0)) + Lines(chs, Walk(LinksOf(chs), p, d, k + 1))
    decreases |chs| - from
  {
    hide AtDepth, Distinct, Lines, Block;
    var l := LinksOf(chs);
    assert chs[from..][1..] == chs[from + 1..];
    if chs[from].parentID == p {
      ChildDepth(l, from, d);
      k := from;
      LinesOfVisit(chs, k, d, Walk(l, chs[k].id, d + 1, 0), Walk(l, p, d, k + 1));
    } else {
      k := NextChild(chs, p, d, from + 1);
    }
  }

  /** The walk's state: the captured variables of the recursive closure. */
  class Flattener {
    const channels: seq<ChannelInfo>
    var childMap: map<int, seq<ChannelInfo>>
    var items: seq<FlatItem>

    constructor (channels: seq<ChannelInfo>)
      ensures this.channels == channels && items == [] && childMap == map[]
    {
      this.channels := channels;
      childMap, items := map[], [];
    }

    ghost predicate Grouped()
      reads this
    {
      forall p :: (if p in childMap then childMap[p] else []) == Children(channels, p)
    }

    method Group()
      requires childMap == map[]
      modifies this`childMap
      ensures Grouped()
    {
      hide Children;
      forall p ensures Children(channels[..0], p) == [] {
        NoChildren(p);
      }
      for i := 0 to |channels|
        invariant forall p :: (if p in childMap then childMap[p] else []) == Children(channels[..i], p)
      {
        var ch := channels[i];
        forall p ensures Children(channels[..i + 1], p) == Children(channels[..i], p) + (if ch.parentID == p then [ch] else []) {
          ChildrenSnoc(channels, i, p);
        }
        var sofar := if ch.parentID in childMap then childMap[ch.parentID] else [];
        childMap := childMap[ch.parentID := sofar + [ch]];
      }
      assert channels[..|channels|] == channels;
    }

    method AppendUsers(ch: ChannelInfo, depth: nat)
      modifies this`items
      ensures items == old(items) + UserItems(ch.users, ch.id, depth)
    {
      for j := 0 to |ch.users|
        invariant items + UserItems(ch.users[j..], ch.id, depth) == old(items) + UserItems(ch.users, ch.id, depth)
      {
        assert ch.users[j..][1..] == ch.users[j + 1..];
        items := items + [UserItem(ch.users[j], ch.id, depth)];
      }
    }

    /** Appends the lines of everything below `parentID`, a channel of depth `depth`. It ends for every
        channel list with distinct nonzero ids, although the list may contain cycles. */
    method Flatten(parentID: int, depth: nat)
      requires Distinct(LinksOf(channels)) && AtDepth(LinksOf(channels), parentID, depth) && Grouped()
      modifies this`items
      ensures items == old(items) + Lines(channels, Walk(LinksOf(channels), parentID, depth, 0))
      decreases |channels| - depth
    {
      hide AtDepth, Distinct, Walk, Children, Lines, UserItems;
      ghost var l := LinksOf(channels);
      DepthBound(l, parentID, depth);
      var kids := if parentID in childMap then childMap[parentID] else [];
      ghost var from: nat := 0;
      assert channels[0..] == channels;
      for i := 0 to |kids|
        invariant from <= |channels| && Children(channels[from..], parentID) == kids[i..]
        invariant items + Lines(channels, Walk(l, parentID, depth, from)) == old(items) + Lines(channels, Walk(l, parentID, depth, 0))
      {
        var ch := kids[i];
        ghost var k := NextChild(channels, parentID, depth, from);
        items := items + [ChannelItem(ch, depth)];
        AppendUsers(ch, depth);
        Flatten(ch.id, depth + 1);
        assert kids[i..][1..] == kids[i + 1..];
        from := k + 1;
      }
      NoMoreLines(channels, parentID, depth, from);
      NoLines(channels);
    }
  }

  method FlattenChannels(channels: seq<ChannelInfo>) returns (items: seq<FlatItem>)
    requires Distinct(LinksOf(channels))
    ensures Headings(items) == Shown(channels) && items == Blocks(Shown(channels))
    ensures LaidOut(items) && |items| == LineCount(Headings(items))
  {
    ShownWithUsers(channels);
    LinesLaidOut(channels, WalkAll(LinksOf(channels)));
    var f := new Flattener(channels);
    f.Group();
    f.Flatten(0, 0);
    items := f.items;
    assert items == Lines(channels, WalkAll(LinksOf(channels)));
  }

  /** The channel headings of a list, in order. */
  function Headings(items: seq<FlatItem>): seq<FlatItem> {
    if items == [] then []
    else (if items[0].ChannelItem? then [items[0]] else []) + Headings(items[1..])
  }

  lemma {:induction false} HeadingsAppend(a: seq<FlatItem>, b: seq<FlatItem>)
    ensures Headings(a + b) == Headings(a) + Headings(b)
  {
    if a == [] {
      assert a + b == b;
    } else {
      assert (a + b)[1..] == a[1..] + b;
      HeadingsAppend(a[1..], b);
    }
  }

  lemma {:induction false} NoHeadings(us: seq<UserInfo>, c: int, d: nat)
    ensures Headings(UserItems(us, c, d)) == []
  {
    if us != [] { NoHeadings(us[1..], c, d); }
  }

  lemma {:induction false} LinesHeadings(chs: seq<ChannelInfo>, w: seq<Visit>)
    requires forall i :: 0 <= i < |w| ==> w[i].pos < |chs|
    ensures |Headings(Lines(chs, w))| == |w|
    ensures forall i :: 0 <= i < |w| ==> Headings(Lines(chs, w))[i] == ChannelItem(chs[w[i].pos], w[i].depth)
  {
    if w != [] {
      var ch := chs[w[0].pos];
      LinesHeadings(chs, w[1..]);
      NoHeadings(ch.users, ch.id, w[0].depth);
      HeadingsAppend([ChannelItem(ch, w[0].depth)], UserItems(ch.users, ch.id, w[0].depth));
      HeadingsAppend(Block(ch, w[0].depth), Lines(chs, w[1..]));
      assert Headings([ChannelItem(ch, w[0].depth)]) == [ChannelItem(ch, w[0].depth)];
    }
  }

  /** The headings the client shows. */
  ghost function Shown(chs: seq<ChannelInfo>): seq<FlatItem>
    requires Distinct(LinksOf(chs))
  {
    Headings(Lines(chs, WalkAll(LinksOf(chs))))
  }

  lemma ShownIsWalk(chs: seq<ChannelInfo>)
    requires Distinct(LinksOf(chs))
    ensures |Shown(chs)| == |WalkAll(LinksOf(chs))|
    ensures forall i :: 0 <= i < |Shown(chs)| ==>
              var v := WalkAll(LinksOf(chs))[i];
              v.pos < |chs| && Shown(chs)[i] == ChannelItem(chs[v.pos], v.depth)
  {
    hide WalkAll, AtDepth, Distinct, Lines, Headings;
    var w := WalkAll(LinksOf(chs));
    forall i | 0 <= i < |w| ensures w[i].pos < |chs| {
      WalkAllVisitsAt(LinksOf(chs), i);
    }
    LinesHeadings(chs, w);
  }

  /** Exactly the channels whose parent chain reaches the root are shown, indented by the number
      of their ancestors. */
  lemma ShownIffRooted(chs: seq<ChannelInfo>, x: FlatItem)
    requires Distinct(LinksOf(chs))
    ensures x in Shown(chs) <==> x.ChannelItem? && x.channel in chs && AtDepth(LinksOf(chs), x.channel.id, x.depth + 1)
  {
    hide WalkAll, AtDepth, Shown, Distinct;
    var l := LinksOf(chs);
    var w := WalkAll(l);
    ShownIsWalk(chs);
    if x in Shown(chs) {
      var i :| 0 <= i < |w| && Shown(chs)[i] == x;
      WalkAllVisitsAt(l, i);
    }
    if x.ChannelItem? && x.channel in chs && AtDepth(l, x.channel.id, x.depth + 1) {
      var i :| 0 <= i < |chs| && chs[i] == x.channel;
      WalkAllVisits(l, Visit(i, x.depth));
      var k :| 0 <= k < |w| && w[k] == Visit(i, x.depth);
      assert Shown(chs)[k] == x;
    }
  }

  /** No channel is shown twice. */
  lemma ShownOnce(chs: seq<ChannelInfo>, i: nat, j: nat)
    requires Distinct(LinksOf(chs)) && i < j < |Shown(chs)|
    ensures Shown(chs)[i].ChannelItem? && Shown(chs)[j].ChannelItem? && Shown(chs)[i].channel.id != Shown(chs)[j].channel.id
  {
    hide WalkAll, AtDepth, Shown;
    var l := LinksOf(chs);
    ShownIsWalk(chs);
    WalkAllOnce(l, i, j);
    var a, b := WalkAll(l)[i].pos, WalkAll(l)[j].pos;
    assert l[a].id != l[b].id;
  }

  /** A channel is shown after its parent and one step further in. */
  lemma ShownAfterParent(chs: seq<ChannelInfo>, i: nat) returns (j: nat)
    requires Distinct(LinksOf(chs)) && i < |Shown(chs)| && Shown(chs)[i].ChannelItem? && Shown(chs)[i].channel.parentID != 0
    ensures j < i && Shown(chs)[j].ChannelItem? && Shown(chs)[j].channel.id == Shown(chs)[i].channel.parentID
            && Shown(chs)[j].depth + 1 == Shown(chs)[i].depth
  {
    hide WalkAll, AtDepth, Shown, Distinct;
    ShownIsWalk(chs);
    j := WalkAllParentFirst(LinksOf(chs), i);
  }

  /** Each heading is followed by its channel's users; nothing else is shown. */
  lemma ShownWithUsers(chs: seq<ChannelInfo>)
    requires Distinct(LinksOf(chs))
    ensures Lines(chs, WalkAll(LinksOf(chs))) == Blocks(Shown(chs))
  {
    hide WalkAll, Shown, Distinct, Lines, Blocks;
    ShownIsWalk(chs);
    LinesAreBlocks(chs, WalkAll(LinksOf(chs)), Shown(chs));
  }

  /** The list a sequence of headings stands for: each heading with its channel's users. */
  function Blocks(h: seq<FlatItem>): seq<FlatItem> {
    if h == [] then []
    else (if h[0].ChannelItem? then Block(h[0].channel, h[0].depth) else []) + Blocks(h[1..])
  }

  lemma {:induction false} LinesAreBlocks(chs: seq<ChannelInfo>, w: seq<Visit>, h: seq<FlatItem>)
    requires |h| == |w| && forall i :: 0 <= i < |w| ==> w[i].pos < |chs| && h[i] == ChannelItem(chs[w[i].pos], w[i].depth)
    ensures Lines(chs, w) == Blocks(h)
  {
    if w != [] { LinesAreBlocks(chs, w[1..], h[1..]); }
  }

  // ----- The list line by line -----

  /** The list starts with a heading. The lines after a heading are exactly its channel's users, in order and
      at its depth; after them comes the next heading or the end. */
  ghost predicate LaidOut(items: seq<FlatItem>) {
    && (items != [] ==> items[0].ChannelItem?)
    && forall k :: 0 <= k < |items| && items[k].ChannelItem? ==> UsersFollow(items, k)
  }

  ghost predicate UsersFollow(items: seq<FlatItem>, k: nat)
    requires k < |items| && items[k].ChannelItem?
  {
    var ch, d := items[k].channel, items[k].depth;
    var next := k + 1 + |ch.users|;
    && next <= |items|
    && (forall j :: 0 <= j < |ch.users| ==> items[k + 1 + j] == UserItem(ch.users[j], ch.id, d))
    && (next < |items| ==> items[next].ChannelItem?)
  }

  /** One line for each heading and one for each of its users. */
  function LineCount(h: seq<FlatItem>): nat {
    if h == [] then 0
    else (if h[0].ChannelItem? then 1 + |h[0].channel.users| else 0) + LineCount(h[1..])
  }

  lemma {:induction false} UserItemsAt(us: seq<UserInfo>, c: int, d: nat)
    ensures |UserItems(us, c, d)| == |us|
    ensures forall j :: 0 <= j < |us| ==> UserItems(us, c, d)[j] == UserItem(us[j], c, d)
    decreases |us|
  {
    if us != [] {
      UserItemsAt(us[1..], c, d);
    }
  }

  lemma BlockLaidOut(ch: ChannelInfo, d: nat, rest: seq<FlatItem>)
    requires LaidOut(rest)
    ensures LaidOut(Block(ch, d) + rest)
  {
    var items := Block(ch, d) + rest;
    var n := 1 + |ch.users|;
    UserItemsAt(ch.users, ch.id, d);
    assert forall j :: 0 <= j < |ch.users| ==> items[1 + j] == UserItem(ch.users[j], ch.id, d);
    forall k | 0 <= k < |items| && items[k].ChannelItem? ensures UsersFollow(items, k) {
      if k > 0 {
        assert k >= n;
        assert rest[k - n] == items[k] && UsersFollow(rest, k - n);
        forall j | 0 <= j < |items[k].channel.users| ensures items[k + 1 + j] == UserItem(items[k].channel.users[j], items[k].channel.id, items[k].depth) {
          assert items[k + 1 + j] == rest[k - n + 1 + j];
        }
      }
    }
  }

  lemma {:induction false} LinesLaidOut(chs: seq<ChannelInfo>, w: seq<Visit>)
    ensures LaidOut(Lines(chs, w)) && |Lines(chs, w)| == LineCount(Headings(Lines(chs, w)))
    decreases |w|
  {
    hide LaidOut, Block;
    if w == [] {
      NothingLaidOut();
    } else {
      LinesLaidOut(chs, w[1..]);
      if w[0].pos < |chs| {
        var ch, d := chs[w[0].pos], w[0].depth;
        BlockLaidOut(ch, d, Lines(chs, w[1..]));
        BlockCount(ch, d, Lines(chs, w[1..]));
      } else {
        assert [] + Lines(chs, w[1..]) == Lines(chs, w[1..]);
      }
    }
  }

  lemma NothingLaidOut()
    ensures LaidOut([])
  {
  }

  lemma BlockCount(ch: ChannelInfo, d: nat, rest: seq<FlatItem>)
    ensures LineCount(Headings(Block(ch, d) + rest)) == 1 + |ch.users| + LineCount(Headings(rest)) && |Block(ch, d)| == 1 + |ch.users|
  {
    UserItemsAt(ch.users, ch.id, d);
    NoHeadings(ch.users, ch.id, d);
    var us := UserItems(ch.users, ch.id, d);
    HeadingsAppend([ChannelItem(ch, d)], us);
    HeadingsAppend(Block(ch, d), rest);
    assert Headings([ChannelItem(ch, d)]) == [ChannelItem(ch, d)];
    assert ([ChannelItem(ch, d)] + Headings(rest))[1..] == Headings(rest);
  }
}
