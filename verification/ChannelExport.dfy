/** Channel trees and their export (pkg/server/config.go), up to the tree that is written as YAML. */
module ChannelExport {
  import opened Prelude
  import opened Store
  import opened TreeWalk

  datatype ChannelYAML = ChannelYAML(
    name: string, description: string, maxUsers: int, allowSubChannels: bool, channels: seq<ChannelYAML>)

  // ----- Counting -----

  function Count(f: seq<ChannelYAML>): nat {
    if f == [] then 0 else 1 + Count(f[0].channels) + Count(f[1..])
  }

  lemma {:induction false} CountAppend(f: seq<ChannelYAML>, g: seq<ChannelYAML>)
    ensures Count(f + g) == Count(f) + Count(g)
  {
    if f == [] {
      assert f + g == g;
    } else {
      assert (f + g)[1..] == f[1..] + g;
      CountAppend(f[1..], g);
    }
  }

  method CountChannels(channels: seq<ChannelYAML>) returns (count: nat)
    ensures count == Count(channels)
  {
    count := |channels|;
    for i := 0 to |channels|
      invariant count == |channels| - i + Count(channels[..i])
    {
      var sub := CountChannels(channels[i].channels);
      assert channels[..i + 1] == channels[..i] + [channels[i]];
      CountAppend(channels[..i], [channels[i]]);
      count := count + sub;
    }
    assert channels[..|channels|] == channels;
  }

  // ----- Export -----

  function LinksOf(chs: seq<Channel>): seq<Link> {
    seq(|chs|, i requires 0 <= i < |chs| => Link(chs[i].id, chs[i].parentID, !chs[i].isTemp))
  }

  function Entry(ch: Channel, children: seq<ChannelYAML>): ChannelYAML {
    ChannelYAML(ch.name, ch.description, ch.maxUsers, ch.allowSubChannels, children)
  }

  /** The exported trees below `p`, taken from position `from` of the listing on. */
  ghost function Tree(chs: seq<Channel>, p: int, d: nat, from: nat): seq<ChannelYAML>
    requires Distinct(LinksOf(chs)) && AtDepth(LinksOf(chs), p, d) && from <= |chs|
    decreases |chs| - d, |chs| - from
  {
    if from == |chs| then []
    else if chs[from].parentID == p && !chs[from].isTemp then
      ChildDepth(LinksOf(chs), from, d);
      [Entry(chs[from], Tree(chs, chs[from].id, d + 1, 0))] + Tree(chs, p, d, from + 1)
    else Tree(chs, p, d, from + 1)
  }

  lemma {:induction false} TreePrefixSplit(chs: seq<Channel>, p: int, d: nat, from: nat)
    requires Distinct(LinksOf(chs)) && AtDepth(LinksOf(chs), p, d) && from < |chs|
    requires chs[from].parentID == p && !chs[from].isTemp
    ensures AtDepth(LinksOf(chs), chs[from].id, d + 1)
    ensures Tree(chs, p, d, from) == [Entry(chs[from], Tree(chs, chs[from].id, d + 1, 0))] + Tree(chs, p, d, from + 1)
  {
    ChildDepth(LinksOf(chs), from, d);
  }

  /** `d` only bounds the recursion: it is the depth of `parentID`. The recursion ends for every
      listing with distinct nonzero ids, whatever its parents are. */
  method BuildChannelTree(channels: seq<Channel>, parentID: int, ghost d: nat) returns (result: seq<ChannelYAML>)
    requires Distinct(LinksOf(channels)) && AtDepth(LinksOf(channels), parentID, d)
    ensures result == Tree(channels, parentID, d, 0)
    decreases |channels| - d
  {
    DepthBound(LinksOf(channels), parentID, d);
    result := [];
    for i := 0 to |channels|
      invariant result + Tree(channels, parentID, d, i) == Tree(channels, parentID, d, 0)
    {
      if channels[i].parentID == parentID && !channels[i].isTemp {
        TreePrefixSplit(channels, parentID, d, i);
        DepthBound(LinksOf(channels), channels[i].id, d + 1);
        var sub := BuildChannelTree(channels, channels[i].id, d + 1);
        var entry := Entry(channels[i], sub);
        assert result + ([entry] + Tree(channels, parentID, d, i + 1)) == (result + [entry]) + Tree(channels, parentID, d, i + 1);
        result := result + [entry];
      }
    }
  }

  ghost function Exported(chs: seq<Channel>): seq<ChannelYAML>
    requires Distinct(LinksOf(chs))
  {
    Tree(chs, 0, 0, 0)
  }

  /** Export of the store's one listing (see `ListingUnique`). */
  method ExportChannels(st: MemoryStore) returns (cfg: seq<ChannelYAML>)
    requires st.View().WellFormed()
    ensures exists l :: IsListing(st.View().rows, l) && Distinct(LinksOf(l)) && cfg == Exported(l)
  {
    var channels := st.ListChannels();
    ListingDistinct(st.View(), channels);
    cfg := BuildChannelTree(channels, 0, 0);
  }

  lemma ListingDistinct(t: Table, l: seq<Channel>)
    requires t.WellFormed() && IsListing(t.rows, l)
    ensures Distinct(LinksOf(l))
  {
    forall i | 0 <= i < |l| ensures l[i].id != 0 {
      assert l[i] in l;
    }
    forall i, j | 0 <= i < j < |l| ensures l[i].id != l[j].id {
      if l[i].id == l[j].id { ListingIdsDistinct(t.rows, l, i, j); }
    }
  }

  /** A tree read in preorder: every node without its children, with its depth. */
  function Preorder(f: seq<ChannelYAML>, d: nat): seq<(ChannelYAML, nat)> {
    if f == [] then []
    else [(f[0].(channels := []), d)] + Preorder(f[0].channels, d + 1) + Preorder(f[1..], d)
  }

  ghost predicate InRange(chs: seq<Channel>, w: seq<Visit>) {
    forall i :: 0 <= i < |w| ==> w[i].pos < |chs|
  }

  /** What a walk over the listing reads, a position outside it being skipped. */
  ghost function Labels(chs: seq<Channel>, w: seq<Visit>): seq<(ChannelYAML, nat)> {
    if w == [] then []
    else (if w[0].pos < |chs| then [(Entry(chs[w[0].pos], []), w[0].depth)] else []) + Labels(chs, w[1..])
  }

  lemma {:induction false} LabelsAppend(chs: seq<Channel>, v: seq<Visit>, w: seq<Visit>)
    ensures Labels(chs, v + w) == Labels(chs, v) + Labels(chs, w)
  {
    if v == [] {
      assert v + w == w;
    } else {
      assert (v + w)[1..] == v[1..] + w;
      LabelsAppend(chs, v[1..], w);
    }
  }

  /** The labels are those of the visited channels, position by position. */
  lemma {:induction false} LabelsMeaning(chs: seq<Channel>, w: seq<Visit>)
    requires InRange(chs, w)
    ensures |Labels(chs, w)| == |w|
    ensures forall i :: 0 <= i < |w| ==> Labels(chs, w)[i] == (Entry(chs[w[i].pos], []), w[i].depth)
  {
    if w != [] { LabelsMeaning(chs, w[1..]); }
  }

  lemma {:induction false} TreeIsWalk(chs: seq<Channel>, p: int, d: nat, from: nat)
    requires Distinct(LinksOf(chs)) && AtDepth(LinksOf(chs), p, d) && from <= |chs|
    ensures InRange(chs, Walk(LinksOf(chs), p, d, from))
    ensures Preorder(Tree(chs, p, d, from), d) == Labels(chs, Walk(LinksOf(chs), p, d, from))
    decreases |chs| - d, |chs| - from
  {
    hide AtDepth, Distinct;
    var l := LinksOf(chs);
    if from < |chs| {
      TreeIsWalk(chs, p, d, from + 1);
      if chs[from].parentID == p && !chs[from].isTemp {
        TreePrefixSplit(chs, p, d, from);
        DepthBound(l, chs[from].id, d + 1);
        TreeIsWalk(chs, chs[from].id, d + 1, 0);
        var head, sub, tail := [Visit(from, d)], Walk(l, chs[from].id, d + 1, 0), Walk(l, p, d, from + 1);
        LabelsAppend(chs, head, sub);
        LabelsAppend(chs, head + sub, tail);
        var f := Tree(chs, p, d, from);
        assert f[1..] == Tree(chs, p, d, from + 1);
        assert Labels(chs, head) == [(Entry(chs[from], []), d)];
      }
    }
  }

  lemma {:induction false} CountIsPreorderLength(f: seq<ChannelYAML>, d: nat)
    ensures Count(f) == |Preorder(f, d)|
  {
    if f != [] {
      CountIsPreorderLength(f[0].channels, d + 1);
      CountIsPreorderLength(f[1..], d);
    }
  }

  /** The positions of the permanent channels all of whose ancestors are permanent, up to the root. */
  ghost function PermanentlyRooted(chs: seq<Channel>): set<nat> {
    set i: nat | i < |chs| && !chs[i].isTemp && exists d: nat :: AtDepth(LinksOf(chs), chs[i].id, d)
  }

  ghost function Positions(w: seq<Visit>): seq<nat> {
    seq(|w|, i requires 0 <= i < |w| => w[i].pos)
  }

  lemma RootIsNoRow(l: seq<Link>, i: nat, d: nat)
    requires Distinct(l) && i < |l| && AtDepth(l, l[i].id, d)
    ensures d > 0
  {
  }

  lemma PositionVisited(chs: seq<Channel>, i: nat)
    requires Distinct(LinksOf(chs))
    ensures i in Positions(WalkAll(LinksOf(chs))) <==> i in PermanentlyRooted(chs)
  {
    hide Walk, AtDepth, PosOf, WalkAll, Distinct;
    var l := LinksOf(chs);
    var w := WalkAll(l);
    if i in Positions(w) {
      var k :| 0 <= k < |w| && Positions(w)[k] == i;
      WalkAllVisitsAt(l, k);
    }
    if i in PermanentlyRooted(chs) {
      var d: nat :| AtDepth(l, chs[i].id, d);
      RootIsNoRow(l, i, d);
      WalkAllVisits(l, Visit(i, d - 1));
      var k :| 0 <= k < |w| && w[k] == Visit(i, d - 1);
      assert Positions(w)[k] == i;
    }
  }

  lemma WalkPositions(chs: seq<Channel>)
    requires Distinct(LinksOf(chs))
    ensures |WalkAll(LinksOf(chs))| == |PermanentlyRooted(chs)|
  {
    hide Walk, AtDepth, PosOf, WalkAll, Distinct;
    var w := WalkAll(LinksOf(chs));
    forall i, j | 0 <= i < j < |w| ensures w[i].pos != w[j].pos {
      WalkAllOnce(LinksOf(chs), i, j);
    }
    DistinctCount(Positions(w));
    forall i: nat ensures i in Positions(w) <==> i in PermanentlyRooted(chs) {
      PositionVisited(chs, i);
    }
    assert Elements(Positions(w)) == PermanentlyRooted(chs);
  }

  /** Export writes exactly the channels whose whole parent chain is permanent and reaches the
      root, each once, at the depth given by its ancestors (and after its parent, see
      `WalkAllParentFirst`); `Count` counts them. */
  lemma ExportExact(chs: seq<Channel>)
    requires Distinct(LinksOf(chs))
    ensures InRange(chs, WalkAll(LinksOf(chs)))
            && Preorder(Exported(chs), 0) == Labels(chs, WalkAll(LinksOf(chs)))
    ensures forall v :: v in WalkAll(LinksOf(chs)) <==> v.pos in PermanentlyRooted(chs) && AtDepth(LinksOf(chs), chs[v.pos].id, v.depth + 1)
    ensures Count(Exported(chs)) == |PermanentlyRooted(chs)|
    ensures var w, out := WalkAll(LinksOf(chs)), Preorder(Exported(chs), 0);
            |out| == |w| && forall i :: 0 <= i < |w| ==>
              var ch := chs[w[i].pos];
              out[i] == (ChannelYAML(ch.name, ch.description, ch.maxUsers, ch.allowSubChannels, []), w[i].depth)
  {
    TreeIsWalk(chs, 0, 0, 0);
    forall v ensures v in WalkAll(LinksOf(chs)) <==> v.pos in PermanentlyRooted(chs) && AtDepth(LinksOf(chs), chs[v.pos].id, v.depth + 1) {
      WalkAllVisits(LinksOf(chs), v);
    }
    CountIsPreorderLength(Exported(chs), 0);
    LabelsMeaning(chs, WalkAll(LinksOf(chs)));
    WalkPositions(chs);
  }
}
