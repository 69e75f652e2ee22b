/** Importing a tree into an empty store and exporting it again. */
module ChannelRoundTrip {
  import opened Prelude
  import opened Store
  import opened TreeWalk
  import opened ChannelExport
  import opened ChannelImport

  ghost predicate DistinctSiblings(f: seq<ChannelYAML>) {
    f != [] ==>
      && (forall i :: 0 < i < |f| ==> f[i].name != f[0].name)
      && DistinctSiblings(f[0].channels) && DistinctSiblings(f[1..])
  }

  /** The rows an import creates below `p`, numbered from `n` in preorder. */
  ghost function Rows(f: seq<ChannelYAML>, p: int, n: int): seq<Channel> {
    if f == [] then []
    else [AsChannel(f[0], p).(id := n)] + Rows(f[0].channels, n, n + 1) + Rows(f[1..], p, n + 1 + Count(f[0].channels))
  }

  lemma {:induction false} RowsShape(f: seq<ChannelYAML>, p: int, n: int)
    requires p < n
    ensures |Rows(f, p, n)| == Count(f)
    ensures forall i :: 0 <= i < |Rows(f, p, n)| ==> Rows(f, p, n)[i].id == n + i
    ensures forall i :: 0 <= i < |Rows(f, p, n)| ==> !Rows(f, p, n)[i].isTemp
    ensures forall i :: 0 <= i < |Rows(f, p, n)| ==> Rows(f, p, n)[i].parentID == p || n <= Rows(f, p, n)[i].parentID < n + i
    decreases f
  {
    if f != [] {
      RowsShape(f[0].channels, n, n + 1);
      RowsShape(f[1..], p, n + 1 + Count(f[0].channels));
    }
  }

  /** The table with the rows filed under the next ids. */
  ghost function Extended(t: Table, rs: seq<Channel>): Table
    decreases |rs|
  {
    if rs == [] then t else Extended(Table(t.rows[t.next := rs[0]], t.next + 1), rs[1..])
  }

  lemma {:induction false} ExtendedAppend(t: Table, a: seq<Channel>, b: seq<Channel>)
    ensures Extended(Extended(t, a), b) == Extended(t, a + b)
    decreases |a|
  {
    if a == [] {
      assert a + b == b;
    } else {
      assert (a + b)[1..] == a[1..] + b;
      ExtendedAppend(Table(t.rows[t.next := a[0]], t.next + 1), a[1..], b);
    }
  }

  lemma {:induction false} ExtendedRows(t: Table, rs: seq<Channel>)
    ensures Extended(t, rs).next == t.next + |rs|
    ensures forall id :: id in Extended(t, rs).rows <==> id in t.rows || t.next <= id < t.next + |rs|
    ensures forall id :: id in Extended(t, rs).rows ==>
              Extended(t, rs).rows[id] == if t.next <= id < t.next + |rs| then rs[id - t.next] else t.rows[id]
    decreases |rs|
  {
    if rs != [] {
      ExtendedRows(Table(t.rows[t.next := rs[0]], t.next + 1), rs[1..]);
    }
  }

  /** Nothing in the table has a parent from `n` on, nor a parent `p` and a root name of `f`. */
  ghost predicate RoomFor(t: Table, f: seq<ChannelYAML>, p: int) {
    && p < t.next
    && (forall id :: id in t.rows ==> t.rows[id].parentID < t.next)
    && (forall id, i :: id in t.rows && 0 <= i < |f| && t.rows[id].parentID == p ==> t.rows[id].name != f[i].name)
  }

  /** The first node is created, and leaves room for its children. */
  lemma NodeCreated(t: Table, f: seq<ChannelYAML>, p: int)
    requires t.WellFormed() && f != [] && Validate(AsChannel(f[0], 0)).None? && 0 <= p && RoomFor(t, f, p)
    ensures Node(t, f[0], p) == (Extended(t, [AsChannel(f[0], p).(id := t.next)]), Some(t.next))
    ensures var t1 := Node(t, f[0], p).0; t1.WellFormed() && RoomFor(t1, f[0].channels, t.next) && t1.next == t.next + 1
  {
    assert Validate(AsChannel(f[0], p)) == Validate(AsChannel(f[0], 0));
    assert forall id :: id in t.rows && t.rows[id].parentID == p ==> t.rows[id].name != f[0].name;
    NodeGrows(t, f[0], p);
    assert Extended(t, [AsChannel(f[0], p).(id := t.next)]) == t.Added(AsChannel(f[0], p));
  }

  /** The first tree takes no name from the others. */
  lemma RoomAfterFirst(t: Table, f: seq<ChannelYAML>, p: int, t1: Table, sub: seq<Channel>)
    requires t.WellFormed() && f != [] && RoomFor(t, f, p) && (forall i :: 0 < i < |f| ==> f[i].name != f[0].name)
    requires t1 == Extended(t, [AsChannel(f[0], p).(id := t.next)]) && t1.next == t.next + 1
    requires forall i :: 0 <= i < |sub| ==> t.next <= sub[i].parentID < t.next + 1 + i
    ensures RoomFor(Extended(t1, sub), f[1..], p)
  {
    hide Extended;
    ExtendedRows(t, [AsChannel(f[0], p).(id := t.next)]);
    ExtendedRows(t1, sub);
    var t2 := Extended(t1, sub);
    forall id, i | id in t2.rows && 0 <= i < |f[1..]| && t2.rows[id].parentID == p
      ensures t2.rows[id].name != f[1..][i].name
    {
      assert f[1..][i] == f[i + 1];
    }
  }

  lemma {:induction false} EnsuredEachRows(t: Table, f: seq<ChannelYAML>, p: int)
    requires t.WellFormed() && Valid(f) && DistinctSiblings(f) && 0 <= p && RoomFor(t, f, p)
    ensures EnsuredEach(t, f, p) == (Extended(t, Rows(f, p, t.next)), true)
    decreases f
  {
    hide Extended, Node, RoomFor, Validate, Count, Table.GrownTo, Table.WellFormed, Table.UniqueNames;
    if f == [] {
      ExtendedNone(t);
    } else {
      var n := t.next;
      var row := AsChannel(f[0], p).(id := n);
      NodeCreated(t, f, p);
      var t1 := Node(t, f[0], p).0;
      EnsuredEachRows(t1, f[0].channels, n);
      EnsuredEachGrows(t1, f[0].channels, n);
      var sub, rest := Rows(f[0].channels, n, n + 1), Rows(f[1..], p, n + 1 + Count(f[0].channels));
      RowsShape(f[0].channels, n, n + 1);
      RoomAfterFirst(t, f, p, t1, sub);
      var t2 := Extended(t1, sub);
      ExtendedRows(t1, sub);
      EnsuredEachRows(t2, f[1..], p);
      ExtendedAppend(t, [row], sub);
      ExtendedAppend(t, [row] + sub, rest);
    }
  }

  lemma ExtendedNone(t: Table)
    ensures Extended(t, []) == t
  {
  }

  /** The permanent channels with parent `q`, in order. */
  ghost function Kids(chs: seq<Channel>, q: int): seq<Channel> {
    if chs == [] then []
    else (if chs[0].parentID == q && !chs[0].isTemp then [chs[0]] else []) + Kids(chs[1..], q)
  }

  lemma {:induction false} KidsAppend(a: seq<Channel>, b: seq<Channel>, q: int)
    ensures Kids(a + b, q) == Kids(a, q) + Kids(b, q)
  {
    if a == [] {
      assert a + b == b;
    } else {
      assert (a + b)[1..] == a[1..] + b;
      KidsAppend(a[1..], b, q);
    }
  }

  lemma {:induction false} KidsMembers(chs: seq<Channel>, q: int)
    ensures forall c :: c in Kids(chs, q) <==> c in chs && c.parentID == q && !c.isTemp
  {
    if chs != [] {
      KidsMembers(chs[1..], q);
      assert chs == [chs[0]] + chs[1..];
    }
  }

  ghost predicate IdsAscend(chs: seq<Channel>) {
    forall i, j :: 0 <= i < j < |chs| ==> chs[i].parentID == chs[j].parentID ==> chs[i].id < chs[j].id
  }

  lemma {:induction false} KidsSorted(chs: seq<Channel>, q: int)
    requires IdsAscend(chs)
    ensures Sorted(Kids(chs, q))
  {
    if chs != [] {
      KidsSorted(chs[1..], q);
      KidsMembers(chs[1..], q);
      forall c | c in Kids(chs[1..], q) && chs[0].parentID == q ensures Before(chs[0], c) {
        var i :| 0 <= i < |chs[1..]| && chs[1..][i] == c;
        assert chs[i + 1] == c;
      }
    }
  }

  /** Siblings are exported in listing order, each with what hangs below it. */
  lemma {:induction false} TreeOfKids(l: seq<Channel>, p: int, d: nat, from: nat)
    requires Distinct(LinksOf(l)) && AtDepth(LinksOf(l), p, d) && from <= |l|
    ensures |Tree(l, p, d, from)| == |Kids(l[from..], p)|
    ensures forall i :: 0 <= i < |Kids(l[from..], p)| ==>
              && AtDepth(LinksOf(l), Kids(l[from..], p)[i].id, d + 1)
              && Tree(l, p, d, from)[i] == Entry(Kids(l[from..], p)[i], Tree(l, Kids(l[from..], p)[i].id, d + 1, 0))
    decreases |l| - from
  {
    hide AtDepth, Distinct;
    if from < |l| {
      TreeOfKids(l, p, d, from + 1);
      assert l[from..][1..] == l[from + 1..];
      if l[from].parentID == p && !l[from].isTemp {
        TreePrefixSplit(l, p, d, from);
      }
    }
  }

  ghost function Roots(f: seq<ChannelYAML>, p: int, n: int): seq<Channel> {
    if f == [] then [] else [AsChannel(f[0], p).(id := n)] + Roots(f[1..], p, n + 1 + Count(f[0].channels))
  }

  /** No row of the list hangs below `q`. */
  lemma {:induction false} NoKids(chs: seq<Channel>, q: int)
    requires forall c :: c in chs ==> c.parentID != q
    ensures Kids(chs, q) == []
  {
    if chs != [] {
      assert chs[0] in chs;
      NoKids(chs[1..], q);
    }
  }

  lemma RowParents(f: seq<ChannelYAML>, p: int, n: int)
    requires p < n
    ensures forall c :: c in Rows(f, p, n) ==> c.parentID == p || n <= c.parentID < n + Count(f)
  {
    RowsShape(f, p, n);
  }

  lemma KidsOfThree(row: Channel, sub: seq<Channel>, rest: seq<Channel>, q: int)
    ensures Kids([row] + sub + rest, q) == Kids([row], q) + Kids(sub, q) + Kids(rest, q)
  {
    KidsAppend([row] + sub, rest, q);
    KidsAppend([row], sub, q);
  }

  lemma RowsParts(f: seq<ChannelYAML>, p: int, n: int)
    requires f != []
    ensures Rows(f, p, n) == [AsChannel(f[0], p).(id := n)] + Rows(f[0].channels, n, n + 1) + Rows(f[1..], p, n + 1 + Count(f[0].channels))
    ensures Count(f) == 1 + Count(f[0].channels) + Count(f[1..])
  {
  }

  lemma {:induction false} KidsOfRows(f: seq<ChannelYAML>, p: int, n: int)
    requires p < n
    ensures Kids(Rows(f, p, n), p) == Roots(f, p, n)
    decreases f
  {
    hide Rows, Count;
    if f == [] {
      RowsShape(f, p, n);
      CountNone();
      assert Rows(f, p, n) == [];
    } else {
      var row, sub, rest := AsChannel(f[0], p).(id := n), Rows(f[0].channels, n, n + 1), Rows(f[1..], p, n + 1 + Count(f[0].channels));
      RowsParts(f, p, n);
      KidsOfThree(row, sub, rest, p);
      RowParents(f[0].channels, n, n + 1);
      NoKids(sub, p);
      KidsOfRows(f[1..], p, n + 1 + Count(f[0].channels));
      assert Kids([row], p) == [row] + Kids([], p);
    }
  }

  lemma CountNone()
    ensures Count([]) == 0
  {
  }

  /** The rows of the first tree and of the rest do not mix. */
  lemma KidsSplit(row: Channel, sub: seq<Channel>, rest: seq<Channel>, p: int, n: int, m: int, q: int)
    requires p < n <= q && row.parentID == p
    requires forall c :: c in sub ==> n <= c.parentID < m
    requires forall c :: c in rest ==> c.parentID == p || m <= c.parentID
    ensures Kids([row] + sub + rest, q) == if q < m then Kids(sub, q) else Kids(rest, q)
  {
    KidsOfThree(row, sub, rest, q);
    NoKids([row], q);
    if q < m { NoKids(rest, q); } else { NoKids(sub, q); }
  }

  /** The listing contains the rows of the forest, and shows below each of them the children
      the rows show. */
  ghost predicate Shows(l: seq<Channel>, f: seq<ChannelYAML>, p: int, n: int) {
    && (forall c :: c in Rows(f, p, n) ==> c in l)
    && (forall q :: n <= q < n + Count(f) ==> Kids(l, q) == Kids(Rows(f, p, n), q))
  }

  lemma ShowsParts(l: seq<Channel>, f: seq<ChannelYAML>, p: int, n: int)
    requires p < n && f != [] && Shows(l, f, p, n)
    ensures AsChannel(f[0], p).(id := n) in l
    ensures Shows(l, f[0].channels, n, n + 1) && Shows(l, f[1..], p, n + 1 + Count(f[0].channels))
    ensures Kids(l, n) == Roots(f[0].channels, n, n + 1)
  {
    hide Rows, Kids, Roots, Count, Validate;
    var m := n + 1 + Count(f[0].channels);
    var row, sub, rest := AsChannel(f[0], p).(id := n), Rows(f[0].channels, n, n + 1), Rows(f[1..], p, m);
    RowsParts(f, p, n);
    RowParents(f[0].channels, n, n + 1);
    RowParents(f[1..], p, m);
    ShowsPartsOf(l, row, sub, rest, p, n, m, n + Count(f));
    KidsOfRows(f[0].channels, n, n + 1);
  }

  lemma ShowsPartsOf(l: seq<Channel>, row: Channel, sub: seq<Channel>, rest: seq<Channel>, p: int, n: int, m: int, top: int)
    requires p < n < m <= top && row.parentID == p
    requires forall c :: c in sub ==> n <= c.parentID < m
    requires forall c :: c in rest ==> c.parentID == p || m <= c.parentID
    requires forall c :: c in [row] + sub + rest ==> c in l
    requires forall q :: n <= q < top ==> Kids(l, q) == Kids([row] + sub + rest, q)
    ensures row in l && (forall c :: c in sub ==> c in l) && (forall c :: c in rest ==> c in l)
    ensures forall q :: n <= q < m ==> Kids(l, q) == Kids(sub, q)
    ensures forall q :: m <= q < top ==> Kids(l, q) == Kids(rest, q)
  {
    var all := [row] + sub + rest;
    assert row in all;
    forall q | n <= q < top ensures Kids(l, q) == if q < m then Kids(sub, q) else Kids(rest, q) {
      KidsSplit(row, sub, rest, p, n, m, q);
    }
  }

  /** If the listing shows the same children as the created rows do, export rebuilds the forest. */
  lemma {:induction false} Rebuilt(l: seq<Channel>, f: seq<ChannelYAML>, p: int, n: int, d: nat)
    requires Distinct(LinksOf(l)) && AtDepth(LinksOf(l), p, d) && p < n && Shows(l, f, p, n)
    ensures |Roots(f, p, n)| == |f|
    ensures forall i :: 0 <= i < |f| ==>
              && AtDepth(LinksOf(l), Roots(f, p, n)[i].id, d + 1)
              && Entry(Roots(f, p, n)[i], Tree(l, Roots(f, p, n)[i].id, d + 1, 0)) == f[i]
    decreases f
  {
    hide Rows, Kids, Count, Shows, Tree, AtDepth, Distinct;
    if f != [] {
      var c := Count(f[0].channels);
      var row := AsChannel(f[0], p).(id := n);
      ShowsParts(l, f, p, n);
      var k :| 0 <= k < |l| && l[k] == row;
      ChildDepth(LinksOf(l), k, d);
      Rebuilt(l, f[0].channels, n, n + 1, d + 1);
      TreeIsRoots(l, n, d + 1, f[0].channels, n + 1);
      Rebuilt(l, f[1..], p, n + 1 + c, d);
    }
  }

  /** Root by root equal means equal. */
  lemma TreeIsRoots(l: seq<Channel>, p: int, d: nat, f: seq<ChannelYAML>, n: int)
    requires Distinct(LinksOf(l)) && AtDepth(LinksOf(l), p, d)
    requires Kids(l, p) == Roots(f, p, n) && |Roots(f, p, n)| == |f|
    requires forall i :: 0 <= i < |f| ==>
              && AtDepth(LinksOf(l), Roots(f, p, n)[i].id, d + 1)
              && Entry(Roots(f, p, n)[i], Tree(l, Roots(f, p, n)[i].id, d + 1, 0)) == f[i]
    ensures Tree(l, p, d, 0) == f
  {
    TreeOfKids(l, p, d, 0);
    assert l[0..] == l;
  }

  lemma ImportedListing(f: seq<ChannelYAML>, l: seq<Channel>)
    requires IsListing(Extended(EMPTY_TABLE, Rows(f, 0, 1)).rows, l)
    ensures forall c :: c in l <==> c in Rows(f, 0, 1)
    ensures forall q :: Kids(l, q) == Kids(Rows(f, 0, 1), q)
  {
    var rs := Rows(f, 0, 1);
    var rows := Extended(EMPTY_TABLE, rs).rows;
    RowsShape(f, 0, 1);
    ExtendedRows(EMPTY_TABLE, rs);
    forall c ensures c in l <==> c in rs {
      if c in rs { var i :| 0 <= i < |rs| && rs[i] == c; assert rows[i + 1] == c; }
      if c in l { assert c.id in rows && rows[c.id] == c && c == rs[c.id - 1]; }
    }
    forall q ensures Kids(l, q) == Kids(rs, q) {
      KidsMembers(l, q);
      KidsMembers(rs, q);
      KidsSorted(l, q);
      KidsSorted(rs, q);
      SortedUnique(Kids(l, q), Kids(rs, q));
    }
  }

  /** Importing a valid forest with distinct sibling names into an empty store, listing the
      channels and rebuilding the tree gives back the forest, order and fields included. */
  lemma ImportExportRoundTrip(f: seq<ChannelYAML>, l: seq<Channel>)
    requires Valid(f) && DistinctSiblings(f)
    requires IsListing(Imported(EMPTY_TABLE, f).rows, l)
    ensures Distinct(LinksOf(l)) && Exported(l) == f
    ensures |Imported(EMPTY_TABLE, f).rows| == Count(f)
  {
    hide Rows, Kids, Roots, Count, Tree, Distinct, EnsuredEach, Imported, IsListing, Extended;
    EnsuredEachRows(EMPTY_TABLE, f, 0);
    ImportedIsEnsuredEach(EMPTY_TABLE, f);
    var t := Imported(EMPTY_TABLE, f);
    EnsuredEachGrows(EMPTY_TABLE, f, 0);
    ListingDistinct(t, l);
    ImportedListing(f, l);
    RowsShape(f, 0, 1);
    KidsOfRows(f, 0, 1);
    Rebuilt(l, f, 0, 1, 0);
    TreeIsRoots(l, 0, 0, f, 1);
    ExtendedRows(EMPTY_TABLE, Rows(f, 0, 1));
    IntervalSize(t.rows.Keys, 1, Count(f));
  }
}
