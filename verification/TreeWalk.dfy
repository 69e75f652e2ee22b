/** Walking a flat id/parent table from root 0.
    Both the server's export (pkg/server/config.go:122-137) and the client's channel list
    (ui/app.go:760-780) recurse over such a table. A parent may be missing or lie on a cycle,
    so it is not obvious that the recursion ends. */
module TreeWalk {
  import opened Prelude

  /** One row. A row that is not `kept` is skipped by the walk together with what hangs below it. */
  datatype Link = Link(id: int, parent: int, kept: bool)

  /** Position `pos` of the table, met at depth `depth`. */
  datatype Visit = Visit(pos: nat, depth: nat)

  ghost predicate Distinct(l: seq<Link>) {
    && (forall i :: 0 <= i < |l| ==> l[i].id != 0)
    && (forall i, j :: 0 <= i < j < |l| ==> l[i].id != l[j].id)
  }

  ghost predicate IsRow(l: seq<Link>, i: nat, id: int) {
    i < |l| && l[i].id == id && l[i].kept
  }

  ghost function PosOf(l: seq<Link>, id: int): (r: Option<nat>)
    ensures r.Some? ==> IsRow(l, r.value, id)
    ensures r.None? ==> forall i: nat :: !IsRow(l, i, id)
  {
    if i: nat :| IsRow(l, i, id) then Some(i) else None
  }

  lemma PosOfRow(l: seq<Link>, i: nat)
    requires Distinct(l) && i < |l| && l[i].kept
    ensures PosOf(l, l[i].id) == Some(i)
  {
    assert IsRow(l, i, l[i].id);
  }

  /** The parent chain of `id` runs through kept rows and reaches 0 in exactly `d` steps. */
  ghost predicate AtDepth(l: seq<Link>, id: int, d: nat)
    decreases d
  {
    if d == 0 then id == 0
    else id != 0 && PosOf(l, id).Some? && AtDepth(l, l[PosOf(l, id).value].parent, d - 1)
  }

  /** The id `n` steps up the parent chain (0 from the root or a break on). */
  ghost function Up(l: seq<Link>, id: int, n: nat): int
    decreases n
  {
    if n == 0 then id
    else if PosOf(l, id).None? then 0
    else Up(l, l[PosOf(l, id).value].parent, n - 1)
  }

  lemma {:induction false} DepthUnique(l: seq<Link>, id: int, d: nat, e: nat)
    requires AtDepth(l, id, d) && AtDepth(l, id, e)
    ensures d == e
    decreases d
  {
    if d != 0 && e != 0 {
      DepthUnique(l, l[PosOf(l, id).value].parent, d - 1, e - 1);
    }
  }

  /** The ids on the chain from `id` to the root. */
  ghost function Chain(l: seq<Link>, id: int, d: nat): set<int>
    requires AtDepth(l, id, d)
    decreases d
  {
    if d == 0 then {} else {id} + Chain(l, l[PosOf(l, id).value].parent, d - 1)
  }

  lemma {:induction false} ChainMembers(l: seq<Link>, id: int, d: nat, x: int)
    requires AtDepth(l, id, d) && x in Chain(l, id, d)
    ensures exists e: nat :: 0 < e <= d && AtDepth(l, x, e)
    ensures exists i :: 0 <= i < |l| && l[i].id == x
    decreases d
  {
    if x == id {
      assert 0 < d <= d && AtDepth(l, x, d);
      assert IsRow(l, PosOf(l, id).value, id);
    } else {
      var p := l[PosOf(l, id).value].parent;
      ChainMembers(l, p, d - 1, x);
      var e: nat :| 0 < e <= d - 1 && AtDepth(l, x, e);
      assert 0 < e <= d && AtDepth(l, x, e);
    }
  }

  /** A chain never meets the same id twice: its length is the depth. */
  lemma {:induction false} ChainSize(l: seq<Link>, id: int, d: nat)
    requires AtDepth(l, id, d)
    ensures |Chain(l, id, d)| == d
    decreases d
  {
    if d != 0 {
      var p := l[PosOf(l, id).value].parent;
      ChainSize(l, p, d - 1);
      if id in Chain(l, p, d - 1) {
        ChainMembers(l, p, d - 1, id);
        var e: nat :| 0 < e <= d - 1 && AtDepth(l, id, e);
        DepthUnique(l, id, d, e);
      }
    }
  }

  /** Pigeonhole: no channel lies deeper than there are rows. This is why the walk from
      root 0 ends although the table may contain cycles. */
  lemma DepthBound(l: seq<Link>, id: int, d: nat)
    requires AtDepth(l, id, d)
    ensures d <= |l|
  {
    var ids := seq(|l|, i requires 0 <= i < |l| => l[i].id);
    forall x | x in Chain(l, id, d) ensures x in Elements(ids) {
      ChainMembers(l, id, d, x);
      var i :| 0 <= i < |l| && l[i].id == x;
      assert ids[i] == x;
    }
    ChainSize(l, id, d);
    SubsetSize(Chain(l, id, d), Elements(ids));
    ElementsBound(ids);
  }

  lemma ChildDepth(l: seq<Link>, i: nat, d: nat)
    requires Distinct(l) && i < |l| && l[i].kept && AtDepth(l, l[i].parent, d)
    ensures AtDepth(l, l[i].id, d + 1)
    ensures d + 1 <= |l|
  {
    PosOfRow(l, i);
    DepthBound(l, l[i].id, d + 1);
  }

  /** Rows below `p` from position `from` on, each followed by what hangs below it: the
      loop-and-recurse shape both callers share. */
  ghost function Walk(l: seq<Link>, p: int, d: nat, from: nat): seq<Visit>
    requires Distinct(l) && AtDepth(l, p, d) && from <= |l|
    decreases |l| - d, |l| - from
  {
    if from == |l| then []
    else if l[from].kept && l[from].parent == p then
      ChildDepth(l, from, d);
      [Visit(from, d)] + Walk(l, l[from].id, d + 1, 0) + Walk(l, p, d, from + 1)
    else Walk(l, p, d, from + 1)
  }

  /** Position `i` belongs below `p` (at depth `d`), in the subtree of a child of `p` at position
      `from` or later, and `k` is its own depth counted from the root's children. */
  ghost predicate Below(l: seq<Link>, p: int, d: nat, from: nat, v: Visit) {
    && v.pos < |l| && l[v.pos].kept && v.depth >= d
    && AtDepth(l, l[v.pos].id, v.depth + 1)
    && Up(l, l[v.pos].id, v.depth + 1 - d) == p
    && (var c := PosOf(l, Up(l, l[v.pos].id, v.depth - d)); c.Some? && c.value >= from && l[c.value].parent == p)
  }

  /** Going up through a child of `p` leads to `p` one step later. */
  lemma {:induction false} UpStep(l: seq<Link>, id: int, n: nat)
    requires Distinct(l)
    ensures PosOf(l, Up(l, id, n)).Some? ==> Up(l, id, n + 1) == l[PosOf(l, Up(l, id, n)).value].parent
    decreases n
  {
    if n != 0 && PosOf(l, id).Some? {
      UpStep(l, l[PosOf(l, id).value].parent, n - 1);
    }
  }

  /** Every element of the chain short of the root is a kept row. */
  lemma {:induction false} UpIsRow(l: seq<Link>, id: int, d: nat, n: nat)
    requires AtDepth(l, id, d) && n <= d
    ensures AtDepth(l, Up(l, id, n), d - n)
    decreases n
  {
    if n != 0 {
      UpIsRow(l, l[PosOf(l, id).value].parent, d - 1, n - 1);
    }
  }

  /** The walk meets exactly the rows that belong below `p`. */
  lemma {:induction false} WalkVisits(l: seq<Link>, p: int, d: nat, from: nat, v: Visit)
    requires Distinct(l) && AtDepth(l, p, d) && from <= |l|
    ensures v in Walk(l, p, d, from) <==> Below(l, p, d, from, v)
    decreases |l| - d, |l| - from
  {
    if from < |l| {
      WalkVisits(l, p, d, from + 1, v);
      if l[from].kept && l[from].parent == p {
        ChildDepth(l, from, d);
        PosOfRow(l, from);
        WalkVisits(l, l[from].id, d + 1, 0, v);
        if v.pos < |l| && l[v.pos].kept && v.depth >= d && AtDepth(l, l[v.pos].id, v.depth + 1) {
          BelowSplit(l, p, d, from, v);
        }
      }
    }
  }

  lemma BelowSplit(l: seq<Link>, p: int, d: nat, from: nat, v: Visit)
    requires Distinct(l) && AtDepth(l, p, d) && from < |l| && l[from].kept && l[from].parent == p
    requires v.pos < |l| && l[v.pos].kept && v.depth >= d && AtDepth(l, l[v.pos].id, v.depth + 1)
    ensures Below(l, p, d, from, v) <==>
            || v == Visit(from, d)
            || Below(l, l[from].id, d + 1, 0, v)
            || Below(l, p, d, from + 1, v)
  {
    var id := l[v.pos].id;
    var n := v.depth - d;
    PosOfRow(l, from);
    PosOfRow(l, v.pos);
    UpIsRow(l, id, v.depth + 1, n);
    UpStep(l, id, n);
    if n > 0 {
      UpIsRow(l, id, v.depth + 1, n - 1);
      UpStep(l, id, n - 1);
    }
  }

  /** Positions met are pairwise different. */
  lemma {:induction false} WalkDistinct(l: seq<Link>, p: int, d: nat, from: nat, i: nat, j: nat)
    requires Distinct(l) && AtDepth(l, p, d) && from <= |l|
    requires i < j < |Walk(l, p, d, from)|
    ensures Walk(l, p, d, from)[i].pos != Walk(l, p, d, from)[j].pos
    decreases |l| - d, |l| - from
  {
    hide Distinct;
    var w := Walk(l, p, d, from);
    var tail := Walk(l, p, d, from + 1);
    if l[from].kept && l[from].parent == p {
      ChildDepth(l, from, d);
      PosOfRow(l, from);
      var sub := Walk(l, l[from].id, d + 1, 0);
      var a, b := w[i], w[j];
      if i > 0 && j <= |sub| {
        assert w[i] == sub[i - 1] && w[j] == sub[j - 1];
        WalkDistinct(l, l[from].id, d + 1, 0, i - 1, j - 1);
      } else if i > |sub| {
        assert w[i] == tail[i - 1 - |sub|] && w[j] == tail[j - 1 - |sub|];
        WalkDistinct(l, p, d, from + 1, i - 1 - |sub|, j - 1 - |sub|);
      } else {
        if 0 < i {
          assert a == sub[i - 1];
          assert a in sub;
          WalkVisits(l, l[from].id, d + 1, 0, a);
          UpStep(l, l[a.pos].id, a.depth - d);
        }
        if j <= |sub| {
          assert b == sub[j - 1];
          assert b in sub;
          WalkVisits(l, l[from].id, d + 1, 0, b);
        } else {
          assert b == tail[j - 1 - |sub|];
          assert b in tail;
          WalkVisits(l, p, d, from + 1, b);
        }
        if a.pos == b.pos {
          DepthUnique(l, l[a.pos].id, a.depth + 1, b.depth + 1);
        }
      }
    } else {
      WalkDistinct(l, p, d, from + 1, i, j);
    }
  }

  /** A row comes after its parent. */
  lemma {:induction false} WalkParentFirst(l: seq<Link>, p: int, d: nat, from: nat, i: nat)
    requires Distinct(l) && AtDepth(l, p, d) && from <= |l|
    requires i < |Walk(l, p, d, from)|
    ensures var w := Walk(l, p, d, from);
            && w[i].pos < |l|
            && if w[i].depth == d then l[w[i].pos].parent == p
               else exists j :: 0 <= j < i && w[j].pos < |l| && l[w[j].pos].id == l[w[i].pos].parent && w[j].depth + 1 == w[i].depth
    decreases |l| - d, |l| - from
  {
    hide AtDepth, Distinct;
    var w := Walk(l, p, d, from);
    var tail := Walk(l, p, d, from + 1);
    if l[from].kept && l[from].parent == p {
      ChildDepth(l, from, d);
      var sub := Walk(l, l[from].id, d + 1, 0);
      if 0 < i <= |sub| {
        assert w[i] == sub[i - 1];
        WalkParentFirst(l, l[from].id, d + 1, 0, i - 1);
        assert sub[i - 1] in sub;
        WalkVisits(l, l[from].id, d + 1, 0, sub[i - 1]);
        if w[i].depth == d + 1 {
          assert w[0] == Visit(from, d);
        } else {
          var j :| 0 <= j < i - 1 && sub[j].pos < |l| && l[sub[j].pos].id == l[sub[i - 1].pos].parent && sub[j].depth + 1 == sub[i - 1].depth;
          assert w[j + 1] == sub[j];
        }
      } else if i > |sub| {
        var k := i - 1 - |sub|;
        assert w[i] == tail[k];
        WalkParentFirst(l, p, d, from + 1, k);
        if w[i].depth != d {
          var j :| 0 <= j < k && tail[j].pos < |l| && l[tail[j].pos].id == l[tail[k].pos].parent && tail[j].depth + 1 == tail[k].depth;
          assert w[j + 1 + |sub|] == tail[j];
        }
      }
    } else {
      WalkParentFirst(l, p, d, from + 1, i);
    }
  }

  /** The walk from root 0. */
  ghost function WalkAll(l: seq<Link>): seq<Visit>
    requires Distinct(l)
  {
    Walk(l, 0, 0, 0)
  }

  /** The walk meets exactly the kept rows whose chain of kept rows reaches 0, at the depth given
      by the number of their ancestors. */
  lemma {:induction false} WalkAllVisits(l: seq<Link>, v: Visit)
    requires Distinct(l)
    ensures v in WalkAll(l) <==> v.pos < |l| && l[v.pos].kept && AtDepth(l, l[v.pos].id, v.depth + 1)
  {
    WalkVisits(l, 0, 0, 0, v);
    if v.pos < |l| && l[v.pos].kept && AtDepth(l, l[v.pos].id, v.depth + 1) {
      UpIsRow(l, l[v.pos].id, v.depth + 1, v.depth + 1);
      UpIsRow(l, l[v.pos].id, v.depth + 1, v.depth);
      UpStep(l, l[v.pos].id, v.depth);
    }
  }

  lemma WalkAllVisitsAt(l: seq<Link>, i: nat)
    requires Distinct(l) && i < |WalkAll(l)|
    ensures var v := WalkAll(l)[i]; v.pos < |l| && l[v.pos].kept && AtDepth(l, l[v.pos].id, v.depth + 1)
  {
    assert WalkAll(l)[i] in WalkAll(l);
    WalkAllVisits(l, WalkAll(l)[i]);
  }

  /** It meets no row twice. */
  lemma WalkAllOnce(l: seq<Link>, i: nat, j: nat)
    requires Distinct(l) && i < j < |WalkAll(l)|
    ensures WalkAll(l)[i].pos != WalkAll(l)[j].pos
  {
    WalkDistinct(l, 0, 0, 0, i, j);
  }

  /** It meets a row after its parent, one step deeper. */
  lemma WalkAllParentFirst(l: seq<Link>, i: nat) returns (j: nat)
    requires Distinct(l) && i < |WalkAll(l)|
    ensures WalkAll(l)[i].pos < |l|
    ensures WalkAll(l)[i].depth == 0 ==> l[WalkAll(l)[i].pos].parent == 0
    ensures WalkAll(l)[i].depth > 0 ==>
              && j < i && WalkAll(l)[j].pos < |l| && l[WalkAll(l)[j].pos].id == l[WalkAll(l)[i].pos].parent
              && WalkAll(l)[j].depth + 1 == WalkAll(l)[i].depth
  {
    WalkParentFirst(l, 0, 0, 0, i);
    j := 0;
    if WalkAll(l)[i].depth > 0 {
      j :| 0 <= j < i && WalkAll(l)[j].pos < |l| && l[WalkAll(l)[j].pos].id == l[WalkAll(l)[i].pos].parent && WalkAll(l)[j].depth + 1 == WalkAll(l)[i].depth;
    }
  }
}
