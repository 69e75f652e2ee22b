/** Importing a channel tree (pkg/server/config.go), from the parsed tree on. */
module ChannelImport {
  import opened Prelude
  import opened Store
  import opened TreeWalk
  import opened ChannelExport

  function AsChannel(ch: ChannelYAML, parentID: int): Channel {
    Channel(0, ch.name, ch.description, ch.maxUsers, parentID, false, ch.allowSubChannels)
  }

  /** The channel for one node: found under its parent, else created if valid. */
  ghost function Node(t: Table, ch: ChannelYAML, p: int): (Table, Option<int>) {
    if t.Find(ch.name, p).Some? then (t, t.Find(ch.name, p))
    else if Validate(AsChannel(ch, p)).Some? then (t, None)
    else (t.Added(AsChannel(ch, p)), Some(t.next))
  }

  /** `ensureChannel`: the table afterwards, and whether no error was met. */
  ghost function Ensured(t: Table, ch: ChannelYAML, p: int): (Table, bool)
    decreases ch
  {
    var (t1, id) := Node(t, ch, p);
    if id.None? then (t1, false) else EnsuredEach(t1, ch.channels, id.value)
  }

  /** The first error stops the rest of the list. */
  ghost function EnsuredEach(t: Table, f: seq<ChannelYAML>, p: int): (Table, bool)
    decreases f
  {
    if f == [] then (t, true)
    else
      var (t1, ok) := Ensured(t, f[0], p);
      if !ok then (t1, false) else EnsuredEach(t1, f[1..], p)
  }

  /** At top level an error only skips the one tree. */
  ghost function Imported(t: Table, f: seq<ChannelYAML>): Table
    decreases f
  {
    if f == [] then t else Imported(Ensured(t, f[0], 0).0, f[1..])
  }

  /** The channel a node stands for: its own fields, permanent, below the given parent. */
  lemma NodeFields(t: Table, ch: ChannelYAML, p: int)
    ensures var (u, id) := Node(t, ch, p);
            id == Some(t.next) && t.Find(ch.name, p).None? ==>
              u.rows == t.rows[t.next := Channel(t.next, ch.name, ch.description, ch.maxUsers, p, false, ch.allowSubChannels)]
  {
    hide Validate;
  }

  // Names may repeat under a parent, and then the channel that is found depends on the order in which a
  // map is walked. These predicates describe every possible outcome.

  ghost predicate MayEnsure(t: Table, ch: ChannelYAML, p: int, u: Table, ok: bool)
    decreases ch
  {
    || (exists id :: t.Matches(id, ch.name, p) && MayEnsureEach(t, ch.channels, id, u, ok))
    || ((forall id :: !t.Matches(id, ch.name, p)) &&
        if Validate(AsChannel(ch, p)).Some? then u == t && !ok
        else MayEnsureEach(t.Added(AsChannel(ch, p)), ch.channels, t.next, u, ok))
  }

  ghost predicate MayEnsureEach(t: Table, f: seq<ChannelYAML>, p: int, u: Table, ok: bool)
    decreases f
  {
    if f == [] then u == t && ok
    else (exists v: Table :: v.WellFormed() && MayEnsure(t, f[0], p, v, true) && MayEnsureEach(v, f[1..], p, u, ok)) || (MayEnsure(t, f[0], p, u, false) && !ok)
  }

  ghost predicate MayImport(t: Table, f: seq<ChannelYAML>, u: Table)
    decreases f
  {
    if f == [] then u == t
    else exists v, ok :: MayEnsure(t, f[0], 0, v, ok) && MayImport(v, f[1..], u)
  }

  lemma MayNext(t: Table, f: seq<ChannelYAML>, p: int, v: Table, ok1: bool, u: Table, ok: bool)
    requires f != [] && v.WellFormed() && MayEnsure(t, f[0], p, v, ok1)
    requires if ok1 then MayEnsureEach(v, f[1..], p, u, ok) else u == v && !ok
    ensures MayEnsureEach(t, f, p, u, ok)
  {
  }

  lemma MayNode(t: Table, ch: ChannelYAML, p: int, t1: Table, id: int, u: Table, ok: bool)
    requires (t.Matches(id, ch.name, p) && t1 == t)
          || ((forall i :: !t.Matches(i, ch.name, p)) && Validate(AsChannel(ch, p)).None? && t1 == t.Added(AsChannel(ch, p)) && id == t.next)
    requires MayEnsureEach(t1, ch.channels, id, u, ok)
    ensures MayEnsure(t, ch, p, u, ok)
  {
    hide Validate;
  }

  /** With unique names there is one outcome. */
  lemma {:induction false} MayEnsureUnique(t: Table, ch: ChannelYAML, p: int, u: Table, ok: bool)
    requires t.WellFormed() && t.UniqueNames() && MayEnsure(t, ch, p, u, ok)
    ensures (u, ok) == Ensured(t, ch, p)
    decreases ch
  {
    hide Validate;
    NodeGrows(t, ch, p);
    var (t1, id) := Node(t, ch, p);
    if id.Some? { MayEnsureEachUnique(t1, ch.channels, id.value, u, ok); }
  }

  lemma {:induction false} MayEnsureEachUnique(t: Table, f: seq<ChannelYAML>, p: int, u: Table, ok: bool)
    requires t.WellFormed() && t.UniqueNames()
    ensures MayEnsureEach(t, f, p, u, ok) ==> (u, ok) == EnsuredEach(t, f, p)
    decreases f
  {
    if f != [] && MayEnsureEach(t, f, p, u, ok) {
      EnsuredGrows(t, f[0], p);
      if v: Table :| v.WellFormed() && MayEnsure(t, f[0], p, v, true) && MayEnsureEach(v, f[1..], p, u, ok) {
        MayEnsureUnique(t, f[0], p, v, true);
        MayEnsureEachUnique(v, f[1..], p, u, ok);
      } else {
        MayEnsureUnique(t, f[0], p, u, false);
      }
    }
  }

  lemma {:induction false} MayImportUnique(t: Table, f: seq<ChannelYAML>, u: Table)
    requires t.WellFormed() && t.UniqueNames() && MayImport(t, f, u)
    ensures u == Imported(t, f)
    decreases f
  {
    if f != [] {
      var v, ok :| MayEnsure(t, f[0], 0, v, ok) && MayImport(v, f[1..], u);
      MayEnsureUnique(t, f[0], 0, v, ok);
      EnsuredGrows(t, f[0], 0);
      MayImportUnique(v, f[1..], u);
    }
  }

  lemma GrownTrans(t: Table, u: Table, v: Table)
    requires t.GrownTo(u) && u.GrownTo(v)
    ensures t.GrownTo(v)
  {
  }

  lemma NodeGrows(t: Table, ch: ChannelYAML, p: int)
    requires t.WellFormed()
    ensures var (t1, id) := Node(t, ch, p);
            t1.WellFormed() && t.GrownTo(t1) && (t.UniqueNames() ==> t1.UniqueNames()) && (id.Some? ==> t1.Matches(id.value, ch.name, p))
  {
    if t.Find(ch.name, p).None? {
      assert forall id :: id in t.rows && t.rows[id].name == ch.name && t.rows[id].parentID == p ==> t.Matches(id, ch.name, p);
    }
  }

  lemma {:induction false} EnsuredGrows(t: Table, ch: ChannelYAML, p: int)
    requires t.WellFormed()
    ensures var t1 := Ensured(t, ch, p).0; t1.WellFormed() && t.GrownTo(t1) && (t.UniqueNames() ==> t1.UniqueNames())
    decreases ch
  {
    NodeGrows(t, ch, p);
    var (t1, id) := Node(t, ch, p);
    if id.Some? {
      EnsuredEachGrows(t1, ch.channels, id.value);
      GrownTrans(t, t1, Ensured(t, ch, p).0);
    }
  }

  lemma {:induction false} EnsuredEachGrows(t: Table, f: seq<ChannelYAML>, p: int)
    requires t.WellFormed()
    ensures var t1 := EnsuredEach(t, f, p).0; t1.WellFormed() && t.GrownTo(t1) && (t.UniqueNames() ==> t1.UniqueNames())
    decreases f
  {
    if f != [] {
      EnsuredGrows(t, f[0], p);
      var (t1, ok) := Ensured(t, f[0], p);
      if ok {
        EnsuredEachGrows(t1, f[1..], p);
        GrownTrans(t, t1, EnsuredEach(t, f, p).0);
      }
    }
  }

  /** Whatever the store holds, the outcome is one of the possible ones, and channels are only added: valid
      and permanent ones. With unique names `MayEnsureUnique` says which outcome it is. */
  method EnsureChannel(st: MemoryStore, ch: ChannelYAML, parentID: int) returns (ok: bool)
    requires st.View().WellFormed()
    modifies st
    ensures st.View().WellFormed() && old(st.View()).GrownTo(st.View())
    ensures MayEnsure(old(st.View()), ch, parentID, st.View(), ok)
    ensures old(st.View()).UniqueNames() ==> (st.View(), ok) == Ensured(old(st.View()), ch, parentID) && st.View().UniqueNames()
    decreases ch
  {
    hide MayEnsure, MayEnsureEach, Validate, Ensured, Table.UniqueNames;
    ghost var t0 := st.View();
    var existing := st.GetChannelByNameAndParent(ch.name, parentID);
    var channelID: int;
    if existing.Some? {
      channelID := existing.value.id;
    } else {
      var id, err := st.CreateChannel(AsChannel(ch, parentID));
      if err.Some? {
        MayFail(t0, ch, parentID);
        OneOutcome(t0, ch, parentID, st.View(), false);
        return false;
      }
      channelID := id;
    }
    ghost var t1 := st.View();
    CreatedGrows(t0, ch, parentID);
    for i := 0 to |ch.channels|
      invariant st.View().WellFormed() && t1.GrownTo(st.View())
      invariant forall u, r :: MayEnsureEach(st.View(), ch.channels[i..], channelID, u, r) ==> MayEnsureEach(t1, ch.channels, channelID, u, r)
    {
      ghost var before := st.View();
      ok := EnsureChannel(st, ch.channels[i], channelID);
      GrownTrans(t1, before, st.View());
      assert ch.channels[i..][1..] == ch.channels[i + 1..];
      if !ok {
        GrownTrans(t0, t1, st.View());
        MayNext(before, ch.channels[i..], channelID, st.View(), false, st.View(), false);
        MayNode(t0, ch, parentID, t1, channelID, st.View(), false);
        OneOutcome(t0, ch, parentID, st.View(), false);
        return false;
      }
      forall u, r | MayEnsureEach(st.View(), ch.channels[i + 1..], channelID, u, r) ensures MayEnsureEach(t1, ch.channels, channelID, u, r) {
        MayNext(before, ch.channels[i..], channelID, st.View(), true, u, r);
      }
    }
    GrownTrans(t0, t1, st.View());
    MayEnd(st.View(), ch.channels[|ch.channels|..], channelID);
    MayNode(t0, ch, parentID, t1, channelID, st.View(), true);
    OneOutcome(t0, ch, parentID, st.View(), true);
    ok := true;
  }

  lemma OneOutcome(t: Table, ch: ChannelYAML, p: int, u: Table, ok: bool)
    requires t.WellFormed() && MayEnsure(t, ch, p, u, ok)
    ensures t.UniqueNames() ==> (u, ok) == Ensured(t, ch, p) && u.UniqueNames()
  {
    hide MayEnsure, Ensured;
    if t.UniqueNames() {
      MayEnsureUnique(t, ch, p, u, ok);
      EnsuredGrows(t, ch, p);
    }
  }

  lemma CreatedGrows(t: Table, ch: ChannelYAML, p: int)
    requires t.WellFormed()
    ensures t.GrownTo(t) && (Validate(AsChannel(ch, p)).None? ==> t.GrownTo(t.Added(AsChannel(ch, p))))
  {
  }

  lemma MayEnd(t: Table, f: seq<ChannelYAML>, p: int)
    requires f == []
    ensures MayEnsureEach(t, f, p, t, true) && (p == 0 ==> MayImport(t, f, t))
  {
  }

  lemma MayFail(t: Table, ch: ChannelYAML, p: int)
    requires (forall id :: !t.Matches(id, ch.name, p)) && Validate(AsChannel(ch, p)).Some?
    ensures MayEnsure(t, ch, p, t, false)
  {
  }

  /** The first error in one tree only skips the rest of that tree. */
  method ImportChannels(st: MemoryStore, cfg: seq<ChannelYAML>)
    requires st.View().WellFormed()
    modifies st
    ensures st.View().WellFormed() && old(st.View()).GrownTo(st.View())
    ensures MayImport(old(st.View()), cfg, st.View())
    ensures old(st.View()).UniqueNames() ==> st.View() == Imported(old(st.View()), cfg) && st.View().UniqueNames()
  {
    hide MayEnsure, MayImport, Imported, Ensured, Table.UniqueNames;
    ghost var t0 := st.View();
    for i := 0 to |cfg|
      invariant st.View().WellFormed() && t0.GrownTo(st.View())
      invariant forall u :: MayImport(st.View(), cfg[i..], u) ==> MayImport(t0, cfg, u)
      invariant t0.UniqueNames() ==> st.View().UniqueNames()
    {
      ghost var before := st.View();
      var ok := EnsureChannel(st, cfg[i], 0);
      GrownTrans(t0, before, st.View());
      assert cfg[i..][1..] == cfg[i + 1..];
      forall u | MayImport(st.View(), cfg[i + 1..], u) ensures MayImport(t0, cfg, u) {
        MayImportNext(before, cfg[i..], st.View(), ok, u);
      }
    }
    MayEnd(st.View(), cfg[|cfg|..], 0);
    if t0.UniqueNames() { MayImportUnique(t0, cfg, st.View()); }
  }

  lemma MayImportNext(t: Table, f: seq<ChannelYAML>, v: Table, ok: bool, u: Table)
    requires f != [] && MayEnsure(t, f[0], 0, v, ok) && MayImport(v, f[1..], u)
    ensures MayImport(t, f, u)
  {
  }

  // ----- Errors -----

  /** A node that is neither found nor valid. */
  ghost predicate Bad(t: Table, ch: ChannelYAML, p: int) {
    (forall id :: !t.Matches(id, ch.name, p)) && Validate(AsChannel(ch, p)).Some?
  }

  lemma BadFails(t: Table, ch: ChannelYAML, p: int)
    requires Bad(t, ch, p)
    ensures Ensured(t, ch, p) == (t, false)
  {
    hide Validate;
  }

  /** Below one parent a bad node ends the work: what came before it stays, what comes after it is not looked
      at, whatever it is. */
  lemma {:induction false} ErrorStops(t: Table, before: seq<ChannelYAML>, bad: ChannelYAML, after: seq<ChannelYAML>, p: int)
    requires EnsuredEach(t, before, p).1 && Bad(EnsuredEach(t, before, p).0, bad, p)
    ensures EnsuredEach(t, before + [bad] + after, p) == (EnsuredEach(t, before, p).0, false)
    decreases |before|
  {
    hide Ensured, Bad;
    if before == [] {
      BadFails(t, bad, p);
      assert (before + [bad] + after)[0] == bad;
    } else {
      var u := Ensured(t, before[0], p).0;
      ErrorStops(u, before[1..], bad, after, p);
      assert (before + [bad] + after)[1..] == before[1..] + [bad] + after;
    }
  }

  /** At top level a bad node is skipped, and the others are imported as without it. */
  lemma BadRootSkipped(t: Table, bad: ChannelYAML, after: seq<ChannelYAML>)
    requires Bad(t, bad, 0)
    ensures Imported(t, [bad] + after) == Imported(t, after)
  {
    hide Bad;
    BadFails(t, bad, 0);
    assert ([bad] + after)[1..] == after;
  }

  /** A channel that has been created stays, whatever goes wrong below it. */
  lemma CreatedStays(t: Table, ch: ChannelYAML, p: int)
    requires t.WellFormed() && t.Find(ch.name, p).None? && Validate(AsChannel(ch, p)).None?
    ensures var rows := Ensured(t, ch, p).0.rows;
            t.next in rows && rows[t.next] == Channel(t.next, ch.name, ch.description, ch.maxUsers, p, false, ch.allowSubChannels)
  {
    hide Validate, EnsuredEach;
    NodeGrows(t, ch, p);
    EnsuredEachGrows(Node(t, ch, p).0, ch.channels, t.next);
  }

  // ----- Importing twice, and importing one's own export -----

  ghost predicate Valid(f: seq<ChannelYAML>) {
    f != [] ==> Validate(AsChannel(f[0], 0)).None? && Valid(f[0].channels) && Valid(f[1..])
  }

  /** Every node of the forest is found, its children below it. */
  ghost predicate Present(t: Table, f: seq<ChannelYAML>, p: int) {
    f != [] ==> t.Find(f[0].name, p).Some? && Present(t, f[0].channels, t.Find(f[0].name, p).value) && Present(t, f[1..], p)
  }

  lemma {:induction false} PresentKept(t: Table, u: Table, f: seq<ChannelYAML>, p: int)
    requires t.GrownTo(u) && u.UniqueNames() && Present(t, f, p)
    ensures Present(u, f, p)
  {
    if f != [] {
      var id := t.Find(f[0].name, p).value;
      assert u.Matches(id, f[0].name, p);
      assert u.Find(f[0].name, p) == Some(id);
      PresentKept(t, u, f[0].channels, id);
      PresentKept(t, u, f[1..], p);
    }
  }

  lemma {:induction false} PresentMeansNoChange(t: Table, f: seq<ChannelYAML>, p: int)
    requires Present(t, f, p)
    ensures EnsuredEach(t, f, p) == (t, true)
  {
    if f != [] {
      PresentMeansNoChange(t, f[0].channels, t.Find(f[0].name, p).value);
      PresentMeansNoChange(t, f[1..], p);
    }
  }

  lemma {:induction false} EnsuredEachPresent(t: Table, f: seq<ChannelYAML>, p: int)
    requires t.WellFormed() && t.UniqueNames() && Valid(f) && 0 <= p
    ensures EnsuredEach(t, f, p).1 && Present(EnsuredEach(t, f, p).0, f, p)
    decreases f
  {
    if f != [] {
      NodeGrows(t, f[0], p);
      assert Validate(AsChannel(f[0], p)) == Validate(AsChannel(f[0], 0));
      var (t1, id) := Node(t, f[0], p);
      EnsuredEachPresent(t1, f[0].channels, id.value);
      EnsuredEachGrows(t1, f[0].channels, id.value);
      var t2 := EnsuredEach(t1, f[0].channels, id.value).0;
      EnsuredEachPresent(t2, f[1..], p);
      EnsuredEachGrows(t2, f[1..], p);
      var t3 := EnsuredEach(t2, f[1..], p).0;
      GrownTrans(t1, t2, t3);
      assert t3.Matches(id.value, f[0].name, p);
      assert t3.Find(f[0].name, p) == id;
      PresentKept(t2, t3, f[0].channels, id.value);
    }
  }

  lemma {:induction false} ImportedIsEnsuredEach(t: Table, f: seq<ChannelYAML>)
    requires EnsuredEach(t, f, 0).1
    ensures Imported(t, f) == EnsuredEach(t, f, 0).0
    decreases f
  {
    if f != [] {
      ImportedIsEnsuredEach(Ensured(t, f[0], 0).0, f[1..]);
    }
  }

  /** Importing a valid configuration a second time changes nothing. */
  lemma ImportIdempotent(t: Table, f: seq<ChannelYAML>)
    requires t.WellFormed() && t.UniqueNames() && Valid(f)
    ensures Imported(Imported(t, f), f) == Imported(t, f)
  {
    EnsuredEachPresent(t, f, 0);
    ImportedIsEnsuredEach(t, f);
    var t1 := Imported(t, f);
    PresentMeansNoChange(t1, f, 0);
    ImportedIsEnsuredEach(t1, f);
  }

  lemma {:induction false} TreePresent(t: Table, l: seq<Channel>, p: int, d: nat, from: nat)
    requires t.WellFormed() && t.UniqueNames() && IsListing(t.rows, l)
    requires Distinct(LinksOf(l)) && AtDepth(LinksOf(l), p, d) && from <= |l|
    ensures Present(t, Tree(l, p, d, from), p)
    decreases |l| - d, |l| - from
  {
    hide AtDepth, Distinct, Table.WellFormed;
    if from < |l| {
      TreePresent(t, l, p, d, from + 1);
      if l[from].parentID == p && !l[from].isTemp {
        ChildDepth(LinksOf(l), from, d);
        TreePresent(t, l, l[from].id, d + 1, 0);
        assert l[from] in l;
        assert t.Matches(l[from].id, l[from].name, p);
        assert t.Find(l[from].name, p) == Some(l[from].id);
        var f := Tree(l, p, d, from);
        assert f[1..] == Tree(l, p, d, from + 1);
      }
    }
  }

  /** Importing what the same store just exported changes nothing. */
  lemma ReimportOwnExport(t: Table, l: seq<Channel>)
    requires t.WellFormed() && t.UniqueNames() && IsListing(t.rows, l)
    ensures Distinct(LinksOf(l)) && Imported(t, Exported(l)) == t
  {
    ListingDistinct(t, l);
    TreePresent(t, l, 0, 0, 0);
    PresentMeansNoChange(t, Exported(l), 0);
    ImportedIsEnsuredEach(t, Exported(l));
  }
}
