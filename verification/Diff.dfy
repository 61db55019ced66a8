/** The resource-level diff behind the backup-restore and draft previews. */
module Diff {
  import opened Collections
  import opened Names
  import opened Analyzer

  /** module, mode, type, name: what identifies a resource block. */
  datatype Identity = Identity(path: string, mode: string, kind: string, name: string)

  function IdentityOf(r: ResourceSummary): Identity {
    Identity(r.path, r.mode, r.kind, r.name)
  }

  /** The map key: the four fields joined by NUL. */
  function Key(r: ResourceSummary): string {
    r.path + [NUL] + (r.mode + [NUL] + (r.kind + [NUL] + r.name))
  }

  predicate Clean(r: ResourceSummary) {
    NUL !in r.path && NUL !in r.mode && NUL !in r.kind && NUL !in r.name
  }

  /** fmt.Sprint of a list of keys: "[a b]". */
  function Printed(keys: seq<string>): string {
    "[" + Join(' ', keys) + "]"
  }

  predicate PlainKeys(keys: seq<string>) {
    forall i :: 0 <= i < |keys| ==> keys[i] != "" && ' ' !in keys[i]
  }

  /** Keys that are not empty and hold no space can be told from what is printed of them; others
      may print alike. */
  lemma PrintedTells(a: seq<string>, b: seq<string>)
    ensures PlainKeys(a) && PlainKeys(b) ==> (Printed(a) == Printed(b) <==> a == b)
    ensures Printed(["x y"]) == Printed(["x", "y"]) && Printed([""]) == Printed([])
  {
    if PlainKeys(a) && PlainKeys(b) && Printed(a) == Printed(b) {
      assert Join(' ', a) == Printed(a)[1..|Printed(a)| - 1] == Printed(b)[1..|Printed(b)| - 1] == Join(' ', b);
      JoinInjective(' ', a, b);
    }
    var two := ["x", "y"];
    assert two[1..] == ["y"];
    assert Join(' ', two) == "x" + " " + "y" == "x y";
  }

  /** What the diff compares of two blocks with one identity. */
  predicate Agree(a: ResourceSummary, b: ResourceSummary) {
    a.instances == b.instances && Printed(a.instanceKeys) == Printed(b.instanceKeys)
  }

  /** The joined key is the identity, for fields without NUL. */
  lemma KeyIsIdentity(a: ResourceSummary, b: ResourceSummary)
    requires Clean(a) && Clean(b)
    ensures Key(a) == Key(b) <==> IdentityOf(a) == IdentityOf(b)
  {
    if Key(a) == Key(b) {
      var ta, tb := a.kind + [NUL] + a.name, b.kind + [NUL] + b.name;
      SplitAtFirst(NUL, a.path, a.mode + [NUL] + ta, b.path, b.mode + [NUL] + tb);
      SplitAtFirst(NUL, a.mode, ta, b.mode, tb);
      SplitAtFirst(NUL, a.kind, a.name, b.kind, b.name);
    }
  }

  /** Without that condition it is not: a NUL in one field can be shifted into the next. */
  lemma KeyCollision()
    ensures exists a: ResourceSummary, b: ResourceSummary :: Key(a) == Key(b) && IdentityOf(a) != IdentityOf(b)
  {
    var n: string := [NUL];
    var a := ResourceSummary("m" + n, "x", "t", "r", "", 1, []);
    var b := ResourceSummary("m", n + "x", "t", "r", "", 1, []);
    assert Key(a) == Key(b) by { assert "m" + n + [NUL] == "m" + [NUL] + n; }
    assert IdentityOf(a) != IdentityOf(b);
  }

  // ---------------------------------------------------------------- specification

  datatype Delta = Delta(added: seq<ResourceSummary>, changed: seq<ResourceSummary>, removed: seq<ResourceSummary>)

  /** The last entry with a key wins, as in a map filled in order. */
  function IndexBy(rs: seq<ResourceSummary>): (m: map<string, ResourceSummary>)
    ensures forall k :: k in m ==> m[k] in rs && Key(m[k]) == k
    ensures forall r :: r in rs ==> Key(r) in m
  {
    if rs == [] then map[]
    else
      var n := |rs| - 1;
      assert rs == rs[..n] + [rs[n]];
      IndexBy(rs[..n])[Key(rs[n]) := rs[n]]
  }

  function Added(proposed: seq<ResourceSummary>, base: map<string, ResourceSummary>): seq<ResourceSummary> {
    if proposed == [] then []
    else
      var p := proposed[|proposed| - 1];
      Added(proposed[..|proposed| - 1], base) + if Key(p) in base then [] else [p]
  }

  function Changed(proposed: seq<ResourceSummary>, base: map<string, ResourceSummary>): seq<ResourceSummary> {
    if proposed == [] then []
    else
      var p := proposed[|proposed| - 1];
      Changed(proposed[..|proposed| - 1], base) + if Key(p) in base && !Agree(base[Key(p)], p) then [p] else []
  }

  function DeltaOf(proposed: seq<ResourceSummary>, current: seq<ResourceSummary>): Delta {
    Delta(Added(proposed, IndexBy(current)), Changed(proposed, IndexBy(current)), Added(current, IndexBy(proposed)))
  }

  method DiffResources(proposed: seq<ResourceSummary>, current: seq<ResourceSummary>) returns (d: Delta)
    ensures d == DeltaOf(proposed, current)
  {
    var currentBy := FillIndex(current);
    var inProposed := FillIndex(proposed);
    var added, changed := CompareWith(proposed, currentBy);
    var removed := Missing(current, inProposed);
    d := Delta(added, changed, removed);
  }

  method CompareWith(proposed: seq<ResourceSummary>, currentBy: map<string, ResourceSummary>)
    returns (added: seq<ResourceSummary>, changed: seq<ResourceSummary>)
    ensures added == Added(proposed, currentBy) && changed == Changed(proposed, currentBy)
  {
    added, changed := [], [];
    for i := 0 to |proposed|
      invariant added == Added(proposed[..i], currentBy) && changed == Changed(proposed[..i], currentBy)
    {
      var p := proposed[i];
      assert proposed[..i + 1][..i] == proposed[..i];
      if Key(p) !in currentBy {
        added := added + [p];
      } else {
        var c := currentBy[Key(p)];
        if c.instances != p.instances || Printed(c.instanceKeys) != Printed(p.instanceKeys) {
          changed := changed + [p];
        }
      }
    }
    assert proposed[..|proposed|] == proposed;
  }

  method Missing(current: seq<ResourceSummary>, inProposed: map<string, ResourceSummary>) returns (removed: seq<ResourceSummary>)
    ensures removed == Added(current, inProposed)
  {
    removed := [];
    for i := 0 to |current|
      invariant removed == Added(current[..i], inProposed)
    {
      assert current[..i + 1][..i] == current[..i];
      if Key(current[i]) !in inProposed {
        removed := removed + [current[i]];
      }
    }
    assert current[..|current|] == current;
  }

  lemma OneMoreIndexed(rs: seq<ResourceSummary>, i: nat)
    requires i < |rs|
    ensures IndexBy(rs[..i + 1]) == IndexBy(rs[..i])[Key(rs[i]) := rs[i]]
  {
    assert rs[..i + 1][..i] == rs[..i];
  }

  method FillIndex(rs: seq<ResourceSummary>) returns (m: map<string, ResourceSummary>)
    ensures m == IndexBy(rs)
  {
    m := map[];
    for i := 0 to |rs|
      invariant m == IndexBy(rs[..i])
    {
      OneMoreIndexed(rs, i);
      m := m[Key(rs[i]) := rs[i]];
    }
    assert rs[..|rs|] == rs;
  }

  // ---------------------------------------------------------------- diff and patch

  /** No two blocks share an identity, and no field carries a NUL. */
  ghost predicate WellIdentified(rs: seq<ResourceSummary>) {
    && (forall r :: r in rs ==> Clean(r))
    && (forall i, j :: 0 <= i < j < |rs| ==> IdentityOf(rs[i]) != IdentityOf(rs[j]))
  }

  /** A state as the diff sees it: per identity, a block up to instance count and printed keys. */
  datatype View = View(instances: int, keys: string)

  function ViewOf(r: ResourceSummary): View {
    View(r.instances, Printed(r.instanceKeys))
  }

  ghost function Picture(rs: seq<ResourceSummary>): map<Identity, View> {
    if rs == [] then map[]
    else
      var r := rs[|rs| - 1];
      Picture(rs[..|rs| - 1])[IdentityOf(r) := ViewOf(r)]
  }

  /** Drop what the delta removes, then put what it changes and adds. */
  ghost function Patch(base: map<Identity, View>, d: Delta): map<Identity, View> {
    (base - (set r | r in d.removed :: IdentityOf(r))) + Picture(d.changed) + Picture(d.added)
  }

  lemma {:induction false} PictureAt(rs: seq<ResourceSummary>, id: Identity)
    ensures id in Picture(rs) <==> exists r :: r in rs && IdentityOf(r) == id
    ensures id in Picture(rs) ==> exists r :: r in rs && IdentityOf(r) == id && ViewOf(r) == Picture(rs)[id]
  {
    if rs != [] {
      var n := |rs| - 1;
      PictureAt(rs[..n], id);
      assert rs == rs[..n] + [rs[n]];
    }
  }

  lemma PictureOf(rs: seq<ResourceSummary>, r: ResourceSummary)
    requires WellIdentified(rs) && r in rs
    ensures IdentityOf(r) in Picture(rs) && Picture(rs)[IdentityOf(r)] == ViewOf(r)
  {
    PictureAt(rs, IdentityOf(r));
  }

  lemma {:induction false} AddedMembers(ps: seq<ResourceSummary>, base: map<string, ResourceSummary>, r: ResourceSummary)
    ensures r in Added(ps, base) <==> r in ps && Key(r) !in base
    ensures r in Changed(ps, base) <==> r in ps && Key(r) in base && !Agree(base[Key(r)], r)
  {
    if ps != [] {
      var n := |ps| - 1;
      AddedMembers(ps[..n], base, r);
      assert ps == ps[..n] + [ps[n]];
    }
  }

  /** A key of the index is an identity of the list. */
  lemma IndexPicture(rs: seq<ResourceSummary>, r: ResourceSummary)
    requires WellIdentified(rs) && Clean(r)
    ensures Key(r) in IndexBy(rs) <==> IdentityOf(r) in Picture(rs)
    ensures Key(r) in IndexBy(rs) ==> (Agree(IndexBy(rs)[Key(r)], r) <==> Picture(rs)[IdentityOf(r)] == ViewOf(r))
  {
    PictureAt(rs, IdentityOf(r));
    if Key(r) in IndexBy(rs) {
      var c := IndexBy(rs)[Key(r)];
      KeyIsIdentity(c, r);
      PictureOf(rs, c);
    } else {
      forall c | c in rs ensures IdentityOf(c) != IdentityOf(r) { KeyIsIdentity(c, r); }
    }
  }

  /** The delta described by pictures alone: in `added` the identities only proposed has, in
      `removed` those only current has, in `changed` those both have with different views. */
  lemma DeltaMembers(proposed: seq<ResourceSummary>, current: seq<ResourceSummary>, r: ResourceSummary)
    requires WellIdentified(proposed) && WellIdentified(current)
    ensures var d, now := DeltaOf(proposed, current), Picture(current);
            && (r in d.added <==> r in proposed && IdentityOf(r) !in now)
            && (r in d.changed <==> r in proposed && IdentityOf(r) in now && now[IdentityOf(r)] != ViewOf(r))
            && (r in d.removed <==> r in current && IdentityOf(r) !in Picture(proposed))
  {
    AddedMembers(proposed, IndexBy(current), r);
    AddedMembers(current, IndexBy(proposed), r);
    if Clean(r) {
      IndexPicture(current, r);
      IndexPicture(proposed, r);
    }
  }

  /** Applying the delta to current gives proposed, as far as the diff looks. */
  lemma PatchGivesProposed(proposed: seq<ResourceSummary>, current: seq<ResourceSummary>)
    requires WellIdentified(proposed) && WellIdentified(current)
    ensures Patch(Picture(current), DeltaOf(proposed, current)) == Picture(proposed)
  {
    var d := DeltaOf(proposed, current);
    var p, want := Patch(Picture(current), d), Picture(proposed);
    forall id ensures id in p <==> id in want
              ensures id in p && id in want ==> p[id] == want[id]
    {
      PatchAt(proposed, current, id);
    }
  }

  lemma PatchAt(proposed: seq<ResourceSummary>, current: seq<ResourceSummary>, id: Identity)
    requires WellIdentified(proposed) && WellIdentified(current)
    ensures var p, want := Patch(Picture(current), DeltaOf(proposed, current)), Picture(proposed);
            (id in p <==> id in want) && (id in want ==> p[id] == want[id])
  {
    var d := DeltaOf(proposed, current);
    var now, want := Picture(current), Picture(proposed);
    PictureAt(d.added, id);
    PictureAt(d.changed, id);
    PictureAt(proposed, id);
    PictureAt(current, id);
    if id in want {
      var r :| r in proposed && IdentityOf(r) == id && ViewOf(r) == want[id];
      DeltaMembers(proposed, current, r);
      forall q | q in d.added + d.changed && IdentityOf(q) == id ensures ViewOf(q) == want[id] {
        DeltaMembers(proposed, current, q);
        PictureOf(proposed, q);
      }
      forall q | q in d.removed ensures IdentityOf(q) != id { DeltaMembers(proposed, current, q); }
    } else {
      forall q | q in d.added + d.changed ensures IdentityOf(q) != id { DeltaMembers(proposed, current, q); }
      if id in now {
        var r :| r in current && IdentityOf(r) == id;
        DeltaMembers(proposed, current, r);
      }
    }
  }

  /** The diff is empty exactly when the two states look the same. */
  lemma EmptyDiff(proposed: seq<ResourceSummary>, current: seq<ResourceSummary>)
    requires WellIdentified(proposed) && WellIdentified(current)
    ensures DeltaOf(proposed, current) == Delta([], [], []) <==> Picture(proposed) == Picture(current)
  {
    var d := DeltaOf(proposed, current);
    if d == Delta([], [], []) {
      PatchGivesProposed(proposed, current);
      assert Patch(Picture(current), d) == Picture(current);
    } else if Picture(proposed) == Picture(current) {
      var all := d.added + d.changed + d.removed;
      assert |all| > 0;
      var r := all[0];
      assert r in d.added || r in d.changed || r in d.removed;
      DeltaMembers(proposed, current, r);
      if r in current { PictureOf(current, r); }
      if r in proposed { PictureOf(proposed, r); }
    }
  }

  /** For keys that can be told apart: no difference is reported exactly when both states have the
      same blocks, each with the same number of instances under the same keys. */
  lemma EmptyDiffByFields(proposed: seq<ResourceSummary>, current: seq<ResourceSummary>)
    requires WellIdentified(proposed) && WellIdentified(current)
    requires forall r :: r in proposed + current ==> PlainKeys(r.instanceKeys)
    ensures DeltaOf(proposed, current) == Delta([], [], [])
            <==> (forall r :: r in proposed ==> Has(current, r)) && (forall r :: r in current ==> Has(proposed, r))
  {
    var d := DeltaOf(proposed, current);
    forall r | r in proposed ensures Has(current, r) <==> r !in d.added && r !in d.changed { Reported(proposed, current, r); }
    forall r | r in current ensures Has(proposed, r) ==> r !in d.removed { Reported(current, proposed, r); }
    if d == Delta([], [], []) {
      EmptyDiff(proposed, current);
      EmptyDiff(current, proposed);
      forall r | r in current ensures Has(proposed, r) { Reported(current, proposed, r); }
    } else {
      var all := d.added + d.changed + d.removed;
      assert |all| > 0;
      var r := all[0];
      assert r in d.added || r in d.changed || r in d.removed;
      DeltaMembers(proposed, current, r);
    }
  }

  /** Some block of rs is like r. */
  ghost predicate Has(rs: seq<ResourceSummary>, r: ResourceSummary) {
    exists q :: q in rs && q.path == r.path && q.mode == r.mode && q.kind == r.kind && q.name == r.name
                && q.instances == r.instances && q.instanceKeys == r.instanceKeys
  }

  lemma Reported(proposed: seq<ResourceSummary>, current: seq<ResourceSummary>, r: ResourceSummary)
    requires WellIdentified(proposed) && WellIdentified(current) && r in proposed
    requires forall q :: q in proposed + current ==> PlainKeys(q.instanceKeys)
    ensures Has(current, r) <==> r !in DeltaOf(proposed, current).added && r !in DeltaOf(proposed, current).changed
  {
    var id, now := IdentityOf(r), Picture(current);
    DeltaMembers(proposed, current, r);
    PictureAt(current, id);
    forall q | q in current && IdentityOf(q) == id ensures now[id] == ViewOf(q) && (ViewOf(q) == ViewOf(r) <==> q.instances == r.instances && q.instanceKeys == r.instanceKeys) {
      PictureOf(current, q);
      PrintedTells(q.instanceKeys, r.instanceKeys);
    }
  }

  /** Diffing the other way round exchanges added and removed, entry for entry, and changes
      the same identities. */
  lemma SwapExchanges(proposed: seq<ResourceSummary>, current: seq<ResourceSummary>)
    requires WellIdentified(proposed) && WellIdentified(current)
    ensures var d, e := DeltaOf(proposed, current), DeltaOf(current, proposed);
            && e.added == d.removed && e.removed == d.added
            && (forall id :: id in Picture(e.changed) <==> id in Picture(d.changed))
  {
    forall id ensures id in Picture(DeltaOf(current, proposed).changed) <==> id in Picture(DeltaOf(proposed, current).changed) {
      ChangedIdentities(proposed, current, id);
      ChangedIdentities(current, proposed, id);
    }
  }

  lemma ChangedIdentities(proposed: seq<ResourceSummary>, current: seq<ResourceSummary>, id: Identity)
    requires WellIdentified(proposed) && WellIdentified(current)
    ensures id in Picture(DeltaOf(proposed, current).changed)
            <==> id in Picture(proposed) && id in Picture(current) && Picture(proposed)[id] != Picture(current)[id]
  {
    var d := DeltaOf(proposed, current);
    PictureAt(d.changed, id);
    PictureAt(proposed, id);
    forall q | q in d.changed && IdentityOf(q) == id
      ensures id in Picture(proposed) && id in Picture(current) && Picture(proposed)[id] != Picture(current)[id]
    {
      DeltaMembers(proposed, current, q);
      PictureOf(proposed, q);
    }
    if id in Picture(proposed) {
      var r :| r in proposed && IdentityOf(r) == id && ViewOf(r) == Picture(proposed)[id];
      DeltaMembers(proposed, current, r);
    }
  }
}
