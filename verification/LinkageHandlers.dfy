/** The schedule and connection handlers run without interruption: the same steps, and what a
    caller gets from them. */
module LinkageHandlers {
  import opened Collections
  import opened Names
  import opened Tenancy
  import opened Targets
  import opened Linkage

  predicate AllLoad(w: World, refs: seq<Ref>, org: Org) {
    forall r :: r in refs ==> Loads(w, r, OrganizationScope(org))
  }

  function SetOf(refs: seq<Ref>): set<Ref> {
    set r | r in refs
  }

  lemma {:induction false} SourceRefsLoad(w: World, items: seq<Item>, org: Org)
    ensures AllLoad(w, SourceRefs(items), org)
            <==> forall i :: 0 <= i < |items| && items[i].source != "" ==> Loads(w, Ref(Sources, items[i].source), OrganizationScope(org))
  {
    forall i | 0 <= i < |items| && items[i].source != "" ensures Ref(Sources, items[i].source) in SourceRefs(items) {
      ItemRef(items, i);
    }
    if items != [] {
      SourceRefsLoad(w, items[1..], org);
    }
  }

  /** Handler p with its first i references checked. */
  function Checked(w: World, p: nat, i: nat): World
    requires p in w.pending && i <= |w.pending[p].todo|
  {
    var q := w.pending[p];
    w.(pending := w.pending[p := q.(todo := q.todo[i..], done := SetOf(q.todo[..i]))])
  }

  lemma NothingChecked(w: World, p: nat)
    requires p in w.pending && w.pending[p].done == {}
    ensures Checked(w, p, 0) == w
  {
    var q := w.pending[p];
    assert q.todo[0..] == q.todo && q.todo[..0] == [];
    assert SetOf(q.todo[..0]) == {};
    assert q.(todo := q.todo[0..], done := SetOf(q.todo[..0])) == q;
    assert w.pending[p := q] == w.pending;
  }

  lemma CheckAdvances(w: World, p: nat, i: nat)
    requires p in w.pending && i < |w.pending[p].todo| && !w.pending[p].action.Dispatch?
    ensures var q := w.pending[p];
            Step(Checked(w, p, i), Check(p)) ==
            if Loads(w, q.todo[i], OrganizationScope(q.org)) then Checked(w, p, i + 1) else Drop(w, p)
  {
    var q, c := w.pending[p], Checked(w, p, i);
    assert q.credential + [] == q.credential;
    assert q.todo[i..][0] == q.todo[i] && q.todo[i..][1..] + [] == q.todo[i + 1..];
    assert q.todo[..i + 1] == q.todo[..i] + [q.todo[i]];
    assert SetOf(q.todo[..i + 1]) == SetOf(q.todo[..i]) + {q.todo[i]};
    assert c.pending - {p} == w.pending - {p};
    var next := q.(todo := q.todo[i + 1..], done := SetOf(q.todo[..i + 1]));
    assert c.pending[p := next] == w.pending[p := next];
  }

  /** Handler p with all its references checked. */
  function Passed(w: World, p: nat): World
    requires p in w.pending
  {
    var q := w.pending[p];
    w.(pending := w.pending[p := q.(todo := [], done := SetOf(q.todo))])
  }

  lemma PassedRest(w: World, p: nat, org: Org, todo: seq<Ref>, a: Action)
    requires p !in w.pending
    ensures var b := Begin(w, p, org, todo, a);
            && p in b.pending && Drop(b, p) == w && Drop(Passed(b, p), p) == w
            && Passed(b, p) == w.(pending := w.pending[p := Pending(org, [], SetOf(todo), a, [])])
  {
    var b := Begin(w, p, org, todo, a);
    assert b.pending - {p} == w.pending && Passed(b, p).pending - {p} == w.pending;
  }

  /** A create that passed its checks adds its row. */
  lemma CreateCommits(w: World, p: nat, org: Org, todo: seq<Ref>, a: Action, id: Id)
    requires p !in w.pending && (a.CreateSchedule? || a.CreateConnection?)
    ensures p in Begin(w, p, org, todo, a).pending
    ensures Step(Passed(Begin(w, p, org, todo, a), p), Commit(p, id))
            == AddRow(w, id, if a.CreateSchedule? then ScheduleRow(org, a.target, a.enabled) else ConnectionRow(org, a.config, a.hasToken))
  {
    PassedRest(w, p, org, todo, a);
    var v := Passed(Begin(w, p, org, todo, a), p);
    assert v.pending - {p} == w.pending;
  }

  /** An update that passed its checks changes its row, which is still there. */
  lemma UpdateCommits(w: World, p: nat, org: Org, todo: seq<Ref>, a: Action, other: Id)
    requires p !in w.pending && (a.UpdateSchedule? || a.UpdateConnection?)
    requires Loads(w, Ref(if a.UpdateSchedule? then Schedules else Connections, a.id), a.scope)
    ensures p in Begin(w, p, org, todo, a).pending
    ensures Step(Passed(Begin(w, p, org, todo, a), p), Commit(p, other))
            == Update(w, a.id, if a.UpdateSchedule? then w.rows[a.id].(target := a.target, enabled := a.enabled)
                               else w.rows[a.id].(config := a.config, hasToken := a.hasToken || w.rows[a.id].hasToken))
  {
    PassedRest(w, p, org, todo, a);
    var v := Passed(Begin(w, p, org, todo, a), p);
    assert v.pending - {p} == w.pending;
  }

  lemma LoadsByField(w: World, r: Ref, org: Org)
    ensures Loads(w, r, OrganizationScope(org))
            <==> !Blank(org) && match r.table
                 case Sources => IsSource(w, r.id, org)
                 case CISources => IsCISource(w, r.id, org)
                 case Connections => IsConnection(w, r.id, org)
                 case _ => Exists(w, r) && w.rows[r.id].org == org
  {
    if r.id in w.rows { DerivedScopes(org, w.rows[r.id].org); }
  }

  /** When the references of a connection's config check out. */
  lemma ConfigLoads(w: World, config: Config, org: Org)
    ensures AllLoad(w, CIReference(config), org)
            <==> forall t :: "ci_source_id" in config && config["ci_source_id"] == Text(t) && !Blank(t) ==> !Blank(org) && IsCISource(w, t, org)
  {
    forall t ensures Ref(CISources, t) in CIReference(config)
                     <==> "ci_source_id" in config && config["ci_source_id"] == Text(t) && !Blank(t)
             ensures Loads(w, Ref(CISources, t), OrganizationScope(org)) <==> !Blank(org) && IsCISource(w, t, org)
    {
      ConfigRefs(config, t);
      LoadsByField(w, Ref(CISources, t), org);
    }
    forall r | r in CIReference(config) ensures r == Ref(CISources, r.id) { ConfigRefs(config, r.id); }
  }

  /** When the references of a schedule's target check out. */
  lemma TargetLoads(w: World, t: Target, org: Org)
    ensures AllLoad(w, TargetRefs(t), org)
            <==> && (t.connection == "" || (!Blank(org) && IsConnection(w, t.connection, org)))
                 && forall s :: PlansSource(t, s) ==> !Blank(org) && IsSource(w, s, org)
  {
    forall id ensures Ref(Connections, id) in TargetRefs(t) <==> id != "" && t.connection == id
              ensures Ref(Sources, id) in TargetRefs(t) <==> PlansSource(t, id)
              ensures Loads(w, Ref(Connections, id), OrganizationScope(org)) <==> !Blank(org) && IsConnection(w, id, org)
              ensures Loads(w, Ref(Sources, id), OrganizationScope(org)) <==> !Blank(org) && IsSource(w, id, org)
    {
      TargetRefsAre(t, id);
      LoadsByField(w, Ref(Connections, id), org);
      LoadsByField(w, Ref(Sources, id), org);
    }
    forall r | r in TargetRefs(t) ensures r == Ref(Connections, r.id) || r == Ref(Sources, r.id) {
      SourceRefsAre(Items(t), r);
    }
  }

  class Store {
    var w: World
    ghost var trace: seq<Label>

    ghost predicate Valid() reads this {
      w == Exec(EMPTY, trace)
    }

    constructor ()
      ensures Valid() && w == EMPTY
    {
      w, trace := EMPTY, [];
    }

    method Do(l: Label)
      requires Valid()
      modifies this
      ensures Valid() && w == Step(old(w), l)
    {
      w := Step(w, l);
      assert (trace + [l])[..|trace|] == trace;
      trace := trace + [l];
    }

    /** The connection, then every item's source; the first miss ends the search. */
    method TargetReferencesInOrganization(t: Target, org: Org) returns (ok: bool)
      ensures ok <==> AllLoad(w, TargetRefs(t), org)
    {
      var scope, items := OrganizationScope(org), Items(t);
      SourceRefsLoad(w, items, org);
      assert forall r :: r in TargetRefs(t) <==> (t.connection != "" && r == Ref(Connections, t.connection)) || r in SourceRefs(items);
      if t.connection != "" && !Loads(w, Ref(Connections, t.connection), scope) {
        return false;
      }
      for i := 0 to |items|
        invariant forall j :: 0 <= j < i && items[j].source != "" ==> Loads(w, Ref(Sources, items[j].source), scope)
      {
        if items[i].source != "" && !Loads(w, Ref(Sources, items[i].source), scope) {
          return false;
        }
      }
      return true;
    }

    /** The loads of handler p, one step each: all of them, or the first miss drops it. */
    method CheckAll(p: nat) returns (ok: bool)
      requires Valid() && p in w.pending && !w.pending[p].action.Dispatch? && w.pending[p].done == {}
      modifies this
      ensures Valid()
      ensures var q := old(w.pending[p]);
              && ok == AllLoad(old(w), q.todo, q.org)
              && w == if ok then Passed(old(w), p) else Drop(old(w), p)
    {
      ghost var was, q := w, w.pending[p];
      ghost var i := 0;
      NothingChecked(w, p);
      while w.pending[p].todo != []
        invariant Valid() && 0 <= i <= |q.todo| && w == Checked(was, p, i) && AllLoad(was, q.todo[..i], q.org)
        decreases |q.todo| - i
      {
        CheckAdvances(was, p, i);
        assert q.todo[..i + 1] == q.todo[..i] + [q.todo[i]];
        Do(Check(p));
        if p !in w.pending {
          assert q.todo[i] in q.todo;
          return false;
        }
        i := i + 1;
      }
      assert i == |q.todo| && q.todo[..i] == q.todo && q.todo[i..] == [];
      return true;
    }

    method CreateSchedule(p: nat, org: Org, target: Target, enabled: bool, id: Id) returns (ok: bool)
      requires Valid() && p !in w.pending && !Blank(org) && Fresh(w, id)
      modifies this
      ensures Valid()
      ensures ok == AllLoad(old(w), TargetRefs(target), org)
      ensures ok <==> (target.connection == "" || IsConnection(old(w), target.connection, org))
                      && forall s :: PlansSource(target, s) ==> IsSource(old(w), s, org)
      ensures w == if ok then AddRow(old(w), id, ScheduleRow(org, target, enabled)) else old(w)
    {
      ghost var a := Action.CreateSchedule(target, enabled);
      Do(BeginCreateSchedule(p, org, target, enabled));
      TargetLoads(old(w), target, org);
      PassedRest(old(w), p, org, TargetRefs(target), a);
      CreateCommits(old(w), p, org, TargetRefs(target), a, id);
      ok := CheckAll(p);
      if ok {
        Do(Commit(p, id));
      }
    }

    /** Checked against the organization of the row, whoever asks. */
    method UpdateSchedule(p: nat, sid: Id, target: Target, enabled: bool, scope: Scope) returns (ok: bool)
      requires Valid() && p !in w.pending
      modifies this
      ensures Valid()
      ensures ok == (Loads(old(w), Ref(Schedules, sid), scope)
                     && AllLoad(old(w), TargetRefs(target), old(w).rows[sid].org))
      ensures ok <==> && Loads(old(w), Ref(Schedules, sid), scope)
                      && var org := old(w).rows[sid].org;
                         (target.connection == "" || (!Blank(org) && IsConnection(old(w), target.connection, org)))
                         && forall s :: PlansSource(target, s) ==> !Blank(org) && IsSource(old(w), s, org)
      ensures w == if ok then Update(old(w), sid, old(w).rows[sid].(target := target, enabled := enabled)) else old(w)
    {
      Do(BeginUpdateSchedule(p, sid, target, enabled, scope));
      if p !in w.pending {
        return false;
      }
      ghost var a, org := Action.UpdateSchedule(sid, target, enabled, scope), old(w).rows[sid].org;
      TargetLoads(old(w), target, org);
      PassedRest(old(w), p, org, TargetRefs(target), a);
      UpdateCommits(old(w), p, org, TargetRefs(target), a, sid);
      ok := CheckAll(p);
      if ok {
        Do(Commit(p, sid));
      }
    }

    method CreatePipeline(p: nat, org: Org, config: Config, hasToken: bool, id: Id) returns (ok: bool)
      requires Valid() && p !in w.pending && !Blank(org) && Fresh(w, id)
      modifies this
      ensures Valid()
      ensures ok == AllLoad(old(w), CIReference(config), org)
      ensures ok <==> forall t :: "ci_source_id" in config && config["ci_source_id"] == Text(t) && !Blank(t) ==> IsCISource(old(w), t, org)
      ensures w == if ok then AddRow(old(w), id, ConnectionRow(org, config, hasToken)) else old(w)
    {
      ghost var a := CreateConnection(config, hasToken);
      Do(BeginCreateConnection(p, org, config, hasToken));
      ConfigLoads(old(w), config, org);
      PassedRest(old(w), p, org, CIReference(config), a);
      CreateCommits(old(w), p, org, CIReference(config), a, id);
      ok := CheckAll(p);
      if ok {
        Do(Commit(p, id));
      }
    }

    method UpdatePipeline(p: nat, cid: Id, config: Config, hasToken: bool, scope: Scope) returns (ok: bool)
      requires Valid() && p !in w.pending
      modifies this
      ensures Valid()
      ensures ok == (Loads(old(w), Ref(Connections, cid), scope)
                     && AllLoad(old(w), CIReference(config), old(w).rows[cid].org))
      ensures ok <==> && Loads(old(w), Ref(Connections, cid), scope)
                      && forall t :: "ci_source_id" in config && config["ci_source_id"] == Text(t) && !Blank(t) ==>
                           !Blank(old(w).rows[cid].org) && IsCISource(old(w), t, old(w).rows[cid].org)
      ensures w == if ok then Update(old(w), cid, old(w).rows[cid].(config := config, hasToken := hasToken || old(w).rows[cid].hasToken)) else old(w)
    {
      Do(BeginUpdateConnection(p, cid, config, hasToken, scope));
      if p !in w.pending {
        return false;
      }
      ghost var a, org := UpdateConnection(cid, config, hasToken, scope), old(w).rows[cid].org;
      ConfigLoads(old(w), config, org);
      PassedRest(old(w), p, org, CIReference(config), a);
      UpdateCommits(old(w), p, org, CIReference(config), a, cid);
      ok := CheckAll(p);
      if ok {
        Do(Commit(p, cid));
      }
    }
  }
}
