/** Group mappings and the reconciliation of one user's memberships at login. Organizations go
    by name; roles that an IdP may not grant are the ones refuses() holds of. */
module Membership {
  import opened Collections

  type Role = string
  type OrgName = string

  datatype Mapping = Mapping(group: string, org: OrgName, role: Role)

  type Members = map<OrgName, Role>

  datatype Resolution = Resolution(desired: map<OrgName, Role>, managed: set<OrgName>, matching: map<OrgName, seq<Role>>)

  // ---------------------------------------------------------------- resolving

  predicate Matches(groups: set<string>, m: Mapping, org: OrgName) {
    m.group in groups && m.org == org
  }

  /** The roles of the matching mappings of an organization, in list order. */
  function Candidates(groups: set<string>, ms: seq<Mapping>, org: OrgName): seq<Role> {
    if ms == [] then []
    else
      var last := ms[|ms| - 1];
      Candidates(groups, ms[..|ms| - 1], org) + if Matches(groups, last, org) then [last.role] else []
  }

  function Managed(ms: seq<Mapping>): set<OrgName> {
    set m | m in ms :: m.org
  }

  ghost predicate ResolvedAt(r: Resolution, roles: seq<Role>, org: OrgName) {
    && (org in r.matching <==> roles != []) && (org in r.desired <==> roles != [])
    && (roles != [] ==> r.matching[org] == roles && r.desired[org] == roles[0])
  }

  /** What a mapping list means for a user in these groups. */
  ghost predicate IsResolution(r: Resolution, groups: set<string>, ms: seq<Mapping>) {
    r.managed == Managed(ms) && forall org :: ResolvedAt(r, Candidates(groups, ms, org), org)
  }

  method ResolveGroupMappings(groups: seq<string>, ms: seq<Mapping>) returns (r: Resolution)
    ensures IsResolution(r, (set g | g in groups), ms)
  {
    var held := set g | g in groups;
    var desired: map<OrgName, Role>, managed: set<OrgName>, matching: map<OrgName, seq<Role>> := map[], {}, map[];
    for i := 0 to |ms|
      invariant IsResolution(Resolution(desired, managed, matching), held, ms[..i])
    {
      var m := ms[i];
      OneMoreMapping(Resolution(desired, managed, matching), held, ms[..i], m);
      assert ms[..i + 1] == ms[..i] + [m];
      managed := managed + {m.org};
      if m.group in held {
        if m.org !in desired {
          desired := desired[m.org := m.role];
        }
        matching := matching[m.org := (if m.org in matching then matching[m.org] else []) + [m.role]];
      }
    }
    assert ms[..|ms|] == ms;
    r := Resolution(desired, managed, matching);
  }

  function WithMatch(r: Resolution, m: Mapping): Resolution {
    Resolution(if m.org in r.desired then r.desired else r.desired[m.org := m.role], r.managed + {m.org},
               r.matching[m.org := (if m.org in r.matching then r.matching[m.org] else []) + [m.role]])
  }

  lemma MatchAt(r: Resolution, roles: seq<Role>, m: Mapping, org: OrgName)
    requires ResolvedAt(r, roles, org)
    ensures ResolvedAt(WithMatch(r, m), roles + if m.org == org then [m.role] else [], org)
  {
  }

  /** What one more mapping at the end of the list does to a resolution. */
  lemma OneMoreMapping(r: Resolution, groups: set<string>, ms: seq<Mapping>, m: Mapping)
    requires IsResolution(r, groups, ms)
    ensures IsResolution(if m.group in groups then WithMatch(r, m) else r.(managed := r.managed + {m.org}), groups, ms + [m])
  {
    var all := ms + [m];
    var q := if m.group in groups then WithMatch(r, m) else r.(managed := r.managed + {m.org});
    assert all[..|all| - 1] == ms && all[|all| - 1] == m;
    forall org ensures ResolvedAt(q, Candidates(groups, all, org), org) {
      assert ResolvedAt(r, Candidates(groups, ms, org), org);
      MatchAt(r, Candidates(groups, ms, org), m, org);
    }
    assert Managed(all) == r.managed + {m.org};
  }

  lemma {:induction false} CandidateRoles(groups: set<string>, ms: seq<Mapping>, org: OrgName, role: Role)
    ensures role in Candidates(groups, ms, org) <==> Mentions(groups, ms, org, role)
  {
    if ms != [] {
      var n := |ms| - 1;
      CandidateRoles(groups, ms[..n], org, role);
      assert ms == ms[..n] + [ms[n]];
      assert Mapping(ms[n].group, ms[n].org, ms[n].role) == ms[n];
      if Mentions(groups, ms, org, role) && !Mentions(groups, ms[..n], org, role) {
        var g :| g in groups && Mapping(g, org, role) in ms;
        assert Mapping(g, org, role) == ms[n];
      }
    }
  }

  ghost predicate Mentions(groups: set<string>, ms: seq<Mapping>, org: OrgName, role: Role) {
    exists g :: g in groups && Mapping(g, org, role) in ms
  }

  lemma {:induction false} CandidatesAppend(groups: set<string>, ms: seq<Mapping>, more: seq<Mapping>, org: OrgName)
    ensures Candidates(groups, ms + more, org) == Candidates(groups, ms, org) + Candidates(groups, more, org)
  {
    if more == [] {
      assert ms + more == ms;
    } else {
      var n := |more| - 1;
      assert (ms + more)[..|ms + more| - 1] == ms + more[..n];
      CandidatesAppend(groups, ms, more[..n], org);
    }
  }

  /** The first match decides: a mapping that matches, with no match before it, gives the role. */
  lemma FirstMatchWins(groups: set<string>, before: seq<Mapping>, m: Mapping, after: seq<Mapping>, r: Resolution)
    requires m.group in groups && Candidates(groups, before, m.org) == []
    requires IsResolution(r, groups, before + [m] + after)
    ensures m.org in r.desired && r.desired[m.org] == m.role
  {
    CandidatesAppend(groups, before, [m], m.org);
    CandidatesAppend(groups, before + [m], after, m.org);
    assert Candidates(groups, [m], m.org) == [m.role] by { assert [m][..0] == []; }
  }

  /** ...and every desired role comes from such a mapping. */
  lemma {:induction false} DesiredComesFromFirst(groups: set<string>, ms: seq<Mapping>, org: OrgName)
    requires Candidates(groups, ms, org) != []
    ensures exists i :: 0 <= i < |ms| && Matches(groups, ms[i], org) && Candidates(groups, ms[..i], org) == []
                        && ms[i].role == Candidates(groups, ms, org)[0]
  {
    var n := |ms| - 1;
    if Candidates(groups, ms[..n], org) != [] {
      DesiredComesFromFirst(groups, ms[..n], org);
      var i :| 0 <= i < n && Matches(groups, ms[..n][i], org) && Candidates(groups, ms[..n][..i], org) == []
               && ms[..n][i].role == Candidates(groups, ms[..n], org)[0];
      assert ms[..n][..i] == ms[..i];
    }
  }

  /** Appending mappings changes no role that was already desired. */
  lemma AppendingKeepsDesired(groups: set<string>, ms: seq<Mapping>, more: seq<Mapping>, r: Resolution, q: Resolution, org: OrgName)
    requires IsResolution(r, groups, ms) && IsResolution(q, groups, ms + more) && org in r.desired
    ensures org in q.desired && q.desired[org] == r.desired[org]
  {
    CandidatesAppend(groups, ms, more, org);
  }

  // ---------------------------------------------------------------- the administrator rule

  predicate AnyRefused(refuses: Role -> bool, roles: seq<Role>) {
    exists i :: 0 <= i < |roles| && refuses(roles[i])
  }

  /** The roles the guard asks about: every match, or the winner if none are listed. */
  function Asked(r: Resolution, org: OrgName): seq<Role>
    requires org in r.desired
  {
    if org in r.matching && r.matching[org] != [] then r.matching[org] else [r.desired[org]]
  }

  predicate Preserved(refuses: Role -> bool, r: Resolution, org: OrgName) {
    org in r.desired && AnyRefused(refuses, Asked(r, org))
  }

  /** An organization is left alone exactly when some matching mapping names a refused role. */
  lemma PreservedMeans(refuses: Role -> bool, groups: set<string>, ms: seq<Mapping>, r: Resolution, org: OrgName)
    requires IsResolution(r, groups, ms)
    ensures Preserved(refuses, r, org) <==> exists role :: refuses(role) && Mentions(groups, ms, org, role)
  {
    var roles := Candidates(groups, ms, org);
    forall role ensures role in roles <==> Mentions(groups, ms, org, role) { CandidateRoles(groups, ms, org, role); }
    if Preserved(refuses, r, org) {
      var i :| 0 <= i < |roles| && refuses(roles[i]);
      assert roles[i] in roles;
    }
    if role :| refuses(role) && Mentions(groups, ms, org, role) {
      var i :| 0 <= i < |roles| && roles[i] == role;
    }
  }

  /** Reordering the list changes neither the managed nor the preserved organizations. */
  lemma OrderDoesNotMatter(refuses: Role -> bool, groups: set<string>, ms: seq<Mapping>, ns: seq<Mapping>, r: Resolution, q: Resolution)
    requires multiset(ms) == multiset(ns) && IsResolution(r, groups, ms) && IsResolution(q, groups, ns)
    ensures r.managed == q.managed && r.desired.Keys == q.desired.Keys
    ensures forall org :: Preserved(refuses, r, org) <==> Preserved(refuses, q, org)
  {
    forall m ensures m in ms <==> m in ns { assert m in ms <==> m in multiset(ms); }
    forall org, role ensures Mentions(groups, ms, org, role) <==> Mentions(groups, ns, org, role) {}
    forall org ensures Preserved(refuses, r, org) <==> Preserved(refuses, q, org) {
      PreservedMeans(refuses, groups, ms, r, org);
      PreservedMeans(refuses, groups, ns, q, org);
    }
    forall org ensures org in r.desired <==> org in q.desired {
      DesiredMeans(groups, ms, r, org);
      DesiredMeans(groups, ns, q, org);
    }
  }

  lemma DesiredMeans(groups: set<string>, ms: seq<Mapping>, r: Resolution, org: OrgName)
    requires IsResolution(r, groups, ms)
    ensures org in r.desired <==> exists role :: Mentions(groups, ms, org, role)
  {
    var roles := Candidates(groups, ms, org);
    forall role ensures role in roles <==> Mentions(groups, ms, org, role) { CandidateRoles(groups, ms, org, role); }
    if roles != [] {
      assert Mentions(groups, ms, org, roles[0]);
    }
  }

  // ---------------------------------------------------------------- reconciling

  /** The organizations that exist, and the default one. */
  datatype Directory = Directory(names: set<OrgName>, default_: Option<OrgName>)

  /** Where the database fails: finding an organization by name, checking a membership, writing
      one. */
  datatype Faults = Faults(lookups: set<OrgName>, checks: set<OrgName>, writes: set<OrgName>)

  /** What the loop makes of one organization. */
  function Settled(m: Members, r: Resolution, d: Directory, refuses: Role -> bool, org: OrgName): Option<Role> {
    if org !in r.managed || org !in d.names then Find(m, org)
    else if org !in r.desired then None
    else if Preserved(refuses, r, org) then Find(m, org)
    else Some(r.desired[org])
  }

  predicate DefaultApplies(r: Resolution, d: Directory, defaultRole: Role) {
    r.desired == map[] && defaultRole != "" && d.default_.Some? && d.default_.value !in r.managed
  }

  /** The closed form: every organization by itself. */
  function Reconciled(m: Members, r: Resolution, d: Directory, refuses: Role -> bool, defaultRole: Role, org: OrgName): Option<Role> {
    if DefaultApplies(r, d, defaultRole) && org == d.default_.value && org !in m then Some(defaultRole)
    else Settled(m, r, d, refuses, org)
  }

  ghost predicate IsReconciled(after: Members, m: Members, r: Resolution, d: Directory, refuses: Role -> bool, defaultRole: Role) {
    forall org :: Find(after, org) == Reconciled(m, r, d, refuses, defaultRole, org)
  }

  /** ...except that the managed organizations whose lookup failed stay as they were. */
  ghost predicate IsReconciledBut(lookups: set<OrgName>, after: Members, m: Members, r: Resolution, d: Directory,
                                  refuses: Role -> bool, defaultRole: Role)
  {
    forall org :: Find(after, org) == if org in r.managed && org in lookups then Find(m, org)
                                      else Reconciled(m, r, d, refuses, defaultRole, org)
  }

  /** A failed lookup is skipped and the login still succeeds. What comes out is the closed form
      exactly when no failed lookup hits an organization that had to change. */
  lemma SkippedLookups(lookups: set<OrgName>, after: Members, m: Members, r: Resolution, d: Directory,
                       refuses: Role -> bool, defaultRole: Role)
    requires IsReconciledBut(lookups, after, m, r, d, refuses, defaultRole)
    ensures IsReconciled(after, m, r, d, refuses, defaultRole)
            <==> forall org :: org in r.managed && org in lookups ==> Settled(m, r, d, refuses, org) == Find(m, org)
  {
    forall org | org in r.managed ensures Reconciled(m, r, d, refuses, defaultRole, org) == Settled(m, r, d, refuses, org) {}
    if IsReconciled(after, m, r, d, refuses, defaultRole) {
      forall org | org in r.managed && org in lookups ensures Settled(m, r, d, refuses, org) == Find(m, org) {
        assert Find(after, org) == Reconciled(m, r, d, refuses, defaultRole, org);
      }
    } else {
      var org :| Find(after, org) != Reconciled(m, r, d, refuses, defaultRole, org);
      assert org in r.managed && org in lookups;
    }
  }

  class Memberships {
    var roles: Members

    /** One organization of the loop; false when the database failed. */
    method ReconcileOne(org: OrgName, r: Resolution, d: Directory, refuses: Role -> bool, faults: Faults) returns (ok: bool)
      requires org in r.managed
      modifies this
      ensures forall o :: o != org ==> Find(roles, o) == Find(old(roles), o)
      ensures Find(roles, org) == if ok && org !in faults.lookups then Settled(old(roles), r, d, refuses, org) else Find(old(roles), org)
      ensures ok || org in faults.checks + faults.writes
    {
      if org in faults.lookups || org !in d.names {
        return true;
      }
      if org in faults.checks {
        return false;
      }
      if org in r.desired {
        var asked := if org in r.matching && r.matching[org] != [] then r.matching[org] else [r.desired[org]];
        for i := 0 to |asked|
          invariant forall j :: 0 <= j < i ==> !refuses(asked[j])
        {
          if refuses(asked[i]) {
            return true;
          }
        }
        if org in faults.writes {
          return false;
        }
        roles := roles[org := r.desired[org]];
      } else if org in roles {
        if org in faults.writes {
          return false;
        }
        roles := roles - {org};
      }
      return true;
    }

    /** reconcileManagedMemberships: the managed organizations in whatever order the map yields,
        then the default role. On success the result is the closed form, whatever the order, but
        for the organizations whose lookup failed; otherwise every organization is either as it
        was or as the closed form wants it. */
    method ReconcileManagedMemberships(r: Resolution, d: Directory, refuses: Role -> bool, defaultRole: Role, faults: Faults)
      returns (ok: bool)
      modifies this
      ensures ok ==> IsReconciledBut(faults.lookups, roles, old(roles), r, d, refuses, defaultRole)
      ensures forall org :: Find(roles, org) == Find(old(roles), org)
                            || Find(roles, org) == Reconciled(old(roles), r, d, refuses, defaultRole, org)
      ensures faults.checks == {} && faults.writes == {} ==> (ok <==> !(r.desired == map[] && defaultRole != "" && d.default_.None?))
    {
      ghost var was := roles;
      var rest := r.managed;
      while rest != {}
        invariant rest <= r.managed
        invariant forall o :: o !in rest ==>
                    Find(roles, o) == if o in r.managed && o in faults.lookups then Find(was, o) else Settled(was, r, d, refuses, o)
        invariant forall o :: o in rest ==> Find(roles, o) == Find(was, o)
      {
        var org :| org in rest;
        ok := ReconcileOne(org, r, d, refuses, faults);
        SettledLocal(was, r, d, refuses, org);
        if !ok {
          return false;
        }
        rest := rest - {org};
      }
      if r.desired == map[] && defaultRole != "" {
        if d.default_.None? {
          return false;
        }
        var org := d.default_.value;
        if org in r.managed {
          return true;
        }
        if org in faults.checks {
          return false;
        }
        if org !in roles {
          if org in faults.writes {
            return false;
          }
          roles := roles[org := defaultRole];
        }
      }
      return true;
    }
  }

  lemma SettledLocal(m: Members, r: Resolution, d: Directory, refuses: Role -> bool, org: OrgName)
    ensures forall n: Members :: Find(n, org) == Find(m, org) ==> Settled(n, r, d, refuses, org) == Settled(m, r, d, refuses, org)
  {
  }

  /** Reconciling twice is reconciling once. */
  lemma Idempotent(m: Members, n: Members, o: Members, r: Resolution, d: Directory, refuses: Role -> bool, defaultRole: Role)
    requires IsReconciled(n, m, r, d, refuses, defaultRole) && IsReconciled(o, n, r, d, refuses, defaultRole)
    ensures o == n
  {
    forall org ensures Find(o, org) == Find(n, org) {
      assert Find(n, org) == Reconciled(m, r, d, refuses, defaultRole, org);
      assert Find(o, org) == Reconciled(n, r, d, refuses, defaultRole, org);
    }
    forall org ensures org in o <==> org in n
               ensures org in o && org in n ==> o[org] == n[org]
    {
      assert Find(o, org) == Find(n, org);
    }
  }

  /** The closed form has one value: iteration order cannot matter. */
  lemma OrderFree(m: Members, a: Members, b: Members, r: Resolution, d: Directory, refuses: Role -> bool, defaultRole: Role)
    requires IsReconciled(a, m, r, d, refuses, defaultRole) && IsReconciled(b, m, r, d, refuses, defaultRole)
    ensures a == b
  {
    forall org ensures org in a <==> org in b
               ensures org in a && org in b ==> a[org] == b[org]
    {
      assert Find(a, org) == Find(b, org);
    }
  }

  /** What a login leaves of one organization, in terms of the mapping list. One that no mapping
      names keeps what it had, and the default organization is joined when no mapping matches the
      user at all. One that some mapping names but nothing matches is left; one with a matching
      mapping of a refused role, or that does not exist, stays as it was; any other gets the role
      of its first match. */
  lemma WhatALoginChanges(m: Members, n: Members, groups: set<string>, ms: seq<Mapping>, r: Resolution, d: Directory,
                          refuses: Role -> bool, defaultRole: Role, org: OrgName)
    requires IsResolution(r, groups, ms) && IsReconciled(n, m, r, d, refuses, defaultRole)
    ensures (forall k :: k in ms ==> k.org != org) ==>
              (Find(n, org) == if defaultRole != "" && d.default_ == Some(org) && (forall k :: k in ms ==> k.group !in groups) && org !in m
                               then Some(defaultRole) else Find(m, org))
    ensures (exists k :: k in ms && k.org == org) && org !in d.names ==> Find(n, org) == Find(m, org)
    ensures (exists k :: k in ms && k.org == org && k.group in groups && refuses(k.role)) ==> Find(n, org) == Find(m, org)
    ensures (exists k :: k in ms && k.org == org) && org in d.names && (forall k :: k in ms && k.org == org ==> k.group !in groups) ==> org !in n
    ensures (org in d.names && (exists k :: k in ms && k.org == org && k.group in groups)
             && (forall k :: k in ms && k.org == org && k.group in groups ==> !refuses(k.role))) ==>
              exists i :: 0 <= i < |ms| && ms[i].org == org && ms[i].group in groups && Find(n, org) == Some(ms[i].role)
                          && forall j :: 0 <= j < i ==> ms[j].org != org || ms[j].group !in groups
  {
    assert Find(n, org) == Reconciled(m, r, d, refuses, defaultRole, org);
    PreservedMeans(refuses, groups, ms, r, org);
    MentionsMeans(groups, ms, org);
    DesiredMeans(groups, ms, r, org);
    NothingMatches(groups, ms, r);
    if org in r.desired {
      DesiredComesFromFirst(groups, ms, org);
      var i :| 0 <= i < |ms| && Matches(groups, ms[i], org) && Candidates(groups, ms[..i], org) == []
               && ms[i].role == Candidates(groups, ms, org)[0];
      forall j | 0 <= j < i ensures !Matches(groups, ms[j], org) {
        assert ms[..i][j] == ms[j];
        CandidateRoles(groups, ms[..i], org, ms[j].role);
        MentionsMeans(groups, ms[..i], org);
      }
    }
  }

  lemma MentionsMeans(groups: set<string>, ms: seq<Mapping>, org: OrgName)
    ensures forall k :: k in ms && Matches(groups, k, org) ==> Mentions(groups, ms, org, k.role)
    ensures forall role :: Mentions(groups, ms, org, role) ==> exists k :: k in ms && Matches(groups, k, org) && k.role == role
  {
    forall k | k in ms && Matches(groups, k, org) ensures Mentions(groups, ms, org, k.role) {
      assert Mapping(k.group, org, k.role) == k;
    }
    forall role | Mentions(groups, ms, org, role) ensures exists k :: k in ms && Matches(groups, k, org) && k.role == role {
      var g :| g in groups && Mapping(g, org, role) in ms;
      assert Matches(groups, Mapping(g, org, role), org);
    }
  }

  /** Nothing is desired exactly when no mapping is for a group of the user. */
  lemma NothingMatches(groups: set<string>, ms: seq<Mapping>, r: Resolution)
    requires IsResolution(r, groups, ms)
    ensures r.desired == map[] <==> forall k :: k in ms ==> k.group !in groups
  {
    forall k | k in ms && k.group in groups ensures k.org in r.desired {
      MentionsMeans(groups, ms, k.org);
      DesiredMeans(groups, ms, r, k.org);
      assert Matches(groups, k, k.org);
    }
    if org :| org in r.desired {
      DesiredMeans(groups, ms, r, org);
      MentionsMeans(groups, ms, org);
    }
    assert r.desired == map[] <==> forall org :: org !in r.desired;
  }
}
