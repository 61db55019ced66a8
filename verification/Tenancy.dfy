/** Tenant scopes, and the two ways a drift operation gets one: from the request, or derived
    from the row being processed. */
module Tenancy {
  import opened Names

  type Id = string
  type Org = string

  /** A platform administrator's scope, or the organizations a caller belongs to. */
  datatype Scope = Everywhere | Within(orgs: set<Org>)

  predicate Permits(scope: Scope, org: Org) {
    scope.Everywhere? || org in scope.orgs
  }

  /** organizationScope: exactly one organization, or nothing for a blank id. */
  function OrganizationScope(org: Org): Scope {
    if Blank(org) then Within({}) else Within({org})
  }

  /** SystemActingIn(...).Scope(). */
  function SystemScope(org: Org): Scope {
    if TrimSpace(org) == "" then Within({}) else Within({TrimSpace(org)})
  }

  /** Neither derivation ever yields more than one organization, and never a blank one. */
  lemma DerivedScopes(org: Org, o: Org)
    ensures Permits(OrganizationScope(org), o) <==> o == org && !Blank(o)
    ensures Permits(SystemScope(org), o) <==> o == TrimSpace(org) && !Blank(o)
  {
    if Permits(SystemScope(org), o) {
      assert !IsSpace(o[0]);
    }
  }
}
