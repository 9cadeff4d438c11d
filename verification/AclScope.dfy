/**
  The resource side of access control: which org units may read a document,
  from its owner, the grants on it, and the org tree's transitive closure.
*/
module AclScope {
  import opened Wrappers

  type UnitId = nat

  datatype AppliesTo = SelfOnly | SelfAndDescendants

  /** The permissions that let a principal read, and everything else. */
  datatype Permission = Read | Write | Admin | Other

  /** A grant on this document, or on an org unit whose documents it may cover. */
  datatype Resource = ThisDocument | Unit(unit: UnitId)

  /** Principals are org units; the table admits no other kind. */
  datatype Grant = Grant(
    resource: Resource, resourceApplies: AppliesTo,
    principal: UnitId, principalApplies: AppliesTo, permission: Permission, expiresAt: Option<int>)
  {
    predicate Reads(now: int) {
      && (permission.Read? || permission.Write? || permission.Admin?)
      && (expiresAt.None? || expiresAt.value > now)
    }
  }

  /** One row of `org_unit_closure`. */
  datatype Path = Path(ancestor: UnitId, descendant: UnitId, depth: nat)

  /** Everything the scope of one document depends on; `now` is when the query runs. */
  datatype DocAcl = DocAcl(owner: UnitId, grants: set<Grant>, closure: set<Path>, now: int)

  function SelfPrincipals(grants: set<Grant>): set<UnitId> {
    set g | g in grants && g.principalApplies.SelfOnly? :: g.principal
  }

  function SubtreePrincipals(grants: set<Grant>, closure: set<Path>): set<UnitId> {
    set g, c | g in grants && g.principalApplies.SelfAndDescendants? && c in closure && c.ancestor == g.principal
      :: c.descendant
  }

  function DocumentGrants(acl: DocAcl): set<Grant> {
    set g | g in acl.grants && g.Reads(acl.now) && g.resource.ThisDocument?
  }

  /** Grants on a unit above the owner, or on the owner itself. */
  function UnitGrants(acl: DocAcl): set<Grant> {
    set g, c | g in acl.grants && g.Reads(acl.now) && g.resource.Unit?
      && c in acl.closure && c.ancestor == g.resource.unit && c.descendant == acl.owner
      && (g.resourceApplies.SelfAndDescendants? || c.depth == 0)
      :: g
  }

  /** `fetch_access_scopes`: the union of the query's arms. */
  function FetchAccessScopes(acl: DocAcl): set<UnitId> {
    {acl.owner}
    + SelfPrincipals(DocumentGrants(acl))
    + SubtreePrincipals(DocumentGrants(acl), acl.closure)
    + SelfPrincipals(UnitGrants(acl))
    + SubtreePrincipals(UnitGrants(acl), acl.closure)
  }

  /** The grant is in force for this document. */
  ghost predicate Covers(acl: DocAcl, g: Grant) {
    && g in acl.grants && g.Reads(acl.now)
    && (g.resource.Unit? ==>
          exists c :: c in acl.closure && c.ancestor == g.resource.unit && c.descendant == acl.owner
            && (g.resourceApplies.SelfOnly? ==> c.depth == 0))
  }

  /** The unit is whom the grant names, or below it when the grant says so. */
  ghost predicate Names(acl: DocAcl, g: Grant, u: UnitId) {
    if g.principalApplies.SelfOnly? then u == g.principal
    else exists c :: c in acl.closure && c.ancestor == g.principal && c.descendant == u
  }

  /** Some grant in force for the document names the unit. */
  ghost predicate Granted(acl: DocAcl, u: UnitId) {
    exists g :: Covers(acl, g) && Names(acl, g, u)
  }

  /** A unit is in scope exactly when it owns the document or a covering grant names it. */
  lemma ScopeIsOwnerOrNamed(acl: DocAcl, u: UnitId)
    ensures u in FetchAccessScopes(acl) <==> u == acl.owner || Granted(acl, u)
  {
    if u in FetchAccessScopes(acl) && u != acl.owner {
      var g := Witness(acl, u);
      assert Covers(acl, g) && Names(acl, g, u);
    }
    forall g | Covers(acl, g) && Names(acl, g, u) ensures u in FetchAccessScopes(acl) {
      assert g in DocumentGrants(acl) || g in UnitGrants(acl);
    }
  }

  /** The query gives the same scope exactly when the same units but the owner are granted access. */
  lemma SameScopeIff(acl: DocAcl, acl': DocAcl)
    requires acl'.owner == acl.owner
    ensures FetchAccessScopes(acl') == FetchAccessScopes(acl)
            <==> forall u :: u != acl.owner ==> (Granted(acl', u) <==> Granted(acl, u))
  {
    forall u ensures u in FetchAccessScopes(acl) <==> u == acl.owner || Granted(acl, u) {
      ScopeIsOwnerOrNamed(acl, u);
    }
    forall u ensures u in FetchAccessScopes(acl') <==> u == acl.owner || Granted(acl', u) {
      ScopeIsOwnerOrNamed(acl', u);
    }
    if FetchAccessScopes(acl') != FetchAccessScopes(acl) {
      var u :| u in FetchAccessScopes(acl') <==> u !in FetchAccessScopes(acl);
      assert u != acl.owner && !(Granted(acl', u) <==> Granted(acl, u));
    }
  }

  lemma Witness(acl: DocAcl, u: UnitId) returns (g: Grant)
    requires u in FetchAccessScopes(acl) && u != acl.owner
    ensures Covers(acl, g) && Names(acl, g, u)
  {
    var grants := if u in SelfPrincipals(DocumentGrants(acl)) + SubtreePrincipals(DocumentGrants(acl), acl.closure)
                  then DocumentGrants(acl) else UnitGrants(acl);
    if u in SelfPrincipals(grants) {
      g :| g in grants && g.principalApplies.SelfOnly? && g.principal == u;
    } else {
      var c: Path;
      g, c :| g in grants && g.principalApplies.SelfAndDescendants? && c in acl.closure && c.ancestor == g.principal && c.descendant == u;
    }
  }
}
